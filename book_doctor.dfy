/**
 * `src/pages/BookDoctorPage.tsx`: the booking wizard's state and its
 * confirm step, which writes a consultation, a debit and a payment update
 * to the store, in that order.
 *
 * The calendar's `Date` is held already formatted as "MMM d, yyyy" (a
 * `Date` object is always truthy, so only its absence is checked).
 */
module BookDoctor {
  import opened Wrappers
  import opened Seqs
  import opened Records
  import opened Database

  /** The doctors the page offers: the approved ones. */
  function ApprovedDoctors(ds: seq<Doctor>): (r: seq<Doctor>)
    ensures forall j :: 0 <= j < |r| ==> r[j].status == Approved && r[j] in ds
    ensures forall j :: 0 <= j < |ds| && ds[j].status == Approved ==> ds[j] in r
  {
    DoctorsByStatus(ds, Approved)
  }

  /** The platform fee: the patient pays the doctor's price plus 5%. */
  function TotalPrice(price: real): (total: real)
    ensures total - price == price / 20.0
  {
    price * 1.05
  }

  /** The record the confirm step passes to `consultations.create`. */
  function BookingRequest(doctor: Doctor, patientId: Id, patientName: string, date: string,
                          time: string, kind: ConsultationType): (c: Consultation)
    ensures c.status == Pending && c.paymentStatus == PaymentPending
    ensures c.doctorId == doctor.id && c.doctorName == doctor.name && c.doctorSpecialty == doctor.specialty
    ensures c.patientId == patientId && c.patientName == patientName
    ensures c.price == doctor.price && c.date == date && c.time == time && c.consultationType == kind
    ensures c.symptoms == Some("") && c.notes == None
  {
    Consultation("", doctor.id, patientId, doctor.name, doctor.specialty, patientName, Pending,
      date, time, kind, doctor.price, Some(""), None, PaymentPending, None)
  }

  datatype BookingOutcome =
    | MissingInformation
    | PatientNotFound
    | Booked(consultation: Consultation, payment: Transaction)

  class BookingPage {
    const db: Store
    /** The signed-in patient's id, from the auth hook. */
    const patientId: Option<Id>
    var doctors: seq<Doctor>
    var selectedDoctor: Option<Doctor>
    var date: Option<string>
    var time: Option<string>
    var consultationType: ConsultationType
    var bookingStep: int
    var isSearching: bool
    var isConfirmed: bool
    var showConfirmation: bool

    /** The first render: today's date, no time, a video call, step 1. */
    constructor (db: Store, patientId: Option<Id>, today: string)
      ensures this.db == db && this.patientId == patientId
      ensures doctors == [] && selectedDoctor == None && date == Some(today) && time == None
      ensures consultationType == Video && bookingStep == 1
      ensures !isSearching && !isConfirmed && !showConfirmation
    {
      this.db := db;
      this.patientId := patientId;
      doctors := [];
      selectedDoctor := None;
      date := Some(today);
      time := None;
      consultationType := Video;
      bookingStep := 1;
      isSearching := false;
      isConfirmed := false;
      showConfirmation := false;
    }

    /**
     * `fetchDoctors`: lists the approved doctors and, when the URL names
     * one of them, selects it; a doctor that is not approved is never selected.
     */
    method FetchDoctors(doctorIdParam: Option<string>)
      modifies this`doctors, this`selectedDoctor
      ensures doctors == ApprovedDoctors(db.doctors)
      ensures var found := if Present(doctorIdParam) then Find(doctors, (d: Doctor) => d.id == doctorIdParam.value) else None;
        selectedDoctor == (if found.Some? then found else old(selectedDoctor))
      ensures selectedDoctor != old(selectedDoctor) ==>
        selectedDoctor.Some? && selectedDoctor.value.status == Approved && selectedDoctor.value in db.doctors
    {
      doctors := ApprovedDoctors(db.doctors);
      if Present(doctorIdParam) {
        var doctor := Find(doctors, (d: Doctor) => d.id == doctorIdParam.value);
        if doctor.Some? {
          selectedDoctor := doctor;
        }
      }
    }

    /** `handleSearch`: without a date and a time nothing moves; otherwise the search starts at step 2. */
    method HandleSearch() returns (accepted: bool)
      modifies this`isSearching, this`bookingStep
      ensures accepted <==> date.Some? && Present(time)
      ensures accepted ==> isSearching && bookingStep == 2
      ensures !accepted ==> isSearching == old(isSearching) && bookingStep == old(bookingStep)
    {
      if date.None? || !Present(time) {
        return false;
      }
      isSearching := true;
      bookingStep := 2;
      accepted := true;
    }

    /** `handleSelectDoctor`: picks the doctor and moves to the confirm step. */
    method HandleSelectDoctor(doctor: Doctor)
      modifies this`selectedDoctor, this`bookingStep
      ensures selectedDoctor == Some(doctor) && bookingStep == 3
    {
      selectedDoctor := Some(doctor);
      bookingStep := 3;
    }

    /** Everything the confirm step needs is filled in. */
    predicate Ready()
      reads this
    {
      selectedDoctor.Some? && Present(patientId) && date.Some? && Present(time)
    }

    /**
     * `handleConfirm`. Missing information or an unknown patient writes
     * nothing. Otherwise: one pending consultation at the doctor's price,
     * then one debit of price × 1.05 linked to it with no doctor id (the
     * call leaves that argument out), then the consultation is marked paid.
     * `consultationId`, `roomUuid` and `transactionId` are the ids
     * `crypto.randomUUID()` yields; `today` is the formatted current date.
     */
    method HandleConfirm(consultationId: Id, roomUuid: string, transactionId: Id, today: string)
      returns (outcome: BookingOutcome)
      requires FreshKey(db.consultations, ConsultationKey, consultationId)
      requires FreshKey(db.transactions, TransactionKey, transactionId)
      modifies db`consultations, db`transactions, this`isConfirmed, this`showConfirmation
      ensures outcome.MissingInformation? <==> !Ready()
      ensures outcome.PatientNotFound? <==> Ready() && GetByKey(db.patients, PatientKey, patientId.value).None?
      ensures !outcome.Booked? ==>
        db.consultations == old(db.consultations) && db.transactions == old(db.transactions)
        && isConfirmed == old(isConfirmed) && showConfirmation == old(showConfirmation)
      ensures outcome.Booked? ==>
        var doctor := selectedDoctor.value;
        var patient := GetByKey(db.patients, PatientKey, patientId.value).value;
        var c := outcome.consultation;
        && c == BookingRequest(doctor, patientId.value, patient.name, date.value, time.value, consultationType)
                  .(id := consultationId, roomId := Some(RoomIdFrom(roomUuid)), paymentStatus := PaymentCompleted)
        && db.consultations == old(db.consultations) + [c]
        && outcome.payment == Transaction(transactionId, Debit, TotalPrice(doctor.price), today,
             PaymentDescription(doctor.name), Some(patientId.value), Some(consultationId), None)
        && db.transactions == old(db.transactions) + [outcome.payment]
        && isConfirmed && showConfirmation
    {
      if selectedDoctor.None? || !Present(patientId) || date.None? || !Present(time) {
        return MissingInformation;
      }
      var pid := patientId.value;
      var patient := GetByKey(db.patients, PatientKey, pid);
      if patient.None? {
        return PatientNotFound;
      }
      var doctor := selectedDoctor.value;
      var request := BookingRequest(doctor, pid, patient.value.name, date.value, time.value, consultationType);
      var c, payment := WriteBooking(request, TotalPrice(doctor.price), doctor.name, consultationId, roomUuid, transactionId, today);
      isConfirmed := true;
      showConfirmation := true;
      outcome := Booked(c, payment);
    }

    /**
     * The three writes of a confirmed booking, in order: create the
     * consultation, debit the patient `total` for it (with no doctor id),
     * and mark the consultation's payment completed.
     */
    method WriteBooking(request: Consultation, total: real, doctorName: string, consultationId: Id,
                        roomUuid: string, transactionId: Id, today: string)
      returns (c: Consultation, payment: Transaction)
      requires FreshKey(db.consultations, ConsultationKey, consultationId)
      requires FreshKey(db.transactions, TransactionKey, transactionId)
      modifies db`consultations, db`transactions
      ensures c == request.(id := consultationId, roomId := Some(RoomIdFrom(roomUuid)), paymentStatus := PaymentCompleted)
      ensures db.consultations == old(db.consultations) + [c]
      ensures payment == Transaction(transactionId, Debit, total, today, PaymentDescription(doctorName),
                                     Some(request.patientId), Some(consultationId), None)
      ensures db.transactions == old(db.transactions) + [payment]
    {
      var created := db.CreateConsultation(request, consultationId, roomUuid);
      payment := db.PayForConsultation(request.patientId, created.id, total, doctorName, None, today, transactionId);
      MarkPaidAfterCreate(old(db.consultations), created);
      var paid := db.UpdateConsultation(created.id, NoConsultationChange.(paymentStatus := Some(PaymentCompleted)));
      c := paid.value;
    }
  }

  /**
   * The update that follows a create reaches the record just created, which
   * is the last one, and changes only its payment status.
   */
  lemma MarkPaidAfterCreate(cs: seq<Consultation>, created: Consultation)
    requires FreshKey(cs, ConsultationKey, created.id)
    ensures var i := KeyIndex(cs + [created], ConsultationKey, created.id);
      && i == |cs|
      && MergeConsultation((cs + [created])[i], NoConsultationChange.(paymentStatus := Some(PaymentCompleted)))
           == created.(paymentStatus := PaymentCompleted)
      && (cs + [created])[i := created.(paymentStatus := PaymentCompleted)] == cs + [created.(paymentStatus := PaymentCompleted)]
  {
    GetAppendedFresh(cs, ConsultationKey, created);
  }
}
