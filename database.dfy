/**
 * The record store of `src/services/database.ts`: one sequence per
 * localStorage key, held by the class `Store`. Reading a key, changing the
 * array and writing it back is an update of that field; JSON and the storage
 * itself are not modelled. `crypto.randomUUID()` is the `newId` argument of
 * each create, promised not to be a key already in that table.
 *
 * The getters and analytics of the service only read: they are the pure
 * functions after the class.
 */
module Database {
  import opened Wrappers
  import opened Seqs
  import opened Records

  /** `room_${uuid.split('-')[0]}`: the room a new consultation gets. */
  function RoomIdFrom(uuid: string): (room: string)
    ensures |room| >= 5 && room[..5] == "room_"
    ensures room[5..] == FirstSegment(uuid)
  {
    "room_" + FirstSegment(uuid)
  }

  /** `s.split('-')[0]`: the text before the first '-', or all of `s` when it has none. */
  function FirstSegment(s: string): (r: string)
    ensures |r| <= |s| && r == s[..|r|]
    ensures '-' !in r
    ensures |r| < |s| ==> s[|r|] == '-'
  {
    if s == [] || s[0] == '-' then ""
    else [s[0]] + FirstSegment(s[1..])
  }

  class Store {
    var users: seq<User>
    var doctors: seq<Doctor>
    var patients: seq<Patient>
    var consultations: seq<Consultation>
    var prescriptions: seq<Prescription>
    var messages: seq<Message>
    var transactions: seq<Transaction>
    var healthMetrics: seq<HealthMetric>
    var userProfiles: seq<UserProfile>
    var priceNegotiations: seq<PriceNegotiation>

    /** The service over whatever the ten keys hold when the page loads. */
    constructor (users: seq<User>, doctors: seq<Doctor>, patients: seq<Patient>,
                 consultations: seq<Consultation>, prescriptions: seq<Prescription>,
                 messages: seq<Message>, transactions: seq<Transaction>,
                 healthMetrics: seq<HealthMetric>, userProfiles: seq<UserProfile>,
                 priceNegotiations: seq<PriceNegotiation>)
      ensures this.users == users && this.doctors == doctors && this.patients == patients
      ensures this.consultations == consultations && this.prescriptions == prescriptions
      ensures this.messages == messages && this.transactions == transactions
      ensures this.healthMetrics == healthMetrics && this.userProfiles == userProfiles
      ensures this.priceNegotiations == priceNegotiations
    {
      this.users := users;
      this.doctors := doctors;
      this.patients := patients;
      this.consultations := consultations;
      this.prescriptions := prescriptions;
      this.messages := messages;
      this.transactions := transactions;
      this.healthMetrics := healthMetrics;
      this.userProfiles := userProfiles;
      this.priceNegotiations := priceNegotiations;
    }

    // ----- users -----

    /** `users.register`: appends the user under a fresh id (the caller checks the e-mail). */
    method RegisterUser(u: User, newId: Id) returns (r: User)
      requires FreshKey(users, UserKey, newId)
      modifies this`users
      ensures r == u.(id := newId)
      ensures users == old(users) + [r]
    {
      r := u.(id := newId);
      users := users + [r];
    }

    // ----- doctors -----

    method CreateDoctor(d: Doctor, newId: Id) returns (r: Doctor)
      requires FreshKey(doctors, DoctorKey, newId)
      modifies this`doctors
      ensures r == d.(id := newId)
      ensures doctors == old(doctors) + [r]
    {
      r := d.(id := newId);
      doctors := doctors + [r];
    }

    method UpdateDoctor(id: Id, updates: DoctorPatch) returns (r: Option<Doctor>)
      modifies this`doctors
      ensures var i := KeyIndex(old(doctors), DoctorKey, id);
        if i == -1 then r == None && doctors == old(doctors)
        else r == Some(MergeDoctor(old(doctors)[i], updates)) && doctors == old(doctors)[i := r.value]
    {
      var i := KeyIndex(doctors, DoctorKey, id);
      if i == -1 {
        return None;
      }
      var updated := MergeDoctor(doctors[i], updates);
      doctors := doctors[i := updated];
      r := Some(updated);
    }

    method DeleteDoctor(id: Id) returns (removed: bool)
      modifies this`doctors
      ensures doctors == WithoutKey(old(doctors), DoctorKey, id)
      ensures removed <==> !FreshKey(old(doctors), DoctorKey, id)
    {
      WithoutKeyShrinks(doctors, DoctorKey, id);
      var filtered := WithoutKey(doctors, DoctorKey, id);
      removed := |filtered| < |doctors|;
      doctors := filtered;
    }

    /** `uploadLicenseDocument`: sets the licence of the first doctor with that id. */
    method UploadLicenseDocument(id: Id, documentUrl: string) returns (r: Option<Doctor>)
      modifies this`doctors
      ensures var i := KeyIndex(old(doctors), DoctorKey, id);
        if i == -1 then r == None && doctors == old(doctors)
        else r == Some(old(doctors)[i].(licenseDocument := Some(documentUrl))) && doctors == old(doctors)[i := r.value]
    {
      var i := KeyIndex(doctors, DoctorKey, id);
      if i == -1 {
        return None;
      }
      doctors := doctors[i := doctors[i].(licenseDocument := Some(documentUrl))];
      r := Some(doctors[i]);
    }

    /** `updateVerificationStatus`: an admin approves or rejects a doctor. */
    method UpdateVerificationStatus(id: Id, status: DoctorStatus) returns (r: Option<Doctor>)
      requires status != DoctorPending
      modifies this`doctors
      ensures var i := KeyIndex(old(doctors), DoctorKey, id);
        if i == -1 then r == None && doctors == old(doctors)
        else r == Some(old(doctors)[i].(status := status)) && doctors == old(doctors)[i := r.value]
    {
      var i := KeyIndex(doctors, DoctorKey, id);
      if i == -1 {
        return None;
      }
      doctors := doctors[i := doctors[i].(status := status)];
      r := Some(doctors[i]);
    }

    // ----- patients -----

    method CreatePatient(p: Patient, newId: Id) returns (r: Patient)
      requires FreshKey(patients, PatientKey, newId)
      modifies this`patients
      ensures r == p.(id := newId)
      ensures patients == old(patients) + [r]
    {
      r := p.(id := newId);
      patients := patients + [r];
    }

    method UpdatePatient(id: Id, updates: PatientPatch) returns (r: Option<Patient>)
      modifies this`patients
      ensures var i := KeyIndex(old(patients), PatientKey, id);
        if i == -1 then r == None && patients == old(patients)
        else r == Some(MergePatient(old(patients)[i], updates)) && patients == old(patients)[i := r.value]
    {
      var i := KeyIndex(patients, PatientKey, id);
      if i == -1 {
        return None;
      }
      var updated := MergePatient(patients[i], updates);
      patients := patients[i := updated];
      r := Some(updated);
    }

    method DeletePatient(id: Id) returns (removed: bool)
      modifies this`patients
      ensures patients == WithoutKey(old(patients), PatientKey, id)
      ensures removed <==> !FreshKey(old(patients), PatientKey, id)
    {
      WithoutKeyShrinks(patients, PatientKey, id);
      var filtered := WithoutKey(patients, PatientKey, id);
      removed := |filtered| < |patients|;
      patients := filtered;
    }

    // ----- consultations -----

    /** `consultations.create`: its own id and room override whatever the caller passed. */
    method CreateConsultation(c: Consultation, newId: Id, roomUuid: string) returns (r: Consultation)
      requires FreshKey(consultations, ConsultationKey, newId)
      modifies this`consultations
      ensures r == c.(id := newId, roomId := Some(RoomIdFrom(roomUuid)))
      ensures consultations == old(consultations) + [r]
    {
      r := c.(id := newId, roomId := Some(RoomIdFrom(roomUuid)));
      consultations := consultations + [r];
    }

    method UpdateConsultation(id: Id, updates: ConsultationPatch) returns (r: Option<Consultation>)
      modifies this`consultations
      ensures var i := KeyIndex(old(consultations), ConsultationKey, id);
        if i == -1 then r == None && consultations == old(consultations)
        else r == Some(MergeConsultation(old(consultations)[i], updates)) && consultations == old(consultations)[i := r.value]
    {
      var i := KeyIndex(consultations, ConsultationKey, id);
      if i == -1 {
        return None;
      }
      var updated := MergeConsultation(consultations[i], updates);
      consultations := consultations[i := updated];
      r := Some(updated);
    }

    method DeleteConsultation(id: Id) returns (removed: bool)
      modifies this`consultations
      ensures consultations == WithoutKey(old(consultations), ConsultationKey, id)
      ensures removed <==> !FreshKey(old(consultations), ConsultationKey, id)
    {
      WithoutKeyShrinks(consultations, ConsultationKey, id);
      var filtered := WithoutKey(consultations, ConsultationKey, id);
      removed := |filtered| < |consultations|;
      consultations := filtered;
    }

    method UpdateStatus(id: Id, status: ConsultationStatus) returns (r: Option<Consultation>)
      modifies this`consultations
      ensures var i := KeyIndex(old(consultations), ConsultationKey, id);
        if i == -1 then r == None && consultations == old(consultations)
        else r == Some(old(consultations)[i].(status := status)) && consultations == old(consultations)[i := r.value]
    {
      var i := KeyIndex(consultations, ConsultationKey, id);
      if i == -1 {
        return None;
      }
      consultations := consultations[i := consultations[i].(status := status)];
      r := Some(consultations[i]);
    }

    method UpdatePrice(id: Id, newPrice: real) returns (r: Option<Consultation>)
      modifies this`consultations
      ensures var i := KeyIndex(old(consultations), ConsultationKey, id);
        if i == -1 then r == None && consultations == old(consultations)
        else r == Some(old(consultations)[i].(price := newPrice)) && consultations == old(consultations)[i := r.value]
    {
      var i := KeyIndex(consultations, ConsultationKey, id);
      if i == -1 {
        return None;
      }
      consultations := consultations[i := consultations[i].(price := newPrice)];
      r := Some(consultations[i]);
    }

    // ----- prescriptions -----

    method CreatePrescription(p: Prescription, newId: Id) returns (r: Prescription)
      requires FreshKey(prescriptions, PrescriptionKey, Some(newId))
      modifies this`prescriptions
      ensures r == p.(id := Some(newId))
      ensures prescriptions == old(prescriptions) + [r]
    {
      r := p.(id := Some(newId));
      prescriptions := prescriptions + [r];
    }

    method UpdatePrescription(id: Id, updates: PrescriptionPatch) returns (r: Option<Prescription>)
      modifies this`prescriptions
      ensures var i := KeyIndex(old(prescriptions), PrescriptionKey, Some(id));
        if i == -1 then r == None && prescriptions == old(prescriptions)
        else r == Some(MergePrescription(old(prescriptions)[i], updates)) && prescriptions == old(prescriptions)[i := r.value]
    {
      var i := KeyIndex(prescriptions, PrescriptionKey, Some(id));
      if i == -1 {
        return None;
      }
      var updated := MergePrescription(prescriptions[i], updates);
      prescriptions := prescriptions[i := updated];
      r := Some(updated);
    }

    method DeletePrescription(id: Id) returns (removed: bool)
      modifies this`prescriptions
      ensures prescriptions == WithoutKey(old(prescriptions), PrescriptionKey, Some(id))
      ensures removed <==> !FreshKey(old(prescriptions), PrescriptionKey, Some(id))
    {
      WithoutKeyShrinks(prescriptions, PrescriptionKey, Some(id));
      var filtered := WithoutKey(prescriptions, PrescriptionKey, Some(id));
      removed := |filtered| < |prescriptions|;
      prescriptions := filtered;
    }

    // ----- messages -----

    method CreateMessage(m: Message, newId: Id) returns (r: Message)
      requires FreshKey(messages, MessageKey, newId)
      modifies this`messages
      ensures r == m.(id := newId)
      ensures messages == old(messages) + [r]
    {
      r := m.(id := newId);
      messages := messages + [r];
    }

    method UpdateMessage(id: Id, updates: MessagePatch) returns (r: Option<Message>)
      modifies this`messages
      ensures var i := KeyIndex(old(messages), MessageKey, id);
        if i == -1 then r == None && messages == old(messages)
        else r == Some(MergeMessage(old(messages)[i], updates)) && messages == old(messages)[i := r.value]
    {
      var i := KeyIndex(messages, MessageKey, id);
      if i == -1 {
        return None;
      }
      var updated := MergeMessage(messages[i], updates);
      messages := messages[i := updated];
      r := Some(updated);
    }

    method DeleteMessage(id: Id) returns (removed: bool)
      modifies this`messages
      ensures messages == WithoutKey(old(messages), MessageKey, id)
      ensures removed <==> !FreshKey(old(messages), MessageKey, id)
    {
      WithoutKeyShrinks(messages, MessageKey, id);
      var filtered := WithoutKey(messages, MessageKey, id);
      removed := |filtered| < |messages|;
      messages := filtered;
    }

    /** `markAsRead`: flags the first message with that id as read; false when there is none. */
    method MarkAsRead(messageId: Id) returns (found: bool)
      modifies this`messages
      ensures var i := KeyIndex(old(messages), MessageKey, messageId);
        found == (i != -1) && messages == (if i == -1 then old(messages) else MarkedRead(old(messages), i))
    {
      var i := KeyIndex(messages, MessageKey, messageId);
      if i == -1 {
        return false;
      }
      messages := MarkedRead(messages, i);
      found := true;
    }

    // ----- transactions -----

    method CreateTransaction(t: Transaction, newId: Id) returns (r: Transaction)
      requires FreshKey(transactions, TransactionKey, newId)
      modifies this`transactions
      ensures r == t.(id := newId)
      ensures transactions == old(transactions) + [r]
    {
      r := t.(id := newId);
      transactions := transactions + [r];
    }

    /** `addFunds`: a credit for the patient; the amount is not checked here. */
    method AddFunds(patientId: Id, amount: real, today: string, newId: Id) returns (r: Transaction)
      requires FreshKey(transactions, TransactionKey, newId)
      modifies this`transactions
      ensures r == Transaction(newId, Credit, amount, today, "Added funds via credit card", Some(patientId), None, None)
      ensures transactions == old(transactions) + [r]
    {
      r := CreateTransaction(Transaction("", Credit, amount, today, "Added funds via credit card", Some(patientId), None, None), newId);
    }

    /**
     * `payForConsultation`: a debit tied to the consultation. `doctorId` is
     * `None` when the caller leaves the argument out (JavaScript's `undefined`).
     */
    method PayForConsultation(patientId: Id, consultationId: Id, amount: real, doctorName: string,
                              doctorId: Option<Id>, today: string, newId: Id) returns (r: Transaction)
      requires FreshKey(transactions, TransactionKey, newId)
      modifies this`transactions
      ensures r == Transaction(newId, Debit, amount, today, PaymentDescription(doctorName),
                               Some(patientId), Some(consultationId), doctorId)
      ensures transactions == old(transactions) + [r]
    {
      r := CreateTransaction(Transaction("", Debit, amount, today, PaymentDescription(doctorName),
                                         Some(patientId), Some(consultationId), doctorId), newId);
    }

    // ----- health metrics -----

    method CreateHealthMetric(m: HealthMetric, newId: Id) returns (r: HealthMetric)
      requires FreshKey(healthMetrics, MetricKey, newId)
      modifies this`healthMetrics
      ensures r == m.(id := newId)
      ensures healthMetrics == old(healthMetrics) + [r]
    {
      r := m.(id := newId);
      healthMetrics := healthMetrics + [r];
    }

    method UpdateHealthMetric(id: Id, updates: HealthMetricPatch) returns (r: Option<HealthMetric>)
      modifies this`healthMetrics
      ensures var i := KeyIndex(old(healthMetrics), MetricKey, id);
        if i == -1 then r == None && healthMetrics == old(healthMetrics)
        else r == Some(MergeHealthMetric(old(healthMetrics)[i], updates)) && healthMetrics == old(healthMetrics)[i := r.value]
    {
      var i := KeyIndex(healthMetrics, MetricKey, id);
      if i == -1 {
        return None;
      }
      var updated := MergeHealthMetric(healthMetrics[i], updates);
      healthMetrics := healthMetrics[i := updated];
      r := Some(updated);
    }

    method DeleteHealthMetric(id: Id) returns (removed: bool)
      modifies this`healthMetrics
      ensures healthMetrics == WithoutKey(old(healthMetrics), MetricKey, id)
      ensures removed <==> !FreshKey(old(healthMetrics), MetricKey, id)
    {
      WithoutKeyShrinks(healthMetrics, MetricKey, id);
      var filtered := WithoutKey(healthMetrics, MetricKey, id);
      removed := |filtered| < |healthMetrics|;
      healthMetrics := filtered;
    }

    // ----- user profiles -----

    method CreateUserProfile(p: UserProfile, newId: Id) returns (r: UserProfile)
      requires FreshKey(userProfiles, ProfileKey, newId)
      modifies this`userProfiles
      ensures r == p.(id := newId)
      ensures userProfiles == old(userProfiles) + [r]
    {
      r := p.(id := newId);
      userProfiles := userProfiles + [r];
    }

    /**
     * `userProfiles.update` is an upsert keyed by `userId`: it merges into the
     * first profile of that user, or creates `{ userId, ...updates }` under a
     * fresh id when the user has none.
     */
    method UpdateUserProfile(userId: Id, updates: UserProfilePatch, newId: Id) returns (r: UserProfile)
      requires FreshKey(userProfiles, ProfileKey, newId)
      modifies this`userProfiles
      ensures var i := KeyIndex(old(userProfiles), ProfileUser, userId);
        if i == -1 then
          r == MergeUserProfile(BareProfile(userId), updates).(id := newId) && userProfiles == old(userProfiles) + [r]
        else
          r == MergeUserProfile(old(userProfiles)[i], updates) && userProfiles == old(userProfiles)[i := r]
    {
      var i := KeyIndex(userProfiles, ProfileUser, userId);
      if i == -1 {
        r := CreateUserProfile(MergeUserProfile(BareProfile(userId), updates), newId);
        return;
      }
      r := MergeUserProfile(userProfiles[i], updates);
      userProfiles := userProfiles[i := r];
    }

    // ----- price negotiations -----

    method CreatePriceNegotiation(n: PriceNegotiation, newId: Id) returns (r: PriceNegotiation)
      requires FreshKey(priceNegotiations, NegotiationKey, newId)
      modifies this`priceNegotiations
      ensures r == n.(id := newId)
      ensures priceNegotiations == old(priceNegotiations) + [r]
    {
      r := n.(id := newId);
      priceNegotiations := priceNegotiations + [r];
    }

    /** `priceNegotiations.update`: accepts or rejects a proposal; only its status changes. */
    method UpdatePriceNegotiation(id: Id, status: NegotiationStatus) returns (r: Option<PriceNegotiation>)
      requires status != NegotiationPending
      modifies this`priceNegotiations
      ensures var i := KeyIndex(old(priceNegotiations), NegotiationKey, id);
        if i == -1 then r == None && priceNegotiations == old(priceNegotiations)
        else r == Some(old(priceNegotiations)[i].(status := status)) && priceNegotiations == old(priceNegotiations)[i := r.value]
    {
      var i := KeyIndex(priceNegotiations, NegotiationKey, id);
      if i == -1 {
        return None;
      }
      priceNegotiations := priceNegotiations[i := priceNegotiations[i].(status := status)];
      r := Some(priceNegotiations[i]);
    }
  }

  /** The description `payForConsultation` writes. */
  function PaymentDescription(doctorName: string): string
  {
    "Payment for Dr. " + doctorName + " consultation"
  }

  /** `messages[i].isRead = true`. */
  function MarkedRead(ms: seq<Message>, i: nat): (r: seq<Message>)
    requires i < |ms|
    ensures |r| == |ms| && r[i].isRead
    ensures r[i] == ms[i].(isRead := true)
    ensures forall j :: 0 <= j < |ms| && j != i ==> r[j] == ms[j]
  {
    ms[i := ms[i].(isRead := true)]
  }

  // ---------------------------------------------------------------------
  // Getters.

  /** `users.login`: the first user whose e-mail and password both match. */
  function LoginMatch(users: seq<User>, email: string, password: string): (r: Option<User>)
    ensures r.Some? ==> r.value in users && r.value.email == email && r.value.password == password
    ensures r.None? <==> forall j :: 0 <= j < |users| ==> users[j].email != email || users[j].password != password
    ensures r.Some? ==>
      exists i :: 0 <= i < |users| && users[i] == r.value &&
        forall j :: 0 <= j < i ==> users[j].email != email || users[j].password != password
  {
    Find(users, (u: User) => u.email == email && u.password == password)
  }

  /** `users.getByEmail`. */
  function UserByEmail(users: seq<User>, email: string): (r: Option<User>)
    ensures r.Some? ==> r.value in users && r.value.email == email
    ensures r.None? <==> forall j :: 0 <= j < |users| ==> users[j].email != email
    ensures r.Some? ==>
      exists i :: 0 <= i < |users| && users[i] == r.value &&
        forall j :: 0 <= j < i ==> users[j].email != email
  {
    Find(users, (u: User) => u.email == email)
  }

  /** `doctors.getByStatus`; `getPendingVerifications` is the `DoctorPending` case. */
  function DoctorsByStatus(ds: seq<Doctor>, status: DoctorStatus): (r: seq<Doctor>)
    ensures forall j :: 0 <= j < |r| ==> r[j].status == status && r[j] in ds
    ensures forall j :: 0 <= j < |ds| && ds[j].status == status ==> ds[j] in r
  {
    Filter(ds, (d: Doctor) => d.status == status)
  }

  /** `consultations.getByDoctorId`. */
  function ConsultationsByDoctor(cs: seq<Consultation>, doctorId: Id): (r: seq<Consultation>)
    ensures forall j :: 0 <= j < |r| ==> r[j].doctorId == doctorId && r[j] in cs
    ensures forall j :: 0 <= j < |cs| && cs[j].doctorId == doctorId ==> cs[j] in r
  {
    Filter(cs, (c: Consultation) => c.doctorId == doctorId)
  }

  /** `consultations.getByPatientId`. */
  function ConsultationsByPatient(cs: seq<Consultation>, patientId: Id): (r: seq<Consultation>)
    ensures forall j :: 0 <= j < |r| ==> r[j].patientId == patientId && r[j] in cs
    ensures forall j :: 0 <= j < |cs| && cs[j].patientId == patientId ==> cs[j] in r
  {
    Filter(cs, (c: Consultation) => c.patientId == patientId)
  }

  /** `consultations.getByStatus`. */
  function ConsultationsByStatus(cs: seq<Consultation>, status: ConsultationStatus): (r: seq<Consultation>)
    ensures forall j :: 0 <= j < |r| ==> r[j].status == status && r[j] in cs
    ensures forall j :: 0 <= j < |cs| && cs[j].status == status ==> cs[j] in r
  {
    Filter(cs, (c: Consultation) => c.status == status)
  }

  /** `getDoctorConsultations`: the doctor's consultations, narrowed to one status when one is given. */
  function DoctorConsultations(cs: seq<Consultation>, doctorId: Id, status: Option<ConsultationStatus>): (r: seq<Consultation>)
    ensures forall j :: 0 <= j < |r| ==> r[j] in cs && r[j].doctorId == doctorId && (status.Some? ==> r[j].status == status.value)
    ensures forall j :: 0 <= j < |cs| && cs[j].doctorId == doctorId && (status.Some? ==> cs[j].status == status.value) ==> cs[j] in r
  {
    if status.Some? then Filter(cs, (c: Consultation) => c.doctorId == doctorId && c.status == status.value)
    else Filter(cs, (c: Consultation) => c.doctorId == doctorId)
  }

  /** `prescriptions.getByPatientId`. */
  function PrescriptionsByPatient(ps: seq<Prescription>, patientId: Id): (r: seq<Prescription>)
    ensures forall j :: 0 <= j < |r| ==> r[j].patientId == patientId && r[j] in ps
    ensures forall j :: 0 <= j < |ps| && ps[j].patientId == patientId ==> ps[j] in r
  {
    Filter(ps, (p: Prescription) => p.patientId == patientId)
  }

  /** `prescriptions.getByConsultationId`: the first prescription of the consultation. */
  function PrescriptionOf(ps: seq<Prescription>, consultationId: Id): (r: Option<Prescription>)
    ensures r.Some? ==> r.value in ps && r.value.consultationId == consultationId
    ensures r.None? <==> forall j :: 0 <= j < |ps| ==> ps[j].consultationId != consultationId
    ensures r.Some? ==>
      exists i :: 0 <= i < |ps| && ps[i] == r.value &&
        forall j :: 0 <= j < i ==> ps[j].consultationId != consultationId
  {
    Find(ps, (p: Prescription) => p.consultationId == consultationId)
  }

  function MessageTime(m: Message): int { m.timestamp }

  /**
   * `messages.getByConsultationId`: exactly the consultation's messages, each
   * as often as stored, oldest first.
   */
  function ConsultationMessages(ms: seq<Message>, consultationId: Id): (r: seq<Message>)
    ensures forall j :: 0 <= j < |r| ==> r[j].consultationId == consultationId && r[j] in ms
    ensures forall j :: 0 <= j < |ms| && ms[j].consultationId == consultationId ==> ms[j] in r
    ensures forall i, j :: 0 <= i < j < |r| ==> r[i].timestamp <= r[j].timestamp
    ensures multiset(r) == multiset(Filter(ms, (m: Message) => m.consultationId == consultationId))
  {
    SortedFilter(ms, (m: Message) => m.consultationId == consultationId, MessageTime)
  }

  /** `messages.getUnreadCount`: messages from anyone else that are still unread. */
  function UnreadCount(ms: seq<Message>, userId: Id): (n: nat)
    ensures n <= |ms|
    ensures n == 0 <==> forall j :: 0 <= j < |ms| ==> ms[j].senderId == userId || ms[j].isRead
  {
    var unread := (m: Message) => m.senderId != userId && !m.isRead;
    assert |Filter(ms, unread)| > 0 ==> Filter(ms, unread)[0] in ms;
    Count(ms, unread)
  }

  /** `transactions.getByPatientId`. */
  function TransactionsByPatient(ts: seq<Transaction>, patientId: Id): (r: seq<Transaction>)
    ensures forall j :: 0 <= j < |r| ==> r[j].patientId == Some(patientId) && r[j] in ts
    ensures forall j :: 0 <= j < |ts| && ts[j].patientId == Some(patientId) ==> ts[j] in r
  {
    Filter(ts, (t: Transaction) => t.patientId == Some(patientId))
  }

  /** `transactions.getByDoctorId`: a transaction without a doctor matches no doctor. */
  function TransactionsByDoctor(ts: seq<Transaction>, doctorId: Id): (r: seq<Transaction>)
    ensures forall j :: 0 <= j < |r| ==> r[j].doctorId == Some(doctorId) && r[j] in ts
    ensures forall j :: 0 <= j < |ts| && ts[j].doctorId == Some(doctorId) ==> ts[j] in r
  {
    Filter(ts, (t: Transaction) => t.doctorId == Some(doctorId))
  }

  /** `healthMetrics.getByPatientId`. */
  function MetricsByPatient(hs: seq<HealthMetric>, patientId: Id): (r: seq<HealthMetric>)
    ensures forall j :: 0 <= j < |r| ==> r[j].patientId == patientId && r[j] in hs
    ensures forall j :: 0 <= j < |hs| && hs[j].patientId == patientId ==> hs[j] in r
  {
    Filter(hs, (h: HealthMetric) => h.patientId == patientId)
  }

  function MetricDate(h: HealthMetric): int { h.date }

  /** `healthMetrics.getByType`: one patient's readings of one kind, oldest first. */
  function MetricsByType(hs: seq<HealthMetric>, patientId: Id, metricType: string): (r: seq<HealthMetric>)
    ensures forall j :: 0 <= j < |r| ==> r[j].patientId == patientId && r[j].metricType == metricType && r[j] in hs
    ensures forall j :: 0 <= j < |hs| && hs[j].patientId == patientId && hs[j].metricType == metricType ==> hs[j] in r
    ensures forall i, j :: 0 <= i < j < |r| ==> r[i].date <= r[j].date
    ensures multiset(r) == multiset(Filter(hs, (h: HealthMetric) => h.patientId == patientId && h.metricType == metricType))
  {
    SortedFilter(hs, (h: HealthMetric) => h.patientId == patientId && h.metricType == metricType, MetricDate)
  }

  /** `userProfiles.getById`, which looks the profile up by its user. */
  function ProfileOf(ps: seq<UserProfile>, userId: Id): (r: Option<UserProfile>)
    ensures r.Some? ==> r.value in ps && r.value.userId == userId
    ensures r.None? <==> forall j :: 0 <= j < |ps| ==> ps[j].userId != userId
    ensures r.Some? ==>
      exists i :: 0 <= i < |ps| && ps[i] == r.value &&
        forall j :: 0 <= j < i ==> ps[j].userId != userId
  {
    Find(ps, (p: UserProfile) => p.userId == userId)
  }

  /** The comparator `b - a` sorts newest first: ascending on the negated time. */
  function NegatedTime(n: PriceNegotiation): int { -n.timestamp }

  /** `priceNegotiations.getByConsultationId`: the consultation's proposals, newest first. */
  function ConsultationNegotiations(ns: seq<PriceNegotiation>, consultationId: Id): (r: seq<PriceNegotiation>)
    ensures forall j :: 0 <= j < |r| ==> r[j].consultationId == consultationId && r[j] in ns
    ensures forall j :: 0 <= j < |ns| && ns[j].consultationId == consultationId ==> ns[j] in r
    ensures forall i, j :: 0 <= i < j < |r| ==> r[i].timestamp >= r[j].timestamp
    ensures multiset(r) == multiset(Filter(ns, (n: PriceNegotiation) => n.consultationId == consultationId))
  {
    var r := SortedFilter(ns, (n: PriceNegotiation) => n.consultationId == consultationId, NegatedTime);
    assert forall i, j :: 0 <= i < j < |r| ==> NegatedTime(r[i]) <= NegatedTime(r[j]);
    r
  }

  // ---------------------------------------------------------------------
  // Lemmas relating the store's operations.

  /** Reading back a record right after creating it returns that record. */
  lemma CreatedConsultationIsFound(cs: seq<Consultation>, c: Consultation, newId: Id, roomUuid: string)
    requires FreshKey(cs, ConsultationKey, newId)
    ensures var r := c.(id := newId, roomId := Some(RoomIdFrom(roomUuid)));
      GetByKey(cs + [r], ConsultationKey, newId) == Some(r) && r.roomId.value[..5] == "room_"
  {
    var r := c.(id := newId, roomId := Some(RoomIdFrom(roomUuid)));
    GetAppendedFresh(cs, ConsultationKey, r);
  }

  /** Creating a consultation leaves every existing one where a look-up by its id finds it. */
  lemma CreateKeepsExisting(cs: seq<Consultation>, r: Consultation)
    ensures forall k :: 0 <= k < |cs| ==> GetByKey(cs + [r], ConsultationKey, cs[k].id) == GetByKey(cs, ConsultationKey, cs[k].id)
  {
    forall k | 0 <= k < |cs|
      ensures GetByKey(cs + [r], ConsultationKey, cs[k].id) == GetByKey(cs, ConsultationKey, cs[k].id)
    {
      assert ConsultationKey(cs[k]) == cs[k].id;
      KeyIndexAppend(cs, [r], ConsultationKey, cs[k].id);
    }
  }

  /** Marking message i read lowers the unread count by one exactly when it was counted, else keeps it. */
  lemma {:induction false} MarkReadLowersUnread(ms: seq<Message>, i: nat, userId: Id)
    requires i < |ms|
    ensures UnreadCount(MarkedRead(ms, i), userId)
      == UnreadCount(ms, userId) - (if ms[i].senderId != userId && !ms[i].isRead then 1 else 0)
  {
    var p := (m: Message) => m.senderId != userId && !m.isRead;
    var ms' := MarkedRead(ms, i);
    assert ms == ms[..i] + [ms[i]] + ms[i + 1..];
    assert ms' == ms[..i] + [ms'[i]] + ms[i + 1..];
    FilterAppend(ms[..i] + [ms[i]], ms[i + 1..], p);
    FilterAppend(ms[..i], [ms[i]], p);
    FilterAppend(ms[..i] + [ms'[i]], ms[i + 1..], p);
    FilterAppend(ms[..i], [ms'[i]], p);
    assert Filter([ms'[i]], p) == [];
  }

  /** Messages of one consultation with the same timestamp are listed in the order they were stored. */
  lemma ConsultationMessagesStable(ms: seq<Message>, consultationId: Id, t: int)
    ensures Filter(ConsultationMessages(ms, consultationId), KeyIs(MessageTime, t))
      == Filter(Filter(ms, (m: Message) => m.consultationId == consultationId), KeyIs(MessageTime, t))
  {
    SortByStable(Filter(ms, (m: Message) => m.consultationId == consultationId), MessageTime, t);
  }
}
