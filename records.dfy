/**
 * The record shapes of the telehealth store (one per localStorage key), and
 * for each record type that the store updates with `{...old, ...updates}`,
 * the `Partial<>` patch and the merge that spread performs.
 *
 * Numbers are `real` (money stays exact); timestamps the source compares
 * through `new Date(...)` are `int`; display strings stay strings.
 */
module Records {
  import opened Wrappers

  type Id = string

  datatype DoctorStatus = DoctorPending | Approved | Rejected
  datatype PatientStatus = Active | Inactive
  datatype UserType = PatientUser | DoctorUser | AdminUser
  datatype ConsultationStatus = Pending | Upcoming | Completed | Cancelled | Negotiating
  datatype ConsultationType = Video | Audio | Chat
  datatype PaymentStatus = PaymentPending | PaymentCompleted
  datatype SenderType = SenderDoctor | SenderPatient
  datatype TransactionType = Credit | Debit
  datatype NegotiationStatus = NegotiationPending | Accepted | NegotiationRejected

  datatype Doctor = Doctor(
    id: Id, name: string, specialty: string, avatar: Option<string>,
    rating: real, experience: real, location: string, price: real,
    availability: string, email: string, phone: string, bio: string,
    education: seq<string>, status: DoctorStatus, licenseDocument: Option<string>)

  datatype Patient = Patient(
    id: Id, name: string, email: string, phone: string, avatar: Option<string>,
    location: string, status: PatientStatus, joinedDate: string)

  datatype User = User(
    id: Id, userType: UserType, email: string, password: string,
    doctorId: Option<Id>, patientId: Option<Id>)

  datatype Consultation = Consultation(
    id: Id, doctorId: Id, patientId: Id, doctorName: string, doctorSpecialty: string,
    patientName: string, status: ConsultationStatus, date: string, time: string,
    consultationType: ConsultationType, price: real, symptoms: Option<string>,
    notes: Option<string>, paymentStatus: PaymentStatus, roomId: Option<string>)

  /** One entry of a prescription's medication list. */
  datatype Medication = Medication(name: string, dosage: string, instructions: string)

  /**
   * `id` is optional: the prescription form stores records without one. The
   * store's type declares `medications` as a JSON string, but the form stores
   * the array itself, so the model keeps the array.
   */
  datatype Prescription = Prescription(
    id: Option<Id>, consultationId: Id, patientId: Id, patientName: string,
    diagnosis: string, medications: seq<Medication>, notes: string,
    followUpDate: Option<string>, issuedDate: string, signature: string)

  datatype Message = Message(
    id: Id, consultationId: Id, senderId: Id, senderType: SenderType,
    content: string, timestamp: int, isRead: bool)

  datatype Transaction = Transaction(
    id: Id, txType: TransactionType, amount: real, date: string, description: string,
    patientId: Option<Id>, consultationId: Option<Id>, doctorId: Option<Id>)

  datatype PriceNegotiation = PriceNegotiation(
    id: Id, consultationId: Id, proposedPrice: real, status: NegotiationStatus,
    initiatedBy: SenderType, timestamp: int)

  datatype HealthMetric = HealthMetric(
    id: Id, patientId: Id, metricType: string, value: real, unit: string,
    date: int, notes: Option<string>)

  datatype EmergencyContact = EmergencyContact(name: string, relationship: string, phone: string)

  datatype UserProfile = UserProfile(
    id: Id, userId: Id, name: Option<string>, email: Option<string>,
    phone: Option<string>, location: Option<string>, height: Option<real>,
    weight: Option<real>, bloodType: Option<string>, allergies: Option<seq<string>>,
    chronicConditions: Option<seq<string>>, medications: Option<seq<string>>,
    emergencyContact: Option<EmergencyContact>)

  /** JavaScript truthiness of an optional string: absent and `""` are both false. */
  predicate Present(s: Option<string>)
  {
    s.Some? && s.value != ""
  }

  // ---------------------------------------------------------------------
  // Keys the tables are searched by.

  function DoctorKey(d: Doctor): Id { d.id }
  function PatientKey(p: Patient): Id { p.id }
  function UserKey(u: User): Id { u.id }
  function UserEmail(u: User): string { u.email }
  function ConsultationKey(c: Consultation): Id { c.id }
  function PrescriptionKey(p: Prescription): Option<Id> { p.id }
  function MessageKey(m: Message): Id { m.id }
  function TransactionKey(t: Transaction): Id { t.id }
  function NegotiationKey(n: PriceNegotiation): Id { n.id }
  function MetricKey(m: HealthMetric): Id { m.id }
  function ProfileKey(p: UserProfile): Id { p.id }
  function ProfileUser(p: UserProfile): Id { p.userId }

  // ---------------------------------------------------------------------
  // `Partial<T>` patches: a field is `None` when the update object lacks it.
  // `{...old, ...updates}` takes each present field from the update.

  datatype DoctorPatch = DoctorPatch(
    id: Option<Id>, name: Option<string>, specialty: Option<string>,
    avatar: Option<Option<string>>, rating: Option<real>, experience: Option<real>,
    location: Option<string>, price: Option<real>, availability: Option<string>,
    email: Option<string>, phone: Option<string>, bio: Option<string>,
    education: Option<seq<string>>, status: Option<DoctorStatus>,
    licenseDocument: Option<Option<string>>)

  function MergeDoctor(d: Doctor, u: DoctorPatch): Doctor
  {
    Doctor(u.id.GetOr(d.id), u.name.GetOr(d.name), u.specialty.GetOr(d.specialty),
      u.avatar.GetOr(d.avatar), u.rating.GetOr(d.rating), u.experience.GetOr(d.experience),
      u.location.GetOr(d.location), u.price.GetOr(d.price), u.availability.GetOr(d.availability),
      u.email.GetOr(d.email), u.phone.GetOr(d.phone), u.bio.GetOr(d.bio),
      u.education.GetOr(d.education), u.status.GetOr(d.status),
      u.licenseDocument.GetOr(d.licenseDocument))
  }

  datatype PatientPatch = PatientPatch(
    id: Option<Id>, name: Option<string>, email: Option<string>, phone: Option<string>,
    avatar: Option<Option<string>>, location: Option<string>,
    status: Option<PatientStatus>, joinedDate: Option<string>)

  function MergePatient(p: Patient, u: PatientPatch): Patient
  {
    Patient(u.id.GetOr(p.id), u.name.GetOr(p.name), u.email.GetOr(p.email),
      u.phone.GetOr(p.phone), u.avatar.GetOr(p.avatar), u.location.GetOr(p.location),
      u.status.GetOr(p.status), u.joinedDate.GetOr(p.joinedDate))
  }

  datatype ConsultationPatch = ConsultationPatch(
    id: Option<Id>, doctorId: Option<Id>, patientId: Option<Id>,
    doctorName: Option<string>, doctorSpecialty: Option<string>,
    patientName: Option<string>, status: Option<ConsultationStatus>,
    date: Option<string>, time: Option<string>,
    consultationType: Option<ConsultationType>, price: Option<real>,
    symptoms: Option<Option<string>>, notes: Option<Option<string>>,
    paymentStatus: Option<PaymentStatus>, roomId: Option<Option<string>>)

  /** The update object with no fields. */
  const NoConsultationChange := ConsultationPatch(None, None, None, None, None, None, None,
    None, None, None, None, None, None, None, None)

  function MergeConsultation(c: Consultation, u: ConsultationPatch): Consultation
  {
    Consultation(u.id.GetOr(c.id), u.doctorId.GetOr(c.doctorId),
      u.patientId.GetOr(c.patientId), u.doctorName.GetOr(c.doctorName),
      u.doctorSpecialty.GetOr(c.doctorSpecialty), u.patientName.GetOr(c.patientName),
      u.status.GetOr(c.status), u.date.GetOr(c.date), u.time.GetOr(c.time),
      u.consultationType.GetOr(c.consultationType), u.price.GetOr(c.price),
      u.symptoms.GetOr(c.symptoms), u.notes.GetOr(c.notes),
      u.paymentStatus.GetOr(c.paymentStatus), u.roomId.GetOr(c.roomId))
  }

  /** Merging a one-field update changes that field and nothing else. */
  lemma MergeOneField(c: Consultation, s: ConsultationStatus, p: PaymentStatus)
    ensures MergeConsultation(c, NoConsultationChange.(status := Some(s))) == c.(status := s)
    ensures MergeConsultation(c, NoConsultationChange.(paymentStatus := Some(p))) == c.(paymentStatus := p)
  {
  }

  datatype PrescriptionPatch = PrescriptionPatch(
    id: Option<Option<Id>>, consultationId: Option<Id>, patientId: Option<Id>,
    patientName: Option<string>, diagnosis: Option<string>,
    medications: Option<seq<Medication>>, notes: Option<string>,
    followUpDate: Option<Option<string>>, issuedDate: Option<string>,
    signature: Option<string>)

  function MergePrescription(p: Prescription, u: PrescriptionPatch): Prescription
  {
    Prescription(u.id.GetOr(p.id), u.consultationId.GetOr(p.consultationId),
      u.patientId.GetOr(p.patientId), u.patientName.GetOr(p.patientName),
      u.diagnosis.GetOr(p.diagnosis), u.medications.GetOr(p.medications),
      u.notes.GetOr(p.notes), u.followUpDate.GetOr(p.followUpDate),
      u.issuedDate.GetOr(p.issuedDate), u.signature.GetOr(p.signature))
  }

  datatype MessagePatch = MessagePatch(
    id: Option<Id>, consultationId: Option<Id>, senderId: Option<Id>,
    senderType: Option<SenderType>, content: Option<string>,
    timestamp: Option<int>, isRead: Option<bool>)

  function MergeMessage(m: Message, u: MessagePatch): Message
  {
    Message(u.id.GetOr(m.id), u.consultationId.GetOr(m.consultationId),
      u.senderId.GetOr(m.senderId), u.senderType.GetOr(m.senderType),
      u.content.GetOr(m.content), u.timestamp.GetOr(m.timestamp), u.isRead.GetOr(m.isRead))
  }

  datatype HealthMetricPatch = HealthMetricPatch(
    id: Option<Id>, patientId: Option<Id>, metricType: Option<string>,
    value: Option<real>, unit: Option<string>, date: Option<int>,
    notes: Option<Option<string>>)

  function MergeHealthMetric(m: HealthMetric, u: HealthMetricPatch): HealthMetric
  {
    HealthMetric(u.id.GetOr(m.id), u.patientId.GetOr(m.patientId),
      u.metricType.GetOr(m.metricType), u.value.GetOr(m.value), u.unit.GetOr(m.unit),
      u.date.GetOr(m.date), u.notes.GetOr(m.notes))
  }

  datatype UserProfilePatch = UserProfilePatch(
    id: Option<Id>, userId: Option<Id>, name: Option<Option<string>>,
    email: Option<Option<string>>, phone: Option<Option<string>>,
    location: Option<Option<string>>, height: Option<Option<real>>,
    weight: Option<Option<real>>, bloodType: Option<Option<string>>,
    allergies: Option<Option<seq<string>>>,
    chronicConditions: Option<Option<seq<string>>>,
    medications: Option<Option<seq<string>>>,
    emergencyContact: Option<Option<EmergencyContact>>)

  function MergeUserProfile(p: UserProfile, u: UserProfilePatch): UserProfile
  {
    UserProfile(u.id.GetOr(p.id), u.userId.GetOr(p.userId), u.name.GetOr(p.name),
      u.email.GetOr(p.email), u.phone.GetOr(p.phone), u.location.GetOr(p.location),
      u.height.GetOr(p.height), u.weight.GetOr(p.weight), u.bloodType.GetOr(p.bloodType),
      u.allergies.GetOr(p.allergies), u.chronicConditions.GetOr(p.chronicConditions),
      u.medications.GetOr(p.medications), u.emergencyContact.GetOr(p.emergencyContact))
  }

  /** `{ userId }`: the profile an upsert starts from, before the update is spread over it and an id is given. */
  function BareProfile(userId: Id): UserProfile
  {
    UserProfile("", userId, None, None, None, None, None, None, None, None, None, None, None)
  }
}
