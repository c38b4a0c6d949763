/**
 * `src/pages/DoctorDashboard.tsx`: the doctor's home page shows its
 * consultations from the doctor's side (the "doctor" column shows the
 * patient) in two sections, pending requests and upcoming visits.
 */
module DoctorDashboard {
  import opened Seqs
  import opened Records

  /** One record as the doctor sees it. */
  function AsDoctorView(c: Consultation): (r: Consultation)
    ensures r.doctorName == c.patientName && r.doctorSpecialty == "Patient"
    ensures r.(doctorName := c.doctorName, doctorSpecialty := c.doctorSpecialty) == c
  {
    c.(doctorName := c.patientName, doctorSpecialty := "Patient")
  }

  /** `formatConsultations`: the same records in the same order, each seen from the doctor's side. */
  function FormatConsultations(cs: seq<Consultation>): (r: seq<Consultation>)
    ensures |r| == |cs|
    ensures forall j :: 0 <= j < |cs| ==> r[j] == AsDoctorView(cs[j])
  {
    if |cs| == 0 then [] else [AsDoctorView(cs[0])] + FormatConsultations(cs[1..])
  }

  function HasStatusIn(status: ConsultationStatus): Consultation -> bool
  {
    (c: Consultation) => c.status == status
  }

  /** A section: every consultation with one status, in stored order, each formatted. */
  function Section(cs: seq<Consultation>, status: ConsultationStatus): (r: seq<Consultation>)
    ensures |r| == Count(cs, HasStatusIn(status))
    ensures forall j :: 0 <= j < |r| ==> r[j] == AsDoctorView(Filter(cs, HasStatusIn(status))[j])
    ensures forall j :: 0 <= j < |r| ==> r[j].status == status && r[j].doctorSpecialty == "Patient"
  {
    FormatConsultations(Filter(cs, HasStatusIn(status)))
  }

  /** Formatting distributes over concatenation, so it keeps the input's order. */
  lemma {:induction false} FormatAppend(a: seq<Consultation>, b: seq<Consultation>)
    ensures FormatConsultations(a + b) == FormatConsultations(a) + FormatConsultations(b)
  {
    if |a| > 0 {
      assert (a + b)[1..] == a[1..] + b;
      FormatAppend(a[1..], b);
    }
  }

  /** The requests section and the upcoming section never show the same consultation. */
  lemma SectionsDisjoint(cs: seq<Consultation>)
    ensures forall i, j :: 0 <= i < |Section(cs, Pending)| && 0 <= j < |Section(cs, Upcoming)| ==>
      Section(cs, Pending)[i] != Section(cs, Upcoming)[j]
  {
  }
}
