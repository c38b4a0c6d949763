/**
 * The `analytics` block of `src/services/database.ts`: counts by status and
 * sums of transaction amounts over the stored tables, for the admin views.
 */
module Analytics {
  import opened Seqs
  import opened Records

  datatype ConsultationStats = ConsultationStats(
    total: nat, pending: nat, upcoming: nat, completed: nat, cancelled: nat, negotiating: nat)

  datatype DoctorStats = DoctorStats(total: nat, pending: nat, approved: nat, rejected: nat)

  datatype PatientStats = PatientStats(total: nat, active: nat, inactive: nat)

  datatype TransactionStats = TransactionStats(
    totalAmount: real, creditAmount: real, debitAmount: real, transactionCount: nat)

  function HasStatus(s: ConsultationStatus): Consultation -> bool
  {
    (c: Consultation) => c.status == s
  }

  function DoctorHasStatus(s: DoctorStatus): Doctor -> bool
  {
    (d: Doctor) => d.status == s
  }

  function PatientHasStatus(s: PatientStatus): Patient -> bool
  {
    (p: Patient) => p.status == s
  }

  function IsCredit(t: Transaction): bool { t.txType == Credit }
  function IsDebit(t: Transaction): bool { t.txType == Debit }
  function Amount(t: Transaction): real { t.amount }

  /** `getConsultationStats`: every consultation is counted under exactly one status. */
  function GetConsultationStats(cs: seq<Consultation>): (r: ConsultationStats)
    ensures r.total == |cs|
    ensures r.pending == Count(cs, HasStatus(Pending)) && r.upcoming == Count(cs, HasStatus(Upcoming))
    ensures r.completed == Count(cs, HasStatus(Completed)) && r.cancelled == Count(cs, HasStatus(Cancelled))
    ensures r.negotiating == Count(cs, HasStatus(Negotiating))
    ensures r.total == r.pending + r.upcoming + r.completed + r.cancelled + r.negotiating
  {
    ConsultationCountsAddUp(cs);
    ConsultationStats(|cs|, Count(cs, HasStatus(Pending)), Count(cs, HasStatus(Upcoming)),
      Count(cs, HasStatus(Completed)), Count(cs, HasStatus(Cancelled)),
      Count(cs, HasStatus(Negotiating)))
  }

  lemma {:induction false} ConsultationCountsAddUp(cs: seq<Consultation>)
    ensures |cs| == Count(cs, HasStatus(Pending)) + Count(cs, HasStatus(Upcoming))
      + Count(cs, HasStatus(Completed)) + Count(cs, HasStatus(Cancelled))
      + Count(cs, HasStatus(Negotiating))
  {
    if |cs| > 0 {
      ConsultationCountsAddUp(cs[1..]);
    }
  }

  /** `getDoctorStats`: the three verification states cover every doctor. */
  function GetDoctorStats(ds: seq<Doctor>): (r: DoctorStats)
    ensures r.total == |ds|
    ensures r.pending == Count(ds, DoctorHasStatus(DoctorPending))
    ensures r.approved == Count(ds, DoctorHasStatus(Approved)) && r.rejected == Count(ds, DoctorHasStatus(Rejected))
    ensures r.total == r.pending + r.approved + r.rejected
  {
    DoctorCountsAddUp(ds);
    DoctorStats(|ds|, Count(ds, DoctorHasStatus(DoctorPending)),
      Count(ds, DoctorHasStatus(Approved)), Count(ds, DoctorHasStatus(Rejected)))
  }

  lemma {:induction false} DoctorCountsAddUp(ds: seq<Doctor>)
    ensures |ds| == Count(ds, DoctorHasStatus(DoctorPending))
      + Count(ds, DoctorHasStatus(Approved)) + Count(ds, DoctorHasStatus(Rejected))
  {
    if |ds| > 0 {
      DoctorCountsAddUp(ds[1..]);
    }
  }

  /** `getPatientStats`: every patient is either active or inactive. */
  function GetPatientStats(ps: seq<Patient>): (r: PatientStats)
    ensures r.total == |ps|
    ensures r.active == Count(ps, PatientHasStatus(Active)) && r.inactive == Count(ps, PatientHasStatus(Inactive))
    ensures r.total == r.active + r.inactive
  {
    FilterPartition(ps, PatientHasStatus(Active), PatientHasStatus(Inactive));
    PatientStats(|ps|, Count(ps, PatientHasStatus(Active)), Count(ps, PatientHasStatus(Inactive)))
  }

  /** `getTransactionStats`: the total amount is what came in plus what went out. */
  function GetTransactionStats(ts: seq<Transaction>): (r: TransactionStats)
    ensures r.transactionCount == |ts|
    ensures r.totalAmount == SumOf(ts, Amount)
    ensures r.creditAmount == SumOf(Filter(ts, IsCredit), Amount)
    ensures r.debitAmount == SumOf(Filter(ts, IsDebit), Amount)
    ensures r.totalAmount == r.creditAmount + r.debitAmount
  {
    AmountSplits(ts);
    TransactionStats(SumOf(ts, Amount), SumOf(Filter(ts, IsCredit), Amount),
      SumOf(Filter(ts, IsDebit), Amount), |ts|)
  }

  lemma {:induction false} AmountSplits(ts: seq<Transaction>)
    ensures SumOf(ts, Amount) == SumOf(Filter(ts, IsCredit), Amount) + SumOf(Filter(ts, IsDebit), Amount)
  {
    if |ts| > 0 {
      AmountSplits(ts[1..]);
      var c := if IsCredit(ts[0]) then [ts[0]] else [];
      var d := if IsDebit(ts[0]) then [ts[0]] else [];
      SumOfAppend(c, Filter(ts[1..], IsCredit), Amount);
      SumOfAppend(d, Filter(ts[1..], IsDebit), Amount);
    }
  }
}
