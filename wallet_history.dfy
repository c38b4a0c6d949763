/**
 * `src/components/WalletHistory.tsx`: the wallet history dialog splits the
 * transactions into credits and debits and signs each amount.
 */
module WalletHistory {
  import opened Seqs
  import opened Records
  import opened Analytics

  /** `transactions.filter(t => t.type === 'credit')`. */
  function Credits(ts: seq<Transaction>): (r: seq<Transaction>)
    ensures forall j :: 0 <= j < |r| ==> r[j].txType == Credit && r[j] in ts
    ensures forall j :: 0 <= j < |ts| && ts[j].txType == Credit ==> ts[j] in r
  {
    Filter(ts, IsCredit)
  }

  /** `transactions.filter(t => t.type === 'debit')`. */
  function Debits(ts: seq<Transaction>): (r: seq<Transaction>)
    ensures forall j :: 0 <= j < |r| ==> r[j].txType == Debit && r[j] in ts
    ensures forall j :: 0 <= j < |ts| && ts[j].txType == Debit ==> ts[j] in r
  {
    Filter(ts, IsDebit)
  }

  /** Each transaction is listed under exactly one tab, and each tab keeps the original order. */
  lemma {:induction false} TabsPartition(ts: seq<Transaction>, more: seq<Transaction>)
    ensures |Credits(ts)| + |Debits(ts)| == |ts|
    ensures Credits(ts + more) == Credits(ts) + Credits(more)
    ensures Debits(ts + more) == Debits(ts) + Debits(more)
  {
    FilterPartition(ts, IsCredit, IsDebit);
    FilterAppend(ts, more, IsCredit);
    FilterAppend(ts, more, IsDebit);
  }

  /** The sign shown before an amount. */
  function SignPrefix(t: Transaction): (s: string)
    ensures t.txType == Credit ==> s == "+"
    ensures t.txType == Debit ==> s == "-"
  {
    if t.txType == Credit then "+" else "-"
  }
}
