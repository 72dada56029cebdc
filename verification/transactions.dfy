/**
  The transaction register (src/pages/admin/TransactionsPage.tsx): the search
  and type/status/channel filter over the register, the three counters and the
  completed volume, and the credit/debit sign of each row.
*/
module Transactions {
  import opened Domain
  import opened Text
  import opened Seqs

  /** A register row; `amount` in whole shillings. */
  datatype Txn = Txn(
    id: string, memberNumber: string, memberName: string, txType: TxType, amount: int,
    description: string, date: string, status: TxStatus, reference: string, channel: Channel,
    staffId: string, staffName: string, staffRole: string)

  // ---------------------------------------------------------------------------
  // Filter

  /** The member name, member number, reference or description contains the
      term, ignoring case. */
  predicate SearchHit(t: Txn, term: string) {
    ContainsFolded(t.memberName, term) || ContainsFolded(t.memberNumber, term)
    || ContainsFolded(t.reference, term) || ContainsFolded(t.description, term)
  }

  predicate Matches(t: Txn, term: string, txType: Choice<TxType>, status: Choice<TxStatus>, channel: Choice<Channel>) {
    SearchHit(t, term) && Admits(txType, t.txType) && Admits(status, t.status) && Admits(channel, t.channel)
  }

  function TxnQuery(term: string, txType: Choice<TxType>, status: Choice<TxStatus>, channel: Choice<Channel>)
    : Txn -> bool
  {
    (t: Txn) => Matches(t, term, txType, status, channel)
  }

  /** The rows shown: in order, exactly the transactions matching the search
      and all three filters. */
  function FilterTxns(txns: seq<Txn>, term: string, txType: Choice<TxType>, status: Choice<TxStatus>,
                      channel: Choice<Channel>): (r: seq<Txn>)
    ensures IsSubsequence(r, txns)
    ensures forall i :: 0 <= i < |txns| ==>
      (txns[i] in r <==> SearchHit(txns[i], term) && Admits(txType, txns[i].txType)
                         && Admits(status, txns[i].status) && Admits(channel, txns[i].channel))
    ensures forall t ::
      multiset(r)[t] == (if SearchHit(t, term) && Admits(txType, t.txType) && Admits(status, t.status) && Admits(channel, t.channel)
        then multiset(txns)[t] else 0)
  {
    FilterMultiplicity(txns, TxnQuery(term, txType, status, channel));
    Filter(txns, TxnQuery(term, txType, status, channel))
  }

  /** An empty search with every filter on 'all' shows the whole register. */
  lemma NoFilterShowsEverything(txns: seq<Txn>)
    ensures FilterTxns(txns, [], All, All, All) == txns
  {
    forall t | t in txns ensures TxnQuery([], All, All, All)(t) {
      EmptyQueryMatches(t.memberName);
    }
    FilterKeepsAll(txns, TxnQuery([], All, All, All));
  }

  // ---------------------------------------------------------------------------
  // Counters

  function HasStatus(s: TxStatus): Txn -> bool { (t: Txn) => t.status == s }
  function Amount(): Txn -> int { (t: Txn) => t.amount }

  datatype Counters = Counters(total: nat, completed: nat, pending: nat, volume: int)

  /** The register's size, its completed and pending counts, and the volume
      summed over completed transactions only; completed and pending together
      never exceed the total. */
  function ComputeCounters(txns: seq<Txn>): (c: Counters)
    ensures c.completed == |Filter(txns, HasStatus(TxStatus.Completed))|
    ensures c.pending == |Filter(txns, HasStatus(TxStatus.Pending))|
    ensures c.completed + c.pending <= c.total == |txns|
    ensures c.volume == Sum(Filter(txns, HasStatus(TxStatus.Completed)), Amount())
  {
    CountDisjoint(txns, HasStatus(TxStatus.Completed), HasStatus(TxStatus.Pending));
    SumWhereIsSumOfFilter(txns, HasStatus(TxStatus.Completed), Amount());
    Counters(|txns|, |Filter(txns, HasStatus(TxStatus.Completed))|, |Filter(txns, HasStatus(TxStatus.Pending))|,
             SumWhere(txns, HasStatus(TxStatus.Completed), Amount()))
  }

  /** Pending and failed transactions never reach the volume: registers that
      differ only in non-completed rows have the same volume. */
  lemma VolumeIgnoresUncompleted(txns: seq<Txn>, others: seq<Txn>)
    requires Filter(txns, HasStatus(TxStatus.Completed)) == Filter(others, HasStatus(TxStatus.Completed))
    ensures ComputeCounters(txns).volume == ComputeCounters(others).volume
  {
  }

  // ---------------------------------------------------------------------------
  // Direction

  /** Deposits and check-offs are money in, shown with '+'; every other type is
      money out, shown with '-'. */
  function Sign(t: TxType): (c: char)
    ensures c == '+' || c == '-'
    ensures c == '+' <==> t == Deposit || t == Checkoff
  {
    if t == Deposit || t == Checkoff then '+' else '-'
  }

  /** The amount as the register's sign presents it. */
  function SignedAmount(t: Txn): (v: int)
    ensures t.amount >= 0 ==> (v >= 0 <==> Sign(t.txType) == '+' || t.amount == 0)
    ensures v == t.amount || v == -t.amount
  {
    if Sign(t.txType) == '+' then t.amount else -t.amount
  }
}
