/**
  The deposit register (src/pages/admin/DepositsPage.tsx): the search and
  account-type/status filter over its constant register, the completed total,
  the pending count and the count of deposits made on the register's day.
*/
module Deposits {
  import opened Domain
  import opened Text
  import opened Seqs

  datatype AccountType = Savings | Fixed | Special

  /** A deposit; `amount` in whole shillings, `via` the channel it came by (the source field `method`). */
  datatype Deposit = Deposit(
    id: string, memberNumber: string, memberName: string, accountType: AccountType, amount: int,
    date: string, via: Channel, reference: string, status: TxStatus)

  const MockDeposits: seq<Deposit> := [
    Deposit.Deposit("1", "KS001", "John Doe", Savings, 500000, "2024-01-15", MobileMoney, "MM240115001",
            TxStatus.Completed),
    Deposit.Deposit("2", "KS002", "Sarah Nakato", Fixed, 1000000, "2024-01-15", Bank, "BNK240115002",
            TxStatus.Completed),
    Deposit.Deposit("3", "KS003", "Peter Ssebugwawo", Savings, 300000, "2024-01-14", CheckoffChannel, "CHK240114003",
            TxStatus.Completed),
    Deposit.Deposit("4", "KS004", "Mary Johnson", Special, 750000, "2024-01-14", Cash, "CSH240114004",
            TxStatus.Pending),
    Deposit.Deposit("5", "KS005", "David Mukasa", Savings, 200000, "2024-01-13", MobileMoney, "MM240113005",
            Failed)
  ]

  /** The day the "today" counter compares against: a fixed date, not the clock. */
  const Today: string := "2024-01-15"

  // ---------------------------------------------------------------------------
  // Filter

  /** The member name, member number or reference contains the term, ignoring case. */
  predicate SearchHit(d: Deposit, term: string) {
    ContainsFolded(d.memberName, term) || ContainsFolded(d.memberNumber, term)
    || ContainsFolded(d.reference, term)
  }

  predicate Matches(d: Deposit, term: string, accountType: Choice<AccountType>, status: Choice<TxStatus>) {
    SearchHit(d, term) && Admits(accountType, d.accountType) && Admits(status, d.status)
  }

  function DepositQuery(term: string, accountType: Choice<AccountType>, status: Choice<TxStatus>): Deposit -> bool {
    (d: Deposit) => Matches(d, term, accountType, status)
  }

  /** The rows shown: in order, exactly the deposits matching the search, the
      account-type filter and the status filter. */
  function FilterDeposits(deposits: seq<Deposit>, term: string, accountType: Choice<AccountType>,
                          status: Choice<TxStatus>): (r: seq<Deposit>)
    ensures IsSubsequence(r, deposits)
    ensures forall i :: 0 <= i < |deposits| ==>
      (deposits[i] in r <==> SearchHit(deposits[i], term) && Admits(accountType, deposits[i].accountType)
                             && Admits(status, deposits[i].status))
    ensures forall d ::
      multiset(r)[d] == (if SearchHit(d, term) && Admits(accountType, d.accountType) && Admits(status, d.status)
        then multiset(deposits)[d] else 0)
  {
    FilterMultiplicity(deposits, DepositQuery(term, accountType, status));
    Filter(deposits, DepositQuery(term, accountType, status))
  }

  /** An empty search with both filters on 'all' shows every deposit. */
  lemma NoFilterShowsEverything(deposits: seq<Deposit>)
    ensures FilterDeposits(deposits, [], All, All) == deposits
  {
    forall d | d in deposits ensures DepositQuery([], All, All)(d) {
      EmptyQueryMatches(d.memberName);
    }
    FilterKeepsAll(deposits, DepositQuery([], All, All));
  }

  // ---------------------------------------------------------------------------
  // Totals

  function HasStatus(s: TxStatus): Deposit -> bool { (d: Deposit) => d.status == s }
  function OnDate(day: string): Deposit -> bool { (d: Deposit) => d.date == day }
  function Amount(): Deposit -> int { (d: Deposit) => d.amount }

  /** The completed amount, added one deposit at a time. */
  function CompletedTotal(deposits: seq<Deposit>): int {
    if deposits == [] then 0
    else (if deposits[0].status == TxStatus.Completed then deposits[0].amount else 0) + CompletedTotal(deposits[1..])
  }

  function CountPending(deposits: seq<Deposit>): nat {
    if deposits == [] then 0
    else (if deposits[0].status == TxStatus.Pending then 1 else 0) + CountPending(deposits[1..])
  }

  function CountOnDate(deposits: seq<Deposit>, day: string): nat {
    if deposits == [] then 0
    else (if deposits[0].date == day then 1 else 0) + CountOnDate(deposits[1..], day)
  }

  lemma {:induction false} CompletedTotalIsSumOfFilter(deposits: seq<Deposit>)
    ensures CompletedTotal(deposits) == Sum(Filter(deposits, HasStatus(TxStatus.Completed)), Amount())
  {
    if deposits != [] {
      CompletedTotalIsSumOfFilter(deposits[1..]);
      if deposits[0].status == TxStatus.Completed {
        SumCons(deposits[0], Filter(deposits[1..], HasStatus(TxStatus.Completed)), Amount());
      }
    }
  }

  lemma {:induction false} CountPendingIsFilterLength(deposits: seq<Deposit>)
    ensures CountPending(deposits) == |Filter(deposits, HasStatus(TxStatus.Pending))|
  {
    if deposits != [] {
      CountPendingIsFilterLength(deposits[1..]);
    }
  }

  lemma {:induction false} CountOnDateIsFilterLength(deposits: seq<Deposit>, day: string)
    ensures CountOnDate(deposits, day) == |Filter(deposits, OnDate(day))|
  {
    if deposits != [] {
      CountOnDateIsFilterLength(deposits[1..], day);
    }
  }

  datatype Totals = Totals(totalDeposits: int, pendingDeposits: nat, todayDeposits: nat)

  /** The completed amount, the number of pending deposits and the number of
      deposits dated `Today`. */
  function ComputeTotals(deposits: seq<Deposit>): (t: Totals)
    ensures t.totalDeposits == Sum(Filter(deposits, HasStatus(TxStatus.Completed)), Amount())
    ensures t.pendingDeposits == |Filter(deposits, HasStatus(TxStatus.Pending))|
    ensures t.todayDeposits == |Filter(deposits, OnDate(Today))|
  {
    CompletedTotalIsSumOfFilter(deposits);
    CountPendingIsFilterLength(deposits);
    CountOnDateIsFilterLength(deposits, Today);
    Totals(CompletedTotal(deposits), CountPending(deposits), CountOnDate(deposits, Today))
  }

  /** With no negative amounts the completed total is at most the sum of all
      deposits. */
  lemma CompletedWithinAll(deposits: seq<Deposit>)
    requires forall d :: d in deposits ==> d.amount >= 0
    ensures 0 <= ComputeTotals(deposits).totalDeposits <= Sum(deposits, Amount())
  {
    SumFilterBounded(deposits, HasStatus(TxStatus.Completed), Amount());
    SumNonNegative(Filter(deposits, HasStatus(TxStatus.Completed)), Amount());
  }

  /** On the register: 1,800,000 completed, one pending deposit, two deposits
      on the fixed day. */
  lemma MockTotals()
    ensures ComputeTotals(MockDeposits) == Totals(1800000, 1, 2)
  {
    assert CompletedTotal(MockDeposits) == 1800000;
    assert CountPending(MockDeposits) == 1;
    assert CountOnDate(MockDeposits, Today) == 2;
  }
}
