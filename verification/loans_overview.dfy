/**
  The read-only loan portfolio page (src/pages/admin/LoansPage.tsx): the
  search/type/status filter over its constant loan list and the four portfolio
  counters, which read the whole list whatever the filters say.
*/
module LoansOverview {
  import opened Domain
  import opened Text
  import opened Seqs

  /** A loan row; money in whole shillings, the interest rate in percent. */
  datatype Loan = Loan(
    id: string, memberNumber: string, memberName: string, loanType: LoanType,
    principalAmount: int, interestRate: real, termMonths: int, monthlyPayment: int,
    outstandingBalance: int, applicationDate: string, status: LoanStatus, nextPaymentDate: string)

  const MockLoans: seq<Loan> := [
    Loan("1", "KS001", "John Doe", Development, 10000000, 15.0, 24, 520833, 7500000,
         "2023-06-15", LoanStatus.Active, "2024-02-10"),
    Loan("2", "KS002", "Sarah Nakato", Emergency, 2000000, 12.0, 12, 177698, 1500000,
         "2024-01-10", LoanStatus.Active, "2024-02-15"),
    Loan("3", "KS003", "Peter Ssebugwawo", Business, 5000000, 18.0, 18, 350000, 0,
         "2022-03-20", LoanStatus.Completed, ""),
    Loan("4", "KS004", "Mary Johnson", Education, 3000000, 14.0, 36, 105000, 2800000,
         "2023-09-15", LoanStatus.Pending, "2024-02-20"),
    Loan("5", "KS005", "David Mukasa", Development, 8000000, 16.0, 30, 350000, 6500000,
         "2023-11-10", Defaulted, "2024-01-10")
  ]

  // ---------------------------------------------------------------------------
  // Filter

  /** The member name or member number contains the term, ignoring case. */
  predicate SearchHit(loan: Loan, term: string) {
    ContainsFolded(loan.memberName, term) || ContainsFolded(loan.memberNumber, term)
  }

  predicate Matches(loan: Loan, term: string, loanType: Choice<LoanType>, status: Choice<LoanStatus>) {
    SearchHit(loan, term) && Admits(loanType, loan.loanType) && Admits(status, loan.status)
  }

  function LoanQuery(term: string, loanType: Choice<LoanType>, status: Choice<LoanStatus>): Loan -> bool {
    (loan: Loan) => Matches(loan, term, loanType, status)
  }

  /** The rows shown: in order, exactly the loans matching the search, the type
      filter and the status filter at once. */
  function FilterLoans(loans: seq<Loan>, term: string, loanType: Choice<LoanType>, status: Choice<LoanStatus>)
    : (r: seq<Loan>)
    ensures IsSubsequence(r, loans)
    ensures forall i :: 0 <= i < |loans| ==>
      (loans[i] in r <==> SearchHit(loans[i], term) && Admits(loanType, loans[i].loanType)
                          && Admits(status, loans[i].status))
    ensures forall loan ::
      multiset(r)[loan] == (if SearchHit(loan, term) && Admits(loanType, loan.loanType) && Admits(status, loan.status)
        then multiset(loans)[loan] else 0)
  {
    FilterMultiplicity(loans, LoanQuery(term, loanType, status));
    Filter(loans, LoanQuery(term, loanType, status))
  }

  /** An empty search with both filters on 'all' shows every loan. */
  lemma NoFilterShowsEverything(loans: seq<Loan>)
    ensures FilterLoans(loans, [], All, All) == loans
  {
    forall loan | loan in loans ensures LoanQuery([], All, All)(loan) {
      EmptyQueryMatches(loan.memberName);
    }
    FilterKeepsAll(loans, LoanQuery([], All, All));
  }

  // ---------------------------------------------------------------------------
  // Counters

  function HasStatus(s: LoanStatus): Loan -> bool { (loan: Loan) => loan.status == s }
  function Balance(): Loan -> int { (loan: Loan) => loan.outstandingBalance }

  datatype Counters = Counters(activeLoans: nat, outstanding: int, pendingApplications: nat, defaultedLoans: nat)

  /** The number of loans in a status, counted one loan at a time. */
  function CountStatus(loans: seq<Loan>, s: LoanStatus): nat {
    if loans == [] then 0 else (if loans[0].status == s then 1 else 0) + CountStatus(loans[1..], s)
  }

  /** The balance of the active loans, added one loan at a time. */
  function ActiveBalance(loans: seq<Loan>): int {
    if loans == [] then 0
    else (if loans[0].status == LoanStatus.Active then loans[0].outstandingBalance else 0) + ActiveBalance(loans[1..])
  }

  lemma {:induction false} CountStatusIsFilterLength(loans: seq<Loan>, s: LoanStatus)
    ensures CountStatus(loans, s) == |Filter(loans, HasStatus(s))|
  {
    if loans != [] {
      CountStatusIsFilterLength(loans[1..], s);
    }
  }

  lemma {:induction false} ActiveBalanceIsSumWhere(loans: seq<Loan>)
    ensures ActiveBalance(loans) == SumWhere(loans, HasStatus(LoanStatus.Active), Balance())
  {
    if loans != [] {
      ActiveBalanceIsSumWhere(loans[1..]);
    }
  }

  /** The four counters: the number of active, pending and defaulted loans, and
      the outstanding balance summed over the active loans only. */
  function ComputeCounters(loans: seq<Loan>): (c: Counters)
    ensures c.activeLoans == |Filter(loans, HasStatus(LoanStatus.Active))|
    ensures c.outstanding == Sum(Filter(loans, HasStatus(LoanStatus.Active)), Balance())
    ensures c.pendingApplications == |Filter(loans, HasStatus(LoanStatus.Pending))|
    ensures c.defaultedLoans == |Filter(loans, HasStatus(Defaulted))|
  {
    CountStatusIsFilterLength(loans, LoanStatus.Active);
    CountStatusIsFilterLength(loans, LoanStatus.Pending);
    CountStatusIsFilterLength(loans, Defaulted);
    ActiveBalanceIsSumWhere(loans);
    SumWhereIsSumOfFilter(loans, HasStatus(LoanStatus.Active), Balance());
    Counters(CountStatus(loans, LoanStatus.Active), ActiveBalance(loans),
             CountStatus(loans, LoanStatus.Pending), CountStatus(loans, Defaulted))
  }

  /** The balances of non-active loans never reach the outstanding total: two
      lists that agree on their active loans have the same total. */
  lemma OutstandingIgnoresInactive(loans: seq<Loan>, others: seq<Loan>)
    requires Filter(loans, HasStatus(LoanStatus.Active)) == Filter(others, HasStatus(LoanStatus.Active))
    ensures ComputeCounters(loans).outstanding == ComputeCounters(others).outstanding
  {
  }

  /** On the page's loan list: two active loans, 9,000,000 outstanding, one
      pending application and one defaulted loan. */
  lemma MockCounters()
    ensures ComputeCounters(MockLoans) == Counters(2, 9000000, 1, 1)
  {
    assert CountStatus(MockLoans, LoanStatus.Active) == 2;
    assert ActiveBalance(MockLoans) == 9000000;
    assert CountStatus(MockLoans, LoanStatus.Pending) == 1;
    assert CountStatus(MockLoans, Defaulted) == 1;
  }
}
