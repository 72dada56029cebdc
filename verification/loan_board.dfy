/**
  The loan board with approval (src/pages/admin/LoansPageBackup2.tsx): the
  search/type/status filter, approving and rejecting a loan, the four portfolio
  counters and the row actions offered for each status.
*/
module LoanBoard {
  import opened Domain
  import opened Text
  import opened Seqs

  /** The status a loan row actually holds. Rejecting writes the text
      "rejected", which is not one of the declared loan statuses; `Rejected`
      stands for that value. */
  datatype StoredStatus = Declared(status: LoanStatus) | Rejected

  function StatusText(s: StoredStatus): string {
    match s
    case Declared(d) => LoanStatusName(d)
    case Rejected => "rejected"
  }

  /** Reading a stored status back as a declared status succeeds exactly for the
      declared ones: a rejected loan has left the declared union. */
  lemma StatusTextLeavesUnion(s: StoredStatus)
    ensures s.Declared? ==> ParseLoanStatus(StatusText(s)) == Some(s.status)
    ensures s.Rejected? <==> ParseLoanStatus(StatusText(s)).None?
  {
    match s
    case Declared(d) => LoanStatusRoundTrip(d);
    case Rejected => RejectedIsNotALoanStatus();
  }

  /** A loan row; money in whole shillings, the interest rate in percent. */
  datatype Loan = Loan(
    id: string, memberId: string, memberNumber: string, memberName: string, loanType: LoanType,
    principalAmount: int, interestRate: real, termMonths: int, monthlyPayment: int,
    outstandingBalance: int, applicationDate: string, approvalDate: Option<string>,
    disbursementDate: Option<string>, status: StoredStatus, nextPaymentDate: string,
    guarantors: seq<string>, purpose: string, collateralRequired: bool,
    phoneNumber: string, nationalId: string)

  // ---------------------------------------------------------------------------
  // Row actions

  /** The approve button is shown exactly when the stored status reads "pending". */
  predicate CanApprove(loan: Loan): (b: bool)
    ensures b <==> StatusText(loan.status) == "pending"
  {
    loan.status == Declared(LoanStatus.Pending)
  }

  /** The payment button is shown exactly when the stored status reads "active". */
  predicate CanRecordPayment(loan: Loan): (b: bool)
    ensures b <==> StatusText(loan.status) == "active"
  {
    loan.status == Declared(LoanStatus.Active)
  }

  // ---------------------------------------------------------------------------
  // Approval and rejection

  function ApprovedLoan(loan: Loan, now: string): Loan {
    loan.(status := Declared(LoanStatus.Approved), approvalDate := Some(now))
  }

  function RejectedLoan(loan: Loan): Loan {
    loan.(status := StoredStatus.Rejected)
  }

  /** The list after approving the loan with the given id at `now`: every loan
      with that id becomes approved with that approval date, all else stays. */
  function ApproveById(loans: seq<Loan>, id: string, now: string): (r: seq<Loan>)
    ensures |r| == |loans|
    ensures forall i :: 0 <= i < |loans| && loans[i].id != id ==> r[i] == loans[i]
    ensures forall i :: 0 <= i < |loans| && loans[i].id == id ==>
      r[i].status == Declared(LoanStatus.Approved) && r[i].approvalDate == Some(now)
      && r[i] == loans[i].(status := r[i].status, approvalDate := r[i].approvalDate)
  {
    seq(|loans|, i requires 0 <= i < |loans| => if loans[i].id == id then ApprovedLoan(loans[i], now) else loans[i])
  }

  /** The list after rejecting the loan with the given id: every loan with that
      id holds the rejected status, all else stays. */
  function RejectById(loans: seq<Loan>, id: string): (r: seq<Loan>)
    ensures |r| == |loans|
    ensures forall i :: 0 <= i < |loans| && loans[i].id != id ==> r[i] == loans[i]
    ensures forall i :: 0 <= i < |loans| && loans[i].id == id ==>
      r[i].status == StoredStatus.Rejected && r[i] == loans[i].(status := StoredStatus.Rejected)
  {
    seq(|loans|, i requires 0 <= i < |loans| => if loans[i].id == id then RejectedLoan(loans[i]) else loans[i])
  }

  /** After approval neither row action is offered on that loan: approved is
      neither pending nor active. */
  lemma ApprovedLoanOffersNoAction(loans: seq<Loan>, id: string, now: string, i: int)
    requires 0 <= i < |loans| && loans[i].id == id
    ensures !CanApprove(ApproveById(loans, id, now)[i])
    ensures !CanRecordPayment(ApproveById(loans, id, now)[i])
  {
  }

  // ---------------------------------------------------------------------------
  // Filter

  /** The member name or member number contains the term, ignoring case. */
  predicate SearchHit(loan: Loan, term: string) {
    ContainsFolded(loan.memberName, term) || ContainsFolded(loan.memberNumber, term)
  }

  /** A status filter other than 'all' admits only a loan holding that declared
      status. */
  predicate StatusAdmits(status: Choice<LoanStatus>, s: StoredStatus) {
    status.All? || s == Declared(status.value)
  }

  predicate Matches(loan: Loan, term: string, loanType: Choice<LoanType>, status: Choice<LoanStatus>) {
    SearchHit(loan, term) && Admits(loanType, loan.loanType) && StatusAdmits(status, loan.status)
  }

  function LoanQuery(term: string, loanType: Choice<LoanType>, status: Choice<LoanStatus>): Loan -> bool {
    (loan: Loan) => Matches(loan, term, loanType, status)
  }

  /** The rows shown: in order, exactly the loans matching the search, the type
      filter and the status filter at once. */
  function FilterLoans(loans: seq<Loan>, term: string, loanType: Choice<LoanType>, status: Choice<LoanStatus>)
    : (r: seq<Loan>)
    ensures IsSubsequence(r, loans)
    ensures forall i :: 0 <= i < |loans| ==>
      (loans[i] in r <==> SearchHit(loans[i], term) && Admits(loanType, loans[i].loanType)
                          && StatusAdmits(status, loans[i].status))
    ensures forall loan ::
      multiset(r)[loan] == (if SearchHit(loan, term) && Admits(loanType, loan.loanType) && StatusAdmits(status, loan.status)
        then multiset(loans)[loan] else 0)
  {
    FilterMultiplicity(loans, LoanQuery(term, loanType, status));
    Filter(loans, LoanQuery(term, loanType, status))
  }

  /** An empty search with both filters on 'all' shows every loan. */
  lemma NoFilterShowsEverything(loans: seq<Loan>)
    ensures FilterLoans(loans, [], All, All) == loans
  {
    forall loan | loan in loans ensures LoanQuery([], All, All)(loan) {
      EmptyQueryMatches(loan.memberName);
    }
    FilterKeepsAll(loans, LoanQuery([], All, All));
  }

  /** A rejected loan is shown only while the status filter is on 'all'. */
  lemma RejectedShownOnlyUnderAll(loans: seq<Loan>, term: string, loanType: Choice<LoanType>,
                                  status: Choice<LoanStatus>, i: int)
    requires 0 <= i < |loans| && loans[i].status == StoredStatus.Rejected
    requires loans[i] in FilterLoans(loans, term, loanType, status)
    ensures status.All?
  {
  }

  // ---------------------------------------------------------------------------
  // Counters

  function HasStatus(s: LoanStatus): Loan -> bool { (loan: Loan) => loan.status == Declared(s) }
  function Balance(): Loan -> int { (loan: Loan) => loan.outstandingBalance }

  datatype Counters = Counters(activeLoans: nat, outstanding: int, pendingApplications: nat, defaultedLoans: nat)

  /** The four counters: the number of active, pending and defaulted loans, and
      the outstanding balance summed over the active loans only. */
  function ComputeCounters(loans: seq<Loan>): (c: Counters)
    ensures c.activeLoans == |Filter(loans, HasStatus(LoanStatus.Active))|
    ensures c.outstanding == Sum(Filter(loans, HasStatus(LoanStatus.Active)), Balance())
    ensures c.pendingApplications == |Filter(loans, HasStatus(LoanStatus.Pending))|
    ensures c.defaultedLoans == |Filter(loans, HasStatus(Defaulted))|
  {
    SumWhereIsSumOfFilter(loans, HasStatus(LoanStatus.Active), Balance());
    Counters(|Filter(loans, HasStatus(LoanStatus.Active))|,
             SumWhere(loans, HasStatus(LoanStatus.Active), Balance()),
             |Filter(loans, HasStatus(LoanStatus.Pending))|,
             |Filter(loans, HasStatus(Defaulted))|)
  }

  /** Approving the one pending loan with a given id takes one application off
      the pending counter and leaves the active, outstanding and defaulted
      counters as they were. */
  lemma {:induction false} ApproveMovesOneFromPending(loans: seq<Loan>, k: int, now: string)
    requires 0 <= k < |loans| && CanApprove(loans[k])
    requires forall i :: 0 <= i < |loans| && i != k ==> loans[i].id != loans[k].id
    ensures ComputeCounters(ApproveById(loans, loans[k].id, now)).pendingApplications
         == ComputeCounters(loans).pendingApplications - 1
    ensures ComputeCounters(ApproveById(loans, loans[k].id, now)).activeLoans == ComputeCounters(loans).activeLoans
    ensures ComputeCounters(ApproveById(loans, loans[k].id, now)).outstanding == ComputeCounters(loans).outstanding
    ensures ComputeCounters(ApproveById(loans, loans[k].id, now)).defaultedLoans
         == ComputeCounters(loans).defaultedLoans
  {
    var x := ApprovedLoan(loans[k], now);
    assert ApproveById(loans, loans[k].id, now) == loans[k := x];
    FilterCountUpdate(loans, k, x, HasStatus(LoanStatus.Pending));
    FilterUpdateOutside(loans, k, x, HasStatus(LoanStatus.Active));
    FilterUpdateOutside(loans, k, x, HasStatus(Defaulted));
  }

  /** Rejecting the one pending loan with a given id takes it off the pending
      counter; the loan then counts under no counter at all. */
  lemma {:induction false} RejectDropsFromEveryCounter(loans: seq<Loan>, k: int)
    requires 0 <= k < |loans| && CanApprove(loans[k])
    requires forall i :: 0 <= i < |loans| && i != k ==> loans[i].id != loans[k].id
    ensures ComputeCounters(RejectById(loans, loans[k].id)).pendingApplications
         == ComputeCounters(loans).pendingApplications - 1
    ensures ComputeCounters(RejectById(loans, loans[k].id)).activeLoans == ComputeCounters(loans).activeLoans
    ensures ComputeCounters(RejectById(loans, loans[k].id)).outstanding == ComputeCounters(loans).outstanding
    ensures ComputeCounters(RejectById(loans, loans[k].id)).defaultedLoans == ComputeCounters(loans).defaultedLoans
    ensures forall s: LoanStatus :: !HasStatus(s)(RejectById(loans, loans[k].id)[k])
  {
    var x := RejectedLoan(loans[k]);
    assert RejectById(loans, loans[k].id) == loans[k := x];
    FilterCountUpdate(loans, k, x, HasStatus(LoanStatus.Pending));
    FilterUpdateOutside(loans, k, x, HasStatus(LoanStatus.Active));
    FilterUpdateOutside(loans, k, x, HasStatus(Defaulted));
  }

  // ---------------------------------------------------------------------------
  // Page state

  /** The board: the loan list, the loan picked from a row and the three modals. */
  class LoanBoardPage {
    var loans: seq<Loan>
    var selected: Option<Loan>
    var showLoanModal: bool
    var showApprovalModal: bool
    var showPaymentModal: bool

    /** The board once the loader has delivered `loaded`. */
    constructor(loaded: seq<Loan>)
      ensures loans == loaded && selected.None?
      ensures !showLoanModal && !showApprovalModal && !showPaymentModal
    {
      loans := loaded;
      selected := None;
      showLoanModal := false;
      showApprovalModal := false;
      showPaymentModal := false;
    }

    /** The approve button of a pending row: selects the loan and opens the
        approval modal. */
    method OpenApproval(loan: Loan)
      requires CanApprove(loan)
      modifies this
      ensures selected == Some(loan) && showApprovalModal
      ensures loans == old(loans) && showLoanModal == old(showLoanModal) && showPaymentModal == old(showPaymentModal)
    {
      selected := Some(loan);
      showApprovalModal := true;
    }

    /** The payment button of an active row: selects the loan and opens the
        payment modal, which records nothing. */
    method OpenPayment(loan: Loan)
      requires CanRecordPayment(loan)
      modifies this
      ensures selected == Some(loan) && showPaymentModal
      ensures loans == old(loans) && showLoanModal == old(showLoanModal) && showApprovalModal == old(showApprovalModal)
    {
      selected := Some(loan);
      showPaymentModal := true;
    }

    /** Approves `loan` at `now` and closes the approval modal; the selection
        keeps the loan as it was before approval. */
    method Approve(loan: Loan, now: string)
      modifies this
      ensures loans == ApproveById(old(loans), loan.id, now) && !showApprovalModal
      ensures selected == old(selected) && showLoanModal == old(showLoanModal)
      ensures showPaymentModal == old(showPaymentModal)
    {
      loans := ApproveById(loans, loan.id, now);
      showApprovalModal := false;
    }

    /** Rejects `loan` and closes the approval modal. */
    method Reject(loan: Loan)
      modifies this
      ensures loans == RejectById(old(loans), loan.id) && !showApprovalModal
      ensures selected == old(selected) && showLoanModal == old(showLoanModal)
      ensures showPaymentModal == old(showPaymentModal)
    {
      loans := RejectById(loans, loan.id);
      showApprovalModal := false;
    }
  }
}
