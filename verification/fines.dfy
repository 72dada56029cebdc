/**
  The fines ledger (src/pages/admin/FinesPage.tsx): recording a payment, waiving
  and issuing fines, the status/category/member filter, the four totals and the
  member picker's search.
*/
module Fines {
  import opened Domain
  import opened Text
  import opened Seqs

  /** A fine; `amount` in whole shillings, `datePaid` optional. */
  datatype Fine = Fine(
    id: string, memberId: string, category: FineCategory, amount: int, description: string,
    dateIssued: string, datePaid: Option<string>, status: FineStatus)

  /** Pay and Waive are offered only on a pending fine. */
  predicate Actionable(f: Fine) {
    f.status == FineStatus.Pending
  }

  // ---------------------------------------------------------------------------
  // Payment and waiver

  function PaidAt(f: Fine, now: string): Fine {
    f.(status := Paid, datePaid := Some(now))
  }

  function WaivedFine(f: Fine): Fine {
    f.(status := Waived)
  }

  /** The ledger after paying the fine with the given id at `now`. */
  function PayById(fines: seq<Fine>, id: string, now: string): (r: seq<Fine>)
    ensures |r| == |fines|
    ensures forall i :: 0 <= i < |fines| && fines[i].id != id ==> r[i] == fines[i]
    ensures forall i :: 0 <= i < |fines| && fines[i].id == id ==>
      r[i].status == Paid && r[i].datePaid == Some(now)
      && r[i].id == id && r[i].memberId == fines[i].memberId && r[i].category == fines[i].category
      && r[i].amount == fines[i].amount && r[i].description == fines[i].description
      && r[i].dateIssued == fines[i].dateIssued
  {
    seq(|fines|, i requires 0 <= i < |fines| => if fines[i].id == id then PaidAt(fines[i], now) else fines[i])
  }

  /** The ledger after waiving the fine with the given id; its payment date is kept. */
  function WaiveById(fines: seq<Fine>, id: string): (r: seq<Fine>)
    ensures |r| == |fines|
    ensures forall i :: 0 <= i < |fines| && fines[i].id != id ==> r[i] == fines[i]
    ensures forall i :: 0 <= i < |fines| && fines[i].id == id ==>
      r[i].status == Waived && r[i].datePaid == fines[i].datePaid
      && r[i].id == id && r[i].memberId == fines[i].memberId && r[i].category == fines[i].category
      && r[i].amount == fines[i].amount && r[i].description == fines[i].description
      && r[i].dateIssued == fines[i].dateIssued
  {
    seq(|fines|, i requires 0 <= i < |fines| => if fines[i].id == id then WaivedFine(fines[i]) else fines[i])
  }

  /** Once paid or waived, a fine no longer offers Pay or Waive. */
  lemma ReviewedFineOffersNoAction(fines: seq<Fine>, id: string, now: string, i: int)
    requires 0 <= i < |fines| && fines[i].id == id
    ensures !Actionable(PayById(fines, id, now)[i]) && !Actionable(WaiveById(fines, id)[i])
  {
  }

  // ---------------------------------------------------------------------------
  // Totals

  function Amount(): Fine -> int { (f: Fine) => f.amount }
  function HasStatus(s: FineStatus): Fine -> bool { (f: Fine) => f.status == s }

  datatype FineStats = FineStats(totalIssued: int, totalPending: int, totalPaid: int, totalWaived: int)

  /** The four totals: everything issued, and the amounts of pending, paid and
      waived fines, which together make up everything issued. */
  function ComputeStats(fines: seq<Fine>): (s: FineStats)
    ensures s.totalIssued == Sum(fines, Amount())
    ensures s.totalPending == Sum(Filter(fines, HasStatus(FineStatus.Pending)), Amount())
    ensures s.totalPaid == Sum(Filter(fines, HasStatus(Paid)), Amount())
    ensures s.totalWaived == Sum(Filter(fines, HasStatus(Waived)), Amount())
    ensures s.totalPending + s.totalPaid + s.totalWaived == s.totalIssued
  {
    SumPartition3(fines, HasStatus(FineStatus.Pending), HasStatus(Paid), HasStatus(Waived), Amount());
    FineStats(Sum(fines, Amount()),
              Sum(Filter(fines, HasStatus(FineStatus.Pending)), Amount()),
              Sum(Filter(fines, HasStatus(Paid)), Amount()),
              Sum(Filter(fines, HasStatus(Waived)), Amount()))
  }

  /** Paying or waiving never changes the total issued. */
  lemma ReviewKeepsTotalIssued(fines: seq<Fine>, id: string, now: string)
    ensures ComputeStats(PayById(fines, id, now)).totalIssued == ComputeStats(fines).totalIssued
    ensures ComputeStats(WaiveById(fines, id)).totalIssued == ComputeStats(fines).totalIssued
  {
    SumPointwise(PayById(fines, id, now), fines, Amount());
    SumPointwise(WaiveById(fines, id), fines, Amount());
  }

  /** Issuing a fine adds its amount to the total issued and to the pending total. */
  lemma IssueAddsToPending(fines: seq<Fine>, f: Fine)
    requires f.status == FineStatus.Pending
    ensures ComputeStats([f] + fines).totalIssued == ComputeStats(fines).totalIssued + f.amount
    ensures ComputeStats([f] + fines).totalPending == ComputeStats(fines).totalPending + f.amount
    ensures ComputeStats([f] + fines).totalPaid == ComputeStats(fines).totalPaid
  {
    var s := [f] + fines;
    assert s[1..] == fines;
    SumCons(f, fines, Amount());
    SumCons(f, Filter(fines, HasStatus(FineStatus.Pending)), Amount());
  }

  // ---------------------------------------------------------------------------
  // Filter

  /** The search of the table: the fine's member is known and their first name,
      last name or member number contains the term, ignoring case. */
  predicate FineSearchHit(users: seq<User>, f: Fine, term: string) {
    match FindUser(users, f.memberId)
    case None => false
    case Some(u) =>
      ContainsFolded(u.firstName, term) || ContainsFolded(u.lastName, term)
      || (u.memberNumber.Some? && ContainsFolded(u.memberNumber.value, term))
  }

  function StatusQuery(status: Choice<FineStatus>): Fine -> bool {
    (f: Fine) => Admits(status, f.status)
  }

  function CategoryQuery(category: Choice<FineCategory>): Fine -> bool {
    (f: Fine) => Admits(category, f.category)
  }

  function SearchQuery(users: seq<User>, term: string): Fine -> bool {
    (f: Fine) => FineSearchHit(users, f, term)
  }

  /** Applies the status filter, then the category filter, then, for a non-empty
      search, the member search; the result lists, in order, exactly the fines
      that pass all three. */
  function FilterFines(fines: seq<Fine>, users: seq<User>, status: Choice<FineStatus>,
                       category: Choice<FineCategory>, search: string): (r: seq<Fine>)
    ensures IsSubsequence(r, fines)
    ensures forall i :: 0 <= i < |fines| ==>
      (fines[i] in r <==>
        Admits(status, fines[i].status) && Admits(category, fines[i].category)
        && (search == [] || FineSearchHit(users, fines[i], search)))
    ensures forall f ::
      multiset(r)[f] == (if Admits(status, f.status) && Admits(category, f.category)
                            && (search == [] || FineSearchHit(users, f, search))
      then multiset(fines)[f] else 0)
  {
    var a := if status.All? then fines else Filter(fines, StatusQuery(status));
    var b := if category.All? then a else Filter(a, CategoryQuery(category));
    var r := if search != [] then Filter(b, SearchQuery(users, search)) else b;
    assert IsSubsequence(a, fines) by {
      if status.All? { SubsequenceReflexive(fines); }
    }
    assert IsSubsequence(b, a) by {
      if category.All? { SubsequenceReflexive(a); }
    }
    assert IsSubsequence(r, b) by {
      if search == [] { SubsequenceReflexive(b); }
    }
    SubsequenceTransitive(b, a, fines);
    SubsequenceTransitive(r, b, fines);
    forall f
      ensures multiset(r)[f] ==
        if Admits(status, f.status) && Admits(category, f.category)
           && (search == [] || FineSearchHit(users, f, search))
        then multiset(fines)[f] else 0
    {
      assert multiset(a)[f] == if Admits(status, f.status) then multiset(fines)[f] else 0 by {
        if !status.All? { FilterCount(fines, StatusQuery(status), f); }
      }
      assert multiset(b)[f] == if Admits(category, f.category) then multiset(a)[f] else 0 by {
        if !category.All? { FilterCount(a, CategoryQuery(category), f); }
      }
      assert multiset(r)[f] == if search == [] || FineSearchHit(users, f, search) then multiset(b)[f] else 0 by {
        if search != [] { FilterCount(b, SearchQuery(users, search), f); }
      }
    }
    forall i | 0 <= i < |fines|
      ensures fines[i] in r <==>
        Admits(status, fines[i].status) && Admits(category, fines[i].category)
        && (search == [] || FineSearchHit(users, fines[i], search))
    {
      assert fines[i] in multiset(fines);
    }
    r
  }

  /** With a non-empty search, a fine whose member id matches no user is never listed. */
  lemma UnknownMemberNeverFound(fines: seq<Fine>, users: seq<User>, status: Choice<FineStatus>,
                                category: Choice<FineCategory>, search: string, i: int)
    requires 0 <= i < |fines| && search != []
    requires forall j :: 0 <= j < |users| ==> users[j].id != fines[i].memberId
    ensures fines[i] !in FilterFines(fines, users, status, category, search)
  {
  }

  // ---------------------------------------------------------------------------
  // Member picker

  /** A user matches the picker's query when `first last` or the member number
      contains it, ignoring case. */
  predicate PickerHit(u: User, query: string) {
    ContainsFolded(u.firstName + " " + u.lastName, query)
    || (u.memberNumber.Some? && ContainsFolded(u.memberNumber.value, query))
  }

  function PickerQuery(query: string): User -> bool {
    (u: User) => PickerHit(u, query)
  }

  /** The picker lists nothing for an empty query, and otherwise, in order,
      exactly the users that match it. */
  function MemberSearchResults(users: seq<User>, query: string): (r: seq<User>)
    ensures query == [] ==> r == []
    ensures query != [] ==> IsSubsequence(r, users)
    ensures query != [] ==> forall i :: 0 <= i < |users| ==> (users[i] in r <==> PickerHit(users[i], query))
    ensures query != [] ==> forall u :: multiset(r)[u] == if PickerHit(u, query) then multiset(users)[u] else 0
  {
    if query == [] then []
    else
      FilterMultiplicity(users, PickerQuery(query));
      Filter(users, PickerQuery(query))
  }

  // ---------------------------------------------------------------------------
  // The page's state

  /** The new-fine form; `amount` is the text typed. */
  datatype FineDraft = FineDraft(memberId: string, category: FineCategory, amount: string, description: string)

  const EmptyDraft := FineDraft("", LatePayment, "", "")

  /** The fine issued from a draft: identified by `fine-<milliseconds>`, pending,
      unpaid. `amount` is the value of `parseFloat` on the draft's text. */
  function IssuedFine(draft: FineDraft, amount: int, millis: nat, now: string): (f: Fine)
    ensures f.id == "fine-" + DecimalString(millis)
    ensures f.status == FineStatus.Pending && f.datePaid.None? && f.dateIssued == now
    ensures f.memberId == draft.memberId && f.category == draft.category
    ensures f.description == draft.description && f.amount == amount
  {
    Fine.Fine("fine-" + DecimalString(millis), draft.memberId, draft.category, amount, draft.description,
         now, None, FineStatus.Pending)
  }

  class FinesPage {
    var fines: seq<Fine>
    var selected: Option<Fine>
    var showPayModal: bool
    var showWaiveModal: bool
    var showNewFineModal: bool
    var draft: FineDraft
    var memberSearch: string

    /** The page once the loader has delivered `loaded`. */
    constructor(loaded: seq<Fine>)
      ensures fines == loaded && selected.None? && draft == EmptyDraft && memberSearch == []
      ensures !showPayModal && !showWaiveModal && !showNewFineModal
    {
      fines := loaded;
      selected := None;
      showPayModal := false;
      showWaiveModal := false;
      showNewFineModal := false;
      draft := EmptyDraft;
      memberSearch := [];
    }

    /** Records payment of the selected fine at `now`; with no selection nothing
        changes. */
    method RecordPayment(now: string)
      modifies this
      ensures old(selected).None? ==>
        fines == old(fines) && selected == old(selected) && showPayModal == old(showPayModal)
      ensures old(selected).Some? ==>
        fines == PayById(old(fines), old(selected).value.id, now) && selected.None? && !showPayModal
      ensures showWaiveModal == old(showWaiveModal) && showNewFineModal == old(showNewFineModal)
      ensures draft == old(draft) && memberSearch == old(memberSearch)
    {
      if selected.None? {
        return;
      }
      fines := PayById(fines, selected.value.id, now);
      showPayModal := false;
      selected := None;
    }

    /** Waives the selected fine; with no selection nothing changes. */
    method Waive()
      modifies this
      ensures old(selected).None? ==>
        fines == old(fines) && selected == old(selected) && showWaiveModal == old(showWaiveModal)
      ensures old(selected).Some? ==>
        fines == WaiveById(old(fines), old(selected).value.id) && selected.None? && !showWaiveModal
      ensures showPayModal == old(showPayModal) && showNewFineModal == old(showNewFineModal)
      ensures draft == old(draft) && memberSearch == old(memberSearch)
    {
      if selected.None? {
        return;
      }
      fines := WaiveById(fines, selected.value.id);
      showWaiveModal := false;
      selected := None;
    }

    /** Issues the drafted fine in front of the ledger and resets the form. The
        amount input is `required`: while its text is empty the browser does not
        submit the form, and nothing changes. */
    method Issue(amount: int, millis: nat, now: string)
      modifies this
      ensures old(draft).amount == [] ==>
        fines == old(fines) && draft == old(draft) && memberSearch == old(memberSearch)
        && showNewFineModal == old(showNewFineModal)
      ensures old(draft).amount != [] ==>
        fines == [IssuedFine(old(draft), amount, millis, now)] + old(fines)
        && !showNewFineModal && draft == EmptyDraft && memberSearch == []
      ensures selected == old(selected) && showPayModal == old(showPayModal)
      ensures showWaiveModal == old(showWaiveModal)
    {
      if draft.amount == [] {
        return;
      }
      fines := [IssuedFine(draft, amount, millis, now)] + fines;
      showNewFineModal := false;
      draft := EmptyDraft;
      memberSearch := [];
    }
  }
}
