/**
  The investment portfolio (src/pages/admin/InvestmentsPage.tsx): adding an
  investment from the modal form, the name/type/status filter and the total
  and active portfolio values.
*/
module Investments {
  import opened Domain
  import opened Text
  import opened Seqs

  datatype AssetType = Stocks | Bonds | RealEstate | FixedDeposit
  datatype HoldingStatus = Active | Matured | Liquidated

  /** An investment; `amount` in whole shillings, `returnRate` in percent a year.
      An absent note is the empty text. */
  datatype Investment = Investment(
    id: string, name: string, assetType: AssetType, amount: int, date: string,
    returnRate: real, maturityDate: string, status: HoldingStatus, notes: string)

  /** The modal form: an investment without its id. */
  datatype Draft = Draft(
    name: string, assetType: AssetType, amount: int, date: string,
    returnRate: real, maturityDate: string, status: HoldingStatus, notes: string)

  /** The form as (re)opened on `today`: stocks, active, amount and rate 0. */
  function EmptyDraft(today: string): Draft {
    Draft([], Stocks, 0, today, 0.0, [], HoldingStatus.Active, [])
  }

  // ---------------------------------------------------------------------------
  // Adding

  /** What the add button does with the form: the first failing check decides
      the alert; only a form passing all three is added. */
  datatype AddOutcome = MissingName | InvalidAmount | InvalidRate | Added

  function CheckDraft(d: Draft): (r: AddOutcome)
    ensures r == MissingName <==> d.name == []
    ensures r == InvalidAmount <==> d.name != [] && d.amount <= 0
    ensures r == InvalidRate <==> d.name != [] && d.amount > 0 && d.returnRate <= 0.0
    ensures r == Added <==> d.name != [] && d.amount > 0 && d.returnRate > 0.0
  {
    if d.name == [] then MissingName
    else if d.amount <= 0 then InvalidAmount
    else if d.returnRate <= 0.0 then InvalidRate
    else Added
  }

  /** The id given to an investment added to a portfolio of `n`: "inv-(n+1)". */
  function NewId(n: nat): string {
    "inv-" + DecimalString(n + 1)
  }

  /** An added investment never takes the id of a loaded one, which are
      written "inv" and a number without the dash. */
  lemma NewIdNeverLoadedId(n: nat, k: nat)
    ensures NewId(n) != "inv" + DecimalString(k)
  {
    assert NewId(n)[3] == '-';
    assert ("inv" + DecimalString(k))[3] == DecimalString(k)[0];
  }

  /** The investment added from a draft: the draft's fields under the new id. */
  function WithId(d: Draft, id: string): (inv: Investment)
    ensures inv.id == id && DraftOf(inv) == d
  {
    Investment(id, d.name, d.assetType, d.amount, d.date, d.returnRate, d.maturityDate, d.status, d.notes)
  }

  /** An investment without its id. */
  function DraftOf(inv: Investment): Draft {
    Draft(inv.name, inv.assetType, inv.amount, inv.date, inv.returnRate, inv.maturityDate, inv.status, inv.notes)
  }

  /** Giving an investment's draft its id back restores the investment. */
  lemma DraftRoundTrip(inv: Investment)
    ensures WithId(DraftOf(inv), inv.id) == inv
  {
  }

  // ---------------------------------------------------------------------------
  // Filter

  predicate Matches(inv: Investment, term: string, assetType: Choice<AssetType>, status: Choice<HoldingStatus>) {
    ContainsFolded(inv.name, term) && Admits(assetType, inv.assetType) && Admits(status, inv.status)
  }

  function InvestmentQuery(term: string, assetType: Choice<AssetType>, status: Choice<HoldingStatus>)
    : Investment -> bool
  {
    (inv: Investment) => Matches(inv, term, assetType, status)
  }

  /** The rows shown: in order, exactly the investments whose name contains the
      term ignoring case and whose type and status match. */
  function FilterInvestments(investments: seq<Investment>, term: string, assetType: Choice<AssetType>,
                             status: Choice<HoldingStatus>): (r: seq<Investment>)
    ensures IsSubsequence(r, investments)
    ensures forall i :: 0 <= i < |investments| ==>
      (investments[i] in r <==> ContainsFolded(investments[i].name, term)
                                && Admits(assetType, investments[i].assetType)
                                && Admits(status, investments[i].status))
    ensures forall inv ::
      multiset(r)[inv] == (if ContainsFolded(inv.name, term) && Admits(assetType, inv.assetType) && Admits(status, inv.status)
        then multiset(investments)[inv] else 0)
  {
    FilterMultiplicity(investments, InvestmentQuery(term, assetType, status));
    Filter(investments, InvestmentQuery(term, assetType, status))
  }

  /** An empty search with both filters on 'all' shows every investment. */
  lemma NoFilterShowsEverything(investments: seq<Investment>)
    ensures FilterInvestments(investments, [], All, All) == investments
  {
    forall inv | inv in investments ensures InvestmentQuery([], All, All)(inv) {
      EmptyQueryMatches(inv.name);
    }
    FilterKeepsAll(investments, InvestmentQuery([], All, All));
  }

  // ---------------------------------------------------------------------------
  // Portfolio values

  function Amount(): Investment -> int { (inv: Investment) => inv.amount }
  function IsActive(): Investment -> bool { (inv: Investment) => inv.status == HoldingStatus.Active }

  datatype Stats = Stats(totalInvestments: int, activeInvestments: int)

  /** The total over every investment and the total over the active ones,
      the latter being the amounts of active investments added in order. */
  function ComputeStats(investments: seq<Investment>): (s: Stats)
    ensures s.totalInvestments == Sum(investments, Amount())
    ensures s.activeInvestments == SumWhere(investments, IsActive(), Amount())
  {
    SumWhereIsSumOfFilter(investments, IsActive(), Amount());
    Stats(Sum(investments, Amount()), Sum(Filter(investments, IsActive()), Amount()))
  }

  /** With no negative amounts the active total lies between zero and the
      whole portfolio. */
  lemma ActiveWithinTotal(investments: seq<Investment>)
    requires forall inv :: inv in investments ==> inv.amount >= 0
    ensures 0 <= ComputeStats(investments).activeInvestments <= ComputeStats(investments).totalInvestments
  {
    SumFilterBounded(investments, IsActive(), Amount());
    SumNonNegative(Filter(investments, IsActive()), Amount());
  }

  /** Adding an investment raises the total by its amount, and the active
      total too when it is added as active. */
  lemma AddRaisesTotals(investments: seq<Investment>, inv: Investment)
    ensures ComputeStats([inv] + investments).totalInvestments
         == ComputeStats(investments).totalInvestments + inv.amount
    ensures ComputeStats([inv] + investments).activeInvestments
         == ComputeStats(investments).activeInvestments + (if inv.status == HoldingStatus.Active then inv.amount else 0)
  {
    assert ([inv] + investments)[1..] == investments;
  }

  // ---------------------------------------------------------------------------
  // Page state

  /** The portfolio page: the investments, the add modal and its form. */
  class InvestmentsPage {
    var investments: seq<Investment>
    var addOpen: bool
    var draft: Draft

    /** The page once the loader has delivered `loaded`, the form dated `today`. */
    constructor(loaded: seq<Investment>, today: string)
      ensures investments == loaded && !addOpen && draft == EmptyDraft(today)
    {
      investments := loaded;
      addOpen := false;
      draft := EmptyDraft(today);
    }

    /** The add button of the modal. A form failing a check changes nothing
        but the alert; a passing one is put in front with id "inv-(n+1)", the
        modal closes and the form is reset to `today`. */
    method Add(today: string) returns (outcome: AddOutcome)
      modifies this
      ensures outcome == CheckDraft(old(draft))
      ensures outcome != Added ==>
        investments == old(investments) && addOpen == old(addOpen) && draft == old(draft)
      ensures outcome == Added ==>
        investments == [WithId(old(draft), NewId(|old(investments)|))] + old(investments)
        && !addOpen && draft == EmptyDraft(today)
    {
      outcome := CheckDraft(draft);
      if outcome != Added {
        return;
      }
      investments := [WithId(draft, NewId(|investments|))] + investments;
      addOpen := false;
      draft := EmptyDraft(today);
    }
  }
}
