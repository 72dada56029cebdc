/**
  The income and expense ledger (src/pages/admin/IncomeExpensePage.tsx):
  adding an entry from the modal form, deleting an entry after confirmation,
  the type/category filter and the income, expense and net-profit summary.
*/
module IncomeExpense {
  import opened Domain
  import opened Text
  import opened Seqs

  datatype Flow = Income | Expense
  datatype EntryStatus = Completed | Pending | Failed

  /** A ledger entry; `amount` in whole shillings. */
  datatype Entry = Entry(
    id: string, date: string, description: string, category: string, flow: Flow,
    amount: int, status: EntryStatus)

  /** The modal form: an entry without its id. */
  datatype Draft = Draft(
    date: string, description: string, category: string, flow: Flow, amount: int, status: EntryStatus)

  /** The form as (re)opened on `today`: income, completed, amount 0. */
  function EmptyDraft(today: string): Draft {
    Draft(today, [], [], Income, 0, EntryStatus.Completed)
  }

  /** The add handler accepts a draft with a description, a category and a
      positive amount; otherwise it alerts and changes nothing. */
  predicate DraftAccepted(d: Draft) {
    d.description != [] && d.category != [] && d.amount > 0
  }

  /** The id given to an entry added to a ledger of `n` entries: "txn-(n+1)". */
  function NewId(n: nat): (id: string)
    ensures |id| > 4 && id[..4] == "txn-"
  {
    "txn-" + DecimalString(n + 1)
  }

  /** Ledgers of different lengths hand out different ids. */
  lemma NewIdInjective(m: nat, n: nat)
    requires NewId(m) == NewId(n)
    ensures m == n
  {
    PrefixedIdInjective("txn-", m + 1, n + 1);
  }

  /** The entry added from a draft: the draft's fields under the new id. */
  function WithId(d: Draft, id: string): (e: Entry)
    ensures e.id == id && DraftOf(e) == d
  {
    Entry(id, d.date, d.description, d.category, d.flow, d.amount, d.status)
  }

  /** An entry without its id. */
  function DraftOf(e: Entry): Draft {
    Draft(e.date, e.description, e.category, e.flow, e.amount, e.status)
  }

  /** Giving an entry's draft its id back restores the entry. */
  lemma DraftRoundTrip(e: Entry)
    ensures WithId(DraftOf(e), e.id) == e
  {
  }

  // ---------------------------------------------------------------------------
  // Delete

  function IdIsNot(id: string): Entry -> bool { (e: Entry) => e.id != id }

  /** The ledger after deleting `id`: every entry with that id is gone, every
      other entry stays, in its order. */
  function DeleteById(entries: seq<Entry>, id: string): (r: seq<Entry>)
    ensures IsSubsequence(r, entries)
    ensures forall e :: e in r ==> e.id != id
    ensures forall i :: 0 <= i < |entries| && entries[i].id != id ==> entries[i] in r
    ensures forall e :: multiset(r)[e] == if e.id != id then multiset(entries)[e] else 0
  {
    FilterMultiplicity(entries, IdIsNot(id));
    Filter(entries, IdIsNot(id))
  }

  /** Deleting any entry but the one holding the newest id "txn-n" makes the
      next added entry reuse that id: afterwards two entries share it. */
  lemma {:induction false} NextIdCollidesAfterDelete(entries: seq<Entry>, k: int, m: int)
    requires 0 <= k < |entries| && 0 <= m < |entries|
    requires forall i, j :: 0 <= i < j < |entries| ==> entries[i].id != entries[j].id
    requires entries[m].id == NewId(|entries| - 1) && k != m
    ensures entries[m] in DeleteById(entries, entries[k].id)
    ensures NewId(|DeleteById(entries, entries[k].id)|) == entries[m].id
  {
    FilterDropsOne(entries, k, IdIsNot(entries[k].id));
  }

  // ---------------------------------------------------------------------------
  // Filter

  predicate Matches(e: Entry, flow: Choice<Flow>, category: Choice<string>) {
    Admits(flow, e.flow) && Admits(category, e.category)
  }

  function EntryQuery(flow: Choice<Flow>, category: Choice<string>): Entry -> bool {
    (e: Entry) => Matches(e, flow, category)
  }

  /** The rows shown: in order, exactly the entries whose type and category
      both match, 'all' matching anything. */
  function FilterEntries(entries: seq<Entry>, flow: Choice<Flow>, category: Choice<string>): (r: seq<Entry>)
    ensures IsSubsequence(r, entries)
    ensures forall i :: 0 <= i < |entries| ==>
      (entries[i] in r <==> Admits(flow, entries[i].flow) && Admits(category, entries[i].category))
    ensures forall e ::
      multiset(r)[e] == (if Admits(flow, e.flow) && Admits(category, e.category) then multiset(entries)[e] else 0)
  {
    FilterMultiplicity(entries, EntryQuery(flow, category));
    Filter(entries, EntryQuery(flow, category))
  }

  /** With both filters on 'all' every entry is shown. */
  lemma NoFilterShowsEverything(entries: seq<Entry>)
    ensures FilterEntries(entries, All, All) == entries
  {
    FilterKeepsAll(entries, EntryQuery(All, All));
  }

  // ---------------------------------------------------------------------------
  // Summary

  function Amount(): Entry -> int { (e: Entry) => e.amount }
  function IsFlow(f: Flow): Entry -> bool { (e: Entry) => e.flow == f }

  datatype Summary = Summary(totalIncome: int, totalExpenses: int, netProfit: int)

  /** Income and expenses each sum every entry of their type, whatever its
      status; together they make up the whole ledger, and the net profit is
      their difference. */
  function ComputeSummary(entries: seq<Entry>): (s: Summary)
    ensures s.totalIncome + s.totalExpenses == Sum(entries, Amount())
    ensures s.netProfit == s.totalIncome - s.totalExpenses
    ensures s.totalIncome == SumWhere(entries, IsFlow(Income), Amount())
    ensures s.totalExpenses == SumWhere(entries, IsFlow(Expense), Amount())
  {
    SumPartition2(entries, IsFlow(Income), IsFlow(Expense), Amount());
    SumWhereIsSumOfFilter(entries, IsFlow(Income), Amount());
    SumWhereIsSumOfFilter(entries, IsFlow(Expense), Amount());
    Summary(Sum(Filter(entries, IsFlow(Income)), Amount()),
            Sum(Filter(entries, IsFlow(Expense)), Amount()),
            Sum(Filter(entries, IsFlow(Income)), Amount()) - Sum(Filter(entries, IsFlow(Expense)), Amount()))
  }

  /** Pending and failed entries count like completed ones: ledgers that
      differ only in statuses have the same summary. */
  lemma SummaryIgnoresStatus(entries: seq<Entry>, others: seq<Entry>)
    requires |entries| == |others|
    requires forall i :: 0 <= i < |entries| ==> others[i] == entries[i].(status := others[i].status)
    ensures ComputeSummary(entries) == ComputeSummary(others)
  {
    SumWherePointwise(entries, others, IsFlow(Income), Amount());
    SumWherePointwise(entries, others, IsFlow(Expense), Amount());
  }

  /** Adding an entry moves the net profit by its amount: up for income,
      down for an expense. */
  lemma AddMovesNetProfit(entries: seq<Entry>, e: Entry)
    ensures e.flow == Income ==>
      ComputeSummary([e] + entries).totalIncome == ComputeSummary(entries).totalIncome + e.amount
      && ComputeSummary([e] + entries).totalExpenses == ComputeSummary(entries).totalExpenses
    ensures e.flow == Expense ==>
      ComputeSummary([e] + entries).totalExpenses == ComputeSummary(entries).totalExpenses + e.amount
      && ComputeSummary([e] + entries).totalIncome == ComputeSummary(entries).totalIncome
    ensures ComputeSummary([e] + entries).netProfit
         == ComputeSummary(entries).netProfit + (if e.flow == Income then e.amount else -e.amount)
  {
    assert ([e] + entries)[1..] == entries;
  }

  // ---------------------------------------------------------------------------
  // Page state

  /** The ledger page: the entries, the add modal and its form. */
  class IncomeExpensePage {
    var entries: seq<Entry>
    var modalOpen: bool
    var draft: Draft

    /** The page once the loader has delivered `loaded`, the form dated `today`. */
    constructor(loaded: seq<Entry>, today: string)
      ensures entries == loaded && !modalOpen && draft == EmptyDraft(today)
    {
      entries := loaded;
      modalOpen := false;
      draft := EmptyDraft(today);
    }

    /** The add button of the modal. A rejected draft changes nothing (the
        alert is not modelled); an accepted one is put in front with id
        "txn-(n+1)", the modal closes and the form is reset to `today`. */
    method AddEntry(today: string) returns (accepted: bool)
      modifies this
      ensures accepted <==> DraftAccepted(old(draft))
      ensures !accepted ==> entries == old(entries) && modalOpen == old(modalOpen) && draft == old(draft)
      ensures accepted ==>
        entries == [WithId(old(draft), NewId(|old(entries)|))] + old(entries)
        && !modalOpen && draft == EmptyDraft(today)
    {
      if !DraftAccepted(draft) {
        return false;
      }
      entries := [WithId(draft, NewId(|entries|))] + entries;
      modalOpen := false;
      draft := EmptyDraft(today);
      return true;
    }

    /** The delete button: with the user's confirmation every entry with that
        id is removed; without it nothing changes. */
    method Delete(id: string, confirmed: bool)
      modifies this
      ensures entries == (if confirmed then DeleteById(old(entries), id) else old(entries))
      ensures modalOpen == old(modalOpen) && draft == old(draft)
    {
      if confirmed {
        entries := DeleteById(entries, id);
      }
    }
  }
}
