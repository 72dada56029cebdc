/**
  The member register (src/pages/admin/MembersPage.tsx): the search and status
  filter over its constant register, the per-row action menu and the status
  counts under the table.
*/
module Members {
  import opened Domain
  import opened Text
  import opened Seqs

  /** A member row; savings in whole shillings. */
  datatype Member = Member(
    id: string, memberNumber: string, firstName: string, lastName: string, email: string,
    phoneNumber: string, joinDate: string, status: MemberStatus, totalSavings: int, activeLoans: int)

  const MockMembers: seq<Member> := [
    Member.Member("1", "KS001", "John", "Doe", "john.doe@gmail.com", "+256702345678", "2021-03-20",
                  MemberStatus.Active, 2450000, 2),
    Member.Member("2", "KS002", "Sarah", "Nakato", "sarah.nakato@gmail.com", "+256703456789", "2021-05-15",
                  MemberStatus.Active, 1800000, 1),
    Member.Member("3", "KS003", "Peter", "Ssebugwawo", "peter.ssebugwawo@gmail.com", "+256704567890",
                  "2020-11-10", MemberStatus.Active, 3200000, 0),
    Member.Member("4", "KS004", "Mary", "Johnson", "mary.johnson@gmail.com", "+256705678901", "2022-01-08",
                  MemberStatus.Inactive, 950000, 1),
    Member.Member("5", "KS005", "David", "Mukasa", "david.mukasa@gmail.com", "+256706789012", "2021-09-22",
                  MemberStatus.Suspended, 1200000, 3)
  ]

  // ---------------------------------------------------------------------------
  // Filter

  /** First name, last name, member number or email contains the term,
      ignoring case. */
  predicate SearchHit(m: Member, term: string) {
    ContainsFolded(m.firstName, term) || ContainsFolded(m.lastName, term)
    || ContainsFolded(m.memberNumber, term) || ContainsFolded(m.email, term)
  }

  function MemberQuery(term: string, status: Choice<MemberStatus>): Member -> bool {
    (m: Member) => SearchHit(m, term) && Admits(status, m.status)
  }

  /** The rows shown: in order, exactly the members matching the search and
      the status filter. */
  function FilterMembers(members: seq<Member>, term: string, status: Choice<MemberStatus>): (r: seq<Member>)
    ensures IsSubsequence(r, members)
    ensures forall i :: 0 <= i < |members| ==>
      (members[i] in r <==> SearchHit(members[i], term) && Admits(status, members[i].status))
    ensures forall m ::
      multiset(r)[m] == (if SearchHit(m, term) && Admits(status, m.status) then multiset(members)[m] else 0)
  {
    FilterMultiplicity(members, MemberQuery(term, status));
    Filter(members, MemberQuery(term, status))
  }

  /** An empty search with the filter on 'all' shows every member. */
  lemma NoFilterShowsEverything(members: seq<Member>)
    ensures FilterMembers(members, [], All) == members
  {
    forall m | m in members ensures MemberQuery([], All)(m) {
      EmptyQueryMatches(m.firstName);
    }
    FilterKeepsAll(members, MemberQuery([], All));
  }

  // ---------------------------------------------------------------------------
  // The action menu

  /** The menu button of row `id`: it closes that row's open menu, otherwise
      opens that row's menu in place of any other. */
  function Toggled(open: Option<string>, id: string): (r: Option<string>)
    ensures r == Some(id) <==> open != Some(id)
    ensures r.None? <==> open == Some(id)
  {
    if open == Some(id) then None else Some(id)
  }

  /** Pressing the same button twice closes the menu, unless it was that
      row's menu that was open to begin with. */
  lemma ToggleTwice(open: Option<string>, id: string)
    ensures Toggled(Toggled(open, id), id) == (if open == Some(id) then open else None)
  {
  }

  /** Pressing another row's button moves the menu to that row. */
  lemma ToggleOther(a: string, b: string)
    requires a != b
    ensures Toggled(Some(a), b) == Some(b)
  {
  }

  /** The register page: which row's action menu is open, if any. */
  class MembersPage {
    var openMenu: Option<string>

    constructor()
      ensures openMenu.None?
    {
      openMenu := None;
    }

    method ToggleMenu(id: string)
      modifies this
      ensures openMenu == Toggled(old(openMenu), id)
    {
      openMenu := Toggled(openMenu, id);
    }
  }

  // ---------------------------------------------------------------------------
  // Status counts

  function HasStatus(s: MemberStatus): Member -> bool { (m: Member) => m.status == s }

  datatype Counts = Counts(active: nat, inactive: nat, suspended: nat, total: nat)

  /** The number of members in a status, counted one member at a time. */
  function CountStatus(members: seq<Member>, s: MemberStatus): nat {
    if members == [] then 0 else (if members[0].status == s then 1 else 0) + CountStatus(members[1..], s)
  }

  lemma {:induction false} CountStatusIsFilterLength(members: seq<Member>, s: MemberStatus)
    ensures CountStatus(members, s) == |Filter(members, HasStatus(s))|
  {
    if members != [] {
      CountStatusIsFilterLength(members[1..], s);
    }
  }

  /** The four cards: members per status and in total; the three statuses add
      up to the total. */
  function ComputeCounts(members: seq<Member>): (c: Counts)
    ensures c.active == |Filter(members, HasStatus(MemberStatus.Active))|
    ensures c.inactive == |Filter(members, HasStatus(Inactive))|
    ensures c.suspended == |Filter(members, HasStatus(Suspended))|
    ensures c.total == |members| && c.active + c.inactive + c.suspended == c.total
  {
    CountStatusIsFilterLength(members, MemberStatus.Active);
    CountStatusIsFilterLength(members, Inactive);
    CountStatusIsFilterLength(members, Suspended);
    CountPartition3(members, HasStatus(MemberStatus.Active), HasStatus(Inactive), HasStatus(Suspended));
    Counts(CountStatus(members, MemberStatus.Active), CountStatus(members, Inactive), CountStatus(members, Suspended), |members|)
  }

  /** On the register: three active, one inactive, one suspended, five in all. */
  lemma MockCounts()
    ensures ComputeCounts(MockMembers) == Counts(3, 1, 1, 5)
  {
    assert CountStatus(MockMembers, MemberStatus.Active) == 3;
    assert CountStatus(MockMembers, Inactive) == 1;
    assert CountStatus(MockMembers, Suspended) == 1;
  }
}
