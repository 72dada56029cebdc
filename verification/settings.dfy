/**
  The settings page (src/pages/admin/SettingsPage.tsx): the permission catalogue,
  the role-to-permission lists, the check that ticks a permission box, the
  user-management search and the dispatch from the active tab to its panel.
*/
module Settings {
  import opened Domain
  import opened Text
  import opened Seqs

  // ---------------------------------------------------------------------------
  // Permission catalogue and role lists

  /** One entry of a permission group: its key and its caption. */
  datatype Permission = Permission(key: string, caption: string)

  /** A permission group: its name and its entries, in declaration order. */
  datatype Group = Group(name: string, perms: seq<Permission>)

  const DashboardPerms: seq<Permission> := [Permission("view", "View Dashboard")]
  const MembersPerms: seq<Permission> := [Permission("view", "View Members"), Permission("create", "Create Members"),
    Permission("edit", "Edit Members"), Permission("delete", "Delete Members")]
  const LoansPerms: seq<Permission> := [Permission("view", "View Loans"), Permission("create", "Create Loans"),
    Permission("approve", "Approve Loans"), Permission("disburse", "Disburse Loans")]
  const DepositsPerms: seq<Permission> := [Permission("view", "View Deposits"), Permission("create", "Create Deposits")]
  const FinesPerms: seq<Permission> := [Permission("view", "View Fines"), Permission("create", "Create Fines"),
    Permission("waive", "Waive Fines")]
  const ReportsPerms: seq<Permission> := [Permission("view", "View Reports"), Permission("generate", "Generate Reports")]
  const SettingsPerms: seq<Permission> := [Permission("view", "View Settings"), Permission("manageUsers", "Manage Users"),
    Permission("manageRoles", "Manage Roles"), Permission("manageConfig", "Manage SACCO Config")]

  const Catalogue: seq<Group> := [
    Group("dashboard", DashboardPerms), Group("members", MembersPerms), Group("loans", LoansPerms),
    Group("deposits", DepositsPerms), Group("fines", FinesPerms), Group("reports", ReportsPerms),
    Group("settings", SettingsPerms)
  ]

  /** `Object.keys(p)` of one group. */
  function Keys(perms: seq<Permission>): (ks: seq<string>)
    ensures |ks| == |perms|
    ensures forall i :: 0 <= i < |ks| ==> ks[i] == perms[i].key
  {
    if perms == [] then [] else [perms[0].key] + Keys(perms[1..])
  }

  /** `Object.values(permissions).flatMap(p => Object.keys(p))`: the list given to
      the Admin role, made of the bare keys of every group. */
  function AllKeys(groups: seq<Group>): (ks: seq<string>)
    ensures forall j :: 0 <= j < |ks| ==>
      exists g, i :: 0 <= g < |groups| && 0 <= i < |groups[g].perms| && ks[j] == groups[g].perms[i].key
    ensures forall g, i :: 0 <= g < |groups| && 0 <= i < |groups[g].perms| ==> groups[g].perms[i].key in ks
  {
    if groups == [] then []
    else
      var head := Keys(groups[0].perms);
      var tail := AllKeys(groups[1..]);
      var ks := head + tail;
      forall j | 0 <= j < |ks|
        ensures exists g, i :: 0 <= g < |groups| && 0 <= i < |groups[g].perms| && ks[j] == groups[g].perms[i].key
      {
        if j < |head| {
          assert ks[j] == groups[0].perms[j].key;
        } else {
          assert ks[j] == tail[j - |head|];
          var g, i :| 0 <= g < |groups[1..]| && 0 <= i < |groups[1..][g].perms| && tail[j - |head|] == groups[1..][g].perms[i].key;
          assert groups[1..][g] == groups[g + 1];
        }
      }
      forall g, i | 0 <= g < |groups| && 0 <= i < |groups[g].perms|
        ensures groups[g].perms[i].key in ks
      {
        if g == 0 {
          assert ks[i] == groups[0].perms[i].key;
        } else {
          assert groups[1..][g - 1] == groups[g];
          assert groups[g].perms[i].key in tail;
        }
      }
      ks
  }

  /** Flattening keeps the group order: the keys of a list of groups are the
      keys of its first part followed by those of the rest. */
  lemma {:induction false} AllKeysConcat(a: seq<Group>, b: seq<Group>)
    ensures AllKeys(a + b) == AllKeys(a) + AllKeys(b)
  {
    if a == [] {
      assert a + b == b;
    } else {
      assert (a + b)[1..] == a[1..] + b;
      AllKeysConcat(a[1..], b);
    }
  }

  /** A single group flattens to its own keys. */
  lemma AllKeysSingle(g: Group)
    ensures AllKeys([g]) == Keys(g.perms)
  {
    assert [g][1..] == [];
  }

  /** The identifier a permission box looks up: `${group}.${key}`. */
  function PermissionId(group: string, key: string): string {
    group + "." + key
  }

  /** `roles[role].includes(`${group}.${key}`)`: whether the box is ticked. */
  predicate Checked(granted: seq<string>, group: string, key: string) {
    PermissionId(group, key) in granted
  }

  const Manager: seq<string> := ["dashboard.view", "members.view", "members.create", "members.edit",
    "loans.view", "loans.approve", "deposits.view", "fines.view", "reports.view", "settings.view"]
  const LoanOfficer: seq<string> := ["dashboard.view", "members.view", "loans.view", "loans.create"]
  const Cashier: seq<string> := ["dashboard.view", "deposits.view", "deposits.create", "fines.view"]
  const MemberServices: seq<string> := ["dashboard.view", "members.view", "members.create"]
  const Auditor: seq<string> := ["dashboard.view", "members.view", "loans.view", "deposits.view",
    "fines.view", "reports.view"]

  /** `roles[role]`: the list a role of the table grants; a name outside the
      table grants nothing. */
  function Granted(role: string): seq<string> {
    if role == "Admin" then AllKeys(Catalogue)
    else if role == "Manager" then Manager
    else if role == "Loan Officer" then LoanOfficer
    else if role == "Cashier" then Cashier
    else if role == "Member Services" then MemberServices
    else if role == "Auditor" then Auditor
    else []
  }

  /** No key of the group holds a dot. */
  predicate Plain(perms: seq<Permission>) {
    forall i :: 0 <= i < |perms| ==> '.' !in perms[i].key
  }

  // One small proof per group keeps each string check cheap.
  lemma DashboardPlain() ensures Plain(DashboardPerms) {}
  lemma MembersPlain() ensures Plain(MembersPerms) {}
  lemma LoansPlain() ensures Plain(LoansPerms) {}
  lemma DepositsPlain() ensures Plain(DepositsPerms) {}
  lemma FinesPlain() ensures Plain(FinesPerms) {}
  lemma ReportsPlain() ensures Plain(ReportsPerms) {}
  lemma SettingsPlain() ensures Plain(SettingsPerms) {}

  /** No key of the catalogue holds a dot. */
  lemma CatalogueKeysHaveNoDot(g: int, i: int)
    requires 0 <= g < |Catalogue| && 0 <= i < |Catalogue[g].perms|
    ensures '.' !in Catalogue[g].perms[i].key
  {
    if g == 0 { DashboardPlain(); }
    else if g == 1 { MembersPlain(); }
    else if g == 2 { LoansPlain(); }
    else if g == 3 { DepositsPlain(); }
    else if g == 4 { FinesPlain(); }
    else if g == 5 { ReportsPlain(); }
    else { SettingsPlain(); }
  }

  /** Groups whose keys hold no dot give a flattened list without dots. */
  lemma FlattenedKeysHaveNoDot(groups: seq<Group>, j: int)
    requires forall g, i :: 0 <= g < |groups| && 0 <= i < |groups[g].perms| ==> '.' !in groups[g].perms[i].key
    requires 0 <= j < |AllKeys(groups)|
    ensures '.' !in AllKeys(groups)[j]
  {
    var g, i :| 0 <= g < |groups| && 0 <= i < |groups[g].perms| && AllKeys(groups)[j] == groups[g].perms[i].key;
  }

  /** Every entry of the Admin list is a bare key without a dot. */
  lemma AdminEntriesHaveNoDot(j: int)
    requires 0 <= j < |AllKeys(Catalogue)|
    ensures '.' !in AllKeys(Catalogue)[j]
  {
    forall g, i | 0 <= g < |Catalogue| && 0 <= i < |Catalogue[g].perms|
      ensures '.' !in Catalogue[g].perms[i].key
    {
      CatalogueKeysHaveNoDot(g, i);
    }
    FlattenedKeysHaveNoDot(Catalogue, j);
  }

  /** The Admin role holds every key, but as bare names, so no box of the
      role-management grid is ever ticked for it. */
  lemma AdminNeverChecked(group: string, key: string)
    ensures !Checked(Granted("Admin"), group, key)
  {
    var id := PermissionId(group, key);
    assert id[|group|] == '.';
    if id in AllKeys(Catalogue) {
      var j :| 0 <= j < |AllKeys(Catalogue)| && AllKeys(Catalogue)[j] == id;
      AdminEntriesHaveNoDot(j);
      assert false;
    }
  }

  /** The Manager may approve loans but not disburse them; the Loan Officer may
      create loans but not approve them. */
  lemma LoanPermissionsSplit()
    ensures Checked(Granted("Manager"), "loans", "approve") && !Checked(Granted("Manager"), "loans", "disburse")
    ensures Checked(Granted("Loan Officer"), "loans", "create") && !Checked(Granted("Loan Officer"), "loans", "approve")
  {
    assert Granted("Manager") == Manager && Granted("Loan Officer") == LoanOfficer;
    assert Manager[5] == PermissionId("loans", "approve");
    var disburse := PermissionId("loans", "disburse");
    forall i | 0 <= i < |Manager| ensures Manager[i] != disburse {
      if |Manager[i]| == |disburse| {
        assert Manager[i][0] != disburse[0];
      }
    }
    assert LoanOfficer[3] == PermissionId("loans", "create");
  }

  // ---------------------------------------------------------------------------
  // User management search

  datatype AppUser = AppUser(id: string, name: string, email: string, role: string, status: string)

  predicate UserMatches(u: AppUser, term: string) {
    ContainsFolded(u.name, term) || ContainsFolded(u.email, term)
  }

  function UserQuery(term: string): AppUser -> bool {
    u => UserMatches(u, term)
  }

  /** The users listed for a search term: those whose name or email contains it,
      ignoring case, in their original order. */
  function FilterUsers(users: seq<AppUser>, term: string): (r: seq<AppUser>)
    ensures IsSubsequence(r, users)
    ensures forall i :: 0 <= i < |users| ==> (users[i] in r <==> UserMatches(users[i], term))
    ensures forall u :: multiset(r)[u] == if UserMatches(u, term) then multiset(users)[u] else 0
  {
    FilterMultiplicity(users, UserQuery(term));
    Filter(users, UserQuery(term))
  }

  /** An empty search term lists every user, in order. */
  lemma EmptyTermListsEveryone(users: seq<AppUser>)
    ensures FilterUsers(users, []) == users
  {
    forall u | u in users ensures UserQuery([])(u) {
      EmptyQueryMatches(u.name);
    }
    FilterKeepsAll(users, UserQuery([]));
  }

  // ---------------------------------------------------------------------------
  // Tab dispatch

  datatype Panel = UserManagement | RoleManagement | SaccoConfiguration | SecuritySettings
                 | NotificationSettings | IntegrationSettings | DataManagement

  /** The ids of the tab bar, in order. */
  const TabIds: seq<string> := ["users", "roles", "sacco", "security", "notifications", "integrations", "data"]

  /** The panel the page shows for the active tab; any other id shows nothing. */
  function RenderContent(tab: string): (p: Option<Panel>)
    ensures p.Some? <==> tab in TabIds
  {
    if tab == "users" then Some(UserManagement)
    else if tab == "roles" then Some(RoleManagement)
    else if tab == "sacco" then Some(SaccoConfiguration)
    else if tab == "security" then Some(SecuritySettings)
    else if tab == "notifications" then Some(NotificationSettings)
    else if tab == "integrations" then Some(IntegrationSettings)
    else if tab == "data" then Some(DataManagement)
    else None
  }

  /** Each tab of the bar has its own panel: the dispatch is one-to-one on the tab ids. */
  lemma TabsHaveDistinctPanels(i: int, j: int)
    requires 0 <= i < |TabIds| && 0 <= j < |TabIds| && i != j
    ensures RenderContent(TabIds[i]) != RenderContent(TabIds[j])
  {
  }
}
