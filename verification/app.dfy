/**
  Route guarding in the application shell (src/App.tsx): the decision the
  protected-route wrapper takes from the session's loading flag, the signed-in
  user and the role a route requires, the route table's required roles, and the
  redirect of the root path.
*/
module Routing {
  import opened Domain

  /** What the guard puts on screen. */
  datatype Outcome = Spinner | Redirect(path: string) | Render

  /** The landing page of a signed-in user: `/admin` for administrators and
      `/member` for every other role. */
  function RoleHome(r: Role): (path: string)
    ensures path == "/admin" <==> r == Admin
    ensures path == "/admin" || path == "/member"
  {
    if r == Admin then "/admin" else "/member"
  }

  /** The protected-route decision. `requiredRole` is the optional string prop; an
      absent or empty one is falsy and imposes no role. */
  function Guard(isLoading: bool, user: Option<Role>, requiredRole: Option<string>): (o: Outcome)
    ensures isLoading ==> o == Spinner
    ensures !isLoading && user.None? ==> o == Redirect("/login")
    ensures o == Render <==>
      !isLoading && user.Some? &&
      (requiredRole.None? || requiredRole.value == "" || RoleName(user.value) == requiredRole.value)
    ensures o.Redirect? && user.Some? ==> o.path == RoleHome(user.value)
  {
    if isLoading then Spinner
    else if user.None? then Redirect("/login")
    else if requiredRole.Some? && requiredRole.value != "" && RoleName(user.value) != requiredRole.value then
      Redirect(RoleHome(user.value))
    else Render
  }

  /** A route of the table: its path and, for a protected one, the role whose
      name it passes to the guard. */
  datatype Route = Route(path: string, guarded: bool, requiredRole: Role)

  const AdminPaths: seq<string> := [
    "/admin", "/admin/onboarding", "/admin/fines", "/admin/checkoffs", "/admin/e-wallets",
    "/admin/reports", "/admin/statements", "/admin/communications", "/admin/investments",
    "/admin/income-expense", "/admin/settings", "/admin/members", "/admin/deposits",
    "/admin/loans", "/admin/transactions", "/admin/staff"
  ]

  const MemberPaths: seq<string> := [
    "/member", "/member/deposits", "/member/accounts", "/member/loans",
    "/member/transactions", "/member/statements", "/member/communications",
    "/member/e-wallet", "/member/profile"
  ]

  /** The protected routes of one area, all guarded by the same role. */
  function Guarded(paths: seq<string>, role: Role): (rs: seq<Route>)
    ensures |rs| == |paths|
    ensures forall i :: 0 <= i < |rs| ==> rs[i] == Route(paths[i], true, role)
  {
    seq(|paths|, i requires 0 <= i < |paths| => Route(paths[i], true, role))
  }

  /** The route table: the open login page, then the admin and member areas. */
  function Routes(): seq<Route> {
    [Route("/login", false, Member)] + Guarded(AdminPaths, Admin) + Guarded(MemberPaths, Member)
  }

  /** The prop the guard of a route receives. */
  function RequiredOf(rt: Route): Option<string> {
    if rt.guarded then Some(RoleName(rt.requiredRole)) else None
  }

  /** Every protected route requires either the admin or the member role. */
  lemma ProtectedRoutesRequireAdminOrMember(i: int)
    requires 0 <= i < |Routes()| && Routes()[i].guarded
    ensures Routes()[i].requiredRole != Staff
  {
    var login := [Route("/login", false, Member)];
    var admin := Guarded(AdminPaths, Admin);
    var member := Guarded(MemberPaths, Member);
    assert Routes() == login + admin + member;
    if i < 1 + |admin| {
      assert Routes()[i] == admin[i - 1];
    } else {
      assert Routes()[i] == member[i - 1 - |admin|];
    }
  }

  /** A staff account is turned away by every protected route, always towards
      `/member`, and the `/member` route turns it away again to itself: for staff
      the guard never renders a page, only a redirect loop. */
  lemma {:induction false} StaffNeverRendered(i: int)
    requires 0 <= i < |Routes()| && Routes()[i].guarded
    ensures Guard(false, Some(Staff), RequiredOf(Routes()[i])) == Redirect("/member")
    ensures Guard(false, Some(Staff), Some("member")) == Redirect("/member")
  {
    ProtectedRoutesRequireAdminOrMember(i);
  }

  /** The element at `/`: the signed-in user's home, or the login page. */
  function RootRedirect(user: Option<Role>): (path: string)
    ensures user.None? <==> path == "/login"
    ensures user.Some? ==> path == RoleHome(user.value)
  {
    if user.Some? then RoleHome(user.value) else "/login"
  }

  /** Administrators and members sent from `/` arrive at a page their guard
      renders; staff are sent to `/member`, which does not render for them. */
  lemma RootRedirectLandsOnRenderedHome(r: Role)
    ensures r != Staff ==> Guard(false, Some(r), Some(RoleName(r))) == Render
    ensures RootRedirect(Some(r)) == (if r == Admin then AdminPaths[0] else MemberPaths[0])
    ensures r == Staff ==> Guard(false, Some(r), Some("member")) != Render
  {
  }
}
