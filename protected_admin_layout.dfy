/** The admin route guard of src/components/ProtectedAdminLayout.tsx: the plain
    guard's decision plus a check of the signed-in user's role. */
module ProtectedAdminLayout {
  import opened Wrappers
  import opened Types
  import PL = ProtectedLayout

  /** `user?.role`: absent when there is no user or the user has no role. */
  function RoleOf(user: Option<User>): Option<string>
  {
    if user.Some? then user.value.role else None
  }

  /** The admin guard. A missing role is not "ADMIN". */
  function Decide(loading: bool, isAuthenticated: bool, user: Option<User>): (d: PL.Decision)
    ensures loading ==> d == PL.Decision(PL.Spinner, None)
    ensures !loading && !isAuthenticated ==> d == PL.Decision(PL.Nothing, Some(LoginPath))
    ensures !loading && isAuthenticated && RoleOf(user) != Some(AdminRole) ==> d == PL.Decision(PL.Nothing, Some(DashboardPath))
    ensures d.view == PL.Shell <==> !loading && isAuthenticated && RoleOf(user) == Some(AdminRole)
    ensures d.view == PL.Shell <==> d.view != PL.Spinner && d.redirect == None
  {
    var redirect :=
      if loading then None
      else if !isAuthenticated then Some(LoginPath)
      else if RoleOf(user) != Some(AdminRole) then Some(DashboardPath)
      else None;
    if loading then PL.Decision(PL.Spinner, redirect)
    else if !isAuthenticated || RoleOf(user) != Some(AdminRole) then PL.Decision(PL.Nothing, redirect)
    else PL.Decision(PL.Shell, redirect)
  }

  /** The admin guard is the plain guard with one more condition: whenever it
      shows the protected content the plain guard does too, and for an
      administrator the two decide alike. */
  lemma AdminGuardRefinesPlainGuard(loading: bool, isAuthenticated: bool, user: Option<User>)
    ensures Decide(loading, isAuthenticated, user).view == PL.Shell ==> PL.Decide(loading, isAuthenticated).view == PL.Shell
    ensures RoleOf(user) == Some(AdminRole) ==> Decide(loading, isAuthenticated, user) == PL.Decide(loading, isAuthenticated)
    ensures PL.Decide(loading, isAuthenticated).redirect.Some? ==> Decide(loading, isAuthenticated, user).redirect == PL.Decide(loading, isAuthenticated).redirect
  {
  }

  /** A signed-in "USER" is turned away to the dashboard and an "ADMIN" is let
      in; with no user at all the guard never shows the content. */
  lemma RoleDecides(u: User)
    ensures u.role == Some(UserRole) ==> Decide(false, true, Some(u)) == PL.Decision(PL.Nothing, Some(DashboardPath))
    ensures u.role == Some(AdminRole) ==> Decide(false, true, Some(u)) == PL.Decision(PL.Shell, None)
    ensures forall loading, isAuthenticated :: Decide(loading, isAuthenticated, None).view != PL.Shell
  {
  }
}
