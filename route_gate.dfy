/** The access gate (src/components/ui/ProtectedRoute.jsx): a four-way
    decision on the identity store's `isLoading`, its `user` and the route's
    `requireAdmin` flag. */
module RouteGate {
  import opened Common
  import MockAuth
  import Directory

  datatype Outcome = Spinner | RedirectToLogin | RedirectToChat | RenderChildren

  function Decide(isLoading: bool, user: Option<MockAuth.SessionUser>, requireAdmin: bool): (o: Outcome)
    ensures isLoading ==> o == Spinner
    ensures o == RedirectToLogin <==> !isLoading && user.None?
    ensures o == RedirectToChat <==> !isLoading && user.Some? && requireAdmin && user.value.role != "admin"
    ensures o == RenderChildren <==> !isLoading && user.Some? && (!requireAdmin || user.value.role == "admin")
  {
    if isLoading then Spinner
    else if user.None? then RedirectToLogin
    else if requireAdmin && user.value.role != "admin" then RedirectToChat
    else RenderChildren
  }

  /** Once loaded, an admin is never redirected, and a signed-in non-admin
      is rendered exactly on routes that do not require an admin. */
  lemma RolesAndRoutes(u: MockAuth.SessionUser, requireAdmin: bool)
    ensures u.role == "admin" ==> Decide(false, Some(u), requireAdmin) == RenderChildren
    ensures u.role != "admin" ==> (Decide(false, Some(u), requireAdmin) == RenderChildren <==> !requireAdmin)
  {
  }

  /** A successful sign-in reaches the admin routes exactly for an admin
      record; the fallback admin passes the admin gate and the fallback
      regular user is sent to the chat. */
  lemma GateAfterLogin(storedUsers: Option<seq<Directory.User>>,
                       storedTeams: Option<seq<Directory.Team>>,
                       email: string, password: string)
    ensures var r := MockAuth.CheckCredentials(storedUsers, storedTeams, email, password);
      r.Success? ==> (Decide(false, Some(r.user), true) == RenderChildren <==> r.user.role == "admin")
    ensures Decide(false, Some(MockAuth.FallbackAdmin), true) == RenderChildren
    ensures Decide(false, Some(MockAuth.FallbackUser), true) == RedirectToChat
  {
  }

  /** A sign-in attempt followed by a visit to a guarded route: a rejected
      attempt leaves `isLoading` set, so the route keeps showing the spinner. */
  method AttemptThenVisit(session: MockAuth.MockSession,
                          storedUsers: Option<seq<Directory.User>>, storedTeams: Option<seq<Directory.Team>>,
                          email: string, password: string, requireAdmin: bool)
    returns (r: MockAuth.LoginResult, o: Outcome)
    modifies session
    ensures o == Decide(session.isLoading, session.user, requireAdmin)
    ensures r.InvalidCredentials? ==> o == Spinner
    ensures r.Success? ==> (o == RenderChildren <==> !requireAdmin || r.user.role == "admin")
  {
    r := session.Login(storedUsers, storedTeams, email, password);
    o := Decide(session.isLoading, session.user, requireAdmin);
  }
}
