/** The mock-login identity (src/contexts/AuthContext.jsx): the credential
    decision against the stored directory, the hard-coded fallback accounts,
    and the signed-in user with its copy under the storage key 'dentsu_user'. */
module MockAuth {
  import opened Common
  import Directory

  const AdminEmail: string := "admin@dentsu.com"
  const UserEmail: string := "user@dentsu.com"
  const AdminPassword: string := "admin123"
  const UserPassword: string := "user123"
  /** The password every other active directory account accepts. */
  const SharedPassword: string := "password123"

  /** The signed-in user: a directory record spread with `team` and
      `instance`, or one of the fixed fallback records, which have no
      `teamId`, `status` or `createdAt`. */
  datatype SessionUser = SessionUser(
    id: string, name: string, email: string, role: string,
    teamId: Option<string>, status: Option<string>, createdAt: Option<string>,
    team: Option<string>, instance: Option<string>)

  datatype LoginResult = Success(user: SessionUser) | InvalidCredentials

  const FallbackAdmin: SessionUser :=
    SessionUser("1", "Admin User", AdminEmail, "admin", None, None, None, Some("Admin"), Some("admin"))
  const FallbackUser: SessionUser :=
    SessionUser("2", "John Doe", UserEmail, "user", None, None, None, Some("Creative"), Some("creative"))

  /** One of the two hard-coded pairs. */
  predicate FixedPair(email: string, password: string)
  {
    (email == AdminEmail && password == AdminPassword) || (email == UserEmail && password == UserPassword)
  }

  /** The password chain for a found directory account. */
  function PasswordAccepted(email: string, password: string): (ok: bool)
    ensures ok <==> FixedPair(email, password) || password == SharedPassword
  {
    if email == AdminEmail && password == AdminPassword then true
    else if email == UserEmail && password == UserPassword then true
    else password == SharedPassword
  }

  /** `users.find(u => u.email === email && u.status === 'active')` */
  function FindActive(users: seq<Directory.User>, email: string): (r: Option<Directory.User>)
    ensures r.None? <==> forall u :: u in users ==> !(u.email == email && u.status == "active")
    ensures r.Some? ==> r.value in users && r.value.email == email && r.value.status == "active"
    ensures forall k ::
      (0 <= k < |users| && users[k].email == email && users[k].status == "active" &&
       forall j :: 0 <= j < k ==> !(users[j].email == email && users[j].status == "active")) ==>
      r == Some(users[k])
  {
    Find(users, (u: Directory.User) => u.email == email && u.status == "active")
  }

  /** `{ ...found, team: userTeam?.name ?? null, instance: userTeam?.instance ?? null }`,
      the team being the first one whose id equals the user's `teamId`. */
  function WithTeam(u: Directory.User, teams: seq<Directory.Team>): (s: SessionUser)
    ensures s.id == u.id && s.name == u.name && s.email == u.email && s.role == u.role
    ensures s.teamId == u.teamId && s.status == Some(u.status) && s.createdAt == Some(u.createdAt)
    ensures s.team.None? <==> u.teamId.None? || forall t :: t in teams ==> t.id != u.teamId.value
    ensures s.team.Some? ==> exists t :: t in teams && t.id == u.teamId.value &&
                                         s.team == Some(t.name) && s.instance == Some(t.instance)
    ensures s.team.None? ==> s.instance.None?
    ensures forall k ::
      (0 <= k < |teams| && Some(teams[k].id) == u.teamId &&
       forall j :: 0 <= j < k ==> Some(teams[j].id) != u.teamId) ==>
      s.team == Some(teams[k].name) && s.instance == Some(teams[k].instance)
  {
    var t := if u.teamId.Some? then Directory.FindTeam(teams, u.teamId.value) else None;
    SessionUser(u.id, u.name, u.email, u.role, u.teamId, Some(u.status), Some(u.createdAt),
                if t.Some? then Some(t.value.name) else None,
                if t.Some? then Some(t.value.instance) else None)
  }

  /** A storage key read as a list: an absent key reads as `[]`. */
  function ReadList<T>(stored: Option<seq<T>>): seq<T>
  {
    if stored.Some? then stored.value else []
  }

  /** The decision of `login`, given what storage holds under 'dentsu_users'
      and 'dentsu_teams'. An active account for the address signs in on the
      password chain as its own record with its team; without one, only the
      hard-coded pairs sign in, as the fixed fallback records. */
  function CheckCredentials(storedUsers: Option<seq<Directory.User>>, storedTeams: Option<seq<Directory.Team>>,
                            email: string, password: string): (r: LoginResult)
    ensures var found := FindActive(ReadList(storedUsers), email);
      found.Some? ==>
        (r.Success? <==> PasswordAccepted(email, password)) &&
        (r.Success? ==> r.user == WithTeam(found.value, ReadList(storedTeams)))
    ensures FindActive(ReadList(storedUsers), email).None? ==>
      (r.Success? <==> FixedPair(email, password)) &&
      (r.Success? ==> r.user == if email == AdminEmail then FallbackAdmin else FallbackUser)
  {
    var users := ReadList(storedUsers);
    var teams := ReadList(storedTeams);
    match FindActive(users, email)
    case Some(found) =>
      if PasswordAccepted(email, password) then Success(WithTeam(found, teams)) else InvalidCredentials
    case None =>
      if email == AdminEmail && password == AdminPassword then Success(FallbackAdmin)
      else if email == UserEmail && password == UserPassword then Success(FallbackUser)
      else InvalidCredentials
  }

  /** The accepted credentials: with an active account for the address, a
      hard-coded pair or the shared password; without one, only the
      hard-coded pairs. Nothing else signs in. */
  lemma AcceptanceSet(users: seq<Directory.User>, teams: Option<seq<Directory.Team>>, email: string, password: string)
    ensures FindActive(users, email).Some? ==>
      (CheckCredentials(Some(users), teams, email, password).Success? <==>
       FixedPair(email, password) || password == SharedPassword)
    ensures FindActive(users, email).None? ==>
      (CheckCredentials(Some(users), teams, email, password).Success? <==> FixedPair(email, password))
  {
  }

  /** A directory sign-in yields the whole directory record spread with its
      team's name and instance, both null when no team has the user's `teamId`. */
  lemma DirectorySignIn(users: seq<Directory.User>, teams: seq<Directory.Team>, email: string, password: string)
    requires FindActive(users, email).Some?
    requires PasswordAccepted(email, password)
    ensures var r := CheckCredentials(Some(users), Some(teams), email, password);
      var u := FindActive(users, email).value;
      r == Success(WithTeam(u, teams)) &&
      r.user.id == u.id && r.user.email == email && r.user.role == u.role &&
      (r.user.team.Some? <==> u.teamId.Some? && Directory.FindTeam(teams, u.teamId.value).Some?)
  {
  }

  /** The seeded accounts accept the shared password as well as their own,
      and the seeded admin signs in with the Admin Team attached. */
  lemma SeededAccounts(now: string)
    ensures var users := Directory.DefaultUsers(now);
      var teams := Directory.DefaultTeams();
      var a := CheckCredentials(Some(users), Some(teams), AdminEmail, SharedPassword);
      var b := CheckCredentials(Some(users), Some(teams), AdminEmail, AdminPassword);
      a.Success? && b.Success? && a.user == b.user &&
      a.user.role == "admin" && a.user.team == Some("Admin Team") && a.user.instance == Some("admin")
  {
    var users := Directory.DefaultUsers(now);
    var teams := Directory.DefaultTeams();
    assert users[0] in users;
    assert FindActive(users, AdminEmail) == Some(users[0]);
    assert teams[3] in teams;
    assert Directory.FindTeam(teams, "4") == Some(teams[3]);
    var w := WithTeam(users[0], teams);
    assert w.team == Some(teams[3].name) && w.instance == Some(teams[3].instance);
    assert PasswordAccepted(AdminEmail, SharedPassword) && PasswordAccepted(AdminEmail, AdminPassword);
    assert CheckCredentials(Some(users), Some(teams), AdminEmail, SharedPassword) == Success(w);
    assert CheckCredentials(Some(users), Some(teams), AdminEmail, AdminPassword) == Success(w);
  }

  /** An admin account switched to inactive still signs in with the
      hard-coded pair, as the fixed fallback record. */
  lemma InactiveAdminFallsBack(users: seq<Directory.User>, teams: Option<seq<Directory.Team>>)
    requires forall u :: u in users && u.email == AdminEmail ==> u.status != "active"
    ensures CheckCredentials(Some(users), teams, AdminEmail, AdminPassword) == Success(FallbackAdmin)
    ensures CheckCredentials(Some(users), teams, AdminEmail, SharedPassword) == InvalidCredentials
  {
  }

  /** With no directory in storage only the two hard-coded pairs sign in. */
  lemma EmptyStorageFallback(email: string, password: string)
    ensures CheckCredentials(None, None, email, password).Success? <==> FixedPair(email, password)
    ensures FixedPair(email, password) ==>
      CheckCredentials(None, None, email, password).user ==
        (if email == AdminEmail then FallbackAdmin else FallbackUser)
  {
  }

  /** The provider's state: `user`, `isLoading` and the 'dentsu_user' key. */
  class MockSession {
    var user: Option<SessionUser>
    var isLoading: bool
    var storedSession: Option<SessionUser>

    /** The mount effect: adopt a saved session if there is one. */
    constructor Restore(saved: Option<SessionUser>)
      ensures user == saved && storedSession == saved && !isLoading
    {
      user, storedSession := saved, saved;
      isLoading := false;
    }

    /** `login`. A rejection (the thrown 'Invalid credentials') leaves the user
        and storage alone and never reaches `setIsLoading(false)`. */
    method Login(storedUsers: Option<seq<Directory.User>>, storedTeams: Option<seq<Directory.Team>>,
                 email: string, password: string) returns (r: LoginResult)
      modifies this
      ensures r == CheckCredentials(storedUsers, storedTeams, email, password)
      ensures r.Success? ==> user == Some(r.user) && storedSession == user && !isLoading
      ensures r.InvalidCredentials? ==>
        user == old(user) && storedSession == old(storedSession) && isLoading
    {
      isLoading := true;
      r := CheckCredentials(storedUsers, storedTeams, email, password);
      if r.InvalidCredentials? {
        return;
      }
      user := Some(r.user);
      storedSession := Some(r.user);
      isLoading := false;
    }

    method Logout()
      modifies this
      ensures user.None? && storedSession.None? && isLoading == old(isLoading)
    {
      user := None;
      storedSession := None;
    }
  }
}
