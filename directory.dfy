/** The directory store (src/contexts/TeamContext.jsx): the teams and users
    collections, their create / merge-update / delete operations, the
    cascade that unassigns users of a deleted team, and the mirror of both
    collections in browser storage. */
module Directory {
  import opened Common

  datatype Team = Team(
    id: string, name: string, description: string, instance: string, color: string,
    createdAt: Option<string>)  // the seeded teams carry no creation time

  /** A user; `teamId == None` is the JavaScript `null` of an unassigned user. */
  datatype User = User(
    id: string, name: string, email: string, role: string, teamId: Option<string>,
    status: string, createdAt: string)

  /** The object handed to `createTeam`; an `id` in it wins over the generated one. */
  datatype TeamDraft = TeamDraft(
    id: Option<string>, name: string, description: string, instance: string, color: string)

  /** The object handed to `createUser`; its `status`, if any, is overridden. */
  datatype UserDraft = UserDraft(
    id: Option<string>, name: string, email: string, role: string, teamId: Option<string>,
    status: Option<string>)

  /** The partial record spread over a team by `updateTeam`. */
  datatype TeamPatch = TeamPatch(
    id: Field<string>, name: Field<string>, description: Field<string>,
    instance: Field<string>, color: Field<string>, createdAt: Field<Option<string>>)

  /** The partial record spread over a user by `updateUser`. */
  datatype UserPatch = UserPatch(
    id: Field<string>, name: Field<string>, email: Field<string>, role: Field<string>,
    teamId: Field<Option<string>>, status: Field<string>, createdAt: Field<string>)

  /** `{ ...team, ...patch }` */
  function MergeTeam(t: Team, p: TeamPatch): Team
  {
    Team(p.id.Over(t.id), p.name.Over(t.name), p.description.Over(t.description),
         p.instance.Over(t.instance), p.color.Over(t.color), p.createdAt.Over(t.createdAt))
  }

  /** `{ ...user, ...patch }` */
  function MergeUser(u: User, p: UserPatch): User
  {
    User(p.id.Over(u.id), p.name.Over(u.name), p.email.Over(u.email), p.role.Over(u.role),
         p.teamId.Over(u.teamId), p.status.Over(u.status), p.createdAt.Over(u.createdAt))
  }

  /** Merging the same patch twice is merging it once. */
  lemma MergeUserIdempotent(u: User, p: UserPatch)
    ensures MergeUser(MergeUser(u, p), p) == MergeUser(u, p)
  {
  }

  /** The patch `assignUserToTeam` passes to `updateUser`: only `teamId`. */
  function AssignPatch(teamId: string): (p: UserPatch)
    ensures forall u :: MergeUser(u, p) == u.(teamId := Some(teamId))
  {
    UserPatch(Keep, Keep, Keep, Keep, Put(Some(teamId)), Keep, Keep)
  }

  /** The patch `removeUserFromTeam` passes to `updateUser`: `teamId: null`. */
  function UnassignPatch(): (p: UserPatch)
    ensures forall u :: MergeUser(u, p) == u.(teamId := None)
  {
    UserPatch(Keep, Keep, Keep, Keep, Put(None), Keep, Keep)
  }

  /** `{ id: generatedId, ...draft, createdAt: now }` */
  function NewTeam(d: TeamDraft, generatedId: string, now: string): (t: Team)
    ensures d.id.None? ==> t.id == generatedId
    ensures d.id.Some? ==> t.id == d.id.value
    ensures t.name == d.name && t.description == d.description
    ensures t.instance == d.instance && t.color == d.color && t.createdAt == Some(now)
  {
    Team(if d.id.Some? then d.id.value else generatedId,
         d.name, d.description, d.instance, d.color, Some(now))
  }

  /** `{ id: generatedId, ...draft, status: 'active', createdAt: now }` */
  function NewUser(d: UserDraft, generatedId: string, now: string): (u: User)
    ensures u.status == "active"
    ensures u.id == if d.id.Some? then d.id.value else generatedId
    ensures u.name == d.name && u.email == d.email && u.role == d.role
    ensures u.teamId == d.teamId && u.createdAt == now
  {
    User(if d.id.Some? then d.id.value else generatedId,
         d.name, d.email, d.role, d.teamId, "active", now)
  }

  /** The teams written on first run, when storage holds none. */
  function DefaultTeams(): seq<Team>
  {
    [ Team("1", "Creative Team", "Creative and design professionals", "creative", "bg-blue-500", None),
      Team("2", "Strategy Team", "Strategic planning and analysis", "strategy", "bg-green-500", None),
      Team("3", "Technology Team", "Technical development and innovation", "tech", "bg-purple-500", None),
      Team("4", "Admin Team", "Administrative and management", "admin", "bg-red-500", None) ]
  }

  /** The users written on first run, stamped with the load time. */
  function DefaultUsers(now: string): seq<User>
  {
    [ User("1", "Admin User", "admin@dentsu.com", "admin", Some("4"), "active", now),
      User("2", "John Doe", "user@dentsu.com", "user", Some("1"), "active", now) ]
  }

  /** Every user's `teamId` names an existing team (or is null). */
  ghost predicate TeamRefsResolve(teams: seq<Team>, users: seq<User>)
  {
    forall u :: u in users && u.teamId.Some? ==> exists t :: t in teams && t.id == u.teamId.value
  }

  /** The seed: four teams, two active users, the admin in team '4', and every
      seeded user's team exists. */
  lemma SeedIsConsistent(now: string)
    ensures |DefaultTeams()| == 4 && |DefaultUsers(now)| == 2
    ensures forall u :: u in DefaultUsers(now) ==> u.status == "active"
    ensures DefaultUsers(now)[0].role == "admin" && DefaultUsers(now)[0].teamId == Some("4")
    ensures TeamRefsResolve(DefaultTeams(), DefaultUsers(now))
  {
    var teams := DefaultTeams();
    assert teams[3] in teams && teams[0] in teams;
  }

  // ---- The list rebuilds behind each mutation ----

  /** `teams.map(team => team.id === id ? { ...team, ...patch } : team)` */
  function TeamsAfterUpdate(teams: seq<Team>, id: string, p: TeamPatch): (r: seq<Team>)
    ensures |r| == |teams|
    ensures forall i :: 0 <= i < |teams| ==>
      r[i] == if teams[i].id == id then MergeTeam(teams[i], p) else teams[i]
  {
    UpdateWhere(teams, (t: Team) => t.id == id, (t: Team) => MergeTeam(t, p))
  }

  /** `teams.filter(team => team.id !== id)` */
  function TeamsAfterDelete(teams: seq<Team>, id: string): (r: seq<Team>)
    ensures forall t :: t in r <==> t in teams && t.id != id
  {
    Filter(teams, (t: Team) => t.id != id)
  }

  /** The cascade of `deleteTeam`: users of the deleted team get `teamId: null`. */
  function UsersAfterTeamDelete(users: seq<User>, id: string): (r: seq<User>)
    ensures |r| == |users|
    ensures forall i :: 0 <= i < |users| ==>
      r[i] == if users[i].teamId == Some(id) then users[i].(teamId := None) else users[i]
    ensures forall u :: u in r ==> u.teamId != Some(id)
  {
    UpdateWhere(users, (u: User) => u.teamId == Some(id), (u: User) => u.(teamId := None))
  }

  /** `users.map(user => user.id === id ? { ...user, ...patch } : user)` */
  function UsersAfterUpdate(users: seq<User>, id: string, p: UserPatch): (r: seq<User>)
    ensures |r| == |users|
    ensures forall i :: 0 <= i < |users| ==>
      r[i] == if users[i].id == id then MergeUser(users[i], p) else users[i]
  {
    UpdateWhere(users, (u: User) => u.id == id, (u: User) => MergeUser(u, p))
  }

  /** `users.filter(user => user.id !== id)` */
  function UsersAfterDelete(users: seq<User>, id: string): (r: seq<User>)
    ensures forall u :: u in r <==> u in users && u.id != id
  {
    Filter(users, (u: User) => u.id != id)
  }

  // ---- Lookups ----

  /** `teams.find(team => team.id === id)`: the first team with that id. */
  function FindTeam(teams: seq<Team>, id: string): (r: Option<Team>)
    ensures r.None? <==> forall t :: t in teams ==> t.id != id
    ensures r.Some? ==> r.value in teams && r.value.id == id
    ensures forall k :: 0 <= k < |teams| && teams[k].id == id && (forall j :: 0 <= j < k ==> teams[j].id != id) ==>
      r == Some(teams[k])
  {
    Find(teams, (t: Team) => t.id == id)
  }

  /** `users.filter(user => user.teamId === id)` */
  function UsersByTeam(users: seq<User>, id: string): (r: seq<User>)
    ensures forall u :: u in r <==> u in users && u.teamId == Some(id)
  {
    Filter(users, (u: User) => u.teamId == Some(id))
  }

  // ---- Properties of the rebuilds ----

  /** After `deleteTeam(id)` no team has that id, no user points to it, the
      remaining teams and all users keep their order, and only the users of
      the deleted team change. */
  lemma DeleteTeamCascade(teams: seq<Team>, users: seq<User>, id: string)
    ensures forall t :: t in TeamsAfterDelete(teams, id) ==> t.id != id
    ensures forall u :: u in UsersAfterTeamDelete(users, id) ==> u.teamId != Some(id)
    ensures forall i :: 0 <= i < |users| && users[i].teamId != Some(id) ==>
      UsersAfterTeamDelete(users, id)[i] == users[i]
    ensures forall t: Team :: t.id == id ==> TeamsAfterDelete(teams + [t], id) == TeamsAfterDelete(teams, id)
  {
    forall t: Team | t.id == id ensures TeamsAfterDelete(teams + [t], id) == TeamsAfterDelete(teams, id) {
      FilterAppend(teams, [t], (t': Team) => t'.id != id);
    }
  }

  /** Deleting a team never leaves a dangling reference behind: if every
      user's team existed before, every user's team exists afterwards. */
  lemma DeleteTeamKeepsRefs(teams: seq<Team>, users: seq<User>, id: string)
    requires TeamRefsResolve(teams, users)
    ensures TeamRefsResolve(TeamsAfterDelete(teams, id), UsersAfterTeamDelete(users, id))
  {
    var teams' := TeamsAfterDelete(teams, id);
    var users' := UsersAfterTeamDelete(users, id);
    forall u | u in users' && u.teamId.Some?
      ensures exists t :: t in teams' && t.id == u.teamId.value
    {
      var i :| 0 <= i < |users'| && users'[i] == u;
      assert users[i] == u;
      var t :| t in teams && t.id == u.teamId.value;
      assert t in teams';
    }
  }

  /** `updateUser` is idempotent: the same merge twice equals once. */
  lemma UpdateUserIdempotent(users: seq<User>, id: string, p: UserPatch)
    ensures UsersAfterUpdate(UsersAfterUpdate(users, id, p), id, p) == UsersAfterUpdate(users, id, p)
  {
    var hit := (u: User) => u.id == id;
    var f := (u: User) => MergeUser(u, p);
    forall u | hit(u) ensures f(f(u)) == f(u) { MergeUserIdempotent(u, p); }
    UpdateWhereIdempotent(users, hit, f);
  }

  /** An update or delete naming an id no record has changes nothing. */
  lemma UnknownIdIsNoOp(teams: seq<Team>, users: seq<User>, id: string, tp: TeamPatch, up: UserPatch)
    requires forall t :: t in teams ==> t.id != id
    requires forall u :: u in users ==> u.id != id
    ensures TeamsAfterUpdate(teams, id, tp) == teams
    ensures UsersAfterUpdate(users, id, up) == users
    ensures UsersAfterDelete(users, id) == users
    ensures TeamsAfterDelete(teams, id) == teams
  {
    FilterAll(users, (u: User) => u.id != id);
    FilterAll(teams, (t: Team) => t.id != id);
  }

  /** `removeUserFromTeam` followed by `getUsersByTeam` for any team no longer
      lists that user; `assignUserToTeam` lists it under the new team. */
  lemma AssignmentAndLookup(users: seq<User>, userId: string, teamId: string, other: string)
    ensures forall u :: u in UsersByTeam(UsersAfterUpdate(users, userId, UnassignPatch()), other) ==>
      u.id != userId
    ensures forall u :: u in users && u.id == userId ==>
      u.(teamId := Some(teamId)) in UsersByTeam(UsersAfterUpdate(users, userId, AssignPatch(teamId)), teamId)
  {
    var after := UsersAfterUpdate(users, userId, UnassignPatch());
    forall u | u in UsersByTeam(after, other) ensures u.id != userId {
      var i :| 0 <= i < |after| && after[i] == u;
    }
    var reassigned := UsersAfterUpdate(users, userId, AssignPatch(teamId));
    forall u | u in users && u.id == userId
      ensures u.(teamId := Some(teamId)) in UsersByTeam(reassigned, teamId)
    {
      var i :| 0 <= i < |users| && users[i] == u;
      assert reassigned[i] == u.(teamId := Some(teamId));
    }
  }

  /** `getTeamById` right after `createTeam` finds the new team, unless an
      older team already carried the same id (ids come from the clock). */
  lemma FindAfterCreate(teams: seq<Team>, t: Team)
    ensures FindTeam(teams + [t], t.id) == if FindTeam(teams, t.id).Some? then FindTeam(teams, t.id) else Some(t)
  {
    var p := (x: Team) => x.id == t.id;
    FilterAppend(teams, [t], p);
    assert Filter([t], p) == [t];
  }

  /** A created user joins the lookup of its team at the end, after the
      members already listed. */
  lemma ByTeamAfterCreate(users: seq<User>, u: User, id: string)
    ensures UsersByTeam(users + [u], id) ==
      UsersByTeam(users, id) + (if u.teamId == Some(id) then [u] else [])
  {
    FilterAppend(users, [u], (x: User) => x.teamId == Some(id));
  }

  /** The store object: the two React state fields and their copies under the
      storage keys 'dentsu_teams' and 'dentsu_users' (None: key absent). */
  class DirectoryStore {
    var teams: seq<Team>
    var users: seq<User>
    var storedTeams: Option<seq<Team>>
    var storedUsers: Option<seq<User>>

    /** Storage holds exactly the in-memory collections. */
    ghost predicate Mirrored()
      reads this
    {
      storedTeams == Some(teams) && storedUsers == Some(users)
    }

    /** The mount effect: adopt what storage holds, seeding whatever is absent. */
    constructor Load(savedTeams: Option<seq<Team>>, savedUsers: Option<seq<User>>, now: string)
      ensures teams == (if savedTeams.Some? then savedTeams.value else DefaultTeams())
      ensures users == (if savedUsers.Some? then savedUsers.value else DefaultUsers(now))
      ensures Mirrored()
    {
      teams := if savedTeams.Some? then savedTeams.value else DefaultTeams();
      users := if savedUsers.Some? then savedUsers.value else DefaultUsers(now);
      storedTeams := Some(teams);
      storedUsers := Some(users);
    }

    /** `saveTeams` */
    method SaveTeams(newTeams: seq<Team>)
      modifies this
      ensures teams == newTeams && storedTeams == Some(newTeams)
      ensures users == old(users) && storedUsers == old(storedUsers)
    {
      teams := newTeams;
      storedTeams := Some(newTeams);
    }

    /** `saveUsers` */
    method SaveUsers(newUsers: seq<User>)
      modifies this
      ensures users == newUsers && storedUsers == Some(newUsers)
      ensures teams == old(teams) && storedTeams == old(storedTeams)
    {
      users := newUsers;
      storedUsers := Some(newUsers);
    }

    method CreateTeam(d: TeamDraft, generatedId: string, now: string) returns (t: Team)
      requires Mirrored()
      modifies this
      ensures t == NewTeam(d, generatedId, now)
      ensures teams == old(teams) + [t] && users == old(users)
      ensures Mirrored()
    {
      t := NewTeam(d, generatedId, now);
      SaveTeams(teams + [t]);
    }

    method UpdateTeam(id: string, p: TeamPatch)
      requires Mirrored()
      modifies this
      ensures teams == TeamsAfterUpdate(old(teams), id, p) && users == old(users)
      ensures Mirrored()
    {
      SaveTeams(TeamsAfterUpdate(teams, id, p));
    }

    /** Removes the team and unassigns its users; both collections are saved. */
    method DeleteTeam(id: string)
      requires Mirrored()
      modifies this
      ensures teams == TeamsAfterDelete(old(teams), id)
      ensures users == UsersAfterTeamDelete(old(users), id)
      ensures forall u :: u in users ==> u.teamId != Some(id)
      ensures Mirrored()
    {
      SaveTeams(TeamsAfterDelete(teams, id));
      SaveUsers(UsersAfterTeamDelete(users, id));
    }

    method CreateUser(d: UserDraft, generatedId: string, now: string) returns (u: User)
      requires Mirrored()
      modifies this
      ensures u == NewUser(d, generatedId, now) && u.status == "active"
      ensures users == old(users) + [u] && teams == old(teams)
      ensures Mirrored()
    {
      u := NewUser(d, generatedId, now);
      SaveUsers(users + [u]);
    }

    method UpdateUser(id: string, p: UserPatch)
      requires Mirrored()
      modifies this
      ensures users == UsersAfterUpdate(old(users), id, p) && teams == old(teams)
      ensures Mirrored()
    {
      SaveUsers(UsersAfterUpdate(users, id, p));
    }

    method DeleteUser(id: string)
      requires Mirrored()
      modifies this
      ensures users == UsersAfterDelete(old(users), id) && teams == old(teams)
      ensures Mirrored()
    {
      SaveUsers(UsersAfterDelete(users, id));
    }

    /** Sets `teamId` without checking that the team exists. */
    method AssignUserToTeam(userId: string, teamId: string)
      requires Mirrored()
      modifies this
      ensures users == UsersAfterUpdate(old(users), userId, AssignPatch(teamId))
      ensures teams == old(teams)
      ensures Mirrored()
    {
      UpdateUser(userId, AssignPatch(teamId));
    }

    method RemoveUserFromTeam(userId: string)
      requires Mirrored()
      modifies this
      ensures users == UsersAfterUpdate(old(users), userId, UnassignPatch())
      ensures teams == old(teams)
      ensures Mirrored()
    {
      UpdateUser(userId, UnassignPatch());
    }

    function GetTeamById(id: string): (r: Option<Team>)
      reads this
      ensures r.Some? ==> r.value in teams && r.value.id == id
      ensures r.None? ==> forall t :: t in teams ==> t.id != id
      ensures forall k :: 0 <= k < |teams| && teams[k].id == id && (forall j :: 0 <= j < k ==> teams[j].id != id) ==>
        r == Some(teams[k])
    {
      FindTeam(teams, id)
    }

    function GetUsersByTeam(id: string): (r: seq<User>)
      reads this
      ensures forall u :: u in r <==> u in users && u.teamId == Some(id)
    {
      UsersByTeam(users, id)
    }
  }
}
