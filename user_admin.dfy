/** The user administration page (src/pages/admin/UserManagement.jsx): the
    status toggle, the case-insensitive search, the counters, and the user
    form that feeds `createUser` and `updateUser` of the directory store. */
module UserAdmin {
  import opened Common
  import opened Strings
  import opened Directory

  /** `currentStatus === 'active' ? 'inactive' : 'active'` */
  function ToggledStatus(current: string): (r: string)
    ensures r == "inactive" <==> current == "active"
    ensures r == "active" || r == "inactive"
  {
    if current == "active" then "inactive" else "active"
  }

  /** Toggling twice restores either of the two statuses the page writes. */
  lemma ToggleTwice(current: string)
    ensures current == "active" || current == "inactive" ==> ToggledStatus(ToggledStatus(current)) == current
    ensures ToggledStatus(current) != current
  {
  }

  /** The patch `toggleUserStatus` passes to `updateUser`: only `status`. */
  function StatusPatch(status: string): (p: UserPatch)
    ensures forall u :: MergeUser(u, p) == u.(status := status)
  {
    UserPatch(Keep, Keep, Keep, Keep, Keep, Put(status), Keep)
  }

  /** The users that count towards the green "Active" card. */
  function ActiveCount(users: seq<User>): (n: nat)
    ensures n <= |users|
  {
    |Filter(users, (u: User) => u.status == "active")|
  }

  /** The "Active" card never exceeds the "Total Users" card, and the
      difference is the number of users with any other status. */
  lemma ActiveAndTotal(users: seq<User>)
    ensures ActiveCount(users) + |Filter(users, (u: User) => u.status != "active")| == |users|
  {
    FilterPartition(users, (u: User) => u.status == "active", (u: User) => u.status != "active");
  }

  /** After toggling from `current`, the active users are those the toggle
      turned active plus the untouched active ones. */
  lemma {:induction false} ToggleActiveCount(users: seq<User>, id: string, current: string)
    ensures ActiveCount(UsersAfterUpdate(users, id, StatusPatch(ToggledStatus(current)))) ==
      |Filter(users, (u: User) => if u.id == id then current != "active" else u.status == "active")|
  {
    if users != [] {
      var p := StatusPatch(ToggledStatus(current));
      var r := UsersAfterUpdate(users, id, p);
      assert r == [r[0]] + r[1..];
      assert r[1..] == UsersAfterUpdate(users[1..], id, p);
      ToggleActiveCount(users[1..], id, current);
    }
  }

  /** The search test of `filteredUsers`: the lowercased term occurs in the
      lowercased name or the lowercased email. */
  predicate SearchMatches(u: User, term: string)
  {
    Contains(Lower(u.name), Lower(term)) || Contains(Lower(u.email), Lower(term))
  }

  /** `filteredUsers`: the matching users, in directory order. */
  function FilteredUsers(users: seq<User>, term: string): (r: seq<User>)
    ensures |r| <= |users|
    ensures forall u :: u in r <==> u in users && SearchMatches(u, term)
  {
    Filter(users, (u: User) => SearchMatches(u, term))
  }

  /** An empty search box lists every user. */
  lemma EmptySearchKeepsAll(users: seq<User>)
    ensures FilteredUsers(users, "") == users
  {
    forall u | u in users ensures SearchMatches(u, "") {
      assert Lower("") == "";
      ContainsEmpty(Lower(u.name));
    }
    FilterAll(users, (u: User) => SearchMatches(u, ""));
  }

  /** The search ignores the case of the term: searching for its lowercase
      form lists the same users. */
  lemma SearchIgnoresCase(users: seq<User>, term: string)
    ensures FilteredUsers(users, Lower(term)) == FilteredUsers(users, term)
  {
    LowerIdempotent(term);
    FilterCongruent(users, (u: User) => SearchMatches(u, Lower(term)), (u: User) => SearchMatches(u, term));
  }

  /** Narrowing the search never lists a user the broader search hid: a term
      containing another lists a subset of it. */
  lemma NarrowerSearch(users: seq<User>, term: string, longer: string)
    requires Contains(Lower(longer), Lower(term))
    ensures forall u :: u in FilteredUsers(users, longer) ==> u in FilteredUsers(users, term)
  {
    forall u | u in FilteredUsers(users, longer) ensures SearchMatches(u, term) {
      if Contains(Lower(u.name), Lower(longer)) {
        ContainsTransitive(Lower(u.name), Lower(longer), Lower(term));
      } else {
        ContainsTransitive(Lower(u.email), Lower(longer), Lower(term));
      }
    }
  }

  /** The page's user form; `teamId` is a string, '' standing for "No team". */
  datatype UserForm = UserForm(name: string, email: string, role: string, teamId: string)

  /** The form after creation and on first render. */
  const EmptyForm: UserForm := UserForm("", "", "user", "")

  /** `openEditUser`: the form shows the user, a null team as ''. */
  function EditForm(u: User): (f: UserForm)
    ensures f.name == u.name && f.email == u.email && f.role == u.role
    ensures u.teamId.Some? ==> f.teamId == u.teamId.value
    ensures u.teamId.None? ==> f.teamId == ""
  {
    UserForm(u.name, u.email, u.role, OrElse(u.teamId, ""))
  }

  /** `createUser(userForm)`: no id, no status, and the form's team string. */
  function FormDraft(f: UserForm): (d: UserDraft)
    ensures d.id.None? && d.status.None?
    ensures d.name == f.name && d.email == f.email && d.role == f.role && d.teamId == Some(f.teamId)
  {
    UserDraft(None, f.name, f.email, f.role, Some(f.teamId), None)
  }

  /** `updateUser(selectedUser.id, userForm)`: the four form fields. */
  function FormPatch(f: UserForm): (p: UserPatch)
    ensures forall u ::
      MergeUser(u, p) == u.(name := f.name, email := f.email, role := f.role, teamId := Some(f.teamId))
  {
    UserPatch(Keep, Put(f.name), Put(f.email), Put(f.role), Put(Some(f.teamId)), Keep, Keep)
  }

  /** The team shown in a user's row: `user.teamId ? getTeamById(user.teamId) : null`. */
  function ShownTeam(u: User, teams: seq<Team>): (r: Option<Team>)
    ensures u.teamId.None? || u.teamId.value == "" ==> r.None?
    ensures r.Some? ==> r.value in teams && Some(r.value.id) == u.teamId
    ensures u.teamId.Some? && u.teamId.value != "" && (exists t :: t in teams && Some(t.id) == u.teamId) ==> r.Some?
    ensures u.teamId.Some? && u.teamId.value != "" ==>
      forall k ::
        (0 <= k < |teams| && Some(teams[k].id) == u.teamId &&
         forall j :: 0 <= j < k ==> Some(teams[j].id) != u.teamId) ==>
        r == Some(teams[k])
  {
    if u.teamId.None? || u.teamId.value == "" then None else FindTeam(teams, u.teamId.value)
  }

  /** Opening a user and saving the form unchanged rewrites a null team as ''
      and keeps everything else; the row shows the same team either way. */
  lemma EditRoundTrip(u: User, teams: seq<Team>)
    ensures MergeUser(u, FormPatch(EditForm(u))) == if u.teamId.None? then u.(teamId := Some("")) else u
    ensures ShownTeam(MergeUser(u, FormPatch(EditForm(u))), teams) == ShownTeam(u, teams)
  {
  }

  /** A user created with "No team" is stored with the team '' and joins no
      real team's listing, whatever the directory already holds. */
  lemma NoTeamIsEmptyString(f: UserForm, generatedId: string, now: string, teams: seq<Team>, users: seq<User>, id: string)
    requires f.teamId == ""
    requires id != ""
    ensures NewUser(FormDraft(f), generatedId, now).teamId == Some("")
    ensures NewUser(FormDraft(f), generatedId, now) !in UsersByTeam([NewUser(FormDraft(f), generatedId, now)], id)
    ensures UsersByTeam(users + [NewUser(FormDraft(f), generatedId, now)], id) == UsersByTeam(users, id)
    ensures ShownTeam(NewUser(FormDraft(f), generatedId, now), teams).None?
  {
    FilterAppend(users, [NewUser(FormDraft(f), generatedId, now)], (u: User) => u.teamId == Some(id));
  }

  /** The page's state besides the store. */
  class UserManagementPage {
    var selected: Option<User>
    var form: UserForm
    var createOpen: bool
    var editOpen: bool
    var searchTerm: string

    constructor ()
      ensures selected.None? && form == EmptyForm && !createOpen && !editOpen && searchTerm == ""
    {
      selected, form := None, EmptyForm;
      createOpen, editOpen, searchTerm := false, false, "";
    }

    /** `handleCreateUser`: create from the form, then reset it. */
    method HandleCreateUser(store: DirectoryStore, generatedId: string, now: string) returns (u: User)
      requires store.Mirrored()
      modifies this, store
      ensures u == NewUser(FormDraft(old(form)), generatedId, now)
      ensures store.users == old(store.users) + [u] && store.teams == old(store.teams)
      ensures store.Mirrored()
      ensures form == EmptyForm && !createOpen
      ensures selected == old(selected) && editOpen == old(editOpen) && searchTerm == old(searchTerm)
    {
      u := store.CreateUser(FormDraft(form), generatedId, now);
      form := EmptyForm;
      createOpen := false;
    }

    /** `handleEditUser`: only reachable with a selected user, as the edit
        dialog is opened by `openEditUser`. The form is not reset. */
    method HandleEditUser(store: DirectoryStore)
      requires selected.Some?
      requires store.Mirrored()
      modifies this, store
      ensures store.users == UsersAfterUpdate(old(store.users), old(selected).value.id, FormPatch(old(form)))
      ensures store.teams == old(store.teams) && store.Mirrored()
      ensures selected.None? && !editOpen && form == old(form)
      ensures createOpen == old(createOpen) && searchTerm == old(searchTerm)
    {
      store.UpdateUser(selected.value.id, FormPatch(form));
      editOpen := false;
      selected := None;
    }

    /** `openEditUser` */
    method OpenEditUser(u: User)
      modifies this
      ensures selected == Some(u) && form == EditForm(u) && editOpen
      ensures createOpen == old(createOpen) && searchTerm == old(searchTerm)
    {
      selected := Some(u);
      form := EditForm(u);
      editOpen := true;
    }

    /** `handleDeleteUser`; `confirmed` is the answer to the confirmation prompt. */
    method HandleDeleteUser(store: DirectoryStore, userId: string, confirmed: bool)
      requires store.Mirrored()
      modifies store
      ensures confirmed ==> store.users == UsersAfterDelete(old(store.users), userId)
      ensures !confirmed ==> store.users == old(store.users)
      ensures store.teams == old(store.teams) && store.Mirrored()
    {
      if confirmed {
        store.DeleteUser(userId);
      }
    }

    /** `toggleUserStatus(userId, currentStatus)` */
    method ToggleUserStatus(store: DirectoryStore, userId: string, currentStatus: string)
      requires store.Mirrored()
      modifies store
      ensures store.users == UsersAfterUpdate(old(store.users), userId, StatusPatch(ToggledStatus(currentStatus)))
      ensures store.teams == old(store.teams) && store.Mirrored()
    {
      store.UpdateUser(userId, StatusPatch(ToggledStatus(currentStatus)));
    }

    /** The rows of the table for the current search. */
    function Rows(store: DirectoryStore): (r: seq<User>)
      reads this, store
      ensures forall u :: u in r <==> u in store.users && SearchMatches(u, searchTerm)
    {
      FilteredUsers(store.users, searchTerm)
    }
  }
}
