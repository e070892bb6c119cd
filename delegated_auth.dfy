/** The delegated identity variant (src/contexts/AzureAuthContext.jsx): the
    platform's auth endpoint reports a principal, which is adopted only when
    its address is on a fixed allow-list; the role is derived from that
    address. The fetch itself is an input here. */
module DelegatedAuth {
  import opened Common

  const AdminEmail: string := "admin@dentsu.com"

  /** `AUTHORIZED_EMAILS` */
  const AuthorizedEmails: seq<string> := [AdminEmail, "user@dentsu.com"]

  /** The `clientPrincipal` of the endpoint's answer. */
  datatype Principal = Principal(userId: string, userDetails: string)

  datatype AzureUser = AzureUser(id: string, name: string, email: string, role: string)

  /** How the request to the endpoint ended: an answer whose `clientPrincipal`
      may be null, or a thrown error (network or malformed body). */
  datatype FetchOutcome = Answered(principal: Option<Principal>) | Failed

  /** The identity installed when the fetch fails in a development build. */
  const DevUser: AzureUser := AzureUser("1", "Development User", "dev@dentsu.com", "admin")

  /** The principal-to-user mapping of `fetchUserInfo`. */
  function Adopt(p: Option<Principal>): (r: Option<AzureUser>)
    ensures r.Some? <==> p.Some? && p.value.userDetails in AuthorizedEmails
    ensures r.Some? ==> r.value.id == p.value.userId
    ensures r.Some? ==> r.value.name == p.value.userDetails && r.value.email == p.value.userDetails
    ensures r.Some? ==> (r.value.role == "admin" <==> p.value.userDetails == AdminEmail)
    ensures r.Some? ==> r.value.role == "admin" || r.value.role == "user"
  {
    if p.Some? && p.value.userDetails in AuthorizedEmails then
      var d := p.value.userDetails;
      Some(AzureUser(p.value.userId, d, d, if d == AdminEmail then "admin" else "user"))
    else None
  }

  /** Both allow-listed addresses are adopted, whatever the principal's id,
      and no other address is; not even the development identity's. */
  lemma AllowListAdopted(userId: string)
    ensures Adopt(Some(Principal(userId, AdminEmail))).value.role == "admin"
    ensures Adopt(Some(Principal(userId, "user@dentsu.com"))).value.role == "user"
    ensures forall e :: e !in AuthorizedEmails ==> Adopt(Some(Principal(userId, e))).None?
    ensures Adopt(Some(Principal(userId, DevUser.email))).None?
  {
  }

  /** The identity state after the mount-time fetch, from the initial
      unauthenticated state: the user and the `isAdmin` flag. */
  function AfterFetch(outcome: FetchOutcome, development: bool): (r: (Option<AzureUser>, bool))
    ensures outcome.Answered? ==> r.0 == Adopt(outcome.principal)
    ensures outcome.Failed? && development ==> r.0 == Some(DevUser)
    ensures outcome.Failed? && !development ==> r.0.None?
    ensures r.1 <==> r.0.Some? && r.0.value.role == "admin"
  {
    match outcome
    case Answered(p) =>
      var u := Adopt(p);
      if u.Some? then (u, u.value.role == "admin") else (None, false)
    case Failed =>
      if development then (Some(DevUser), true) else (None, false)
  }

  /** The React state of the provider. */
  class DelegatedSession {
    var user: Option<AzureUser>
    var isAdmin: bool
    var isLoading: bool
    /** `process.env.NODE_ENV === 'development'` */
    const development: bool

    constructor (development: bool)
      ensures user.None? && !isAdmin && isLoading && this.development == development
    {
      this.development := development;
      user, isAdmin, isLoading := None, false, true;
    }

    /** `fetchUserInfo` once the request has ended; `isLoading` is cleared in
        every case. A rejected principal leaves the state as it was. */
    method FetchUserInfo(outcome: FetchOutcome)
      modifies this
      ensures !isLoading
      ensures outcome.Answered? && Adopt(outcome.principal).Some? ==>
        user == Adopt(outcome.principal) && isAdmin == (user.value.role == "admin")
      ensures outcome.Answered? && Adopt(outcome.principal).None? ==>
        user == old(user) && isAdmin == old(isAdmin)
      ensures outcome.Failed? && development ==> user == Some(DevUser) && isAdmin
      ensures outcome.Failed? && !development ==> user == old(user) && isAdmin == old(isAdmin)
    {
      match outcome {
        case Answered(p) =>
          var u := Adopt(p);
          if u.Some? {
            user := u;
            isAdmin := u.value.role == "admin";
          }
        case Failed =>
          if development {
            user := Some(DevUser);
            isAdmin := true;
          }
      }
      isLoading := false;
    }

    /** Flips `isAdmin` for the admin address, or for anyone in development. */
    method ToggleAdminMode()
      modifies this
      ensures user == old(user) && isLoading == old(isLoading)
      ensures (user.Some? && user.value.email == AdminEmail) || development ==> isAdmin == !old(isAdmin)
      ensures !((user.Some? && user.value.email == AdminEmail) || development) ==> isAdmin == old(isAdmin)
    {
      if (user.Some? && user.value.email == AdminEmail) || development {
        isAdmin := !isAdmin;
      }
    }
  }

  /** Fetching from a fresh session lands exactly in `AfterFetch`. */
  method MountSession(outcome: FetchOutcome, development: bool) returns (s: DelegatedSession)
    ensures (s.user, s.isAdmin) == AfterFetch(outcome, development)
    ensures !s.isLoading
  {
    s := new DelegatedSession(development);
    s.FetchUserInfo(outcome);
  }
}
