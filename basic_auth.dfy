/** The two-account identity variant (src/contexts/AuthContext.tsx): only
    the two hard-coded pairs sign in, and the signed-in user is kept under
    the storage key 'dentsu_user'. */
module BasicAuth {
  import opened Common

  datatype BasicUser = BasicUser(id: string, name: string, email: string, role: string, team: string)

  const AdminAccount: BasicUser := BasicUser("1", "Admin User", "admin@dentsu.com", "admin", "Admin")
  const RegularAccount: BasicUser := BasicUser("2", "John Doe", "user@dentsu.com", "user", "Creative")

  /** The provider's state: `user`, `isLoading` and the 'dentsu_user' key. */
  class BasicSession {
    var user: Option<BasicUser>
    var isLoading: bool
    var storedSession: Option<BasicUser>

    /** The mount effect: adopt a saved session if there is one. */
    constructor Restore(saved: Option<BasicUser>)
      ensures user == saved && storedSession == saved && !isLoading
    {
      user, storedSession := saved, saved;
      isLoading := false;
    }

    /** `login`: returns false where the source throws 'Invalid credentials';
        that path leaves the user and storage alone and `isLoading` set. */
    method Login(email: string, password: string) returns (ok: bool)
      modifies this
      ensures ok <==> (email == "admin@dentsu.com" && password == "admin123") ||
                      (email == "user@dentsu.com" && password == "user123")
      ensures ok && email == "admin@dentsu.com" ==> user == Some(AdminAccount) && user.value.role == "admin"
      ensures ok && email == "user@dentsu.com" ==> user == Some(RegularAccount) && user.value.role == "user"
      ensures ok ==> storedSession == user && !isLoading
      ensures !ok ==> user == old(user) && storedSession == old(storedSession) && isLoading
    {
      isLoading := true;
      if email == "admin@dentsu.com" && password == "admin123" {
        user := Some(AdminAccount);
        storedSession := user;
      } else if email == "user@dentsu.com" && password == "user123" {
        user := Some(RegularAccount);
        storedSession := user;
      } else {
        return false;
      }
      isLoading := false;
      return true;
    }

    method Logout()
      modifies this
      ensures user.None? && storedSession.None? && isLoading == old(isLoading)
    {
      user := None;
      storedSession := None;
    }
  }
}
