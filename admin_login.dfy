/**
 * The admin login page (src/app/admin/login/page.js): a fixed credential
 * check that, on success, writes the two session keys the admin panel reads.
 */
module AdminLogin {
  import opened Wrappers
  import opened AdminSession

  const AdminUsername := "admin"
  const AdminPassword := "admin@369"
  const InvalidCredentials := "Invalid username or password"

  predicate CredentialsMatch(username: string, password: string) {
    username == AdminUsername && password == AdminPassword
  }

  class LoginPage {
    var username: string
    var password: string
    var error: string
    var loading: bool
    /** The route the page navigated to, if any. */
    var redirectedTo: Option<string>

    constructor ()
      ensures username == "" && password == "" && error == "" && !loading && redirectedTo == None
    {
      username, password, error := "", "", "";
      loading := false;
      redirectedTo := None;
    }

    /**
     * `handleSubmit` at time `now` (milliseconds). The error is cleared and
     * loading set first; matching credentials store the session and go to
     * the panel (loading stays on); anything else shows the error, ends
     * loading and leaves the storage untouched.
     */
    method HandleSubmit(storage: LocalStorage, now: nat)
      modifies this, storage
      ensures username == old(username) && password == old(password)
      ensures CredentialsMatch(username, password) ==>
        storage.items == old(storage.items)[AuthenticatedKey := "true"][LoginTimeKey := NatToString(now)]
        && error == "" && loading && redirectedTo == Some("/admin")
      ensures !CredentialsMatch(username, password) ==>
        storage.items == old(storage.items)
        && error == InvalidCredentials && !loading && redirectedTo == old(redirectedTo)
    {
      error := "";
      loading := true;
      if username == AdminUsername && password == AdminPassword {
        storage.SetItem(AuthenticatedKey, "true");
        storage.SetItem(LoginTimeKey, NatToString(now));
        redirectedTo := Some("/admin");
      } else {
        error := InvalidCredentials;
        loading := false;
      }
    }
  }
}
