/**
 * The web client's login page. It sends nothing to a server: `handleLogin`
 * checks the two fields and writes a "user" record into localStorage, whose
 * name is the part of the email before its first '@'.
 */
module LoginPage {
  import opened Wrappers
  import opened Text

  const EmptyFieldError: string := "Email dan password harus diisi."
  const InvalidEmailError: string := "Email tidak valid."

  /**
   * The checks of `handleLogin`, in order: neither field empty, then an '@'
   * in the email. The password is not checked in any other way.
   */
  function FormCheck(email: string, password: string): (error: Option<string>)
    ensures error == Some(EmptyFieldError) <==> email == "" || password == ""
    ensures error == Some(InvalidEmailError) <==> email != "" && password != "" && '@' !in email
    ensures error.None? <==> email != "" && password != "" && '@' in email
  {
    if email == "" || password == "" then Some(EmptyFieldError)
    else if '@' !in email then Some(InvalidEmailError)
    else None
  }

  /** Any non-empty password is accepted with an email holding an '@'. */
  lemma AnyPasswordIsAccepted(email: string, password: string, other: string)
    requires other != "" && password != ""
    ensures FormCheck(email, password) == FormCheck(email, other)
  {
  }

  /**
   * `email.split("@")[0]`: the part of the email before its first '@', all
   * of it when there is none. It is a prefix of the email and holds no '@'.
   */
  function DisplayName(email: string): (name: string)
    ensures |name| <= |email| && name == email[..|name|] && '@' !in name
    ensures |name| < |email| ==> email[|name|] == '@'
    ensures '@' !in email ==> name == email
  {
    SplitFirst(email, '@');
    Split(email, '@')[0]
  }

  /** A display name computed from a concrete address. */
  lemma DisplayNameOfAddress(local: string, domain: string)
    requires '@' !in local
    ensures DisplayName(local + "@" + domain) == local
  {
    var email := local + "@" + domain;
    var name := DisplayName(email);
    assert email[|local|] == '@';
    assert forall k :: 0 <= k < |local| ==> email[k] == local[k];
    assert |name| == |local|;
    assert local == email[..|local|];
  }

  /** The JSON record stored under "user": the email as entered, the display name and the login time. */
  datatype StoredUser = StoredUser(email: string, name: string, loginTime: string)

  /** The browser's localStorage, reduced to its "user" entry. */
  class Storage {
    var user: Option<StoredUser>

    constructor ()
      ensures user.None?
    {
      user := None;
    }
  }

  /** The page's state. `location` is the route the page has navigated to. */
  class LoginForm {
    var email: string
    var password: string
    var loading: bool
    var error: string
    var location: string

    constructor (location: string)
      ensures email == "" && password == "" && !loading && error == "" && this.location == location
    {
      email, password := "", "";
      loading, error := false, "";
      this.location := location;
    }

    /**
     * `handleLogin`, with `loginTime` the ISO time of the call. The first
     * failing check sets the error and nothing else changes. Otherwise the
     * "user" record is stored, the loading flag ends cleared and the page
     * goes to "/".
     */
    method HandleLogin(storage: Storage, loginTime: string)
      modifies this`loading, this`error, this`location, storage
      ensures FormCheck(email, password).Some? ==>
        && error == FormCheck(email, password).value && loading == old(loading)
        && location == old(location) && storage.user == old(storage.user)
      ensures FormCheck(email, password).None? ==>
        && storage.user == Some(StoredUser(email, DisplayName(email), loginTime))
        && !loading && error == "" && location == "/"
    {
      var check := FormCheck(email, password);
      if check.Some? {
        error := check.value;
        return;
      }
      loading := true;
      error := "";
      storage.user := Some(StoredUser(email, DisplayName(email), loginTime));
      loading := false;
      location := "/";
    }
  }
}
