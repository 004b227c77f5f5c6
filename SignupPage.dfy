/**
 * The web client's signup page: the field checks of `handleSignup`, the
 * request body it sends, and how it reacts to the server's answer. The
 * request itself is a parameter: what the server answers to a body.
 */
module SignupPage {
  import opened Wrappers
  import AuthRoutes

  const EmptyFieldError: string := "Semua field harus diisi."
  const InvalidEmailError: string := "Email tidak valid."
  const ShortPasswordError: string := "Password minimal 6 karakter."
  const MismatchError: string := "Password tidak cocok."
  const SignedUpFallback: string := "Pendaftaran berhasil! Silakan login."
  const SignupFailedFallback: string := "Pendaftaran gagal. Silakan coba lagi."
  const NetworkError: string := "Gagal terhubung ke server. Pastikan backend berjalan."

  /**
   * The checks of `handleSignup`, in order: no field empty, an '@' in the
   * email, a password of six characters or more, the confirmation equal to it.
   */
  function FormCheck(name: string, email: string, password: string, confirmPassword: string): (error: Option<string>)
    ensures error == Some(EmptyFieldError) <==> name == "" || email == "" || password == "" || confirmPassword == ""
    ensures error == Some(InvalidEmailError) <==>
      name != "" && email != "" && password != "" && confirmPassword != "" && '@' !in email
    ensures error == Some(ShortPasswordError) <==>
      name != "" && email != "" && password != "" && confirmPassword != "" && '@' in email && |password| < 6
    ensures error == Some(MismatchError) <==>
      && name != "" && email != "" && password != "" && confirmPassword != "" && '@' in email && |password| >= 6
      && password != confirmPassword
    ensures error.None? <==>
      name != "" && email != "" && '@' in email && |password| >= 6 && password == confirmPassword
  {
    if name == "" || email == "" || password == "" || confirmPassword == "" then Some(EmptyFieldError)
    else if '@' !in email then Some(InvalidEmailError)
    else if |password| < 6 then Some(ShortPasswordError)
    else if password != confirmPassword then Some(MismatchError)
    else None
  }

  /** Whatever this form sends also passes the server's own field checks. */
  lemma AcceptedFormPassesServerChecks(name: string, email: string, password: string, confirmPassword: string)
    requires FormCheck(name, email, password, confirmPassword).None?
    ensures AuthRoutes.SignupCheck(name, email, password).None?
  {
  }

  /**
   * With a matching confirmation, the form and the server reject the same
   * inputs, for the same reason in the same order.
   */
  lemma FormAgreesWithServer(name: string, email: string, password: string)
    ensures var client := FormCheck(name, email, password, password);
      var server := AuthRoutes.SignupCheck(name, email, password);
      && (client.None? <==> server.None?)
      && (client == Some(EmptyFieldError) <==> server == Some(AuthRoutes.MissingSignupFieldsMessage))
      && (client == Some(InvalidEmailError) <==> server == Some(AuthRoutes.InvalidEmailMessage))
      && (client == Some(ShortPasswordError) <==> server == Some(AuthRoutes.ShortPasswordMessage))
  {
  }

  /** The JSON body of the request: name, email and password, and never the confirmation. */
  datatype RequestBody = RequestBody(name: string, email: string, password: string)

  /** The server's answer as the page reads it; NoResponse when `fetch` or `response.json()` throws. */
  datatype Response = NoResponse | Response(ok: bool, message: Option<string>)

  /** `data.message || fallback`. */
  function MessageOr(message: Option<string>, fallback: string): (r: string)
    ensures message.Some? && message.value != "" ==> r == message.value
    ensures message.None? || message == Some("") ==> r == fallback
    ensures r != "" || fallback == ""
  {
    if message.Some? && message.value != "" then message.value else fallback
  }

  /** The page's state. `location` is the route the page has navigated to. */
  class SignupForm {
    var name: string
    var email: string
    var password: string
    var confirmPassword: string
    var loading: bool
    var error: string
    var success: string
    /** The signup requests the page has sent, in order. */
    var requests: seq<RequestBody>
    var location: string

    constructor (location: string)
      ensures name == "" && email == "" && password == "" && confirmPassword == ""
      ensures !loading && error == "" && success == ""
      ensures requests == [] && this.location == location
    {
      name, email, password, confirmPassword := "", "", "", "";
      loading, error, success := false, "", "";
      requests := [];
      this.location := location;
    }

    /**
     * `handleSignup`. The first failing check sets the error and nothing is
     * sent. Otherwise one request is sent; an ok answer shows its message
     * (or the fallback) and goes to /login, any other answer shows an error,
     * and the loading flag ends cleared.
     */
    method HandleSignup(respond: RequestBody -> Response)
      modifies this`loading, this`error, this`success, this`requests, this`location
      ensures var check := FormCheck(name, email, password, confirmPassword);
        && (check.Some? ==>
             && error == check.value && loading == old(loading) && success == old(success)
             && requests == old(requests) && location == old(location))
        && (check.None? ==>
             var body := RequestBody(name, email, password);
             var answer := respond(body);
             && requests == old(requests) + [body] && !loading
             && (answer.NoResponse? ==> error == NetworkError && success == "" && location == old(location))
             && (answer.Response? && answer.ok ==>
                   success == MessageOr(answer.message, SignedUpFallback) && error == "" && location == "/login")
             && (answer.Response? && !answer.ok ==>
                   error == MessageOr(answer.message, SignupFailedFallback) && success == "" && location == old(location)))
    {
      var check := FormCheck(name, email, password, confirmPassword);
      if check.Some? {
        error := check.value;
        return;
      }
      loading := true;
      error := "";
      success := "";
      var body := RequestBody(name, email, password);
      requests := requests + [body];
      var answer := respond(body);
      match answer {
        case NoResponse =>
          error := NetworkError;
        case Response(ok, message) =>
          if ok {
            success := MessageOr(message, SignedUpFallback);
            location := "/login";
          } else {
            error := MessageOr(message, SignupFailedFallback);
          }
      }
      loading := false;
    }
  }
}
