/**
 * The sign-in form.  A submit first clears the banner; with an empty email or
 * password it shows "Please fill in all fields" and never calls `login`;
 * otherwise it calls `login(email, password)` and, when that settles, either
 * hands over to `onLoginSuccess` or shows "Login failed. Please try again.".
 * The handler itself trims nothing, so a password of three spaces is sent
 * as it is.  The email field is an `<input type="email">` in a form without
 * `noValidate`, so the browser stands in front of the handler: the value it
 * reads has leading and trailing ASCII white space stripped, and a non-empty
 * value that is not a valid address blocks the submit before `handleSubmit`
 * runs.
 *
 * The awaited call is split in two: `Submit` is everything up to the call
 * and `Settle` is what runs when the promise settles.
 */
module LoginPage {
  import opened Wrappers
  import JsText
  import EmailInput

  const FillInAllFields: string := "Please fill in all fields"
  const LoginFailed: string := "Login failed. Please try again."

  /** What `login` is called with. */
  datatype LoginRequest = LoginRequest(email: string, password: string)

  /** `if (!email || !password)`: only the empty string is falsy. */
  predicate MissingField(email: string, password: string) {
    |email| == 0 || |password| == 0
  }

  /** The request a submit makes, if any. */
  function SubmitRequest(email: string, password: string): (r: Option<LoginRequest>)
    ensures r.None? <==> email == "" || password == ""
    ensures r.Some? ==> r.value.email == email && r.value.password == password
  {
    if MissingField(email, password) then None else Some(LoginRequest(email, password))
  }

  /**
   * To the handler, a field of white space only is not missing: the request
   * carries it untouched.  For the password this happens in the app; for
   * the email the browser gets there first (`BlankEmailNeverSent`).
   */
  lemma BlankFieldsPass(email: string, password: string)
    requires JsText.AllWhitespace(email) && JsText.AllWhitespace(password)
    requires email != "" && password != ""
    ensures SubmitRequest(email, password) == Some(LoginRequest(email, password))
    ensures JsText.Trim(email) == "" && JsText.Trim(password) == ""
  {
    JsText.TrimEmptyIff(email);
    JsText.TrimEmptyIff(password);
  }

  /**
   * Whatever white space is typed as the email, no request carries it: the
   * field reads as empty, and the handler refuses it, or its value blocks
   * the submit.
   */
  lemma BlankEmailNeverSent(typed: string, password: string)
    requires JsText.AllWhitespace(typed)
    ensures var e := EmailInput.Sanitize(typed);
      !EmailInput.Accepts(e) || SubmitRequest(e, password).None?
  {
    EmailInput.BlankNeverAccepted(typed);
  }

  /**
   * "abc" with any password passes the handler's own test, but the field
   * blocks the submit, so the handler never sees it.
   */
  lemma InvalidEmailBlocked(password: string)
    requires password != ""
    ensures SubmitRequest("abc", password).Some?
    ensures !EmailInput.Accepts("abc")
  {
    EmailInput.NoAtBlocks("abc");
  }

  /** The banner, shown exactly when `error` is not the empty string. */
  function Banner(error: string): (b: Option<string>)
    ensures b.None? <==> error == ""
    ensures b.Some? ==> b.value == error
  {
    if error == "" then None else Some(error)
  }

  class Page {
    var email: string
    var password: string
    var showPassword: bool
    var rememberMe: bool
    var error: string

    /** `error` only ever holds nothing or one of the two messages. */
    predicate Valid()
      reads this
    {
      error == "" || error == FillInAllFields || error == LoginFailed
    }

    constructor ()
      ensures email == "" && password == "" && !showPassword && !rememberMe && error == ""
      ensures Valid()
    {
      email := "";
      password := "";
      showPassword := false;
      rememberMe := false;
      error := "";
    }

    /** The change handler reads the sanitized value of the email input. */
    method SetEmail(value: string)
      modifies this`email
      ensures email == EmailInput.Sanitize(value)
    {
      email := EmailInput.Sanitize(value);
    }

    method SetPassword(value: string)
      modifies this`password
      ensures password == value
    {
      password := value;
    }

    /** The eye button flips between showing and hiding the password. */
    method ToggleShowPassword()
      modifies this`showPassword
      ensures showPassword == !old(showPassword)
    {
      showPassword := !showPassword;
    }

    method SetRememberMe(checked: bool)
      modifies this`rememberMe
      ensures rememberMe == checked
    {
      rememberMe := checked;
    }

    /** The password input's `type`. */
    function PasswordInputType(): (t: string)
      reads this
      ensures t == "text" <==> showPassword
      ensures t == "password" <==> !showPassword
    {
      if showPassword then "text" else "password"
    }

    /**
     * A press of "Sign in".  While the email field holds an invalid address
     * the browser blocks the submit and nothing changes (`handled` false).
     * Otherwise `handleSubmit` runs up to the awaited call: the banner is
     * cleared, then either set to the fill-in message or left empty while
     * `login` runs.
     */
    method Submit() returns (handled: bool, request: Option<LoginRequest>)
      requires Valid()
      modifies this`error
      ensures Valid()
      ensures handled <==> EmailInput.Accepts(email)
      ensures !handled ==> request.None? && error == old(error)
      ensures handled ==> request == SubmitRequest(email, password)
      ensures handled && request.None? ==> error == FillInAllFields
      ensures handled && request.Some? ==> error == ""
    {
      if !EmailInput.Accepts(email) {
        handled, request := false, None;
        return;
      }
      handled := true;
      error := "";
      if email == "" || password == "" {
        error := FillInAllFields;
        request := None;
        return;
      }
      request := Some(LoginRequest(email, password));
    }

    /**
     * The awaited `login` settles: resolved, `onLoginSuccess` is called
     * (`success`); rejected, the failure message is shown.
     */
    method Settle(rejected: bool) returns (success: bool)
      requires Valid()
      modifies this`error
      ensures Valid()
      ensures success <==> !rejected
      ensures rejected ==> error == LoginFailed
      ensures !rejected ==> error == old(error)
    {
      if rejected {
        error := LoginFailed;
        success := false;
      } else {
        success := true;
      }
    }
  }
}
