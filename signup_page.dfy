/**
 * The two-step sign-up page: step 1 asks for name, email and company and is
 * left with Continue; step 2 asks for the passwords and the terms check box
 * and submits.  Errors live in a map from field name to message, and a
 * field's message is shown only while it is non-empty.
 */
module SignupPage {
  import opened Wrappers
  import JsText
  import EmailInput

  // ---------------------------------------------------------------- e-mail check

  /** The class `[^\s@]`. */
  predicate Plain(c: char) {
    !JsText.IsWhitespace(c) && c != '@'
  }

  predicate AllPlain(s: string) {
    forall i :: 0 <= i < |s| ==> Plain(s[i])
  }

  /**
   * `/^[^\s@]+@[^\s@]+\.[^\s@]+$/` read as a language: a non-empty plain run,
   * '@', a non-empty plain run, '.', a non-empty plain run (plain runs may
   * themselves contain dots).
   */
  ghost predicate EmailPattern(s: string) {
    exists at, dot :: 0 < at && at + 1 < dot && dot + 1 < |s| && s[at] == '@' && s[dot] == '.'
      && AllPlain(s[..at]) && AllPlain(s[at + 1..dot]) && AllPlain(s[dot + 1..])
  }

  /** `s.indexOf(c)`, or None for -1. */
  function IndexOf(s: string, c: char): (r: Option<nat>)
    ensures r.None? <==> c !in s
    ensures r.Some? ==> r.value < |s| && s[r.value] == c && c !in s[..r.value]
  {
    if s == [] then None
    else if s[0] == c then Some(0)
    else
      match IndexOf(s[1..], c)
      case None => None
      case Some(i) =>
        assert s[..i + 1] == [s[0]] + s[1..][..i];
        Some(i + 1)
  }

  /** The part after the '@': a plain run with a dot strictly inside it. */
  predicate DomainOk(d: string) {
    3 <= |d| && AllPlain(d) && IndexOf(d[1..|d| - 1], '.').Some?
  }

  /** `validateEmail`: a non-empty plain run before the first '@' and an acceptable domain after it. */
  function ValidateEmail(s: string): bool {
    match IndexOf(s, '@')
    case None => false
    case Some(at) => 0 < at && AllPlain(s[..at]) && DomainOk(s[at + 1..])
  }

  lemma AllPlainSlice(s: string, i: nat, j: nat)
    requires AllPlain(s) && i <= j <= |s|
    ensures AllPlain(s[i..j])
  {
    assert forall k :: 0 <= k < j - i ==> s[i..j][k] == s[i + k];
  }

  /** A domain the check accepts splits at a dot into two non-empty plain runs. */
  lemma DomainSplits(d: string) returns (p: nat)
    requires DomainOk(d)
    ensures 0 < p < |d| - 1 && d[p] == '.'
    ensures AllPlain(d[..p]) && AllPlain(d[p + 1..])
  {
    var q := IndexOf(d[1..|d| - 1], '.').value;
    p := q + 1;
    assert d[p] == d[1..|d| - 1][q];
    AllPlainSlice(d, 0, p);
    AllPlainSlice(d, p + 1, |d|);
  }

  lemma ValidateEmailSound(s: string)
    requires ValidateEmail(s)
    ensures EmailPattern(s)
  {
    var at := IndexOf(s, '@').value;
    var d := s[at + 1..];
    assert 0 < at && s[at] == '@' && AllPlain(s[..at]) && DomainOk(d);
    var p := DomainSplits(d);
    var dot := at + 1 + p;
    assert s[dot] == d[p];
    assert s[at + 1..dot] == d[..p];
    assert s[dot + 1..] == d[p + 1..];
  }

  /** An '@' preceded only by plain characters is the first one. */
  lemma FirstAt(s: string, at: nat)
    requires at < |s| && s[at] == '@' && AllPlain(s[..at])
    ensures IndexOf(s, '@') == Some(at)
  {
  }

  /** Two plain runs around a dot make an acceptable domain. */
  lemma DomainAround(s: string, at: nat, dot: nat)
    requires at + 1 < dot && dot + 1 < |s| && s[dot] == '.'
    requires AllPlain(s[at + 1..dot]) && AllPlain(s[dot + 1..])
    ensures DomainOk(s[at + 1..])
  {
    var d := s[at + 1..];
    forall i | 0 <= i < |d|
      ensures Plain(d[i])
    {
      if at + 1 + i < dot {
        assert d[i] == s[at + 1..dot][i];
      } else if at + 1 + i > dot {
        assert d[i] == s[dot + 1..][at + i - dot];
      } else {
        assert d[i] == '.';
      }
    }
    var inner := d[1..|d| - 1];
    assert inner[dot - at - 2] == '.';
    assert '.' in inner;
  }

  lemma ValidateEmailComplete(s: string)
    requires EmailPattern(s)
    ensures ValidateEmail(s)
  {
    var at, dot :| 0 < at && at + 1 < dot && dot + 1 < |s| && s[at] == '@' && s[dot] == '.'
      && AllPlain(s[..at]) && AllPlain(s[at + 1..dot]) && AllPlain(s[dot + 1..]);
    FirstAt(s, at);
    DomainAround(s, at, dot);
  }

  /** The check accepts exactly the strings the regular expression matches. */
  lemma ValidateEmailIff(s: string)
    ensures ValidateEmail(s) <==> EmailPattern(s)
  {
    if ValidateEmail(s) {
      ValidateEmailSound(s);
    }
    if EmailPattern(s) {
      ValidateEmailComplete(s);
    }
  }

  /** An accepted address is never blank, so the blank check and the pattern check never both fire. */
  lemma ValidEmailNotBlank(s: string)
    requires ValidateEmail(s)
    ensures JsText.Trim(s) != ""
  {
    var at := IndexOf(s, '@').value;
    assert AllPlain(s[..at]) && 0 < at;
    assert Plain(s[..at][0]);
    assert !JsText.AllWhitespace(s);
    JsText.TrimEmptyIff(s);
  }

  // ---------------------------------------------------------------- form and errors

  datatype SignupForm = SignupForm(
    fullName: string,
    email: string,
    password: string,
    confirmPassword: string,
    company: string,
    agreeToTerms: bool)

  const EmptyForm: SignupForm := SignupForm("", "", "", "", "", false)

  /** The names under which `errors` keeps its messages. */
  datatype ErrorKey = FullNameKey | EmailKey | PasswordKey | ConfirmKey | CompanyKey | TermsKey | SubmitKey

  /** The messages the page ever stores; `NoMessage` is the empty string Continue stores for a field that passed. */
  datatype Message =
    | NameRequired | EmailRequired | EmailInvalid | ContinueEmailInvalid
    | PasswordRequired | PasswordTooShort | PasswordsDiffer | TermsRequired
    | SignupFailed | NoMessage

  function Text(m: Message): (t: string)
    ensures t == "" <==> m == NoMessage
  {
    match m
    case NameRequired => "Full name is required"
    case EmailRequired => "Email is required"
    case EmailInvalid => "Please enter a valid email"
    case ContinueEmailInvalid => "Invalid email"
    case PasswordRequired => "Password is required"
    case PasswordTooShort => "Password must be at least 8 characters"
    case PasswordsDiffer => "Passwords do not match"
    case TermsRequired => "You must agree to the terms"
    case SignupFailed => "Signup failed. Please try again."
    case NoMessage => ""
  }

  /** `errors.x && <p>…</p>`: a message is on screen only while its text is non-empty. */
  predicate Shown(errors: map<ErrorKey, Message>, key: ErrorKey) {
    key in errors && Text(errors[key]) != ""
  }

  /** The outcome of each test `validateForm` makes. */
  datatype Checks = Checks(
    nameBlank: bool, emailBlank: bool, emailValid: bool,
    passwordEmpty: bool, passwordShort: bool, passwordsDiffer: bool, termsUnticked: bool)

  /**
   * The tests in the order `validateForm` makes them.  `!s.trim()` is
   * written as `AllWhitespace(s)`, which `JsText.TrimEmptyIff` shows equal.
   */
  function Judge(f: SignupForm): Checks {
    Checks(JsText.AllWhitespace(f.fullName), JsText.AllWhitespace(f.email), ValidateEmail(f.email),
           f.password == "", JsText.Utf16Length(f.password) < 8, f.password != f.confirmPassword, !f.agreeToTerms)
  }

  /** The message the test for `k` records, if it fails; earlier tests of a field take precedence. */
  function FieldError(c: Checks, k: ErrorKey): (r: Option<Message>)
    ensures r.Some? ==> r.value != NoMessage
  {
    match k
    case FullNameKey => if c.nameBlank then Some(NameRequired) else None
    case EmailKey =>
      if c.emailBlank then Some(EmailRequired)
      else if !c.emailValid then Some(EmailInvalid)
      else None
    case PasswordKey =>
      if c.passwordEmpty then Some(PasswordRequired)
      else if c.passwordShort then Some(PasswordTooShort)
      else None
    case ConfirmKey => if c.passwordsDiffer then Some(PasswordsDiffer) else None
    case TermsKey => if c.termsUnticked then Some(TermsRequired) else None
    case CompanyKey => None
    case SubmitKey => None
  }

  /** The keys `validateForm` may fill in. */
  const CheckedKeys: set<ErrorKey> := {FullNameKey, EmailKey, PasswordKey, ConfirmKey, TermsKey}

  /** One entry per failing test. */
  function ErrorsFor(c: Checks): (e: map<ErrorKey, Message>)
    ensures forall k :: k in e ==> e[k] != NoMessage
    ensures e.Keys <= CheckedKeys
  {
    map k | k in CheckedKeys && FieldError(c, k).Some? :: FieldError(c, k).value
  }

  /** `newErrors` as `validateForm` leaves it. */
  function FormErrors(f: SignupForm): (e: map<ErrorKey, Message>)
    ensures forall k :: k in e ==> e[k] != NoMessage
    ensures e.Keys <= CheckedKeys
  {
    ErrorsFor(Judge(f))
  }

  /** The name is flagged exactly when it is empty or all white space. */
  lemma NameFlaggedIff(f: SignupForm)
    ensures FullNameKey in FormErrors(f) <==> JsText.AllWhitespace(f.fullName)
  {
    JsText.TrimEmptyIff(f.fullName);
  }

  /** The email is flagged exactly when it is blank or does not match the pattern. */
  lemma EmailFlaggedIff(f: SignupForm)
    ensures EmailKey in FormErrors(f) <==> JsText.AllWhitespace(f.email) || !EmailPattern(f.email)
    ensures EmailKey in FormErrors(f) ==>
      FormErrors(f)[EmailKey] == if JsText.AllWhitespace(f.email) then EmailRequired else EmailInvalid
  {
    JsText.TrimEmptyIff(f.email);
    ValidateEmailIff(f.email);
  }

  /**
   * The password is flagged exactly when it is shorter than 8 UTF-16 code
   * units, as `.length` counts them (the empty one with its own message), the confirmation exactly when it
   * differs, the terms exactly when unticked.
   */
  lemma SecondStepFlaggedIff(f: SignupForm)
    ensures PasswordKey in FormErrors(f) <==> JsText.Utf16Length(f.password) < 8
    ensures PasswordKey in FormErrors(f) ==>
      FormErrors(f)[PasswordKey] == if f.password == "" then PasswordRequired else PasswordTooShort
    ensures ConfirmKey in FormErrors(f) <==> f.password != f.confirmPassword
    ensures TermsKey in FormErrors(f) <==> !f.agreeToTerms
  {
  }

  /** `e` holds under `k` exactly what the test for `k` reports. */
  ghost predicate Agrees(c: Checks, e: map<ErrorKey, Message>, k: ErrorKey) {
    (k in e <==> FieldError(c, k).Some?) && (k in e ==> e[k] == FieldError(c, k).value)
  }

  /** A map that agrees with every test, and holds nothing else, is `ErrorsFor`. */
  lemma AgreesEverywhere(c: Checks, e: map<ErrorKey, Message>)
    requires e.Keys <= CheckedKeys
    requires Agrees(c, e, FullNameKey) && Agrees(c, e, EmailKey) && Agrees(c, e, PasswordKey)
    requires Agrees(c, e, ConfirmKey) && Agrees(c, e, TermsKey)
    ensures e == ErrorsFor(c)
  {
    var g := ErrorsFor(c);
    forall k | k in CheckedKeys
      ensures (k in e <==> k in g) && (k in e ==> e[k] == g[k])
    {
    }
    assert e.Keys == g.Keys;
  }

  /**
   * The body of `validateForm`: a fresh map filled test by test (name,
   * email, password, confirmation, terms).
   */
  method FillErrors(c: Checks) returns (e: map<ErrorKey, Message>)
    ensures e == ErrorsFor(c)
  {
    e := map[];
    if c.nameBlank {
      e := e[FullNameKey := NameRequired];
    }
    if c.emailBlank {
      e := e[EmailKey := EmailRequired];
    } else if !c.emailValid {
      e := e[EmailKey := EmailInvalid];
    }
    if c.passwordEmpty {
      e := e[PasswordKey := PasswordRequired];
    } else if c.passwordShort {
      e := e[PasswordKey := PasswordTooShort];
    }
    if c.passwordsDiffer {
      e := e[ConfirmKey := PasswordsDiffer];
    }
    if c.termsUnticked {
      e := e[TermsKey := TermsRequired];
    }
    AgreesEverywhere(c, e);
  }

  /** `Object.keys(m).length === 0` holds exactly for the empty map. */
  lemma NoKeysEmpty(m: map<ErrorKey, Message>)
    ensures |m.Keys| == 0 <==> m == map[]
  {
    if |m.Keys| == 0 {
      assert m.Keys == {};
    }
  }

  /** The Continue button's test: name and email non-empty as typed, and the email valid. */
  predicate CanContinue(f: SignupForm) {
    f.fullName != "" && f.email != "" && ValidateEmail(f.email)
  }

  /** The map Continue installs when its test fails; an empty message stands for no error. */
  function ContinueErrors(f: SignupForm): (e: map<ErrorKey, Message>)
    ensures e.Keys == {FullNameKey, EmailKey}
    ensures Shown(e, FullNameKey) <==> f.fullName == ""
    ensures Shown(e, EmailKey) <==> !ValidateEmail(f.email)
  {
    map[FullNameKey := if f.fullName == "" then NameRequired else NoMessage,
        EmailKey := if f.email == "" then EmailRequired
                    else if !ValidateEmail(f.email) then ContinueEmailInvalid else NoMessage]
  }

  /** For the email the step-1 test and the final check agree. */
  lemma ContinueEmailAgrees(f: SignupForm)
    ensures f.email != "" && ValidateEmail(f.email) <==> EmailKey !in FormErrors(f)
  {
    EmailFlaggedIff(f);
    ValidateEmailIff(f.email);
    if ValidateEmail(f.email) {
      ValidEmailNotBlank(f.email);
      JsText.TrimEmptyIff(f.email);
    }
  }

  lemma SampleAddressValid()
    ensures ValidateEmail("a@b.co")
  {
    var s := "a@b.co";
    assert s[..1] == "a" && s[2..3] == "b" && s[4..] == "co";
    assert Plain('a') && Plain('b') && Plain('c') && Plain('o');
    FirstAt(s, 1);
    DomainAround(s, 1, 3);
  }

  /**
   * For the name they do not: a name of spaces passes Continue (which tests
   * the untrimmed text) and is then rejected by the final check (which trims).
   */
  lemma BlankNamePassesContinueOnly(f: SignupForm)
    requires f.fullName != "" && JsText.AllWhitespace(f.fullName) && ValidateEmail(f.email)
    ensures CanContinue(f) && FullNameKey in FormErrors(f)
  {
    ValidEmailNotBlank(f.email);
    NameFlaggedIff(f);
  }

  /** Such a form exists: the name " " with the address "a@b.co". */
  lemma BlankNameExample()
    ensures var f := EmptyForm.(fullName := " ", email := "a@b.co");
      CanContinue(f) && FullNameKey in FormErrors(f)
  {
    var f := EmptyForm.(fullName := " ", email := "a@b.co");
    SampleAddressValid();
    assert JsText.AllWhitespace(f.fullName) by {
      assert |f.fullName| == 1 && JsText.IsWhitespace(f.fullName[0]);
    }
    BlankNamePassesContinueOnly(f);
  }

  // ---------------------------------------------------------------- the page

  datatype TextField = FullName | Email | Password | ConfirmPassword | Company

  function FieldKey(f: TextField): ErrorKey {
    match f
    case FullName => FullNameKey
    case Email => EmailKey
    case Password => PasswordKey
    case ConfirmPassword => ConfirmKey
    case Company => CompanyKey
  }

  /** A change event: a text input's new value, or the terms check box's new state. */
  datatype Input = TextInput(field: TextField, value: string) | TermsBox(checked: bool)

  function InputKey(i: Input): ErrorKey {
    match i
    case TextInput(f, _) => FieldKey(f)
    case TermsBox(_) => TermsKey
  }

  /**
   * `{ ...prev, [name]: type === 'checkbox' ? checked : value }`.  The email
   * input is of type email, so the value it hands over is already sanitized.
   */
  function ApplyInput(f: SignupForm, i: Input): SignupForm {
    match i
    case TermsBox(c) => f.(agreeToTerms := c)
    case TextInput(FullName, v) => f.(fullName := v)
    case TextInput(Email, v) => f.(email := EmailInput.Sanitize(v))
    case TextInput(Password, v) => f.(password := v)
    case TextInput(ConfirmPassword, v) => f.(confirmPassword := v)
    case TextInput(Company, v) => f.(company := v)
  }

  /** What `signup` is called with. */
  datatype SignupRequest = SignupRequest(fullName: string, email: string, password: string, company: string)

  class Page {
    var form: SignupForm
    var errors: map<ErrorKey, Message>
    var step: int

    predicate Valid()
      reads this
    {
      step == 1 || step == 2
    }

    constructor ()
      ensures form == EmptyForm && errors == map[] && step == 1 && Valid()
    {
      form := EmptyForm;
      errors := map[];
      step := 1;
    }

    /** `handleInputChange`: the field changes, and its error is dropped if one is on screen. */
    method HandleInputChange(i: Input)
      modifies this
      ensures form == ApplyInput(old(form), i)
      ensures errors == if Shown(old(errors), InputKey(i)) then old(errors) - {InputKey(i)} else old(errors)
      ensures step == old(step)
    {
      form := ApplyInput(form, i);
      var name := InputKey(i);
      if name in errors && Text(errors[name]) != "" {
        errors := errors - {name};
      }
    }

    /** `validateForm`: the tests' map replaces `errors`; the result says whether it is empty. */
    method ValidateForm() returns (ok: bool)
      modifies this`errors
      ensures errors == FormErrors(form)
      ensures ok <==> errors == map[]
    {
      var e := FillErrors(Judge(form));
      errors := e;
      ok := |e.Keys| == 0;
      NoKeysEmpty(e);
    }

    /** The Continue button of step 1. */
    method Continue()
      requires Valid()
      modifies this`errors, this`step
      ensures Valid()
      ensures CanContinue(form) ==> step == 2 && errors == old(errors)
      ensures !CanContinue(form) ==> step == old(step) && errors == ContinueErrors(form)
    {
      if form.fullName != "" && form.email != "" && ValidateEmail(form.email) {
        step := 2;
      } else {
        errors := ContinueErrors(form);
      }
    }

    /** The Back button of step 2. */
    method Back()
      modifies this`step
      ensures step == 1 && Valid()
    {
      step := 1;
    }

    /**
     * The synchronous part of `handleSubmit`: validation, then the call to
     * `signup` if and only if the form is clean.
     */
    method Submit() returns (request: Option<SignupRequest>)
      modifies this`errors
      ensures errors == FormErrors(form)
      ensures request.Some? <==> FormErrors(form) == map[]
      ensures request.Some? ==>
        request.value == SignupRequest(form.fullName, form.email, form.password, form.company)
    {
      var ok := ValidateForm();
      if !ok {
        return None;
      }
      request := Some(SignupRequest(form.fullName, form.email, form.password, form.company));
    }

    /** The `signup` promise settles: success calls `onSignupSuccess`, failure records an error. */
    method SignupSettled(rejected: bool) returns (success: bool)
      modifies this`errors
      ensures success <==> !rejected
      ensures rejected ==> errors == map[SubmitKey := SignupFailed]
      ensures !rejected ==> errors == old(errors)
    {
      if rejected {
        errors := map[SubmitKey := SignupFailed];
      }
      success := !rejected;
    }
  }

  /**
   * `.length` counts code units, so four emoji (two units each) make a long
   * enough password although they are only four characters.
   */
  lemma FourEmojiPasswordLongEnough(f: SignupForm)
    requires f.password == "\U{1F600}\U{1F600}\U{1F600}\U{1F600}"
    ensures |f.password| == 4
    ensures PasswordKey !in FormErrors(f)
  {
    var p := f.password;
    assert p[1..][1..][1..][1..] == [];
    assert JsText.Utf16Length(p[1..][1..][1..]) == 2;
    assert JsText.Utf16Length(p[1..][1..]) == 4;
    assert JsText.Utf16Length(p) == 8;
    SecondStepFlaggedIff(f);
  }

  /**
   * A clean form has a name, a valid email, a password of at least 8 UTF-16
   * code units, a matching confirmation and the terms ticked.
   */
  lemma CleanFormIff(f: SignupForm)
    ensures FormErrors(f) == map[] <==>
      && !JsText.AllWhitespace(f.fullName) && EmailPattern(f.email)
      && 8 <= JsText.Utf16Length(f.password) && f.password == f.confirmPassword && f.agreeToTerms
  {
    NameFlaggedIff(f);
    EmailFlaggedIff(f);
    SecondStepFlaggedIff(f);
    var e := FormErrors(f);
    if FullNameKey !in e && EmailKey !in e && PasswordKey !in e && ConfirmKey !in e && TermsKey !in e {
      NoCheckedKeyEmpty(e);
    }
  }

  lemma NoCheckedKeyEmpty(e: map<ErrorKey, Message>)
    requires e.Keys <= CheckedKeys
    requires FullNameKey !in e && EmailKey !in e && PasswordKey !in e && ConfirmKey !in e && TermsKey !in e
    ensures e == map[]
  {
    assert e.Keys == {};
  }
}
