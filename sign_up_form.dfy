/** The sign-up form: its state (the form data, the password error, the
    general error, the password-visibility flag), the input and submit
    handlers, the sign-up password rule and the e-mail warning. React state
    setters become field assignments; a handler reads the state as it was when
    the event arrived. */
module SignUpForm {
  import opened PasswordRules

  /** A form field holds the text of a text input or the flag of a checkbox. */
  datatype FieldValue = Text(text: string) | Flag(flag: bool)

  /** The form data on first render and after a successful submit. */
  const InitialFormData: map<string, FieldValue> := map[
    "email" := Text(""),
    "password" := Text(""),
    "acceptTerms" := Flag(false),
    "receiveUpdates" := Flag(false)]

  /** The `passwordError` value `validatePassword` sets for `password`. */
  function SignUpPasswordError(password: string): (message: string)
    ensures message == "" <==> SignUpAccepts(password)
    ensures message != "" ==> message == WeakPasswordMessage
  {
    if SignUpAccepts(password) then "" else WeakPasswordMessage
  }

  // ---------------------------------------------------------------- e-mail

  /** JavaScript's `\s`: the white-space and line-terminator characters. */
  predicate IsWhitespace(c: char)
  {
    c == '\t' || c == '\n' || c == '\U{000B}' || c == '\U{000C}' || c == '\r' || c == ' '
    || c == '\U{00A0}' || c == '\U{1680}' || ('\U{2000}' <= c <= '\U{200A}')
    || c == '\U{2028}' || c == '\U{2029}' || c == '\U{202F}' || c == '\U{205F}'
    || c == '\U{3000}' || c == '\U{FEFF}'
  }

  /** The pattern `\S+@\S+\.\S+` matches with its `@` at `at` and its `.` at
      `dot`: a non-space character before the `@`, only non-space characters
      strictly between the two (at least one), and one after the `.`. */
  predicate EmailMatchAt(s: string, at: int, dot: int)
  {
    && 0 < at && at + 1 < dot && dot + 1 < |s|
    && s[at] == '@' && s[dot] == '.'
    && !IsWhitespace(s[at - 1]) && !IsWhitespace(s[dot + 1])
    && forall k | at < k < dot :: !IsWhitespace(s[k])
  }

  /** Whether `/\S+@\S+\.\S+/.test(s)` holds; the pattern is not anchored. */
  predicate MatchesEmailPattern(s: string)
  {
    exists at, dot | 0 < at < dot < |s| :: EmailMatchAt(s, at, dot)
  }

  /** `formData.email && !/\S+@\S+\.\S+/.test(formData.email)` */
  function ShowsEmailWarning(email: string): (show: bool)
    ensures show <==> email != "" && !MatchesEmailPattern(email)
  {
    email != "" && !MatchesEmailPattern(email)
  }

  predicate NoWhitespace(s: string)
  {
    forall i :: 0 <= i < |s| ==> !IsWhitespace(s[i])
  }

  /** Every address `local@domain.tld` whose three parts are non-empty and free
      of white space passes the e-mail test. */
  lemma EmailShapeMatches(local: string, domain: string, tld: string)
    requires local != "" && domain != "" && tld != ""
    requires NoWhitespace(local) && NoWhitespace(domain) && NoWhitespace(tld)
    ensures MatchesEmailPattern(local + "@" + domain + "." + tld)
    ensures !ShowsEmailWarning(local + "@" + domain + "." + tld)
  {
    var s := local + "@" + domain + "." + tld;
    var at := |local|;
    var dot := |local| + 1 + |domain|;
    assert s[at] == '@' && s[dot] == '.';
    assert s[at - 1] == local[at - 1];
    assert s[dot + 1] == tld[0];
    forall k | at < k < dot ensures !IsWhitespace(s[k]) {
      assert s[k] == domain[k - at - 1];
    }
    assert EmailMatchAt(s, at, dot);
  }

  /** The test is not anchored: text around a matching string keeps it matching. */
  lemma EmailMatchInContext(before: string, s: string, after: string)
    requires MatchesEmailPattern(s)
    ensures MatchesEmailPattern(before + s + after)
  {
    var at, dot :| 0 < at < dot < |s| && EmailMatchAt(s, at, dot);
    var t := before + s + after;
    var n := |before|;
    assert forall k | 0 <= k < |s| :: t[n + k] == s[k];
    assert t[n + at] == '@' && t[n + dot] == '.';
    assert !IsWhitespace(t[n + at - 1]) && !IsWhitespace(t[n + dot + 1]);
    forall k | n + at < k < n + dot ensures !IsWhitespace(t[k]) {
      assert t[k] == s[k - n];
    }
    assert EmailMatchAt(t, n + at, n + dot);
  }

  /** The text `before + local + "@" + domain + "." + tld + after`. */
  function EmailText(before: string, local: string, domain: string, tld: string, after: string): string
  {
    before + local + "@" + domain + "." + tld + after
  }

  /** The three parts of an address are non-empty and free of white space. */
  predicate EmailParts(local: string, domain: string, tld: string)
  {
    local != "" && domain != "" && tld != ""
    && NoWhitespace(local) && NoWhitespace(domain) && NoWhitespace(tld)
  }

  /** A match splits the string into text before, a one-character local
      part, `@`, the domain, `.`, a one-character top-level part and text after. */
  lemma EmailMatchHasShape(s: string, at: int, dot: int)
    requires EmailMatchAt(s, at, dot)
    ensures EmailParts(s[at - 1..at], s[at + 1..dot], s[dot + 1..dot + 2])
    ensures s == EmailText(s[..at - 1], s[at - 1..at], s[at + 1..dot], s[dot + 1..dot + 2], s[dot + 2..])
  {
    var domain := s[at + 1..dot];
    forall k | 0 <= k < |domain| ensures !IsWhitespace(domain[k]) {
      assert domain[k] == s[at + 1 + k];
    }
    assert s == s[..at - 1] + s[at - 1..at] + s[at..at + 1] + domain + s[dot..dot + 1] + s[dot + 1..dot + 2] + s[dot + 2..];
  }

  /** A string holding an address with valid parts passes the test. */
  lemma EmailTextMatches(before: string, local: string, domain: string, tld: string, after: string)
    requires EmailParts(local, domain, tld)
    ensures MatchesEmailPattern(EmailText(before, local, domain, tld, after))
  {
    var address := local + "@" + domain + "." + tld;
    EmailShapeMatches(local, domain, tld);
    EmailMatchInContext(before, address, after);
    assert before + address + after == EmailText(before, local, domain, tld, after);
  }

  /** The e-mail test passes exactly on the strings that contain some
      `local@domain.tld` with non-empty, white-space-free parts. */
  lemma EmailPatternIffShape(s: string)
    ensures MatchesEmailPattern(s) <==>
      exists before, local, domain, tld, after ::
        s == EmailText(before, local, domain, tld, after) && EmailParts(local, domain, tld)
  {
    if MatchesEmailPattern(s) {
      var at, dot :| 0 < at < dot < |s| && EmailMatchAt(s, at, dot);
      EmailMatchHasShape(s, at, dot);
    }
    if exists before, local, domain, tld, after ::
         s == EmailText(before, local, domain, tld, after) && EmailParts(local, domain, tld) {
      var before, local, domain, tld, after :|
        s == EmailText(before, local, domain, tld, after) && EmailParts(local, domain, tld);
      EmailTextMatches(before, local, domain, tld, after);
    }
  }

  /** A string without `@` never passes the e-mail test. */
  lemma EmailNeedsAt(s: string)
    requires '@' !in s
    ensures !MatchesEmailPattern(s)
  {
  }

  /** The test is loose: "a@@.." passes it. */
  lemma EmailTestIsLoose()
    ensures MatchesEmailPattern("a@@..")
  {
    var s := "a@@..";
    assert s[1] == '@' && s[3] == '.' && s[0] == 'a' && s[4] == '.' && s[2] == '@';
    assert EmailMatchAt(s, 1, 3);
  }

  // ---------------------------------------------------------------- the form

  class SignUpFormState {
    var formData: map<string, FieldValue>
    var passwordError: string
    var generalError: string
    var passwordVisible: bool

    /** The text of the password field (empty when it is missing or a flag). */
    function PasswordText(): string
      reads this
    {
      if "password" in formData && formData["password"].Text? then formData["password"].text else ""
    }

    /** The password error agrees with the password field; the only exception
        is the untouched form, whose empty password carries no error. */
    ghost predicate Synced()
      reads this
    {
      passwordError == SignUpPasswordError(PasswordText())
      || (PasswordText() == "" && passwordError == "")
    }

    constructor ()
      ensures formData == InitialFormData
      ensures passwordError == "" && generalError == "" && !passwordVisible
      ensures Synced()
    {
      formData := InitialFormData;
      passwordError := "";
      generalError := "";
      passwordVisible := false;
    }

    /** `validatePassword` */
    method ValidatePassword(password: string)
      modifies this`passwordError
      ensures passwordError == SignUpPasswordError(password)
      ensures passwordError == "" <==> SignUpAccepts(password)
    {
      if !SignUpAccepts(password) {
        passwordError := WeakPasswordMessage;
      } else {
        passwordError := "";
      }
    }

    /** `handleInputChange`: the field called `name` takes `checked` for a
        checkbox and `value` otherwise; only the password field is validated. */
    method HandleInputChange(name: string, value: string, inputType: string, checked: bool)
      modifies this`formData, this`passwordError
      ensures formData == old(formData)[name := if inputType == "checkbox" then Flag(checked) else Text(value)]
      ensures forall other :: other in old(formData) && other != name ==>
        other in formData && formData[other] == old(formData)[other]
      ensures name == "password" ==> passwordError == SignUpPasswordError(value)
      ensures name != "password" ==> passwordError == old(passwordError)
      ensures old(Synced()) && !(name == "password" && inputType == "checkbox") ==> Synced()
    {
      formData := formData[name := if inputType == "checkbox" then Flag(checked) else Text(value)];
      if name == "password" {
        ValidatePassword(value);
      }
    }

    /** `handleSignUp`; `submitted` stands for the submission the source logs.
        A pending password error blocks it and changes nothing; otherwise the
        general error is cleared and the form is reset. */
    method HandleSignUp() returns (submitted: bool)
      modifies this`formData, this`generalError
      ensures submitted <==> old(passwordError) == ""
      ensures !submitted ==> formData == old(formData) && generalError == old(generalError)
      ensures submitted ==> formData == InitialFormData && generalError == ""
      ensures old(Synced()) ==> Synced()
      ensures old(Synced()) && submitted ==>
        old(PasswordText()) == "" || SignUpAccepts(old(PasswordText()))
    {
      if passwordError != "" {
        return false;
      }
      generalError := "";
      formData := InitialFormData;
      submitted := true;
    }

    /** `togglePasswordVisibility` */
    method TogglePasswordVisibility()
      modifies this`passwordVisible
      ensures passwordVisible == !old(passwordVisible)
    {
      passwordVisible := !passwordVisible;
    }
  }
}
