/**
 * The signup page of my-next-app: the per-field rules of `validateForm`,
 * the submit handler around `register`, and the per-field error clearing of
 * the inputs' `onChange` handlers.
 *
 * The email rule of the page is the regular expression
 * `^[^\s@]+@[^\s@]+\.[^\s@]+$`; `MatchesEmailPattern` states its language
 * directly (some '@' and some later '.' split the input into three non-empty
 * parts free of whitespace and '@'), and `EmailShape` checks it by scanning;
 * `EmailShapeIffPattern` proves the two agree.
 */
module SignupPage {
  import opened Common

  const UsernameRequired := "Username is required"
  const UsernameLength := "Username must be between 3 and 50 characters"
  const UsernameCharset := "Username can only contain letters, numbers, underscores, and hyphens"
  const EmailRequired := "Email is required"
  const EmailInvalid := "Please enter a valid email address"
  const PasswordRequired := "Password is required"
  const PasswordTooShort := "Password must be at least 4 characters"
  const UnexpectedError := "An unexpected error occurred"
  const RegisteredPath := "/login?registered=true"

  datatype FormData = FormData(username: string, email: string, password: string)

  /** At most one message per field. */
  datatype Errors = Errors(username: Option<string>, email: Option<string>, password: Option<string>)

  const NoErrors := Errors(None, None, None)

  // ---------------------------------------------------------------------------
  // Username
  // ---------------------------------------------------------------------------

  /** A character of `[a-zA-Z0-9_-]`. */
  predicate UsernameChar(c: char) {
    ('a' <= c <= 'z') || ('A' <= c <= 'Z') || ('0' <= c <= '9') || c == '_' || c == '-'
  }

  predicate AllUsernameChars(u: string) {
    forall i :: 0 <= i < |u| ==> UsernameChar(u[i])
  }

  /** `validateForm`'s username check: at most one of the username messages. */
  function UsernameError(u: string): (r: Option<string>)
    ensures r == None || r == Some(UsernameRequired) || r == Some(UsernameLength) || r == Some(UsernameCharset)
  {
    if Trim(u) == "" then Some(UsernameRequired)
    else if |u| < 3 || |u| > 50 then Some(UsernameLength)
    else if !AllUsernameChars(u) then Some(UsernameCharset)
    else None
  }

  /** The username rules, in order: blank, then the untrimmed length, then the
      character class; a username passes exactly when its length is 3..50 and
      all its characters are in the class (which excludes blank ones). */
  lemma UsernameRules(u: string)
    ensures Blank(u) ==> UsernameError(u) == Some(UsernameRequired)
    ensures !Blank(u) && (|u| < 3 || |u| > 50) ==> UsernameError(u) == Some(UsernameLength)
    ensures !Blank(u) && 3 <= |u| <= 50 && !AllUsernameChars(u) ==> UsernameError(u) == Some(UsernameCharset)
    ensures UsernameError(u) == None <==> 3 <= |u| <= 50 && AllUsernameChars(u)
  {
    TrimEmptyIffBlank(u);
    if 3 <= |u| && AllUsernameChars(u) {
      assert !IsSpace(u[0]);
    }
  }

  // ---------------------------------------------------------------------------
  // Email
  // ---------------------------------------------------------------------------

  /** No character of `p` is whitespace or '@'. */
  predicate NoSpaceOrAt(p: string) {
    forall i :: 0 <= i < |p| ==> !IsSpace(p[i]) && p[i] != '@'
  }

  /** A non-empty run of `[^\s@]`. */
  predicate EmailPart(p: string) {
    |p| > 0 && NoSpaceOrAt(p)
  }

  /** The '@' at `i` and the '.' at `j` split `s` as the pattern demands. */
  predicate PatternSplit(s: string, i: int, j: int) {
    0 <= i < j < |s| && s[i] == '@' && s[j] == '.'
    && EmailPart(s[..i]) && EmailPart(s[i + 1..j]) && EmailPart(s[j + 1..])
  }

  /** The language of `^[^\s@]+@[^\s@]+\.[^\s@]+$`. */
  ghost predicate MatchesEmailPattern(s: string) {
    exists i, j :: PatternSplit(s, i, j)
  }

  /** Index of the first `c` in `s`, or `|s|` when there is none. */
  function IndexOf(s: string, c: char): (n: nat)
    ensures n <= |s|
    ensures n < |s| ==> s[n] == c
    ensures forall i :: 0 <= i < n ==> s[i] != c
  {
    if s == [] then 0 else if s[0] == c then 0 else 1 + IndexOf(s[1..], c)
  }

  /** The part after '@': no whitespace or '@', and a '.' with at least one
      character on either side of it. */
  predicate DomainShape(d: string) {
    NoSpaceOrAt(d) && |d| >= 3 && Contains(d[1..|d| - 1], ".")
  }

  /** The email check by scanning: a non-empty local part up to the first '@',
      then a domain of the right shape. */
  predicate EmailShape(s: string) {
    var at := IndexOf(s, '@');
    0 < at < |s| && EmailPart(s[..at]) && DomainShape(s[at + 1..])
  }

  /** A scanned email splits as the pattern demands. */
  lemma EmailShapeMatches(s: string)
    requires EmailShape(s)
    ensures MatchesEmailPattern(s)
  {
    var at := IndexOf(s, '@');
    var d := s[at + 1..];
    var inner := d[1..|d| - 1];
    ContainsIffOccurs(inner, ".");
    var k :| OccursAt(inner, ".", k);
    assert inner[k] == '.';
    var j := at + 2 + k;
    assert s[j] == d[k + 1] == '.';
    assert s[at + 1..j] == d[..k + 1];
    assert s[j + 1..] == d[k + 2..];
    assert PatternSplit(s, at, j);
  }

  /** A string of the pattern's language passes the scan. */
  lemma PatternHasEmailShape(s: string, i: int, j: int)
    requires PatternSplit(s, i, j)
    ensures EmailShape(s)
  {
    var at := IndexOf(s, '@');
    assert forall m :: 0 <= m < i ==> s[m] != '@' by {
      forall m | 0 <= m < i ensures s[m] != '@' {
        assert s[..i][m] == s[m];
      }
    }
    assert at == i;
    var d := s[at + 1..];
    assert d == s[i + 1..j] + ['.'] + s[j + 1..];
    assert NoSpaceOrAt(d) by {
      forall m | 0 <= m < |d| ensures !IsSpace(d[m]) && d[m] != '@' {
        if m < j - i - 1 {
          assert d[m] == s[i + 1..j][m];
        } else if m > j - i - 1 {
          assert d[m] == s[j + 1..][m - (j - i)];
        }
      }
    }
    var inner := d[1..|d| - 1];
    assert inner[j - i - 2] == d[j - i - 1] == s[j] == '.';
    assert inner[j - i - 2..j - i - 1] == ".";
    assert OccursAt(inner, ".", j - i - 2);
    ContainsIffOccurs(inner, ".");
  }

  /** The scan accepts exactly the language of the pattern. */
  lemma EmailShapeIffPattern(s: string)
    ensures EmailShape(s) <==> MatchesEmailPattern(s)
  {
    if EmailShape(s) {
      EmailShapeMatches(s);
    }
    if MatchesEmailPattern(s) {
      var i, j :| PatternSplit(s, i, j);
      PatternHasEmailShape(s, i, j);
    }
  }

  /** `validateForm`'s email check: at most one of the email messages. */
  function EmailError(e: string): (r: Option<string>)
    ensures r == None || r == Some(EmailRequired) || r == Some(EmailInvalid)
  {
    if Trim(e) == "" then Some(EmailRequired)
    else if !EmailShape(e) then Some(EmailInvalid)
    else None
  }

  /** The email rules: blank first, then the pattern; an email passes exactly
      when it matches the pattern. */
  lemma EmailRules(e: string)
    ensures Blank(e) ==> EmailError(e) == Some(EmailRequired)
    ensures !Blank(e) && !MatchesEmailPattern(e) ==> EmailError(e) == Some(EmailInvalid)
    ensures EmailError(e) == None <==> MatchesEmailPattern(e)
  {
    TrimEmptyIffBlank(e);
    EmailShapeIffPattern(e);
    if MatchesEmailPattern(e) {
      var i, j :| PatternSplit(e, i, j);
      assert e[..i][0] == e[0];
      assert !IsSpace(e[0]);
    }
  }

  // ---------------------------------------------------------------------------
  // Password
  // ---------------------------------------------------------------------------

  /** `validateForm`'s password check: at most one of the password messages. */
  function PasswordError(p: string): (r: Option<string>)
    ensures r == None || r == Some(PasswordRequired) || r == Some(PasswordTooShort)
  {
    if p == "" then Some(PasswordRequired)
    else if |p| < 4 then Some(PasswordTooShort)
    else None
  }

  /** The password is not trimmed: empty is missing, 1 to 3 characters (spaces
      included) are too short, anything longer passes. */
  lemma PasswordRules(p: string)
    ensures p == "" <==> PasswordError(p) == Some(PasswordRequired)
    ensures 0 < |p| < 4 <==> PasswordError(p) == Some(PasswordTooShort)
    ensures PasswordError(p) == None <==> |p| >= 4
  {
  }

  // ---------------------------------------------------------------------------
  // The whole form
  // ---------------------------------------------------------------------------

  /** The errors `validateForm` collects, field by field. */
  function FieldErrors(f: FormData): (r: Errors)
    ensures r == NoErrors <==>
      3 <= |f.username| <= 50 && AllUsernameChars(f.username)
      && MatchesEmailPattern(f.email)
      && |f.password| >= 4
  {
    UsernameRules(f.username);
    EmailRules(f.email);
    PasswordRules(f.password);
    Errors(UsernameError(f.username), EmailError(f.email), PasswordError(f.password))
  }

  datatype Field = UsernameField | EmailField | PasswordField

  datatype PageState = PageState(form: FormData, errors: Errors, serverError: string, isLoading: bool)

  /** What a submit did: the state after it, the credentials passed to
      `register` if it was called, the state rendered while that call was
      pending, and the navigation performed. */
  datatype Submission = Submission(
    after: PageState, call: Option<FormData>, pending: PageState, navigate: Option<string>)

  /** `handleSubmit`, including how the awaited `register` settled. */
  function SubmitStep(st: PageState, outcome: Settled): (r: Submission)
    ensures r.after.serverError == "" || r.call.Some?
    ensures r.after.errors == FieldErrors(st.form) && r.after.form == st.form
    ensures r.call.Some? <==> FieldErrors(st.form) == NoErrors && !st.isLoading
    ensures r.call.Some? ==>
      && r.call.value == st.form
      && r.pending == PageState(st.form, NoErrors, "", true)
      && !r.after.isLoading
      && (outcome == Fulfilled <==> r.navigate == Some(RegisteredPath))
      && (outcome == Fulfilled ==> r.after.serverError == "")
      && (outcome.Rejected? ==> r.after.serverError == MessageOr(outcome.reason, UnexpectedError))
    ensures r.call.None? ==> r.after == st.(errors := FieldErrors(st.form), serverError := "") && r.navigate == None
  {
    var cleared := st.(serverError := "", errors := FieldErrors(st.form));
    if cleared.errors != NoErrors || st.isLoading then
      Submission(cleared, None, cleared, None)
    else
      var pending := cleared.(isLoading := true);
      match outcome
      case Fulfilled => Submission(pending.(isLoading := false), Some(st.form), pending, Some(RegisteredPath))
      case Rejected(t) =>
        Submission(pending.(serverError := MessageOr(t, UnexpectedError), isLoading := false), Some(st.form), pending, None)
  }

  /** A second submit while `register` is still pending calls nothing. */
  lemma NoReentrantRegister(st: PageState, first: Settled, second: Settled)
    requires SubmitStep(st, first).call.Some?
    ensures SubmitStep(SubmitStep(st, first).pending, second).call == None
  {
  }

  /** `onChange` of one input: the field's new value, and that field's error
      (only that one) no longer shown. */
  function EditStep(st: PageState, field: Field, value: string): (r: PageState)
    ensures r.serverError == st.serverError && r.isLoading == st.isLoading
    ensures field == UsernameField ==>
      r.form == st.form.(username := value) && !Truthy(r.errors.username)
      && r.errors.email == st.errors.email && r.errors.password == st.errors.password
    ensures field == EmailField ==>
      r.form == st.form.(email := value) && !Truthy(r.errors.email)
      && r.errors.username == st.errors.username && r.errors.password == st.errors.password
    ensures field == PasswordField ==>
      r.form == st.form.(password := value) && !Truthy(r.errors.password)
      && r.errors.username == st.errors.username && r.errors.email == st.errors.email
  {
    match field
    case UsernameField =>
      st.(form := st.form.(username := value),
          errors := if Truthy(st.errors.username) then st.errors.(username := None) else st.errors)
    case EmailField =>
      st.(form := st.form.(email := value),
          errors := if Truthy(st.errors.email) then st.errors.(email := None) else st.errors)
    case PasswordField =>
      st.(form := st.form.(password := value),
          errors := if Truthy(st.errors.password) then st.errors.(password := None) else st.errors)
  }

  /** Validation only ever produces non-empty messages, so the truthiness test
      in `onChange` clears exactly the errors validation set. */
  lemma ValidationMessagesNonEmpty(f: FormData)
    ensures var e := FieldErrors(f);
      (e.username.Some? ==> Truthy(e.username))
      && (e.email.Some? ==> Truthy(e.email))
      && (e.password.Some? ==> Truthy(e.password))
  {
  }

  // ---------------------------------------------------------------------------
  // The page, step by step on its state variables
  // ---------------------------------------------------------------------------

  class SignupForm {
    var formData: FormData
    var errors: Errors
    var serverError: string
    var isLoading: bool

    function State(): PageState
      reads this
    {
      PageState(formData, errors, serverError, isLoading)
    }

    constructor ()
      ensures State() == PageState(FormData("", "", ""), NoErrors, "", false)
    {
      formData := FormData("", "", "");
      errors := NoErrors;
      serverError := "";
      isLoading := false;
    }

    /** `validateForm`: collect the errors field by field, store exactly those,
        and report whether there are none. */
    method ValidateForm() returns (valid: bool)
      modifies this
      ensures errors == FieldErrors(formData) && (valid <==> errors == NoErrors)
      ensures formData == old(formData) && serverError == old(serverError) && isLoading == old(isLoading)
    {
      var newErrors := NoErrors;
      if Trim(formData.username) == "" {
        newErrors := newErrors.(username := Some(UsernameRequired));
      } else if |formData.username| < 3 || |formData.username| > 50 {
        newErrors := newErrors.(username := Some(UsernameLength));
      } else if !AllUsernameChars(formData.username) {
        newErrors := newErrors.(username := Some(UsernameCharset));
      }
      if Trim(formData.email) == "" {
        newErrors := newErrors.(email := Some(EmailRequired));
      } else if !EmailShape(formData.email) {
        newErrors := newErrors.(email := Some(EmailInvalid));
      }
      if formData.password == "" {
        newErrors := newErrors.(password := Some(PasswordRequired));
      } else if |formData.password| < 4 {
        newErrors := newErrors.(password := Some(PasswordTooShort));
      }
      errors := newErrors;
      valid := newErrors == NoErrors;
    }

    method HandleSubmit(outcome: Settled) returns (call: Option<FormData>, pending: PageState, navigate: Option<string>)
      modifies this
      ensures Submission(State(), call, pending, navigate) == SubmitStep(old(State()), outcome)
    {
      serverError := "";
      var valid := ValidateForm();
      if !valid || isLoading {
        call, pending, navigate := None, State(), None;
        return;
      }
      isLoading := true;
      call, pending := Some(formData), State();
      navigate := None;
      match outcome {
        case Fulfilled =>
          navigate := Some(RegisteredPath);
        case Rejected(t) =>
          serverError := MessageOr(t, UnexpectedError);
      }
      isLoading := false;
    }

    method Edit(field: Field, value: string)
      modifies this
      ensures State() == EditStep(old(State()), field, value)
    {
      match field {
        case UsernameField =>
          formData := formData.(username := value);
          if Truthy(errors.username) { errors := errors.(username := None); }
        case EmailField =>
          formData := formData.(email := value);
          if Truthy(errors.email) { errors := errors.(email := None); }
        case PasswordField =>
          formData := formData.(password := value);
          if Truthy(errors.password) { errors := errors.(password := None); }
      }
    }
  }
}
