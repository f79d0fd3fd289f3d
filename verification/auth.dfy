/**
 * The sign-in and sign-up form checks: the email pattern, the password rules, the order in
 * which the form reports the first problem, and the Enter key.
 */
module Auth {
  import Text
  import opened Common

  /** A character of `[^\s@]`. */
  predicate PlainChar(c: char) {
    !Text.IsWhitespace(c) && c != '@'
  }

  /** A non-empty run of `[^\s@]+`. */
  predicate PlainRun(s: string) {
    s != [] && forall k :: 0 <= k < |s| ==> PlainChar(s[k])
  }

  /** The email pattern `^[^\s@]+@[^\s@]+\.[^\s@]+$`, read piece by piece. */
  ghost predicate EmailPattern(s: string) {
    exists i, j :: 0 <= i < j < |s| && s[i] == '@' && s[j] == '.'
      && PlainRun(s[..i]) && PlainRun(s[i + 1..j]) && PlainRun(s[j + 1..])
  }

  /** The first index of `c` in `s`, or -1. */
  function IndexOf(s: string, c: char): (i: int)
    ensures -1 <= i < |s|
    ensures i == -1 <==> c !in s
    ensures 0 <= i ==> s[i] == c && c !in s[..i]
  {
    if s == [] then -1
    else if s[0] == c then 0
    else
      var i := IndexOf(s[1..], c);
      assert s[1..] == s[1..][..|s| - 1];
      if i == -1 then -1
      else
        assert s[..i + 1] == [s[0]] + s[1..][..i];
        i + 1
  }

  /** The characters of `s` from `lo` up to `hi` form a `[^\s@]+` run exactly when each is plain. */
  lemma PlainSlice(s: string, lo: int, hi: int)
    requires 0 <= lo < hi <= |s|
    ensures PlainRun(s[lo..hi]) <==> forall k :: lo <= k < hi ==> PlainChar(s[k])
  {
    if forall k :: lo <= k < hi ==> PlainChar(s[k]) {
      forall k | 0 <= k < hi - lo ensures PlainChar(s[lo..hi][k]) {
        assert s[lo..hi][k] == s[lo + k];
      }
    }
    if PlainRun(s[lo..hi]) {
      forall k | lo <= k < hi ensures PlainChar(s[k]) {
        assert s[k] == s[lo..hi][k - lo];
      }
    }
  }

  /** The shape `validateEmail` tests, with `at` the first `@`. */
  predicate EmailShape(s: string, at: int) {
    0 < at < |s| && Text.NoWhitespace(s) && '@' !in s[at + 1..]
    && exists j | at + 1 < j < |s| - 1 :: s[j] == '.'
  }

  lemma ShapeGivesPattern(s: string, at: int)
    requires EmailShape(s, at) && s[at] == '@' && '@' !in s[..at]
    ensures EmailPattern(s)
  {
    var j :| at + 1 < j < |s| - 1 && s[j] == '.';
    forall k | 0 <= k < |s| && k != at ensures PlainChar(s[k]) {
      if k < at { assert s[k] == s[..at][k]; }
      else { assert s[k] == s[at + 1..][k - at - 1]; }
    }
    PlainSlice(s, 0, at);
    PlainSlice(s, at + 1, j);
    PlainSlice(s, j + 1, |s|);
    assert s[..at] == s[0..at];
  }

  /** In a match of the pattern every character but the `@` is plain. */
  lemma PatternChars(s: string, i: int, j: int)
    requires 0 <= i < j < |s| && s[i] == '@' && s[j] == '.'
    requires PlainRun(s[..i]) && PlainRun(s[i + 1..j]) && PlainRun(s[j + 1..])
    ensures forall k :: 0 <= k < |s| && k != i ==> PlainChar(s[k])
  {
    assert s[..i] == s[0..i];
    PlainSlice(s, 0, i);
    PlainSlice(s, i + 1, j);
    PlainSlice(s, j + 1, |s|);
  }

  lemma PatternGivesShape(s: string)
    requires EmailPattern(s)
    ensures EmailShape(s, IndexOf(s, '@'))
  {
    var i, j :| 0 <= i < j < |s| && s[i] == '@' && s[j] == '.'
      && PlainRun(s[..i]) && PlainRun(s[i + 1..j]) && PlainRun(s[j + 1..]);
    PatternChars(s, i, j);
    var at := IndexOf(s, '@');
    assert '@' !in s[..i] by {
      forall k | 0 <= k < i ensures s[..i][k] != '@' {
        assert s[..i][k] == s[k];
      }
    }
    assert at == i;
    var domain := s[i + 1..];
    forall k | 0 <= k < |domain| ensures domain[k] != '@' {
      assert domain[k] == s[i + 1 + k];
    }
    assert j < |s| - 1 by { assert s[j + 1..] != []; }
    assert i + 1 < j by { assert s[i + 1..j] != []; }
  }

  /**
   * `validateEmail`: one `@`, not first; no white space anywhere; and after the `@` a dot
   * that is neither the first nor the last character of the domain.
   */
  function ValidateEmail(s: string): (b: bool)
    ensures b <==> EmailPattern(s)
  {
    var at := IndexOf(s, '@');
    var b := EmailShape(s, at);
    assert b ==> EmailPattern(s) by {
      if b { ShapeGivesPattern(s, at); }
    }
    assert EmailPattern(s) ==> b by {
      if EmailPattern(s) { PatternGivesShape(s); }
    }
    b
  }

  /** The password problems, in the order the form checks them. */
  datatype PasswordError = TooShort | NoUppercase | NoSpecial

  function ErrorText(e: PasswordError): string {
    match e
    case TooShort => "Password must be at least 8 characters."
    case NoUppercase => "Password must contain at least one uppercase letter."
    case NoSpecial => "Password must contain at least one special character."
  }

  function Rank(e: PasswordError): nat {
    match e
    case TooShort => 0
    case NoUppercase => 1
    case NoSpecial => 2
  }

  const SpecialChars: string := "!@#$%^&*(),.?\":{}|<>"

  predicate HasUppercase(p: string) {
    exists k | 0 <= k < |p| :: 'A' <= p[k] <= 'Z'
  }

  predicate HasSpecial(p: string) {
    exists k | 0 <= k < |p| :: p[k] in SpecialChars
  }

  /** `validatePassword`: each failed rule once, in the fixed order; none exactly when all rules hold. */
  function ValidatePassword(p: string): (errors: seq<PasswordError>)
    ensures (TooShort in errors <==> |p| < 8)
    ensures (NoUppercase in errors <==> !HasUppercase(p))
    ensures (NoSpecial in errors <==> !HasSpecial(p))
    ensures errors == [] <==> |p| >= 8 && HasUppercase(p) && HasSpecial(p)
    ensures forall a, b :: 0 <= a < b < |errors| ==> Rank(errors[a]) < Rank(errors[b])
  {
    (if |p| < 8 then [TooShort] else [])
    + (if !HasUppercase(p) then [NoUppercase] else [])
    + (if !HasSpecial(p) then [NoSpecial] else [])
  }

  /** The field the form focuses when it rejects. */
  datatype Field = EmailField | PasswordField | ConfirmField

  /** The outcome of a form check: accepted, or the message shown and the field focused. */
  datatype Check = Accepted | Rejected(message: string, focus: Field)

  const EmailRequired := "Email is required."
  const EmailInvalid := "Please enter a valid email address."
  const PasswordRequired := "Password is required."
  const PasswordsDiffer := "Passwords do not match."

  /** The email checks both forms start with. */
  function CheckEmail(email: string): (r: Check)
    ensures r.Accepted? <==> ValidateEmail(email)
    ensures email == "" ==> r == Rejected(EmailRequired, EmailField)
    ensures email != "" && !ValidateEmail(email) ==> r == Rejected(EmailInvalid, EmailField)
  {
    if email == "" then Rejected(EmailRequired, EmailField)
    else if !ValidateEmail(email) then Rejected(EmailInvalid, EmailField)
    else Accepted
  }

  /** `validateLogin`: a valid email and any non-empty password; the password's strength is not checked. */
  function ValidateLogin(email: string, password: string): (r: Check)
    ensures r.Accepted? <==> ValidateEmail(email) && password != ""
    ensures !ValidateEmail(email) ==> r == CheckEmail(email)
    ensures ValidateEmail(email) && password == "" ==> r == Rejected(PasswordRequired, PasswordField)
  {
    var e := CheckEmail(email);
    if e.Rejected? then e
    else if password == "" then Rejected(PasswordRequired, PasswordField)
    else Accepted
  }

  /**
   * `validateSignup`: a valid email, a password with no rule broken (only the first problem is
   * reported) and a matching confirmation.
   */
  function ValidateSignup(email: string, password: string, confirm: string): (r: Check)
    ensures r.Accepted? <==> ValidateEmail(email) && ValidatePassword(password) == [] && password == confirm
    ensures !ValidateEmail(email) ==> r == CheckEmail(email)
    ensures ValidateEmail(email) && ValidatePassword(password) != [] ==>
      r == Rejected(ErrorText(ValidatePassword(password)[0]), PasswordField)
    ensures ValidateEmail(email) && ValidatePassword(password) == [] && password != confirm ==>
      r == Rejected(PasswordsDiffer, ConfirmField)
  {
    var e := CheckEmail(email);
    var errors := ValidatePassword(password);
    if e.Rejected? then e
    else if errors != [] then Rejected(ErrorText(errors[0]), PasswordField)
    else if password != confirm then Rejected(PasswordsDiffer, ConfirmField)
    else Accepted
  }

  /** Whatever the sign-up form accepts, the sign-in form accepts too. */
  lemma SignupAcceptedLoginAccepted(email: string, password: string, confirm: string)
    requires ValidateSignup(email, password, confirm).Accepted?
    ensures ValidateLogin(email, password).Accepted?
  {
  }

  lemma SampleEmailValid()
    ensures ValidateEmail("a@b.co")
  {
    var s := "a@b.co";
    assert s[..1] == "a" && s[2..3] == "b" && s[4..] == "co";
    assert PlainRun("a") && PlainRun("b") && PlainRun("co");
    assert s[1] == '@' && s[3] == '.';
  }

  /** The sign-in form accepts a password that sign-up would reject. */
  lemma LoginIgnoresStrength()
    ensures ValidateLogin("a@b.co", "x").Accepted?
    ensures ValidatePassword("x") == [TooShort, NoUppercase, NoSpecial]
    ensures !ValidateSignup("a@b.co", "x", "x").Accepted?
  {
    SampleEmailValid();
    assert !HasUppercase("x") && !HasSpecial("x") by {
      assert "x"[0] == 'x';
      assert 'x' !in SpecialChars;
    }
  }

  /** What a key press in a form field does. */
  datatype KeyAction = FocusNext(field: Field) | Submit | Ignore

  /** `handleKeyPress`: Enter moves to the next field when there is one, else submits; other keys do nothing. */
  function HandleKeyPress(key: string, next: Option<Field>, hasSubmit: bool): (a: KeyAction)
    ensures key != "Enter" ==> a == Ignore
    ensures key == "Enter" && next.Some? ==> a == FocusNext(next.value)
    ensures key == "Enter" && next.None? ==> (a == Submit <==> hasSubmit) && (a == Ignore <==> !hasSubmit)
  {
    if key != "Enter" then Ignore
    else if next.Some? then FocusNext(next.value)
    else if hasSubmit then Submit
    else Ignore
  }

  /** The two forms of the page. */
  datatype Form = SignIn | SignUp

  /** The fields each form renders, top to bottom. */
  function FormFields(form: Form): (fs: seq<Field>)
    ensures |fs| >= 2 && fs[0] == EmailField && fs[1] == PasswordField
  {
    match form
    case SignIn => [EmailField, PasswordField]
    case SignUp => [EmailField, PasswordField, ConfirmField]
  }

  /** The `nextRef` each field's `onKeyDown` passes to `handleKeyPress`; none for the last field. */
  function NextField(form: Form, field: Field): Option<Field>
  {
    match (form, field)
    case (_, EmailField) => Some(PasswordField)
    case (SignUp, PasswordField) => Some(ConfirmField)
    case (_, _) => None
  }

  /** What a key press in a field of a form leads to. */
  datatype KeyOutcome = Focused(field: Field) | Submitted(check: Check) | Nothing

  /**
   * A key press in `field` of `form`: the field's `onKeyDown` calls `handleKeyPress` with its
   * `nextRef`; only the last field passes a submit handler, which runs the form's own check.
   */
  function FormKeyPress(form: Form, field: Field, key: string, email: string, password: string, confirm: string): (o: KeyOutcome)
    ensures key != "Enter" ==> o == Nothing
  {
    var next := NextField(form, field);
    match HandleKeyPress(key, next, next.None?)
    case FocusNext(f) => Focused(f)
    case Submit => Submitted(if form == SignIn then ValidateLogin(email, password) else ValidateSignup(email, password, confirm))
    case Ignore => Nothing
  }

  /** Enter walks the fields in the order they are rendered; the last one has no next field. */
  lemma EnterFollowsFieldOrder(form: Form)
    ensures var fs := FormFields(form);
      && (forall i :: 0 <= i < |fs| - 1 ==> NextField(form, fs[i]) == Some(fs[i + 1]))
      && NextField(form, fs[|fs| - 1]).None?
  {
  }

  /**
   * Enter in a field of a form focuses the next rendered field, or, in the last field only,
   * submits the form to its own check: sign-in to `ValidateLogin`, sign-up to `ValidateSignup`.
   */
  lemma EnterSubmitsFromLastField(form: Form, i: nat, email: string, password: string, confirm: string)
    requires i < |FormFields(form)|
    ensures var fs := FormFields(form);
      var o := FormKeyPress(form, fs[i], "Enter", email, password, confirm);
      && (i < |fs| - 1 ==> o == Focused(fs[i + 1]))
      && (o.Submitted? <==> i == |fs| - 1)
      && (o.Submitted? && form == SignIn ==> o.check == ValidateLogin(email, password))
      && (o.Submitted? && form == SignUp ==> o.check == ValidateSignup(email, password, confirm))
  {
    EnterFollowsFieldOrder(form);
  }

  /** A rejected form focuses one of its own fields. */
  lemma RejectionFocusesOwnField(email: string, password: string, confirm: string)
    ensures ValidateLogin(email, password).Rejected? ==> ValidateLogin(email, password).focus in FormFields(SignIn)
    ensures ValidateSignup(email, password, confirm).Rejected? ==>
      ValidateSignup(email, password, confirm).focus in FormFields(SignUp)
  {
  }
}
