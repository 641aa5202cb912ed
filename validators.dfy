/**
 * The field rules of the sign-up and login forms (`src/pages/Signup.jsx`,
 * `src/pages/Login.jsx`), as the form library applies them: for each field the first
 * failing rule in the order `required`, length, `pattern`, `validate`, and its message.
 * The two regular expressions are written out as character classes and proved equal to
 * their matching conditions.
 */
module Validation {
  import opened Wrappers

  // ---------------------------------------------------------------------------------------
  // Rule chains

  /** The first failing rule of a text field with `required`, `minLength` and `maxLength`. */
  function LengthError(s: string, requiredMessage: string, min: nat, minMessage: string, max: nat, maxMessage: string): (r: Option<string>)
    ensures r.None? <==> s != [] && min <= |s| <= max
  {
    if s == [] then Some(requiredMessage)
    else if |s| < min then Some(minMessage)
    else if |s| > max then Some(maxMessage)
    else None
  }

  /** A field with only `required`: an empty value fails. */
  function RequiredError(s: string, requiredMessage: string): (r: Option<string>)
    ensures r.None? <==> s != []
    ensures r.Some? ==> r.value == requiredMessage
  {
    if s == [] then Some(requiredMessage) else None
  }

  // ---------------------------------------------------------------------------------------
  // Character classes

  predicate IsUpper(c: char) { 'A' <= c <= 'Z' }
  predicate IsLower(c: char) { 'a' <= c <= 'z' }
  /** `\d`: the ASCII digits only. */
  predicate IsDigit(c: char) { '0' <= c <= '9' }
  /** `[A-Z]` under the `i` flag. */
  predicate IsLetter(c: char) { IsUpper(c) || IsLower(c) }
  /** `[@$!%*?&]`. */
  predicate IsSpecial(c: char) { c == '@' || c == '$' || c == '!' || c == '%' || c == '*' || c == '?' || c == '&' }
  /** `[A-Z0-9._%+-]` under the `i` flag. */
  predicate IsLocalChar(c: char) { IsLetter(c) || IsDigit(c) || c == '.' || c == '_' || c == '%' || c == '+' || c == '-' }
  /** `[A-Z0-9.-]` under the `i` flag. */
  predicate IsDomainChar(c: char) { IsLetter(c) || IsDigit(c) || c == '.' || c == '-' }
  /** `[A-Za-z\d@$!%*?&]`. */
  predicate IsPasswordChar(c: char) { IsLetter(c) || IsDigit(c) || IsSpecial(c) }
  /** The characters `.` does not match. */
  predicate IsLineTerminator(c: char) { c == '\n' || c == '\r' || c == '\U{2028}' || c == '\U{2029}' }

  function Letter(): char -> bool { (c: char) => IsLetter(c) }
  function LocalChar(): char -> bool { (c: char) => IsLocalChar(c) }
  function DomainChar(): char -> bool { (c: char) => IsDomainChar(c) }

  /** Every character of `s` is in the class. */
  predicate AllIn(s: string, p: char -> bool) {
    forall i :: 0 <= i < |s| ==> p(s[i])
  }

  // ---------------------------------------------------------------------------------------
  // The e-mail pattern `^[A-Z0-9._%+-]+@[A-Z0-9.-]+\.[A-Z]{2,}$` with the `i` flag

  /**
   * What the pattern accepts: a split of `s` at an '@' (index `a`) and a '.' (index `b`) into
   * a non-empty local part, a non-empty domain, and at least two letters that end the text.
   */
  ghost predicate EmailSplit(s: string, a: int, b: int) {
    0 < a && a + 1 < b && b + 3 <= |s| && s[a] == '@' && s[b] == '.'
    && AllIn(s[..a], LocalChar()) && AllIn(s[a + 1..b], DomainChar()) && AllIn(s[b + 1..], Letter())
  }

  ghost predicate EmailShape(s: string) {
    exists a, b :: EmailSplit(s, a, b)
  }

  /** The first index of `c` in `s`. */
  function FirstIndex(s: string, c: char): (r: Option<nat>)
    ensures r.Some? ==> r.value < |s| && s[r.value] == c && forall j :: 0 <= j < r.value ==> s[j] != c
    ensures r.None? ==> forall j :: 0 <= j < |s| ==> s[j] != c
  {
    if s == [] then None
    else if s[0] == c then Some(0)
    else var t := FirstIndex(s[1..], c); if t.Some? then Some(t.value + 1) else None
  }

  /** The last index of `c` in `s`. */
  function LastIndex(s: string, c: char): (r: Option<nat>)
    ensures r.Some? ==> r.value < |s| && s[r.value] == c && forall j :: r.value < j < |s| ==> s[j] != c
    ensures r.None? ==> forall j :: 0 <= j < |s| ==> s[j] != c
  {
    if s == [] then None
    else if s[|s| - 1] == c then Some(|s| - 1)
    else LastIndex(s[..|s| - 1], c)
  }

  /**
   * The pattern as a check: since neither part's class holds '@' and letters hold no '.', the
   * only split to try is at the first '@' and the last '.'.
   */
  function IsEmail(s: string): (r: bool)
    ensures r <==> EmailShape(s)
  {
    var at := FirstIndex(s, '@');
    var dot := LastIndex(s, '.');
    var r := at.Some? && dot.Some? && 0 < at.value && at.value + 1 < dot.value && dot.value + 3 <= |s|
      && AllIn(s[..at.value], LocalChar()) && AllIn(s[at.value + 1..dot.value], DomainChar())
      && AllIn(s[dot.value + 1..], Letter());
    EmailSplitIsCanonical(s);
    if r then assert EmailSplit(s, at.value, dot.value); r else r
  }

  /** Any split the pattern accepts is at the first '@' and the last '.'. */
  lemma EmailSplitIsCanonical(s: string)
    ensures EmailShape(s) ==> var at, dot := FirstIndex(s, '@'), LastIndex(s, '.');
      at.Some? && dot.Some? && EmailSplit(s, at.value, dot.value)
  {
    if !EmailShape(s) { return; }
    var a, b :| EmailSplit(s, a, b);
    forall j | 0 <= j < a
      ensures s[j] != '@'
    {
      assert IsLocalChar(s[..a][j]);
    }
    forall j | b < j < |s|
      ensures s[j] != '.'
    {
      assert IsLetter(s[b + 1..][j - b - 1]);
    }
  }

  /** The rule of both forms' e-mail field. */
  function EmailError(email: string): (r: Option<string>)
    ensures r.None? <==> EmailShape(email)
    ensures email == "" ==> r == Some("Email is required")
    ensures email != "" && !EmailShape(email) ==> r == Some("Please enter a valid email address")
  {
    if email == [] then Some("Email is required")
    else if !IsEmail(email) then Some("Please enter a valid email address")
    else None
  }

  /** A usual address passes. */
  lemma EmailAccepted()
    ensures EmailError("admin@shop.com") == None
  {
    assert EmailSplit("admin@shop.com", 5, 10);
  }

  /** An accepted address holds exactly one '@': the one it is split at. */
  lemma EmailSingleAt(s: string, a: int, b: int)
    requires EmailSplit(s, a, b)
    ensures forall k :: 0 <= k < |s| && s[k] == '@' ==> k == a
  {
    forall k | 0 <= k < a
      ensures s[k] != '@'
    {
      assert IsLocalChar(s[..a][k]);
    }
    forall k | a < k < b
      ensures s[k] != '@'
    {
      assert IsDomainChar(s[a + 1..b][k - a - 1]);
    }
    forall k | b < k < |s|
      ensures s[k] != '@'
    {
      assert IsLetter(s[b + 1..][k - b - 1]);
    }
  }

  /** Text with two '@' is refused. */
  lemma EmailTwoAtsRejected(s: string, i: nat, j: nat)
    requires i < j < |s| && s[i] == '@' && s[j] == '@'
    ensures EmailError(s) == Some("Please enter a valid email address")
  {
    forall a, b | EmailSplit(s, a, b)
      ensures false
    {
      EmailSingleAt(s, a, b);
    }
  }

  /** A domain without a top-level part of at least two letters fails. */
  lemma EmailShortDomainRejected()
    ensures EmailError("admin@shop") == Some("Please enter a valid email address")
    ensures EmailError("admin@shop.c") == Some("Please enter a valid email address")
  {
    assert LastIndex("admin@shop", '.') == None;
    assert LastIndex("admin@shop.c", '.') == Some(10);
  }

  // ---------------------------------------------------------------------------------------
  // The password pattern `^(?=.*[a-z])(?=.*[A-Z])(?=.*\d)(?=.*[@$!%*?&])[A-Za-z\d@$!%*?&]`

  /** Where the first line of `s` ends: the index of the first line break, or `|s|`. */
  function LineEnd(s: string): (k: nat)
    ensures k <= |s| && (k < |s| ==> IsLineTerminator(s[k]))
    ensures forall j :: 0 <= j < k ==> !IsLineTerminator(s[j])
  {
    if s == [] || IsLineTerminator(s[0]) then 0 else 1 + LineEnd(s[1..])
  }

  /** `(?=.*[class])` at the start: a character of the class before the first line break. */
  predicate SeenBeforeBreak(s: string, p: char -> bool) {
    exists i :: 0 <= i < LineEnd(s) && p(s[i])
  }

  function Lower(): char -> bool { (c: char) => IsLower(c) }
  function Upper(): char -> bool { (c: char) => IsUpper(c) }
  function Digit(): char -> bool { (c: char) => IsDigit(c) }
  function Special(): char -> bool { (c: char) => IsSpecial(c) }

  /**
   * The pattern: a lowercase letter, an uppercase letter, a digit and a special character
   * before any line break, and a first character from the allowed set. With no `$`, the
   * characters after the first are not restricted.
   */
  predicate PasswordPattern(s: string) {
    SeenBeforeBreak(s, Lower()) && SeenBeforeBreak(s, Upper()) && SeenBeforeBreak(s, Digit())
    && SeenBeforeBreak(s, Special()) && |s| > 0 && IsPasswordChar(s[0])
  }

  const PasswordPatternMessage := "Password must contain at least one uppercase letter, one lowercase letter, one number, and one special character"

  /** The sign-up password rule: required, at least 8 characters, then the pattern. */
  function SignupPasswordError(password: string): (r: Option<string>)
    ensures r.None? <==> |password| >= 8 && PasswordPattern(password)
    ensures password == "" ==> r == Some("Password is required")
    ensures 0 < |password| < 8 ==> r == Some("Password must be at least 8 characters")
    ensures |password| >= 8 && !PasswordPattern(password) ==> r == Some(PasswordPatternMessage)
  {
    if password == [] then Some("Password is required")
    else if |password| < 8 then Some("Password must be at least 8 characters")
    else if !PasswordPattern(password) then Some(PasswordPatternMessage)
    else None
  }

  /** The first line reaches past every leading character that is not a line break. */
  lemma {:induction false} LineEndAtLeast(s: string, k: nat)
    requires k <= |s| && forall j :: 0 <= j < k ==> !IsLineTerminator(s[j])
    ensures LineEnd(s) >= k
  {
    if k > 0 {
      LineEndAtLeast(s[1..], k - 1);
    }
  }

  /**
   * With no end anchor only the start matters: an uppercase letter, a lowercase letter, a
   * digit and a special character, followed by anything at all of at least four characters
   * (spaces and line breaks included), pass.
   */
  lemma PasswordAnyTail(u: char, l: char, d: char, x: char, rest: string)
    requires IsUpper(u) && IsLower(l) && IsDigit(d) && IsSpecial(x) && |rest| >= 4
    ensures SignupPasswordError([u, l, d, x] + rest) == None
  {
    var s := [u, l, d, x] + rest;
    LineEndAtLeast(s, 4);
    assert Lower()(s[1]) && Upper()(s[0]) && Digit()(s[2]) && Special()(s[3]);
  }

  /** A first character outside the allowed set fails, whatever follows. */
  lemma PasswordBadFirstRejected(s: string)
    requires |s| >= 8 && !IsPasswordChar(s[0])
    ensures SignupPasswordError(s) == Some(PasswordPatternMessage)
  {
  }

  /** Without an uppercase letter on the first line, the pattern fails. */
  lemma PasswordWithoutUpperRejected(s: string)
    requires |s| >= 8 && forall i :: 0 <= i < |s| ==> !IsUpper(s[i])
    ensures SignupPasswordError(s) == Some(PasswordPatternMessage)
  {
  }

  // ---------------------------------------------------------------------------------------
  // The forms

  datatype SignupForm = SignupForm(name: string, email: string, password: string, passwordConfirm: string)

  datatype SignupErrors = SignupErrors(name: Option<string>, email: Option<string>, password: Option<string>, passwordConfirm: Option<string>)

  /** The name rule: required, 2 to 50 characters. */
  function FullNameError(name: string): (r: Option<string>)
    ensures r.None? <==> 2 <= |name| <= 50
    ensures name == "" ==> r == Some("Full name is required")
    ensures |name| == 1 ==> r == Some("Name must be at least 2 characters")
    ensures |name| > 50 ==> r == Some("Name must be less than 50 characters")
  {
    LengthError(name, "Full name is required", 2, "Name must be at least 2 characters", 50, "Name must be less than 50 characters")
  }

  /** The confirmation rule: required, then equal to the password. */
  function ConfirmError(confirm: string, password: string): (r: Option<string>)
    ensures r.None? <==> confirm != "" && confirm == password
    ensures confirm == "" ==> r == Some("Please confirm your password")
    ensures confirm != "" && confirm != password ==> r == Some("Passwords do not match")
  {
    if confirm == [] then Some("Please confirm your password")
    else if confirm != password then Some("Passwords do not match")
    else None
  }

  /** The sign-up form's errors, one per field. */
  function ValidateSignup(f: SignupForm): SignupErrors {
    SignupErrors(FullNameError(f.name), EmailError(f.email), SignupPasswordError(f.password), ConfirmError(f.passwordConfirm, f.password))
  }

  predicate NoSignupErrors(e: SignupErrors) {
    e.name.None? && e.email.None? && e.password.None? && e.passwordConfirm.None?
  }

  /** The sign-up form submits exactly when every rule holds. */
  lemma SignupAccepts(f: SignupForm)
    ensures NoSignupErrors(ValidateSignup(f)) <==>
      2 <= |f.name| <= 50 && EmailShape(f.email) && |f.password| >= 8 && PasswordPattern(f.password)
      && f.passwordConfirm == f.password
  {
  }

  datatype LoginForm = LoginForm(email: string, password: string)

  datatype LoginErrors = LoginErrors(email: Option<string>, password: Option<string>)

  /** The login form's errors: the same e-mail rule, and a required password. */
  function ValidateLogin(f: LoginForm): LoginErrors {
    LoginErrors(EmailError(f.email), RequiredError(f.password, "Password is required"))
  }

  /**
   * The login form submits exactly when the e-mail matches and a password is given: any
   * non-empty password is accepted, so every password sign-up accepts logs in too.
   */
  lemma LoginAccepts(f: LoginForm)
    ensures (ValidateLogin(f).email.None? && ValidateLogin(f).password.None?) <==> EmailShape(f.email) && f.password != ""
    ensures ValidateSignup(SignupForm("", f.email, f.password, "")).password.None? ==> ValidateLogin(f).password.None?
  {
  }
}
