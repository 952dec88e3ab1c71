/** The sign-in and sign-up validation schemas (src/shared/formSchema.ts):
    character-class and length rules over strings, each failing rule
    reporting its own message. Lengths follow JavaScript's `.length`, which
    counts UTF-16 code units. The e-mail rule belongs to the validation
    library and enters as the parameter `isEmail`. The form library passes a
    field left empty as `undefined`, which reports "Required" instead of the
    field's own checks. */
module FormSchema {
  import opened Wrappers

  predicate IsAsciiUpper(c: char) { 'A' <= c <= 'Z' }
  predicate IsAsciiLower(c: char) { 'a' <= c <= 'z' }
  predicate IsAsciiLetter(c: char) { IsAsciiUpper(c) || IsAsciiLower(c) }
  predicate IsAsciiDigit(c: char) { '0' <= c <= '9' }

  /** `[\W_]`: anything but an ASCII letter or digit. */
  predicate IsSpecial(c: char) { !IsAsciiLetter(c) && !IsAsciiDigit(c) }

  /** JavaScript's `\s`: the white-space and line-terminator characters of
      ECMAScript (section 22.2.2.9 of ECMA-262). */
  predicate IsJsWhitespace(c: char) {
    c == ' ' || c == '\t' || c == '\n' || c == '\U{000B}' || c == '\U{000C}' || c == '\r'
    || c == '\U{00A0}' || c == '\U{1680}' || ('\U{2000}' <= c <= '\U{200A}')
    || c == '\U{2028}' || c == '\U{2029}' || c == '\U{202F}' || c == '\U{205F}'
    || c == '\U{3000}' || c == '\U{FEFF}'
  }

  /** `/[A-Za-z\s]/` for one character. */
  predicate IsNameChar(c: char) { IsAsciiLetter(c) || IsJsWhitespace(c) }

  /** The UTF-16 code units of one character: two outside the Basic
      Multilingual Plane. */
  function CodeUnits(c: char): (n: nat)
    ensures 1 <= n <= 2
    ensures n == 1 <==> c <= '\U{FFFF}'
  {
    if c <= '\U{FFFF}' then 1 else 2
  }

  /** JavaScript's `.length`, which counts UTF-16 code units. */
  function Utf16Length(s: string): (n: nat)
    ensures |s| <= n <= 2 * |s|
  {
    if s == [] then 0
    else CodeUnits(s[0]) + Utf16Length(s[1..])
  }

  /** On the Basic Multilingual Plane the code units are the characters. */
  lemma {:induction false} BmpLength(s: string)
    requires forall i :: 0 <= i < |s| ==> s[i] <= '\U{FFFF}'
    ensures Utf16Length(s) == |s|
  {
    if s != [] {
      assert forall i :: 0 <= i < |s[1..]| ==> s[1..][i] == s[i + 1];
      BmpLength(s[1..]);
    }
  }

  /** An unanchored one-character regular expression `/[..]/` matches when
      some position of the string is in the class. */
  function SomeChar(s: string, p: char -> bool): (r: bool)
    ensures r <==> exists i :: 0 <= i < |s| && p(s[i])
  {
    if s == [] then false
    else p(s[0]) || SomeChar(s[1..], p)
  }

  /** `/^[..]+$/`: the string is non-empty and every character is in the
      class. */
  function EveryChar(s: string, p: char -> bool): (r: bool)
    ensures r <==> |s| > 0 && forall i :: 0 <= i < |s| ==> p(s[i])
  {
    if |s| <= 1 then |s| == 1 && p(s[0])
    else p(s[0]) && EveryChar(s[1..], p)
  }

  const PasswordMinMsg: string := "Password must be at least 8 characters"
  const PasswordUpperMsg: string := "Password must contain at least one uppercase letter"
  const PasswordDigitMsg: string := "Password must contain at least one number"
  const PasswordSpecialMsg: string := "Password must contain at least one special character"
  const NameMinMsg: string := "Name must be at least 2 characters"
  const NameCharsMsg: string := "Name should not contain numbers or special characters"
  const EmailMsg: string := "Invalid email format"
  const ConfirmMinMsg: string := "Confirm Password must be at least 8 characters"
  const MismatchMsg: string := "Passwords must match"
  /** The validation library's message for a missing value. */
  const RequiredMsg: string := "Required"

  predicate HasUpper(p: string) { exists i :: 0 <= i < |p| && IsAsciiUpper(p[i]) }
  predicate HasDigit(p: string) { exists i :: 0 <= i < |p| && IsAsciiDigit(p[i]) }
  predicate HasSpecial(p: string) { exists i :: 0 <= i < |p| && IsSpecial(p[i]) }
  predicate AllNameChars(n: string) { |n| > 0 && forall i :: 0 <= i < |n| ==> IsNameChar(n[i]) }

  /** The password rule, stated directly. */
  predicate PasswordAccepted(p: string) {
    Utf16Length(p) >= 8 && HasUpper(p) && HasDigit(p) && HasSpecial(p)
  }

  /** The name rule, stated directly. */
  predicate NameAccepted(n: string) {
    Utf16Length(n) >= 2 && AllNameChars(n)
  }

  /** The issues the password checks raise, in schema order. */
  function PasswordIssues(p: string): (r: seq<string>)
    ensures PasswordMinMsg in r <==> Utf16Length(p) < 8
    ensures PasswordUpperMsg in r <==> !HasUpper(p)
    ensures PasswordDigitMsg in r <==> !HasDigit(p)
    ensures PasswordSpecialMsg in r <==> !HasSpecial(p)
    ensures r == [] <==> PasswordAccepted(p)
  {
    (if Utf16Length(p) < 8 then [PasswordMinMsg] else [])
    + (if !SomeChar(p, IsAsciiUpper) then [PasswordUpperMsg] else [])
    + (if !SomeChar(p, IsAsciiDigit) then [PasswordDigitMsg] else [])
    + (if !SomeChar(p, IsSpecial) then [PasswordSpecialMsg] else [])
  }

  /** The issues the name checks raise, in schema order. */
  function NameIssues(n: string): (r: seq<string>)
    ensures NameMinMsg in r <==> Utf16Length(n) < 2
    ensures NameCharsMsg in r <==> !AllNameChars(n)
    ensures r == [] <==> NameAccepted(n)
  {
    (if Utf16Length(n) < 2 then [NameMinMsg] else [])
    + (if !EveryChar(n, IsNameChar) then [NameCharsMsg] else [])
  }

  function ConfirmIssues(c: string): (r: seq<string>)
    ensures r == [] <==> Utf16Length(c) >= 8
    ensures r != [] ==> r == [ConfirmMinMsg]
  {
    if Utf16Length(c) < 8 then [ConfirmMinMsg] else []
  }

  /** The error a form shows for a field: the first issue raised for it. */
  function FirstIssue(issues: seq<string>): (r: Option<string>)
    ensures r.None? <==> issues == []
    ensures r.Some? ==> r.value == issues[0]
  {
    if issues == [] then None else Some(issues[0])
  }

  datatype SignInErrors = SignInErrors(email: Option<string>, password: Option<string>)

  datatype SignUpErrors = SignUpErrors(
    name: Option<string>,
    email: Option<string>,
    password: Option<string>,
    confirmPassword: Option<string>)

  /** The issues a field reports as the form sees them. The form library
      hands the schema `undefined` for a field left as "", and the
      validation library then reports its type error "Required" for that
      field instead of running the field's checks. */
  function FieldIssues(value: string, checks: seq<string>): seq<string> {
    if value == "" then [RequiredMsg] else checks
  }

  /** The e-mail check; `isEmail` stands for the validation library's
      e-mail test. */
  function EmailIssues(email: string, isEmail: string -> bool): seq<string> {
    if isEmail(email) then [] else [EmailMsg]
  }

  /** Some field of a sign-up record is empty. Its type error aborts the
      object, so the match refinement never runs; the other fields are still
      checked. */
  predicate AnyEmpty(name: string, email: string, password: string, confirmPassword: string) {
    name == "" || email == "" || password == "" || confirmPassword == ""
  }

  /** `signInSchema` as the form sees it. */
  function SignInCheck(email: string, isEmail: string -> bool, password: string): (r: SignInErrors)
    ensures email == "" ==> r.email == Some(RequiredMsg)
    ensures email != "" ==> (r.email.None? <==> isEmail(email))
    ensures email != "" && r.email.Some? ==> r.email.value == EmailMsg
    ensures password == "" ==> r.password == Some(RequiredMsg)
    ensures r.password.None? <==> PasswordAccepted(password)
    ensures password != "" && Utf16Length(password) < 8 ==> r.password == Some(PasswordMinMsg)
  {
    SignInErrors(
      FirstIssue(FieldIssues(email, EmailIssues(email, isEmail))),
      FirstIssue(FieldIssues(password, PasswordIssues(password))))
  }

  /** `signUpSchema` as the form sees it. The match refinement reports on
      `confirmPassword`, after that field's own length issue, and only when
      no field is empty. */
  function SignUpCheck(name: string, email: string, isEmail: string -> bool,
                       password: string, confirmPassword: string): (r: SignUpErrors)
    ensures name == "" ==> r.name == Some(RequiredMsg)
    ensures email == "" ==> r.email == Some(RequiredMsg)
    ensures password == "" ==> r.password == Some(RequiredMsg)
    ensures confirmPassword == "" ==> r.confirmPassword == Some(RequiredMsg)
    ensures r.name.None? <==> NameAccepted(name)
    ensures r.email.None? <==> email != "" && isEmail(email)
    ensures r.password.None? <==> PasswordAccepted(password)
    ensures r.confirmPassword.None?
        <==> (Utf16Length(confirmPassword) >= 8
              && (password == confirmPassword || AnyEmpty(name, email, password, confirmPassword)))
    ensures confirmPassword != "" && Utf16Length(confirmPassword) < 8 ==> r.confirmPassword == Some(ConfirmMinMsg)
    ensures (Utf16Length(confirmPassword) >= 8 && password != confirmPassword
             && !AnyEmpty(name, email, password, confirmPassword))
        ==> r.confirmPassword == Some(MismatchMsg)
  {
    var mismatch := !AnyEmpty(name, email, password, confirmPassword) && password != confirmPassword;
    SignUpErrors(
      FirstIssue(FieldIssues(name, NameIssues(name))),
      FirstIssue(FieldIssues(email, EmailIssues(email, isEmail))),
      FirstIssue(FieldIssues(password, PasswordIssues(password))),
      FirstIssue(FieldIssues(confirmPassword, ConfirmIssues(confirmPassword))
                 + (if mismatch then [MismatchMsg] else [])))
  }

  predicate SignInValid(e: SignInErrors) { e.email.None? && e.password.None? }

  predicate SignUpValid(e: SignUpErrors) {
    e.name.None? && e.email.None? && e.password.None? && e.confirmPassword.None?
  }

  /** Sign-in and sign-up apply the same password rule, with the same
      message for the same password. */
  lemma SamePasswordRule(name: string, email: string, isEmail: string -> bool,
                         password: string, confirmPassword: string)
    ensures SignInCheck(email, isEmail, password).password
         == SignUpCheck(name, email, isEmail, password, confirmPassword).password
  {
  }

  /** A sign-up record is accepted exactly when every rule holds and the two
      passwords agree; the confirmation's own length rule is then implied,
      and no field is empty, so the match refinement did run. */
  lemma SignUpAcceptance(name: string, email: string, isEmail: string -> bool,
                         password: string, confirmPassword: string)
    ensures SignUpValid(SignUpCheck(name, email, isEmail, password, confirmPassword))
        <==> (email != "" && isEmail(email) && NameAccepted(name) && PasswordAccepted(password)
              && password == confirmPassword)
  {
  }

  /** "_" is a special character: a password may rely on it alone. */
  lemma UnderscoreIsSpecial()
    ensures PasswordAccepted("Abcdefg1_")
  {
    var p := "Abcdefg1_";
    assert IsAsciiUpper(p[0]) && IsAsciiDigit(p[7]) && IsSpecial(p[8]);
  }

  /** Letters and digits alone never satisfy the special-character rule. */
  lemma AlphanumericRejected(p: string)
    requires forall i :: 0 <= i < |p| ==> IsAsciiLetter(p[i]) || IsAsciiDigit(p[i])
    ensures !PasswordAccepted(p)
    ensures PasswordSpecialMsg in PasswordIssues(p)
  {
  }

  /** An empty field hides a mismatch: with the name left empty, two
      different well-formed passwords raise no error on the confirmation,
      and the name reports "Required". */
  lemma EmptyFieldHidesMismatch(email: string, isEmail: string -> bool)
    ensures var r := SignUpCheck("", email, isEmail, "Abcdefg1_", "Abcdefg2_");
            r.name == Some(RequiredMsg) && r.confirmPassword.None?
  {
    assert Utf16Length("Abcdefg2_") >= |"Abcdefg2_"|;
  }

  /** An untouched sign-in form reports "Required" on both fields. */
  lemma EmptySignInRequired(isEmail: string -> bool)
    ensures SignInCheck("", isEmail, "") == SignInErrors(Some(RequiredMsg), Some(RequiredMsg))
  {
  }
}
