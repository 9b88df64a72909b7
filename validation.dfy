/**
 * The field rules that the sign-in and sign-up forms declare through
 * react-hook-form's `register`: `required`, `pattern`, `minLength` and
 * `validate`.  Both forms declare the same email and password rules; they are
 * defined once here.
 *
 * react-hook-form reports, per field, the message of the first rule that
 * fails, in the order required, minLength, pattern, validate; `minLength` and
 * `pattern` are only consulted on a non-empty value.
 */
module Validation {

  /** The error react-hook-form records for one field: none, or a message. */
  datatype Verdict = Pass | Fail(message: string)

  const EmailRequired := "Email is required"
  const InvalidEmail := "Enter a valid email"
  const PasswordRequired := "Password is required"
  const PasswordTooShort := "Password must be at least 6 characters"
  const ConfirmRequired := "Confirm Password is required"
  const PasswordsDiffer := "Passwords do not match"

  /** The `minLength` bound of both password fields. */
  const MinPasswordLength := 6

  // ---------------------------------------------------------------------
  // The email pattern /^\S+@\S+$/i
  // ---------------------------------------------------------------------

  /**
   * JavaScript's `\s`: the WhiteSpace and LineTerminator code points of
   * ECMAScript (tab, line feed, vertical tab, form feed, carriage return,
   * space, no-break space, the Zs separators, line and paragraph separator,
   * and the byte order mark).
   */
  predicate IsJsWhitespace(c: char) {
    var n := c as int;
    n == 0x09 || n == 0x0A || n == 0x0B || n == 0x0C || n == 0x0D ||
    n == 0x20 || n == 0xA0 || n == 0x1680 || (0x2000 <= n <= 0x200A) ||
    n == 0x2028 || n == 0x2029 || n == 0x202F || n == 0x205F ||
    n == 0x3000 || n == 0xFEFF
  }

  /** What `\S+` matches: a non-empty run of non-whitespace characters. */
  ghost predicate NonSpaceRun(t: string) {
    |t| >= 1 && forall k :: 0 <= k < |t| ==> !IsJsWhitespace(t[k])
  }

  /**
   * What the anchored pattern `^\S+@\S+$` accepts: the whole string is a
   * `\S+` run, an '@', and another `\S+` run.  The `i` flag changes nothing,
   * since neither `\S` nor '@' has a case.
   */
  ghost predicate MatchesEmailPattern(s: string) {
    exists i :: 0 <= i < |s| && s[i] == '@' && NonSpaceRun(s[..i]) && NonSpaceRun(s[i + 1..])
  }

  predicate NoWhitespace(s: string) {
    forall k :: 0 <= k < |s| ==> !IsJsWhitespace(s[k])
  }

  /** An '@' with at least one character on either side of it. */
  predicate HasInnerAt(s: string) {
    exists i :: 1 <= i <= |s| - 2 && s[i] == '@'
  }

  /** The executable reading of the pattern. */
  predicate EmailShape(s: string) {
    NoWhitespace(s) && HasInnerAt(s)
  }

  /**
   * The pattern holds exactly of the strings with no whitespace and an '@'
   * that is neither the first nor the last character.  (The runs may
   * themselves hold '@': "a@@b" matches.)
   */
  lemma EmailShapeIff(s: string)
    ensures MatchesEmailPattern(s) <==> EmailShape(s)
  {
  }

  /** The email field's rules: required, then the pattern. */
  function EmailRule(s: string): (v: Verdict)
    ensures v == Pass <==> MatchesEmailPattern(s)
    ensures s == "" ==> v == Fail(EmailRequired)
    ensures s != "" && !MatchesEmailPattern(s) ==> v == Fail(InvalidEmail)
  {
    EmailShapeIff(s);
    if s == "" then Fail(EmailRequired)
    else if EmailShape(s) then Pass
    else Fail(InvalidEmail)
  }

  // ---------------------------------------------------------------------
  // The password rules: required, minLength 6
  // ---------------------------------------------------------------------

  /**
   * JavaScript's `String.prototype.length`, which `minLength` compares: the
   * number of UTF-16 code units, so a character outside the Basic
   * Multilingual Plane counts twice.
   */
  function Utf16Length(s: string): nat {
    if s == [] then 0
    else (if s[0] as int >= 0x1_0000 then 2 else 1) + Utf16Length(s[1..])
  }

  predicate InBmp(s: string) {
    forall k :: 0 <= k < |s| ==> s[k] as int < 0x1_0000
  }

  /** The JavaScript length lies between the number of characters and twice it, and equals it exactly on BMP text. */
  lemma {:induction false} Utf16LengthBounds(s: string)
    ensures |s| <= Utf16Length(s) <= 2 * |s|
    ensures Utf16Length(s) == |s| <==> InBmp(s)
  {
    if s != [] {
      Utf16LengthBounds(s[1..]);
      if InBmp(s) {
        assert InBmp(s[1..]) by {
          forall k | 0 <= k < |s[1..]| ensures s[1..][k] as int < 0x1_0000 {
            assert s[1..][k] == s[k + 1];
          }
        }
      }
      if Utf16Length(s) == |s| {
        assert s[0] as int < 0x1_0000;
        forall k | 0 <= k < |s| ensures s[k] as int < 0x1_0000 {
          if k > 0 {
            assert s[k] == s[1..][k - 1];
          }
        }
      }
    }
  }

  /** The password field's rules: required, then at least six UTF-16 code units. */
  function PasswordRule(s: string): (v: Verdict)
    ensures v == Pass <==> Utf16Length(s) >= MinPasswordLength
    ensures |s| >= MinPasswordLength ==> v == Pass
    ensures InBmp(s) ==> (v == Pass <==> |s| >= MinPasswordLength)
    ensures s == "" ==> v == Fail(PasswordRequired)
    ensures s != "" && v != Pass ==> v == Fail(PasswordTooShort)
  {
    Utf16LengthBounds(s);
    if s == "" then Fail(PasswordRequired)
    else if Utf16Length(s) < MinPasswordLength then Fail(PasswordTooShort)
    else Pass
  }

  // ---------------------------------------------------------------------
  // The confirm-password rules of the sign-up form: required, then equal
  // ---------------------------------------------------------------------

  /**
   * The confirm-password field's rules: required, then `value === password`,
   * where `password` is the watched value of the password field.
   */
  function ConfirmPasswordRule(confirm: string, password: string): (v: Verdict)
    ensures v == Pass <==> confirm != "" && confirm == password
    ensures confirm == "" ==> v == Fail(ConfirmRequired)
    ensures confirm != "" && confirm != password ==> v == Fail(PasswordsDiffer)
  {
    if confirm == "" then Fail(ConfirmRequired)
    else if confirm == password then Pass
    else Fail(PasswordsDiffer)
  }
}
