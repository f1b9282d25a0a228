/** The two password rules of the account forms, each one regular expression
    in the source, written here as predicates over the password's characters.
    Both rules restrict every character to the same alphabet (ASCII letters,
    digits and twenty punctuation marks), ask for at least eight characters and
    use look-aheads for "contains at least one of" tests; the sign-up rule adds
    one look-ahead (a special character) to the reset rule. */
module PasswordRules {
  import opened Chars

  /** The message both forms show for a password their rule rejects. */
  const WeakPasswordMessage: string :=
    "Password must be at least 8 characters long, include one uppercase letter, one lowercase letter, and one number."

  /** The special characters of `[!@#$%^&*(),.?":{}|<>]`. */
  const SpecialChars: string := "!@#$%^&*(),.?\":{}|<>"

  predicate IsSpecial(c: char) { c in SpecialChars }

  /** The character class `[A-Za-z\d!@#$%^&*(),.?":{}|<>]`. */
  predicate IsAllowed(c: char)
  {
    IsLower(c) || IsUpper(c) || IsDigit(c) || IsSpecial(c)
  }

  /** `^[A-Za-z\d!@#$%^&*(),.?":{}|<>]{8,}$` */
  predicate AllowedOfLength8(p: string)
  {
    |p| >= 8 && forall i :: 0 <= i < |p| ==> IsAllowed(p[i])
  }

  predicate HasLower(p: string) { exists i :: 0 <= i < |p| && IsLower(p[i]) }

  predicate HasUpper(p: string) { exists i :: 0 <= i < |p| && IsUpper(p[i]) }

  predicate HasDigit(p: string) { exists i :: 0 <= i < |p| && IsDigit(p[i]) }

  predicate HasSpecial(p: string) { exists i :: 0 <= i < |p| && IsSpecial(p[i]) }

  /** The sign-up rule: a lower-case letter, an upper-case letter, a digit and a
      special character, in a password of eight or more allowed characters. */
  predicate SignUpAccepts(p: string)
  {
    HasLower(p) && HasUpper(p) && HasDigit(p) && HasSpecial(p) && AllowedOfLength8(p)
  }

  /** The reset rule: the same, without the special character. */
  predicate ResetAccepts(p: string)
  {
    HasLower(p) && HasUpper(p) && HasDigit(p) && AllowedOfLength8(p)
  }

  /** Every password the sign-up rule accepts, the reset rule accepts too, and
      the reset rule accepts exactly the sign-up passwords plus those without a
      special character. */
  lemma SignUpStrongerThanReset(p: string)
    ensures SignUpAccepts(p) ==> ResetAccepts(p)
    ensures ResetAccepts(p) && HasSpecial(p) ==> SignUpAccepts(p)
  {
  }

  /** The inclusion is strict: "Abcdefg1" passes the reset rule and fails the
      sign-up rule. */
  lemma ResetAcceptsMore()
    ensures ResetAccepts("Abcdefg1") && !SignUpAccepts("Abcdefg1")
  {
    var p := "Abcdefg1";
    assert IsUpper(p[0]) && IsLower(p[1]) && IsDigit(p[7]);
    forall i | 0 <= i < |p| ensures !IsSpecial(p[i]) && IsAllowed(p[i]) {
    }
  }

  /** One character outside the alphabet (a space, `_`, `-`, `+`, `=`, any
      non-ASCII letter) makes both rules reject, whatever else the password
      holds. */
  lemma OutsideAlphabetRejected(p: string, i: nat)
    requires i < |p| && !IsAllowed(p[i])
    ensures !SignUpAccepts(p) && !ResetAccepts(p)
  {
  }

  /** A password of seven characters or fewer is rejected by both rules. */
  lemma ShortRejected(p: string)
    requires |p| < 8
    ensures !SignUpAccepts(p) && !ResetAccepts(p)
  {
  }
}
