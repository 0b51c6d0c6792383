/**
 * The registration form: the password rule (a regular expression in the source) and the order in
 * which submitting the form decides its error message.
 */
module Register {

  // ---------------------------------------------------------------------------
  // The password rule.
  // ---------------------------------------------------------------------------

  /** The characters a regular-expression `.` does not match. */
  predicate IsLineTerminator(c: char) {
    c == '\n' || c == '\r' || c == '\U{2028}' || c == '\U{2029}'
  }

  predicate IsLower(c: char) { 'a' <= c <= 'z' }
  predicate IsUpper(c: char) { 'A' <= c <= 'Z' }
  predicate IsDigit(c: char) { '0' <= c <= '9' }

  /** The 32 characters of the rule's special-character class. */
  const SpecialCharacters := "!@#$%^&*()_-+={}[]|\\:;\"'<>,.?/~`"

  predicate IsSpecial(c: char) { c in SpecialCharacters }

  /**
   * The lookahead `(?=.*[class])` at the start of the input: some character of the class is
   * reached by `.*`, that is, before the first line terminator. Every class holds only ASCII
   * characters, so neither half of a surrogate pair is ever in one.
   */
  predicate LookaheadFinds(password: string, inClass: char -> bool) {
    exists j :: 0 <= j < |password| && inClass(password[j])
      && forall k :: 0 <= k < j ==> !IsLineTerminator(password[k])
  }

  /**
   * The length of a string in UTF-16 code units, the units a regular expression without the `u`
   * flag matches one `.` at a time: a character above U+FFFF is a surrogate pair, two units.
   */
  function Utf16Length(s: string): (units: nat)
    ensures |s| <= units <= 2 * |s|
  {
    if s == [] then 0 else (if s[0] as int > 0xFFFF then 2 else 1) + Utf16Length(s[1..])
  }

  /** Appending a character adds one unit, or two for a character above U+FFFF. */
  lemma {:induction false} Utf16LengthSnoc(s: string, c: char)
    ensures Utf16Length(s + [c]) == Utf16Length(s) + (if c as int > 0xFFFF then 2 else 1)
  {
    if s != [] {
      assert (s + [c])[1..] == s[1..] + [c];
      Utf16LengthSnoc(s[1..], c);
    } else {
      assert s + [c] == [c];
    }
  }

  /**
   * `.{8,}$` from the start of the input: eight or more code units, none a line terminator. The
   * two halves of a surrogate pair each match `.`; no line terminator lies above U+FFFF.
   */
  predicate DotsToEnd(password: string) {
    Utf16Length(password) >= 8 && forall k :: 0 <= k < |password| ==> !IsLineTerminator(password[k])
  }

  /** `validatePassword`: the regular expression, read construct by construct. */
  predicate ValidatePassword(password: string) {
    && LookaheadFinds(password, IsLower)
    && LookaheadFinds(password, IsUpper)
    && LookaheadFinds(password, IsDigit)
    && LookaheadFinds(password, IsSpecial)
    && DotsToEnd(password)
  }

  predicate HasCharacter(password: string, inClass: char -> bool) {
    exists i :: 0 <= i < |password| && inClass(password[i])
  }

  /** The rule as a person would state it. */
  predicate IsStrongPassword(password: string) {
    && Utf16Length(password) >= 8
    && (forall k :: 0 <= k < |password| ==> !IsLineTerminator(password[k]))
    && HasCharacter(password, IsLower)
    && HasCharacter(password, IsUpper)
    && HasCharacter(password, IsDigit)
    && HasCharacter(password, IsSpecial)
  }

  /** Two emoji and four ASCII characters are eight code units: long enough for `.{8,}`. */
  lemma EmojiCountTwice()
    ensures |"Aa1!\U{1F600}\U{1F600}"| == 6 && Utf16Length("Aa1!\U{1F600}\U{1F600}") == 8
  {
    Utf16LengthSnoc("Aa1!\U{1F600}", '\U{1F600}');
    Utf16LengthSnoc("Aa1!", '\U{1F600}');
    assert "Aa1!\U{1F600}" + ['\U{1F600}'] == "Aa1!\U{1F600}\U{1F600}";
    assert "Aa1!" + ['\U{1F600}'] == "Aa1!\U{1F600}";
  }

  /** Once no line terminator occurs, each lookahead only asks that its class occurs. */
  lemma LookaheadWithoutTerminators(password: string, inClass: char -> bool)
    requires forall k :: 0 <= k < |password| ==> !IsLineTerminator(password[k])
    ensures LookaheadFinds(password, inClass) <==> HasCharacter(password, inClass)
  {
    if HasCharacter(password, inClass) {
      var i :| 0 <= i < |password| && inClass(password[i]);
      assert forall k :: 0 <= k < i ==> !IsLineTerminator(password[k]);
    }
  }

  /** The regular expression accepts exactly the strong passwords. */
  lemma ValidatePasswordIsStrong(password: string)
    ensures ValidatePassword(password) <==> IsStrongPassword(password)
  {
    if forall k :: 0 <= k < |password| ==> !IsLineTerminator(password[k]) {
      LookaheadWithoutTerminators(password, IsLower);
      LookaheadWithoutTerminators(password, IsUpper);
      LookaheadWithoutTerminators(password, IsDigit);
      LookaheadWithoutTerminators(password, IsSpecial);
    }
  }

  /** A password with a line break is refused whatever else it holds. */
  lemma LineBreakRefused(before: string, after: string)
    ensures !ValidatePassword(before + "\n" + after)
  {
    var p := before + "\n" + after;
    assert IsLineTerminator(p[|before|]);
  }

  // ---------------------------------------------------------------------------
  // Submitting the form.
  // ---------------------------------------------------------------------------

  const RuleMessage :=
    "Password must be at least 8 characters long and include uppercase, lowercase, number, and special character."
  const MismatchMessage := "Passwords do not match."

  /** The form's state: the two password inputs and the error shown under them. */
  class RegisterForm {
    var password: string
    var confirmPassword: string
    var error: string

    constructor ()
      ensures password == "" && confirmPassword == "" && error == ""
    {
      password := "";
      confirmPassword := "";
      error := "";
    }

    /** The password input's change handler. */
    method SetPassword(value: string)
      modifies this
      ensures password == value
      ensures confirmPassword == old(confirmPassword) && error == old(error)
    {
      password := value;
    }

    /** The confirmation input's change handler. */
    method SetConfirmPassword(value: string)
      modifies this
      ensures confirmPassword == value
      ensures password == old(password) && error == old(error)
    {
      confirmPassword := value;
    }

    /**
     * `handleSubmit`: the rule first, and only a password that passes it is compared with the
     * confirmation; `created` is whether submission goes on.
     */
    method HandleSubmit() returns (created: bool)
      modifies this
      ensures password == old(password) && confirmPassword == old(confirmPassword)
      ensures !IsStrongPassword(password) ==> error == RuleMessage && !created
      ensures IsStrongPassword(password) && password != confirmPassword ==> error == MismatchMessage && !created
      ensures IsStrongPassword(password) && password == confirmPassword ==> error == "" && created
      ensures error != "" <==> !IsStrongPassword(password) || password != confirmPassword
      ensures created <==> error == ""
    {
      ValidatePasswordIsStrong(password);
      if !ValidatePassword(password) {
        error := RuleMessage;
        return false;
      }
      if password != confirmPassword {
        error := MismatchMessage;
        return false;
      }
      error := "";
      created := true;
    }
  }
}
