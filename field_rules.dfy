/** The string tests the Sequelize validators of both user models are built
    from: JavaScript's `\s` character class, the `notEmpty` validator, and the
    character classes of the `is` regular expressions. */
module FieldRules {

  /** A character matched by `\s` in a JavaScript regular expression. */
  predicate IsJsSpace(c: char)
  {
    c == ' ' || c == '\t' || c == '\n' || c == '\r' || c == '\U{000B}' || c == '\U{000C}'
    || c == '\U{00A0}' || c == '\U{1680}' || ('\U{2000}' <= c <= '\U{200A}')
    || c == '\U{2028}' || c == '\U{2029}' || c == '\U{202F}' || c == '\U{205F}'
    || c == '\U{3000}' || c == '\U{FEFF}'
  }

  predicate IsAsciiLetter(c: char)
  {
    ('a' <= c <= 'z') || ('A' <= c <= 'Z')
  }

  predicate IsDigit(c: char)
  {
    '0' <= c <= '9'
  }

  /** Sequelize's `notEmpty`: the string is not made of whitespace alone
      (`!str.match(/^[\s\t\r\n]*$/)`). */
  predicate NotBlank(s: string)
  {
    exists i :: 0 <= i < |s| && !IsJsSpace(s[i])
  }

  /** `/^[a-zA-Z\s]*$/`. */
  predicate OnlyLettersAndSpaces(s: string)
  {
    forall i :: 0 <= i < |s| ==> IsAsciiLetter(s[i]) || IsJsSpace(s[i])
  }

  /** `/^[0-9+\-\s]*$/`. */
  predicate OnlyPhoneChars(s: string)
  {
    forall i :: 0 <= i < |s| ==> IsDigit(s[i]) || s[i] == '+' || s[i] == '-' || IsJsSpace(s[i])
  }

  /** `/^[0-9]+$/i`. */
  predicate DigitsOnly(s: string)
  {
    |s| > 0 && forall i :: 0 <= i < |s| ==> IsDigit(s[i])
  }

  /** A string that ends in a non-space character is not blank, whatever precedes it. */
  lemma NotBlankSuffix(prefix: string, suffix: string)
    requires NotBlank(suffix)
    ensures NotBlank(prefix + suffix)
  {
    var i :| 0 <= i < |suffix| && !IsJsSpace(suffix[i]);
    assert (prefix + suffix)[|prefix| + i] == suffix[i];
  }
}
