/**
 * The text-level pieces the job model uses to build SQL: decimal numerals
 * (JavaScript's rendering of a non-negative integer inside a template
 * literal), their inverse, `Array.prototype.join`, and `$n` placeholders.
 */
module SqlText {

  function DigitChar(d: nat): (c: char)
    requires d < 10
    ensures '0' <= c <= '9'
  {
    ('0' as int + d) as char
  }

  function DigitValue(c: char): nat
  {
    if '0' <= c <= '9' then c as int - '0' as int else 0
  }

  predicate IsDigits(s: string)
  {
    forall i :: 0 <= i < |s| ==> '0' <= s[i] <= '9'
  }

  /** The decimal numeral of `n`: non-empty, digits only, no leading zero. */
  function Digits(n: nat): (s: string)
    ensures |s| > 0 && IsDigits(s)
    ensures |s| > 1 ==> s[0] != '0'
    ensures n >= 10 <==> |s| > 1
    decreases n
  {
    if n < 10 then [DigitChar(n)] else Digits(n / 10) + [DigitChar(n % 10)]
  }

  /** Reads a string of decimal digits back as a number. */
  function ParseDigits(s: string): nat
  {
    if s == [] then 0 else ParseDigits(s[..|s| - 1]) * 10 + DigitValue(s[|s| - 1])
  }

  lemma {:induction false} ParseDigitsOfDigits(n: nat)
    ensures ParseDigits(Digits(n)) == n
    decreases n
  {
    if n >= 10 {
      var s := Digits(n);
      assert s[..|s| - 1] == Digits(n / 10);
      ParseDigitsOfDigits(n / 10);
    }
  }

  /** Distinct numbers have distinct numerals. */
  lemma DigitsInjective(m: nat, n: nat)
    ensures Digits(m) == Digits(n) <==> m == n
  {
    ParseDigitsOfDigits(m);
    ParseDigitsOfDigits(n);
  }

  /** `${i}` for an integer `i`. */
  function IntToString(i: int): string
  {
    if i < 0 then "-" + Digits(-i) else Digits(i)
  }

  /** `parts.join(sep)`. */
  function Join(parts: seq<string>, sep: string): string
  {
    if |parts| == 0 then "" else if |parts| == 1 then parts[0] else parts[0] + sep + Join(parts[1..], sep)
  }

  /** The positional bind placeholder `$n` of the Postgres driver. */
  function Placeholder(n: nat): string
  {
    "$" + Digits(n)
  }

  /** The number a placeholder names. */
  function PlaceholderIndex(s: string): nat
  {
    if |s| > 0 && s[0] == '$' then ParseDigits(s[1..]) else 0
  }

  lemma PlaceholderIndexOfPlaceholder(n: nat)
    ensures PlaceholderIndex(Placeholder(n)) == n
  {
    ParseDigitsOfDigits(n);
  }
}
