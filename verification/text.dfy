/**
 * The little string formatting the core does: decimal rendering of a count
 * (a template literal) and the upper-cased eight-character prefix of a
 * random identifier.
 */
module Text {

  predicate IsDigit(c: char) {
    '0' <= c <= '9'
  }

  function DigitChar(d: nat): (c: char)
    requires d < 10
    ensures IsDigit(c)
  {
    ('0' as int + d) as char
  }

  function DigitValue(c: char): nat
    requires IsDigit(c)
  {
    (c as int - '0' as int) as nat
  }

  /** The decimal numeral of `n`, as JavaScript prints a non-negative integer. */
  function NatToString(n: nat): (s: string)
    ensures 0 < |s|
    ensures forall i :: 0 <= i < |s| ==> IsDigit(s[i])
    ensures 1 < |s| ==> s[0] != '0'
  {
    if n < 10 then [DigitChar(n)] else NatToString(n / 10) + [DigitChar(n % 10)]
  }

  /** Reads a string of decimal digits back as a number. */
  function ParseDecimal(s: string): nat
    requires forall i :: 0 <= i < |s| ==> IsDigit(s[i])
  {
    if |s| == 0 then 0 else ParseDecimal(s[..|s| - 1]) * 10 + DigitValue(s[|s| - 1])
  }

  /** The numeral denotes the number it was printed from. */
  lemma {:induction false} ParseNatToString(n: nat)
    ensures ParseDecimal(NatToString(n)) == n
  {
    var s := NatToString(n);
    if n >= 10 {
      assert s[..|s| - 1] == NatToString(n / 10);
      ParseNatToString(n / 10);
    }
  }

  /**
   * `toUpperCase` restricted to ASCII: only 'a'..'z' change. This is exact
   * for the hexadecimal digits and dashes of a uuid, the only text it is
   * applied to; the full Unicode mapping (which can change the length, as
   * 'ß' to "SS" does) is not modelled.
   */
  function UpperChar(c: char): (u: char)
    ensures !('a' <= u <= 'z')
  {
    if 'a' <= c <= 'z' then (c as int - 32) as char else c
  }

  /** `uuid.slice(0, 8).toUpperCase()`. */
  function IdTag(uuid: string): (tag: string)
    ensures |tag| == if |uuid| < 8 then |uuid| else 8
    ensures forall i :: 0 <= i < |tag| ==> tag[i] == UpperChar(uuid[i])
  {
    var prefix := if |uuid| < 8 then uuid else uuid[..8];
    seq(|prefix|, i requires 0 <= i < |prefix| => UpperChar(prefix[i]))
  }
}
