/** The string operations the front end relies on: decimal rendering of
    non-negative integers (template literals `${n}`) and `String.prototype.includes`. */
module Text {

  function Digit(d: nat): (c: char)
    requires d < 10
    ensures '0' <= c <= '9'
  {
    ('0' as int + d) as char
  }

  /** The decimal text of `n`, as JavaScript prints a non-negative integer. */
  function Decimal(n: nat): (s: string)
    ensures |s| >= 1
    ensures forall i | 0 <= i < |s| :: '0' <= s[i] <= '9'
    decreases n
  {
    if n < 10 then [Digit(n)] else Decimal(n / 10) + [Digit(n % 10)]
  }

  /** Reads a string of decimal digits back as a number: the inverse of `Decimal`. */
  function DigitsValue(s: string): nat
  {
    if s == [] then 0
    else
      var d := s[|s| - 1] as int - '0' as int;
      DigitsValue(s[..|s| - 1]) * 10 + (if 0 <= d < 10 then d else 0)
  }

  lemma {:induction false} DecimalRoundTrip(n: nat)
    ensures DigitsValue(Decimal(n)) == n
    decreases n
  {
    var s := Decimal(n);
    if n >= 10 {
      DecimalRoundTrip(n / 10);
      assert s[..|s| - 1] == Decimal(n / 10);
    }
  }

  /** Distinct numbers print as distinct texts. */
  lemma DecimalInjective(a: nat, b: nat)
    requires a != b
    ensures Decimal(a) != Decimal(b)
  {
    DecimalRoundTrip(a);
    DecimalRoundTrip(b);
  }

  predicate StartsWith(s: string, prefix: string)
  {
    |prefix| <= |s| && s[..|prefix|] == prefix
  }

  /** `s.includes(sub)`: `sub` occurs in `s` at some position. */
  predicate Includes(s: string, sub: string)
  {
    exists i | 0 <= i <= |s| :: StartsWith(s[i..], sub)
  }

  lemma IncludesPrefix(s: string, sub: string)
    requires StartsWith(s, sub)
    ensures Includes(s, sub)
  {
    assert s[0..] == s;
  }

  /** A text lacking one of the characters of `sub` cannot include `sub`. */
  lemma MissingCharNotIncluded(s: string, sub: string, c: char)
    requires c in sub && c !in s
    ensures !Includes(s, sub)
  {
    var k :| 0 <= k < |sub| && sub[k] == c;
    forall i | 0 <= i <= |s| && |sub| <= |s| - i
      ensures s[i..][..|sub|] != sub
    {
      assert s[i..][..|sub|][k] == s[i + k];
    }
  }

  /** A text in which two consecutive characters of `sub` never occur side
      by side cannot include `sub`. */
  lemma MissingPairNotIncluded(s: string, sub: string, k: nat)
    requires k + 1 < |sub|
    requires forall j | 0 <= j < |s| - 1 :: !(s[j] == sub[k] && s[j + 1] == sub[k + 1])
    ensures !Includes(s, sub)
  {
    forall i | 0 <= i <= |s| && |sub| <= |s| - i
      ensures s[i..][..|sub|] != sub
    {
      assert s[i..][..|sub|][k] == s[i + k];
      assert s[i..][..|sub|][k + 1] == s[i + k + 1];
    }
  }
}
