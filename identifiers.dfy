/** Addresses as their lower-case hex strings, and the '-'-joined string keys that
    every entity id is built from. */
module Identifiers {

  predicate IsHexDigit(c: char) {
    '0' <= c <= '9' || 'a' <= c <= 'f'
  }

  /** `Address.toHexString()`: "0x" followed by forty lower-case hex digits. */
  predicate IsAddress(s: string) {
    |s| == 42 && s[0] == '0' && s[1] == 'x' && forall i | 2 <= i < |s| :: IsHexDigit(s[i])
  }

  /** n zero digits. */
  function Zeros(n: nat): (r: string)
    ensures |r| == n && forall i | 0 <= i < n :: r[i] == '0'
  {
    if n == 0 then "" else Zeros(n - 1) + "0"
  }

  type Address = s: string | IsAddress(s) witness "0x" + Zeros(40)

  /** The null address, "0x" and forty zeros. */
  const ZeroAddress: Address := "0x" + Zeros(40)

  /** A string that can stand on either side of the '-' separator without ambiguity. */
  predicate NoSeparator(s: string) {
    forall i | 0 <= i < |s| :: s[i] != '-'
  }

  lemma AddressNoSeparator(a: Address)
    ensures NoSeparator(a)
  {
  }

  /** Two keys joined by the separator. */
  function Join(a: string, b: string): string {
    a + "-" + b
  }

  /** A join splits back into its parts when the left part holds no separator:
      the first '-' of the joined string is the one the join inserted. */
  lemma {:induction false} JoinInjective(a1: string, b1: string, a2: string, b2: string)
    requires NoSeparator(a1) && NoSeparator(a2)
    requires Join(a1, b1) == Join(a2, b2)
    ensures a1 == a2 && b1 == b2
  {
    var s1, s2 := Join(a1, b1), Join(a2, b2);
    assert s1[|a1|] == '-' && s2[|a2|] == '-';
    assert forall k | 0 <= k < |a1| :: s1[k] == a1[k];
    assert forall k | 0 <= k < |a2| :: s2[k] == a2[k];
    assert a1 == s1[..|a1|] == s2[..|a2|] == a2;
    assert b1 == s1[|a1| + 1..] == s2[|a2| + 1..] == b2;
  }

  /** Joining three keys does not depend on the grouping. */
  lemma JoinAssociative(a: string, b: string, c: string)
    ensures Join(Join(a, b), c) == Join(a, Join(b, c))
  {
    assert Join(Join(a, b), c) == a + "-" + b + "-" + c;
  }

  function Digit(d: nat): (c: char)
    requires d < 10
    ensures '0' <= c <= '9' && c as int - '0' as int == d
  {
    ['0', '1', '2', '3', '4', '5', '6', '7', '8', '9'][d]
  }

  lemma DigitInjective(d1: nat, d2: nat)
    requires d1 < 10 && d2 < 10 && Digit(d1) == Digit(d2)
    ensures d1 == d2
  {
  }

  /** The number a string of decimal digits denotes, most significant first. */
  function DigitsValue(s: string): nat
    requires forall i | 0 <= i < |s| :: '0' <= s[i] <= '9'
  {
    if |s| == 0 then 0 else 10 * DigitsValue(s[..|s| - 1]) + (s[|s| - 1] as int - '0' as int)
  }

  /** `BigInt.toString()` for the non-negative integers used as auction and bid
      numbers: the decimal digits of n, without leading zeros. */
  function NatToString(n: nat): (s: string)
    ensures 1 <= |s|
    ensures forall i | 0 <= i < |s| :: '0' <= s[i] <= '9'
    ensures DigitsValue(s) == n
    ensures n < 10 <==> |s| == 1
    ensures 1 < |s| ==> s[0] != '0'
  {
    if n < 10 then [Digit(n)]
    else
      var s := NatToString(n / 10) + [Digit(n % 10)];
      assert s[..|s| - 1] == NatToString(n / 10);
      s
  }

  lemma NatToStringNoSeparator(n: nat)
    ensures NoSeparator(NatToString(n))
  {
  }

  /** Distinct numbers print as distinct strings. */
  lemma {:induction false} NatToStringInjective(m: nat, n: nat)
    requires NatToString(m) == NatToString(n)
    ensures m == n
  {
    var s := NatToString(m);
    if m < 10 || n < 10 {
      assert m < 10 && n < 10;
      DigitInjective(m, n);
    } else {
      assert s[|s| - 1] == Digit(m % 10) == Digit(n % 10);
      DigitInjective(m % 10, n % 10);
      assert NatToString(m / 10) == s[..|s| - 1] == NatToString(n / 10);
      NatToStringInjective(m / 10, n / 10);
    }
  }
}
