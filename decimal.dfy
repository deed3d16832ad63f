/**
 * Decimal rendering of whole numbers, as JavaScript's `String(n)` and
 * Python's `f"{n}"` produce it for integers, and left padding as
 * `String.prototype.padStart` and Python's `{n:04d}` perform it for the
 * non-negative values the program pads. The lemmas say that the rendering
 * can be read back, so that strings built from numbers identify them.
 */
module Decimal {

  predicate IsDigit(c: char) { '0' <= c <= '9' }

  function DigitChar(d: int): (c: char)
    requires 0 <= d < 10
    ensures IsDigit(c) && c as int - '0' as int == d
  {
    ('0' as int + d) as char
  }

  /** The numeric value of a string of decimal digits. */
  function DigitsValue(s: string): nat
    requires forall i :: 0 <= i < |s| ==> IsDigit(s[i])
  {
    if s == [] then 0
    else
      assert IsDigit(s[|s| - 1]);
      10 * DigitsValue(s[..|s| - 1]) + (s[|s| - 1] as int - '0' as int)
  }

  /** Shortest decimal digits of `n`, most significant first. */
  function NatToString(n: nat): string
    decreases n
  {
    if n < 10 then [DigitChar(n)] else NatToString(n / 10) + [DigitChar(n % 10)]
  }

  /** `String(n)` for an integer `n`: a minus sign before the digits of |n|. */
  function IntToString(n: int): string
  {
    if n < 0 then "-" + NatToString(-n) else NatToString(n)
  }

  /** A rendering without superfluous leading zeros: only "0" itself starts with '0'. */
  predicate Canonical(s: string)
  {
    |s| >= 1 && (s[0] == '0' ==> s == "0")
  }

  function Repeat(c: char, n: nat): (r: string)
    ensures |r| == n && forall i :: 0 <= i < n ==> r[i] == c
  {
    seq(n, _ => c)
  }

  /** `s.padStart(width, fill)` with a one-character fill. */
  function PadStart(s: string, width: nat, fill: char): (r: string)
    ensures |r| == if |s| >= width then |s| else width
    ensures r[|r| - |s|..] == s
    ensures forall i :: 0 <= i < |r| - |s| ==> r[i] == fill
  {
    if |s| >= width then s else Repeat(fill, width - |s|) + s
  }

  /** The four-digit year folder name: `String(y).padStart(4, '0')`, `f"{y:04d}"`. */
  function Pad4(s: string): string
  {
    PadStart(s, 4, '0')
  }

  lemma {:induction false} NatToStringSound(n: nat)
    ensures var s := NatToString(n);
      && Canonical(s)
      && (forall i :: 0 <= i < |s| ==> IsDigit(s[i]))
      && DigitsValue(s) == n
    decreases n
  {
    var s := NatToString(n);
    if n >= 10 {
      NatToStringSound(n / 10);
      var p := NatToString(n / 10);
      assert s == p + [DigitChar(n % 10)];
      assert s[..|s| - 1] == p;
      assert s[0] == p[0];
    }
  }

  lemma NatToStringInjective(a: nat, b: nat)
    requires NatToString(a) == NatToString(b)
    ensures a == b
  {
    NatToStringSound(a);
    NatToStringSound(b);
  }

  /** Every character of `String(n)` is a digit or the leading minus sign. */
  lemma IntToStringShape(n: int)
    ensures var s := IntToString(n);
      && Canonical(s)
      && (n >= 0 ==> forall i :: 0 <= i < |s| ==> IsDigit(s[i]))
      && (n < 0 ==> s[0] == '-' && forall i :: 1 <= i < |s| ==> IsDigit(s[i]))
  {
    if n < 0 {
      NatToStringSound(-n);
    } else {
      NatToStringSound(n);
    }
  }

  lemma IntToStringInjective(a: int, b: int)
    requires IntToString(a) == IntToString(b)
    ensures a == b
  {
    IntToStringShape(a);
    IntToStringShape(b);
    var s := IntToString(a);
    if a < 0 {
      assert NatToString(-a) == s[1..] == NatToString(-b);
      NatToStringInjective(-a, -b);
    } else {
      NatToStringInjective(a, b);
    }
  }

  /** A character that cannot occur in a number's rendering. */
  predicate Separator(c: char) { !IsDigit(c) && c != '-' }

  /**
   * Splitting at the first occurrence of a character the prefixes do not
   * contain recovers both parts.
   */
  lemma SplitAtFirst(p1: string, r1: string, p2: string, r2: string, c: char)
    requires c !in p1 && c !in p2
    requires p1 + ([c] + r1) == p2 + ([c] + r2)
    ensures p1 == p2 && r1 == r2
  {
    var w := p1 + ([c] + r1);
    assert w[|p1|] == c;
    assert w[|p2|] == c;
    assert |p1| == |p2|;
    assert p1 == w[..|p1|] == p2;
    assert r1 == w[|p1| + 1..] == r2;
  }

  /** A non-digit does not occur among the digits of a natural number. */
  lemma DigitsAvoid(n: nat, c: char)
    requires !IsDigit(c)
    ensures c !in NatToString(n)
  {
    NatToStringSound(n);
  }

  /** `String(n)` starts with '-' exactly when `n` is negative. */
  lemma IntToStringSign(n: int)
    ensures |IntToString(n)| >= 1 && (IntToString(n)[0] == '-' <==> n < 0)
  {
    IntToStringShape(n);
    if n >= 0 {
      assert IsDigit(IntToString(n)[0]);
    }
  }

  /**
   * `${a}<c>...` determines `a` and the rest, for any separator `c` and for
   * `-` as well, although negative numbers start with '-'.
   */
  lemma IntFieldSplit(a: int, r1: string, b: int, r2: string, c: char)
    requires Separator(c) || c == '-'
    requires IntToString(a) + ([c] + r1) == IntToString(b) + ([c] + r2)
    ensures a == b && r1 == r2
  {
    var sa, sb := IntToString(a), IntToString(b);
    IntToStringSign(a);
    IntToStringSign(b);
    assert sa[0] == sb[0] by {
      var w := sa + ([c] + r1);
      assert w[0] == sa[0];
      assert w[0] == (sb + ([c] + r2))[0];
    }
    if a < 0 {
      NegativeFieldSplit(a, r1, b, r2, c);
    } else {
      DigitsAvoid(a, c);
      DigitsAvoid(b, c);
      SplitAtFirst(sa, r1, sb, r2, c);
      NatToStringInjective(a, b);
    }
  }

  /** The case of `IntFieldSplit` where both numbers are negative. */
  lemma NegativeFieldSplit(a: int, r1: string, b: int, r2: string, c: char)
    requires a < 0 && b < 0 && !IsDigit(c)
    requires IntToString(a) + ([c] + r1) == IntToString(b) + ([c] + r2)
    ensures a == b && r1 == r2
  {
    DropSign(NatToString(-a), NatToString(-b), [c] + r1, [c] + r2);
    DigitsAvoid(-a, c);
    DigitsAvoid(-b, c);
    SplitAtFirst(NatToString(-a), r1, NatToString(-b), r2, c);
    NatToStringInjective(-a, -b);
  }

  /** Equal strings after the same leading minus sign are equal without it. */
  lemma DropSign(d1: string, d2: string, t1: string, t2: string)
    requires ("-" + d1) + t1 == ("-" + d2) + t2
    ensures d1 + t1 == d2 + t2
  {
    var u1, u2 := d1 + t1, d2 + t2;
    assert ("-" + d1) + t1 == "-" + u1;
    assert ("-" + d2) + t2 == "-" + u2;
    assert u1 == ("-" + u1)[1..];
    assert u2 == ("-" + u2)[1..];
  }

  /** Zero padding of canonical renderings loses nothing. */
  lemma PadStartInjective(s1: string, s2: string, width: nat)
    requires Canonical(s1) && Canonical(s2)
    requires PadStart(s1, width, '0') == PadStart(s2, width, '0')
    ensures s1 == s2
  {
    var w := PadStart(s1, width, '0');
    var k1, k2 := |w| - |s1|, |w| - |s2|;
    assert w[k1] == s1[0];
    assert w[k2] == s2[0];
    assert k1 == k2;
    assert s1 == w[k1..] == s2;
  }

  /** Different integers give different padded renderings. */
  lemma PaddedIntInjective(a: int, b: int, width: nat)
    requires PadStart(IntToString(a), width, '0') == PadStart(IntToString(b), width, '0')
    ensures a == b
  {
    IntToStringShape(a);
    IntToStringShape(b);
    PadStartInjective(IntToString(a), IntToString(b), width);
    IntToStringInjective(a, b);
  }

  /** A number's rendering contains no separator character. */
  lemma IntToStringAvoids(n: int, c: char)
    requires Separator(c)
    ensures c !in IntToString(n)
  {
    IntToStringShape(n);
  }

  /** Nor does its zero-padded rendering. */
  lemma PaddedAvoids(n: int, c: char)
    requires Separator(c)
    ensures c !in Pad4(IntToString(n))
  {
    var s := IntToString(n);
    var p := Pad4(s);
    var k := |p| - |s|;
    IntToStringAvoids(n, c);
    assert p[k..] == s;
    forall i | 0 <= i < |p| ensures p[i] != c {
      if i >= k {
        assert p[i] == s[i - k];
        assert s[i - k] in s;
      } else {
        assert p[i] == '0';
      }
    }
  }
}
