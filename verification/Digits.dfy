/** Decimal digits: reading and writing naturals. */
module Digits {
  predicate IsDigit(c: char) {
    '0' <= c <= '9'
  }

  predicate AllDigits(s: string) {
    forall i | 0 <= i < |s| :: IsDigit(s[i])
  }

  function DigitValue(c: char): (d: nat)
    requires IsDigit(c)
    ensures d < 10
  {
    (c as int) - ('0' as int)
  }

  function DigitCharacter(d: nat): (c: char)
    requires d < 10
    ensures IsDigit(c) && DigitValue(c) == d
  {
    (d + ('0' as int)) as char
  }

  /** The natural a digit text denotes; leading zeros do not matter and the empty text is zero. */
  function NatOf(s: string): nat
    requires AllDigits(s)
  {
    if s == [] then 0 else 10 * NatOf(s[..|s| - 1]) + DigitValue(s[|s| - 1])
  }

  /** The shortest digit text of a natural. */
  function Decimal(n: nat): (s: string)
    ensures s != [] && AllDigits(s)
  {
    if n < 10 then [DigitCharacter(n)] else Decimal(n / 10) + [DigitCharacter(n % 10)]
  }

  /** Exactly `width` digits, leading zeros included. */
  function Padded(n: nat, width: nat): (s: string)
    ensures |s| == width && AllDigits(s)
  {
    if width == 0 then [] else Padded(n / 10, width - 1) + [DigitCharacter(n % 10)]
  }

  function Pow10(k: nat): (p: nat)
    ensures p > 0
  {
    if k == 0 then 1 else 10 * Pow10(k - 1)
  }

  // ----- products -----

  lemma Grows(a: int, b: int, p: nat)
    requires a < b && p > 0
    ensures a * p < b * p
  {
  }

  lemma Cancel(a: int, b: int, p: nat)
    requires p > 0 && a * p == b * p
    ensures a == b
  {
    if a < b {
      Grows(a, b, p);
    } else if b < a {
      Grows(b, a, p);
    }
  }

  lemma NextMultiple(a: int, b: int, p: nat)
    requires a < b
    ensures a * p + p <= b * p
  {
    assert b * p - a * p - p == (b - a - 1) * p;
  }

  /** Quotient and remainder are the only pair that puts a number together again. */
  lemma DivisionIsUnique(n: int, p: nat, q: int, r: nat)
    requires p > 0 && n == q * p + r && r < p
    ensures n / p == q && n % p == r
  {
    Pieces(n, p);
    var q' := n / p;
    if q' < q {
      NextMultiple(q', q, p);
    } else if q < q' {
      NextMultiple(q, q', p);
    }
  }

  lemma Pieces(n: int, p: nat)
    requires p > 0
    ensures n == n / p * p + n % p && 0 <= n % p < p
  {
  }

  function Quotient(n: nat, p: nat): (q: nat)
    requires p > 0
  {
    n / p
  }

  function Remainder(n: nat, p: nat): (r: nat)
    requires p > 0
    ensures r < p && n == Quotient(n, p) * p + r
  {
    Pieces(n, p);
    n % p
  }

  lemma {:induction false} DecimalReadsBack(n: nat)
    ensures NatOf(Decimal(n)) == n
  {
    if n < 10 {
      assert [DigitCharacter(n)][..0] == [];
    } else {
      DecimalReadsBack(n / 10);
      var s := Decimal(n);
      assert s[..|s| - 1] == Decimal(n / 10);
    }
  }

  lemma AppendedDigit(s: string, d: nat)
    requires AllDigits(s) && d < 10
    ensures AllDigits(s + [DigitCharacter(d)]) && NatOf(s + [DigitCharacter(d)]) == 10 * NatOf(s) + d
  {
    assert (s + [DigitCharacter(d)])[..|s|] == s;
  }

  lemma {:induction false} PaddedReadsBack(n: nat, width: nat)
    requires n < Pow10(width)
    ensures NatOf(Padded(n, width)) == n
  {
    hide NatOf, DigitCharacter;
    if width > 0 {
      PaddedReadsBack(n / 10, width - 1);
      AppendedDigit(Padded(n / 10, width - 1), n % 10);
    } else {
      NothingIsZero();
    }
  }

  lemma NothingIsZero()
    ensures NatOf([]) == 0
  {
  }

  lemma {:induction false} PowAdd(a: nat, b: nat)
    ensures Pow10(a + b) == Pow10(a) * Pow10(b)
  {
    if a > 0 {
      PowAdd(a - 1, b);
      TimesTen(Pow10(a - 1), Pow10(b));
    }
  }

  lemma TimesTen(x: nat, y: nat)
    ensures 10 * (x * y) == (10 * x) * y
  {
  }

  lemma {:induction false} NatOfAppend(a: string, b: string)
    requires AllDigits(a) && AllDigits(b)
    ensures AllDigits(a + b) && NatOf(a + b) == NatOf(a) * Pow10(|b|) + NatOf(b)
  {
    if b == [] {
      assert a + b == a;
    } else {
      var last := |b| - 1;
      NatOfAppend(a, b[..last]);
      assert (a + b)[..|a + b| - 1] == a + b[..last];
      TimesTen(NatOf(a), Pow10(last));
      Commute(NatOf(a), Pow10(last));
    }
  }

  lemma Commute(x: nat, p: nat)
    ensures 10 * (x * p) == x * (10 * p)
  {
  }

  /** The digits a text starts with. */
  function Leading(s: string): string {
    if s == [] || !IsDigit(s[0]) then [] else [s[0]] + Leading(s[1..])
  }

  lemma {:induction false} LeadingOf(digits: string, rest: string)
    requires AllDigits(digits) && (rest == [] || !IsDigit(rest[0]))
    ensures Leading(digits + rest) == digits
  {
    if digits == [] {
      assert digits + rest == rest;
    } else {
      LeadingOf(digits[1..], rest);
      assert (digits + rest)[1..] == digits[1..] + rest;
    }
  }

  /** A number written in front of something that is not a digit can be told from the rest. */
  lemma NumberThenText(m: nat, a: string, n: nat, b: string)
    requires (a == [] || !IsDigit(a[0])) && (b == [] || !IsDigit(b[0]))
    requires Decimal(m) + a == Decimal(n) + b
    ensures m == n && a == b
  {
    LeadingOf(Decimal(m), a);
    LeadingOf(Decimal(n), b);
    DecimalReadsBack(m);
    DecimalReadsBack(n);
    assert a == (Decimal(m) + a)[|Decimal(m)|..];
    assert b == (Decimal(n) + b)[|Decimal(n)|..];
  }
}
