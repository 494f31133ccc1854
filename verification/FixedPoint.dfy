/** Fixed-point text and its exact value (rust/core/src/remote_configuration.rs:315-336). */
module FixedPoint {
  import opened Wrappers
  import opened Digits
  import opened ConfigText

  const U32_MAX: nat := 0xFFFF_FFFF

  /** The text before and after its first point. */
  function Halves(text: string): (string, string) {
    var whole := Until(text, {'.'});
    if |whole| < |text| then (whole, text[|whole| + 1..]) else (text, "")
  }

  predicate WellFormed(text: string, places: nat) {
    var (whole, fraction) := Halves(text);
    whole != "" && AllDigits(whole) && |fraction| <= places && AllDigits(fraction)
  }

  function ParseU32(digits: string): Option<nat>
    requires AllDigits(digits)
  {
    if NatOf(digits) <= U32_MAX then Some(NatOf(digits)) else None
  }

  function CheckedMul(a: nat, b: nat): Option<nat> {
    if a * b <= U32_MAX then Some(a * b) else None
  }

  function CheckedAdd(a: nat, b: nat): Option<nat> {
    if a + b <= U32_MAX then Some(a + b) else None
  }

  /** Every step is checked: the two parses, the two products and the sum. */
  function Scaled(text: string, places: nat): Option<nat>
    requires places <= 9
  {
    var (whole, fraction) := Halves(text);
    if !WellFormed(text, places) then None
    else match ParseU32(whole)
      case None => None
      case Some(units) =>
        match CheckedMul(units, Pow10(places))
        case None => None
        case Some(scaled) =>
          if fraction == "" then CheckedAdd(scaled, 0)
          else match ParseU32(fraction)
            case None => None
            case Some(part) =>
              match CheckedMul(part, Pow10(places - |fraction|))
              case None => None
              case Some(rest) => CheckedAdd(scaled, rest)
  }

  /** `n` is the value of a well-formed text times 10^places: the text is the integer of all its digits over
      10^(number of fraction digits). */
  predicate Denotes(text: string, places: nat, n: nat)
    requires WellFormed(text, places)
  {
    var (whole, fraction) := Halves(text);
    NatOfAppend(whole, fraction);
    n * Pow10(|fraction|) == NatOf(whole + fraction) * Pow10(places)
  }

  /** Both halves brought to the same number of places. */
  lemma HalvesCombine(whole: string, fraction: string, places: nat)
    requires AllDigits(whole) && AllDigits(fraction) && |fraction| <= places
    ensures AllDigits(whole + fraction)
    ensures (NatOf(whole) * Pow10(places) + NatOf(fraction) * Pow10(places - |fraction|)) * Pow10(|fraction|)
              == NatOf(whole + fraction) * Pow10(places)
  {
    var f, rest := |fraction|, places - |fraction|;
    NatOfAppend(whole, fraction);
    PowAdd(rest, f);
    Distribute(NatOf(whole), NatOf(fraction), Pow10(rest), Pow10(f));
  }

  lemma Distribute(w: nat, f: nat, r: nat, p: nat)
    ensures (w * (r * p) + f * r) * p == (w * p + f) * (r * p)
  {
  }

  lemma TimesAtLeast(a: nat, p: nat)
    requires p > 0
    ensures a <= a * p
  {
  }

  /** Nothing is lost by checking each step instead of the sum: an intermediate result that does not fit is part of a
      sum that does not fit. */
  lemma ScaledIsSum(text: string, places: nat)
    requires places <= 9 && WellFormed(text, places)
    ensures var (whole, fraction) := Halves(text);
            var sum := NatOf(whole) * Pow10(places) + NatOf(fraction) * Pow10(places - |fraction|);
            Scaled(text, places) == if sum <= U32_MAX then Some(sum) else None
  {
    var (whole, fraction) := Halves(text);
    TimesAtLeast(NatOf(whole), Pow10(places));
    TimesAtLeast(NatOf(fraction), Pow10(places - |fraction|));
    if fraction == "" {
      assert NatOf(fraction) == 0;
    }
  }

  /** A text is read as `n` exactly when it is well formed, its exact value times 10^places is the integer `n`, and `n`
      fits thirty-two bits. */
  lemma ScaledIsExact(text: string, places: nat, n: nat)
    requires places <= 9
    ensures Scaled(text, places) == Some(n) <==> WellFormed(text, places) && n <= U32_MAX && Denotes(text, places, n)
  {
    if WellFormed(text, places) {
      var (whole, fraction) := Halves(text);
      var sum := NatOf(whole) * Pow10(places) + NatOf(fraction) * Pow10(places - |fraction|);
      ScaledIsSum(text, places);
      HalvesCombine(whole, fraction, places);
      if Denotes(text, places, n) {
        Cancel(n, sum, Pow10(|fraction|));
      }
    }
  }

  /** Which texts are well formed: digits with at least one of them, alone or with a point behind and as many further
      digits as there are places, or fewer, or none. */
  lemma WellFormedExactly(text: string, places: nat)
    ensures WellFormed(text, places) <==>
              exists whole: string, fraction: string ::
                && whole != "" && AllDigits(whole) && AllDigits(fraction) && |fraction| <= places
                && (text == whole + "." + fraction || (text == whole && fraction == ""))
  {
    UntilPrefix(text, {'.'});
    if WellFormed(text, places) {
      var (whole, fraction) := Halves(text);
      assert |whole| < |text| ==> text == whole + "." + fraction;
      assert |whole| >= |text| ==> text == whole;
    }
    forall whole: string, fraction: string |
      && whole != "" && AllDigits(whole) && AllDigits(fraction) && |fraction| <= places
      && (text == whole + "." + fraction || (text == whole && fraction == ""))
      ensures WellFormed(text, places)
    {
      DigitsHaveNoPoint(whole, fraction);
    }
  }

  /** `n` over 10^places, with every place written. */
  function Print(n: nat, places: nat): string {
    if places == 0 then Decimal(n)
    else Decimal(Quotient(n, Pow10(places))) + "." + Padded(Remainder(n, Pow10(places)), places)
  }

  lemma DigitsHaveNoPoint(digits: string, rest: string)
    requires AllDigits(digits)
    ensures Halves(digits + "." + rest) == (digits, rest)
    ensures Halves(digits) == (digits, "")
  {
    var text := digits + "." + rest;
    UntilAt(text, {'.'}, |digits|);
    assert text[..|digits|] == digits && text[|digits| + 1..] == rest;
    UntilAt(digits, {'.'}, |digits|);
  }

  /** What is printed is read back. */
  lemma PrintThenScaled(n: nat, places: nat)
    requires n <= U32_MAX && places <= 9
    ensures Scaled(Print(n, places), places) == Some(n)
  {
    if places == 0 {
      DigitsHaveNoPoint(Decimal(n), "");
      DecimalReadsBack(n);
    } else {
      var p := Pow10(places);
      var q, r := Quotient(n, p), Remainder(n, p);
      DigitsHaveNoPoint(Decimal(q), Padded(r, places));
      DecimalReadsBack(q);
      PaddedReadsBack(r, places);
    }
    ScaledIsSum(Print(n, places), places);
  }
}
