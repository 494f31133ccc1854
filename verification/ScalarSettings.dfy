/** An interface operand brought to the scale of a declared setting (rust/driver/src/remote_request.rs:85-132), and the
    octal entry of DCS codes (rust/core/src/station_config.rs:709-727). */
module ScalarSettings {
  import opened Wrappers
  import opened Digits

  datatype Setting = Setting(
    writable: bool, valueKind: int, units: int, decimalPlaces: nat, minimum: int, maximum: int, choices: seq<int>)

  datatype Operand = Operand(flags: nat, magnitude: nat, decimalPlaces: nat)

  const INVALID := -1003
  const UNSUPPORTED := -6
  const DCS_UNITS := 3

  predicate FitsI64(v: int) {
    -0x8000_0000_0000_0000 <= v < 0x8000_0000_0000_0000
  }

  /** The operand with its sign. */
  function Signed(operand: Operand): int {
    if operand.flags == 1 then 0 - operand.magnitude else operand.magnitude
  }

  /** A sign is only allowed where the kind of value has one, and both scales have at most six places. */
  predicate Acceptable(setting: Setting, operand: Operand) {
    && operand.flags <= 1 && operand.decimalPlaces <= 6 && setting.decimalPlaces <= 6
    && (operand.flags == 1 ==> setting.valueKind !in {1, 2, 5})
  }

  predicate Supported(setting: Setting) {
    setting.writable && 1 <= setting.valueKind <= 5
  }

  predicate Permitted(setting: Setting, v: int) {
    setting.minimum <= v <= setting.maximum && (setting.choices == [] || v in setting.choices)
  }

  /** `v` at the scale of the setting is the same number as the operand at its own scale. */
  predicate SameNumber(setting: Setting, operand: Operand, v: int) {
    SameScaled(v, operand.decimalPlaces, Signed(operand), setting.decimalPlaces)
  }

  /** a / 10^k == b / 10^m, without fractions. */
  predicate SameScaled(a: int, k: nat, b: int, m: nat) {
    a * Pow10(k) == b * Pow10(m)
  }

  /** A nine-bit code as the number its octal digits spell in decimal. */
  function OctalSpelling(code: nat): nat {
    code / 64 * 100 + code / 8 % 8 * 10 + code % 8
  }

  predicate OctalDigit(c: char) {
    '0' <= c <= '7'
  }

  /** `DcsCode::from_str` without the polarity, which is always `N` here. */
  function ParseDcs(text: string): Option<nat> {
    if |text| != 4 || !OctalDigit(text[0]) || !OctalDigit(text[1]) || !OctalDigit(text[2]) || text[3] !in {'N', 'n', 'I', 'i'}
    then None
    else Some(DigitValue(text[0]) * 64 + DigitValue(text[1]) * 8 + DigitValue(text[2]))
  }

  /** `{value:03}`: at least three characters, a sign included. */
  function AtLeastThree(value: int): string {
    if value < 0 then "-" + ZeroFilled(-value, 2) else ZeroFilled(value, 3)
  }

  function ZeroFilled(n: nat, width: nat): string {
    if n < Pow10(width) then Padded(n, width) else Decimal(n)
  }

  lemma {:induction false} DecimalIsLong(n: nat, width: nat)
    requires Pow10(width) <= n
    ensures |Decimal(n)| > width
  {
    if width > 0 {
      DecimalIsLong(n / 10, width - 1);
    }
  }

  lemma DecimalPieces(n: nat)
    requires n < 1000
    ensures n == n / 100 * 100 + n / 10 % 10 * 10 + n % 10 && n / 100 < 10
  {
  }

  lemma ThreeDigits(n: nat)
    requires n < 1000
    ensures AtLeastThree(n) == [DigitCharacter(n / 100), DigitCharacter(n / 10 % 10), DigitCharacter(n % 10)]
  {
    assert Pow10(3) == 1000 by { assert Pow10(0) == 1 && Pow10(1) == 10 && Pow10(2) == 100; }
    assert Padded(n / 10 / 10 / 10, 0) == [];
    assert n / 10 / 10 == n / 100 && n / 100 % 10 == n / 100;
    assert Padded(n / 10 / 10, 1) == [DigitCharacter(n / 100)];
    assert Padded(n / 10, 2) == [DigitCharacter(n / 100), DigitCharacter(n / 10 % 10)];
  }

  /** The text form refuses negative numbers and numbers above 999. */
  lemma NotThreeDigits(value: int)
    requires value < 0 || value >= 1000
    ensures ParseDcs(AtLeastThree(value) + "N") == None
  {
    if value < 0 {
      assert (AtLeastThree(value) + "N")[0] == '-';
    } else {
      assert Pow10(3) == 1000 by { assert Pow10(0) == 1 && Pow10(1) == 10 && Pow10(2) == 100; }
      DecimalIsLong(value, 3);
    }
  }

  lemma ThreeDigitsParse(a: nat, b: nat, c: nat)
    requires a < 10 && b < 10 && c < 10
    ensures ParseDcs([DigitCharacter(a), DigitCharacter(b), DigitCharacter(c)] + "N")
              == if a < 8 && b < 8 && c < 8 then Some(a * 64 + b * 8 + c) else None
  {
  }

  lemma SpellingBound(code: nat)
    requires code < 512
    ensures OctalSpelling(code) < 1000
  {
  }

  /** The printed number is read as `code` exactly when its digits are the octal digits of `code`. */
  lemma DcsEntry(value: int, code: nat)
    ensures ParseDcs(AtLeastThree(value) + "N") == Some(code) <==> code < 512 && value == OctalSpelling(code)
  {
    if value < 0 || value >= 1000 {
      NotThreeDigits(value);
      if code < 512 {
        SpellingBound(code);
      }
    } else {
      ThreeDigitEntry(value, code);
    }
  }

  lemma ThreeDigitEntry(value: nat, code: nat)
    requires value < 1000
    ensures ParseDcs(AtLeastThree(value) + "N") == Some(code) <==> code < 512 && value == OctalSpelling(code)
  {
    DecimalPieces(value);
    ThreeDigits(value);
    ThreeDigitsParse(value / 100, value / 10 % 10, value % 10);
    DigitsMatchCode(value / 100, value / 10 % 10, value % 10, code);
  }

  lemma DigitsMatchCode(a: nat, b: nat, c: nat, code: nat)
    requires a < 10 && b < 10 && c < 10
    ensures a < 8 && b < 8 && c < 8 && code == a * 64 + b * 8 + c
            <==> code < 512 && a * 100 + b * 10 + c == OctalSpelling(code)
  {
    OctalDigits(code);
    if code < 512 && a * 100 + b * 10 + c == OctalSpelling(code) {
      SameDigits(a, b, c, code / 64, code / 8 % 8, code % 8);
    }
    if a < 8 && b < 8 && c < 8 {
      FromOctal(a, b, c);
    }
  }

  lemma OctalDigits(code: nat)
    ensures code == code / 64 * 64 + code / 8 % 8 * 8 + code % 8
    ensures code < 512 ==> code / 64 < 8
  {
  }

  lemma SameDigits(a: nat, b: nat, c: nat, x: nat, y: nat, z: nat)
    requires a < 10 && b < 10 && c < 10 && x < 10 && y < 10 && z < 10
    requires a * 100 + b * 10 + c == x * 100 + y * 10 + z
    ensures a == x && b == y && c == z
  {
  }

  lemma FromOctal(a: nat, b: nat, c: nat)
    requires a < 8 && b < 8 && c < 8
    ensures var code := a * 64 + b * 8 + c; code < 512 && OctalSpelling(code) == a * 100 + b * 10 + c
  {
    var code := a * 64 + b * 8 + c;
    assert code / 64 == a && code / 8 == a * 8 + b && code % 8 == c;
  }

  // ----- rescaling -----

  lemma UpIsExact(signed: int, v: int, e: nat, s: nat)
    requires e <= s
    ensures v == signed * Pow10(s - e) <==> v * Pow10(e) == signed * Pow10(s)
  {
    PowAdd(s - e, e);
    var q, p := Pow10(s - e), Pow10(e);
    assert signed * (q * p) == (signed * q) * p;
    if v * p == (signed * q) * p {
      Cancel(v, signed * q, p);
    }
  }

  lemma DownIsExact(signed: int, v: int, e: nat, s: nat)
    requires s < e
    ensures signed == v * Pow10(e - s) <==> v * Pow10(e) == signed * Pow10(s)
  {
    PowAdd(e - s, s);
    var q, p := Pow10(e - s), Pow10(s);
    assert v * (q * p) == (v * q) * p;
    if (v * q) * p == signed * p {
      Cancel(v * q, signed, p);
    }
  }

  /** The operand at the scale of the setting, when that is an integer. */
  method Rescale(signed: int, entered: nat, declared: nat) returns (value: Option<int>)
    ensures forall v: int :: value == Some(v) <==> SameScaled(v, entered, signed, declared)
  {
    if declared >= entered {
      value := Some(signed * Pow10(declared - entered));
      forall v: int ensures value == Some(v) <==> SameScaled(v, entered, signed, declared) {
        UpIsExact(signed, v, entered, declared);
      }
    } else {
      var divisor := Pow10(entered - declared);
      if signed % divisor != 0 {
        value := None;
      } else {
        value := Some(signed / divisor);
      }
      forall v: int ensures value == Some(v) <==> SameScaled(v, entered, signed, declared) {
        DownIsExact(signed, v, entered, declared);
        DividesOnce(signed, v, divisor);
      }
    }
  }

  lemma DividesOnce(signed: int, v: int, divisor: nat)
    requires divisor > 0
    ensures signed == v * divisor <==> signed % divisor == 0 && v == signed / divisor
  {
    Pieces(signed, divisor);
    if signed == v * divisor {
      DivisionIsUnique(signed, divisor, v, 0);
    }
  }

  /** Which values an operand may set: the same number at the declared scale; for DCS codes, entered without a
      fraction, the code whose octal digits spell that number. */
  predicate Sets(setting: Setting, operand: Operand, v: int) {
    && Supported(setting) && Acceptable(setting, operand) && Permitted(setting, v)
    && if setting.units == DCS_UNITS
       then operand.decimalPlaces == 0 && 0 <= v < 512 && SameNumber(setting, operand, OctalSpelling(v))
       else FitsI64(v) && SameNumber(setting, operand, v)
  }

  /** The operand is accepted as `v` exactly when it sets `v`; nothing is ever rounded. */
  method Scalar(setting: Setting, operand: Operand) returns (result: Result<int, int>)
    ensures forall v: int :: result == Ok(v) <==> Sets(setting, operand, v)
    ensures result.Err? ==> result.error == if Supported(setting) then INVALID else UNSUPPORTED
  {
    if !setting.writable || !(1 <= setting.valueKind <= 5) {
      return Err(UNSUPPORTED);
    }
    if operand.flags > 1 || operand.decimalPlaces > 6 || setting.decimalPlaces > 6
       || (operand.flags == 1 && setting.valueKind in {1, 2, 5}) {
      return Err(INVALID);
    }
    var rescaled := Rescale(Signed(operand), operand.decimalPlaces, setting.decimalPlaces);
    var value := 0;
    match rescaled {
      case None => return Err(INVALID);
      case Some(v) => value := v;
    }
    if !FitsI64(value) {
      assert setting.units == DCS_UNITS ==> forall v :: 0 <= v < 512 ==> value != OctalSpelling(v);
      return Err(INVALID);
    }
    if setting.units == DCS_UNITS {
      if operand.decimalPlaces != 0 {
        return Err(INVALID);
      }
      forall code: nat
        ensures ParseDcs(AtLeastThree(value) + "N") == Some(code) <==> code < 512 && value == OctalSpelling(code)
      {
        DcsEntry(value, code);
      }
      match ParseDcs(AtLeastThree(value) + "N") {
        case None => return Err(INVALID);
        case Some(code) => value := code;
      }
    }
    if value < setting.minimum || value > setting.maximum || (setting.choices != [] && value !in setting.choices) {
      return Err(INVALID);
    }
    return Ok(value);
  }

  /** At most one value is set. */
  lemma SetsOne(setting: Setting, operand: Operand, v: int, w: int)
    requires Sets(setting, operand, v) && Sets(setting, operand, w)
    ensures v == w
  {
    if setting.units == DCS_UNITS {
      Cancel(OctalSpelling(v), OctalSpelling(w), Pow10(operand.decimalPlaces));
      OctalDigits(v);
      OctalDigits(w);
      SameDigits(v / 64, v / 8 % 8, v % 8, w / 64, w / 8 % 8, w % 8);
    } else {
      Cancel(v, w, Pow10(operand.decimalPlaces));
    }
  }

  /** Entering a permitted value at the declared scale sets it, sign and all. */
  lemma EntryRoundTrip(setting: Setting, v: int)
    requires Supported(setting) && setting.decimalPlaces <= 6 && Permitted(setting, v) && FitsI64(v)
    requires setting.units != DCS_UNITS && (v < 0 ==> setting.valueKind !in {1, 2, 5})
    ensures Sets(setting, Operand(if v < 0 then 1 else 0, if v < 0 then -v else v, setting.decimalPlaces), v)
  {
  }

  /** A code is set by entering the octal digits it is printed with. */
  lemma DcsEntryRoundTrip(setting: Setting, code: nat)
    requires Supported(setting) && setting.units == DCS_UNITS && setting.decimalPlaces == 0
    requires code < 512 && Permitted(setting, code)
    ensures Sets(setting, Operand(0, OctalSpelling(code), 0), code)
  {
  }
}
