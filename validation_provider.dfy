/** src/lib/utils/validation/provider.ts: the clamps the provider form applies to its numeric
    inputs, and the TPM display format. */
module ProviderValidation {
  import opened Wrappers
  import opened Strings
  import opened Constants

  /** A JavaScript number: NaN, an infinity, or a finite value (IEEE rounding is not modelled). */
  datatype JsNumber = NaN | PosInf | NegInf | Finite(v: real)

  /** `Math.round` on a finite value: the nearest integer, halves rounded up. */
  function Round(x: real): (r: int)
    ensures x - 0.5 < r as real <= x + 0.5
  {
    (x + 0.5).Floor
  }

  lemma RoundOfInteger(n: int)
    ensures Round(n as real) == n
  {
  }

  /** `clampWeight`: NaN becomes the minimum weight; anything else is rounded into range. */
  function ClampWeight(value: JsNumber): (r: int)
    ensures WeightMin <= r <= WeightMax
    ensures value.NaN? ==> r == WeightMin
    ensures value.Finite? && value.v == value.v.Floor as real && WeightMin as real <= value.v <= WeightMax as real
            ==> r == value.v.Floor
  {
    if value.NaN? then WeightMin
    else
      var rounded := match value
        case PosInf => WeightMax
        case NegInf => WeightMin
        case Finite(x) => Round(x)
        case NaN => WeightMin;
      Max(WeightMin, Min(WeightMax, rounded))
  }

  function Min(a: int, b: int): int { if a <= b then a else b }
  function Max(a: int, b: int): int { if a >= b then a else b }

  /** `clampIntInRange(value, min, max)` */
  function ClampIntInRange(value: JsNumber, min: int, max: int): (r: int)
    ensures value.NaN? ==> r == min
    ensures !value.NaN? && min <= max ==> min <= r <= max
    ensures value.Finite? && value.v == value.v.Floor as real && min as real <= value.v <= max as real
            ==> r == value.v.Floor
  {
    if value.NaN? then min
    else
      var rounded := match value
        case PosInf => max
        case NegInf => min
        case Finite(x) => Round(x)
        case NaN => min;
      Min(max, Max(min, rounded))
  }

  /** `clampTpm`: NaN becomes the minimum; the value is rounded to a whole number of thousands,
      then clamped into the TPM range. */
  function ClampTpm(value: JsNumber): (r: int)
    ensures TpmMin <= r <= TpmMax
    ensures r % TpmStep == 0
  {
    var safe := if value.NaN? then Finite(TpmMin as real) else value;
    var rounded := match safe
      case Finite(x) => Finite((Round(x / TpmStep as real) * TpmStep) as real)
      case other => other;
    var r := ClampIntInRange(rounded, TpmMin, TpmMax);
    assert rounded.Finite? ==> rounded.v.Floor % TpmStep == 0;
    r
  }

  /** Each clamp maps its own results to themselves. */
  lemma ClampsAreIdempotent(value: JsNumber, min: int, max: int)
    requires min <= max
    ensures ClampWeight(Finite(ClampWeight(value) as real)) == ClampWeight(value)
    ensures ClampIntInRange(Finite(ClampIntInRange(value, min, max) as real), min, max)
         == ClampIntInRange(value, min, max)
    ensures ClampTpm(Finite(ClampTpm(value) as real)) == ClampTpm(value)
  {
    var t := ClampTpm(value);
    assert t as real / TpmStep as real == (t / TpmStep) as real;
    RoundOfInteger(t / TpmStep);
  }

  /** `parseInt(s, 10)`: optional leading white space and sign, then the longest run of decimal
      digits; NaN (None) when there is no digit. */
  function ParseInt(s: string): (r: Option<int>)
  {
    var t := TrimStart(s);
    var negative := t != [] && t[0] == '-';
    var unsigned := if t != [] && (t[0] == '-' || t[0] == '+') then t[1..] else t;
    var digits := LeadingDigits(unsigned);
    if digits == [] then None
    else Some(if negative then -(DecimalValue(digits) as int) else DecimalValue(digits))
  }

  predicate IsDigit(c: char) {
    '0' <= c <= '9'
  }

  /** The longest prefix made of decimal digits. */
  function LeadingDigits(s: string): (r: string)
    ensures |r| <= |s| && r == s[..|r|]
    ensures forall i :: 0 <= i < |r| ==> IsDigit(r[i])
    ensures |r| < |s| ==> !IsDigit(s[|r|])
  {
    if s == [] || !IsDigit(s[0]) then []
    else [s[0]] + LeadingDigits(s[1..])
  }

  lemma {:induction false} LeadingDigitsOfDigits(s: string)
    requires forall i :: 0 <= i < |s| ==> IsDigit(s[i])
    ensures LeadingDigits(s) == s
  {
    if s != [] {
      LeadingDigitsOfDigits(s[1..]);
    }
  }

  lemma DigitIsNotWhitespace(c: char)
    requires IsDigit(c)
    ensures !IsWhitespace(c)
  {
  }

  /** `parseInt` reads back the decimal numeral of a natural number. */
  lemma ParseIntOfDecimal(n: nat)
    ensures ParseInt(NatToDecimal(n)) == Some(n)
  {
    var d := NatToDecimal(n);
    DigitIsNotWhitespace(d[0]);
    assert TrimStart(d) == d;
    assert d[0] != '-' && d[0] != '+';
    LeadingDigitsOfDigits(d);
    DecimalRoundTrip(n);
  }

  /** `validateNumericField`: blank means "no limit" (null); otherwise the parsed integer when
      it is positive, else null. */
  function ValidateNumericField(value: string): (r: Option<int>)
    ensures Trim(value) == [] ==> r.None?
    ensures r.Some? ==> r.value > 0 && ParseInt(value) == r
    ensures Trim(value) != [] && ParseInt(value).Some? && ParseInt(value).value > 0 ==> r == ParseInt(value)
  {
    if Trim(value) == [] then None
    else match ParseInt(value)
      case Some(n) => if n > 0 then Some(n) else None
      case None => None
  }

  lemma ValidateNumericFieldOfDecimal(n: nat)
    requires n > 0
    ensures ValidateNumericField(NatToDecimal(n)) == Some(n)
  {
    ParseIntOfDecimal(n);
    assert Trim(NatToDecimal(n)) != [] by {
      var d := NatToDecimal(n);
      DigitIsNotWhitespace(d[|d| - 1]);
      assert TrimEnd(d) == d;
    }
  }

  const Infinity := "\U{221E}"

  function WithSuffix(number: string, unit: char): (r: string)
    requires unit != '\U{221E}'
    ensures r != [] && r[|r| - 1] == unit && r != Infinity
  {
    number + [unit]
  }

  /** `formatTpmDisplay(value, infinite)`. `${m}` of a whole number of millions is its decimal
      numeral; `m.toFixed(1)` of a fractional one is the parameter `toFixed1`. */
  function FormatTpmDisplay(value: real, infinite: bool, toFixed1: real -> string): (r: string)
    ensures infinite <==> r == Infinity
    ensures !infinite ==> r != [] && r[|r| - 1] == (if value / 1000.0 >= 1000.0 then 'M' else 'K')
  {
    if infinite then Infinity
    else
      var k := value / 1000.0;
      if k >= 1000.0 then
        var m := k / 1000.0;
        WithSuffix(if m == m.Floor as real then IntToDecimal(m.Floor) else toFixed1(m), 'M')
      else WithSuffix(IntToDecimal(Round(k)), 'K')
  }
}
