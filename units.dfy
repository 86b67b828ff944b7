/**
 * The unit labels of the result screen: a quantity in SI units is scaled to
 * square centimetres, cubic centimetres or grams and written with one decimal
 * (as `String(format: "%.1f ")` does), followed by the unit.
 */
module Units {
  import opened Text

  /** The nearest integer to `x`, ties going to the even neighbour. */
  function RoundHalfEven(x: real): (k: int)
    ensures (k as real - x) <= 0.5 && (x - k as real) <= 0.5
    ensures 0.0 <= x ==> 0 <= k
    ensures x <= 0.0 ==> k <= 0
  {
    var f := x.Floor;
    var frac := x - f as real;
    if frac < 0.5 then f
    else if frac > 0.5 then f + 1
    else if f % 2 == 0 then f else f + 1
  }

  /** `%.1f` of `v`: an optional minus sign, the integer part, a point and one decimal. */
  function FormatTenths(v: real): (s: string)
    ensures |s| >= 3 && s[|s| - 2] == '.' && IsDigit(s[|s| - 1])
  {
    var k := RoundHalfEven(v * 10.0);
    var magnitude: nat := if k < 0 then -k else k;
    (if v < 0.0 then "-" else "") + NatToString(magnitude / 10) + "." + [DigitChar(magnitude % 10)]
  }

  /** Reads a `%.1f` numeral back (the inverse used to state what a label shows). */
  function ParseTenths(s: string): real
    requires |s| >= 3 && s[|s| - 2] == '.' && IsDigit(s[|s| - 1])
    requires AllDigits(if s[0] == '-' then s[1..|s| - 2] else s[..|s| - 2])
  {
    var negative := s[0] == '-';
    var whole := if negative then s[1..|s| - 2] else s[..|s| - 2];
    var magnitude := ParseNat(whole) as real + DigitValue(s[|s| - 1]) as real / 10.0;
    if negative then -magnitude else magnitude
  }

  /** The value `v` is shown as: `v` rounded to tenths. */
  function Tenths(v: real): real {
    RoundHalfEven(v * 10.0) as real / 10.0
  }

  /** A `%.1f` label reads back as `v` rounded to tenths, which is within 0.05 of `v`. */
  lemma {:induction false} FormatTenthsReadsBack(v: real)
    ensures AllDigits(var s := FormatTenths(v); if s[0] == '-' then s[1..|s| - 2] else s[..|s| - 2])
    ensures ParseTenths(FormatTenths(v)) == Tenths(v)
    ensures -0.05 <= Tenths(v) - v <= 0.05
  {
    var k := RoundHalfEven(v * 10.0);
    var magnitude: nat := if k < 0 then -k else k;
    var digits := NatToString(magnitude / 10);
    var s := FormatTenths(v);
    ParseNatToString(magnitude / 10);
    if v < 0.0 {
      assert s == "-" + digits + "." + [DigitChar(magnitude % 10)];
      assert s[0] == '-';
      assert s[1..|s| - 2] == digits;
      assert k <= 0;
    } else {
      assert s == digits + "." + [DigitChar(magnitude % 10)];
      assert 0 <= k;
      assert s[..|s| - 2] == digits;
    }
    assert DigitValue(s[|s| - 1]) == magnitude % 10;
    assert (magnitude / 10) as real + (magnitude % 10) as real / 10.0 == magnitude as real / 10.0;
  }

  /** `areaString`: square metres as square centimetres. */
  function AreaString(x: real): (s: string)
    ensures s == FormatTenths(x * 10000.0) + " cm2"
  {
    FormatTenths(x * 10000.0) + " cm2"
  }

  /** `volumeString`: cubic metres as cubic centimetres. */
  function VolumeString(x: real): (s: string)
    ensures s == FormatTenths(x * 1000000.0) + " cm3"
  {
    FormatTenths(x * 1000000.0) + " cm3"
  }

  /** `weightString`: kilograms as grams. */
  function WeightString(x: real): (s: string)
    ensures s == FormatTenths(x * 1000.0) + " g"
  {
    FormatTenths(x * 1000.0) + " g"
  }

  /** What a label with unit suffix `unit` shows, read back: the number before " <unit>". */
  function LabelValue(shown: string, unit: string): real
    requires |shown| >= |unit| + 4
    requires shown[|shown| - |unit| - 1..] == " " + unit
    requires var s := shown[..|shown| - |unit| - 1];
      s[|s| - 2] == '.' && IsDigit(s[|s| - 1]) && AllDigits(if s[0] == '-' then s[1..|s| - 2] else s[..|s| - 2])
  {
    ParseTenths(shown[..|shown| - |unit| - 1])
  }

  /** True iff `shown` is a `%.1f` numeral, a space and `unit`, and reads back as `v`. */
  predicate Shows(shown: string, unit: string, v: real) {
    |shown| >= |unit| + 4 && shown[|shown| - |unit| - 1..] == " " + unit &&
    (var s := shown[..|shown| - |unit| - 1];
     s[|s| - 2] == '.' && IsDigit(s[|s| - 1]) && AllDigits(if s[0] == '-' then s[1..|s| - 2] else s[..|s| - 2])) &&
    LabelValue(shown, unit) == v
  }

  /** A label `number + " " + unit` reads back as the `%.1f` numeral it starts with. */
  lemma {:induction false} LabelReadsBack(v: real, unit: string)
    ensures var shown := FormatTenths(v) + " " + unit;
      |shown| >= |unit| + 4 && shown[..|shown| - |unit| - 1] == FormatTenths(v) &&
      shown[|shown| - |unit| - 1..] == " " + unit
    ensures LabelValue(FormatTenths(v) + " " + unit, unit) == Tenths(v)
  {
    var number := FormatTenths(v);
    var shown := number + " " + unit;
    assert shown[..|number|] == number;
    assert shown[|number|..] == " " + unit;
    FormatTenthsReadsBack(v);
  }

  /** A `%.1f` numeral followed by its unit shows the value rounded to tenths. */
  lemma LabelShows(v: real, unit: string)
    ensures Shows(FormatTenths(v) + " " + unit, unit, Tenths(v))
  {
    LabelReadsBack(v, unit);
    FormatTenthsReadsBack(v);
  }

  /** The area label reads back as the area in square centimetres, rounded to tenths. */
  lemma AreaLabelReadsBack(x: real)
    ensures LabelValue(AreaString(x), "cm2") == Tenths(x * 10000.0)
  {
    LabelReadsBack(x * 10000.0, "cm2");
    assert AreaString(x) == FormatTenths(x * 10000.0) + " " + "cm2";
  }

  /** The volume label reads back as the volume in cubic centimetres, rounded to tenths. */
  lemma VolumeLabelReadsBack(x: real)
    ensures LabelValue(VolumeString(x), "cm3") == Tenths(x * 1000000.0)
  {
    LabelReadsBack(x * 1000000.0, "cm3");
    assert VolumeString(x) == FormatTenths(x * 1000000.0) + " " + "cm3";
  }

  /** The weight label reads back as the weight in grams, rounded to tenths. */
  lemma WeightLabelReadsBack(x: real)
    ensures LabelValue(WeightString(x), "g") == Tenths(x * 1000.0)
  {
    LabelReadsBack(x * 1000.0, "g");
    assert WeightString(x) == FormatTenths(x * 1000.0) + " " + "g";
  }

  /** The -1 "not available" weight is shown as a weight of minus one kilogram. */
  lemma SentinelWeightLabel()
    ensures WeightString(-1.0) == "-1000.0 g"
  {
    assert RoundHalfEven(-10000.0) == -10000;
    assert NatToString(1000) == "1000" by {
      assert NatToString(1) == "1";
      assert NatToString(10) == NatToString(1) + "0";
      assert NatToString(100) == NatToString(10) + "0";
    }
  }
}
