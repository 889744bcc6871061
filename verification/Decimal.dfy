/** The gateway's decimal arithmetic: a double is split by scanning its text with "%d.%d",
    and put together again by dividing the fraction by ten to its printed length. */
module Decimal {
  import opened Json

  predicate IsDigit(c: char) { '0' <= c <= '9' }

  predicate IsDigits(w: string) { |w| > 0 && forall i :: 0 <= i < |w| ==> IsDigit(w[i]) }

  predicate AllZeros(w: string) { forall i :: 0 <= i < |w| ==> w[i] == '0' }

  function DigitValue(c: char): (d: nat)
    requires IsDigit(c)
    ensures d < 10
  {
    c as int - '0' as int
  }

  function DigitsValue(w: string): nat
    requires forall i :: 0 <= i < |w| ==> IsDigit(w[i])
  {
    if |w| == 0 then 0
    else 10 * DigitsValue(w[..|w| - 1]) + DigitValue(w[|w| - 1])
  }

  function Pow10(n: nat): nat
    ensures Pow10(n) > 0
  {
    if n == 0 then 1 else 10 * Pow10(n - 1)
  }

  function DigitChar(d: nat): char
    requires d < 10
  {
    ('0' as int + d) as char
  }

  /** What printf writes for "%d". */
  function NatText(n: nat): string {
    if n < 10 then [DigitChar(n)] else NatText(n / 10) + [DigitChar(n % 10)]
  }

  function IntText(n: int): string {
    if n < 0 then "-" + NatText(-n) else NatText(n)
  }

  /** The end of the run of digits that starts at i. */
  function DigitRun(text: string, i: nat): (end: nat)
    requires i <= |text|
    ensures i <= end <= |text|
    ensures forall k :: i <= k < end ==> IsDigit(text[k])
    decreases |text| - i
  {
    if i < |text| && IsDigit(text[i]) then DigitRun(text, i + 1) else i
  }

  datatype Scan = NoMatch | Match(value: int, next: nat)

  /** One "%d" conversion at position i: an optional sign and at least one digit. */
  function ScanInt(text: string, i: nat): (s: Scan)
    requires i <= |text|
    ensures s.Match? ==> i < s.next <= |text|
  {
    var signed := i < |text| && (text[i] == '-' || text[i] == '+');
    var start := if signed then i + 1 else i;
    var end := DigitRun(text, start);
    if end == start then NoMatch
    else
      var n: int := DigitsValue(text[start..end]);
      Match(if signed && text[i] == '-' then -n else n, end)
  }

  /** sscanf(text, "%d.%d"), and nothing unless both conversions happen. */
  function ScanPair(text: string): Option<(int, int)> {
    match ScanInt(text, 0)
    case NoMatch => None
    case Match(ipart, next) =>
      if next < |text| && text[next] == '.' then
        match ScanInt(text, next + 1)
        case NoMatch => None
        case Match(fpart, _) => Some((ipart, fpart))
      else None
  }

  function Signed(negative: bool, n: int): int { if negative then -n else n }

  /** pow(10, n). */
  function TenTo(n: nat): real
    ensures TenTo(n) >= 1.0
  {
    if n == 0 then 1.0 else 10.0 * TenTo(n - 1)
  }

  function Fraction(n: int, places: nat): real { n as real / TenTo(places) }

  /** knot_data_as_double, over the reals. */
  function AsDouble(multiplier: int, valueInt: int, valueDec: int): real {
    multiplier as real * (valueInt as real + Fraction(valueDec, |IntText(valueDec)|))
  }

  /** A decimal numeral: an optional minus sign, the digits before and after the point. */
  datatype Numeral = Numeral(negative: bool, whole: string, fraction: string) {
    /** The signed part before the point. */
    function Whole(): int
      requires IsDigits(whole)
    {
      Signed(negative, DigitsValue(whole))
    }

    ghost predicate Valid() {
      && IsDigits(whole) && IsDigits(fraction)
      && IsInt32(Whole())
      && DigitsValue(fraction) <= INT32_MAX
    }

    function Text(): string {
      (if negative then "-" else "") + whole + "." + fraction
    }

    /** The number the text denotes. */
    function Value(): real
      requires IsDigits(whole) && IsDigits(fraction)
    {
      var magnitude := DigitsValue(whole) as real + Fraction(DigitsValue(fraction), |fraction|);
      if negative then -magnitude else magnitude
    }

    /** The number the gateway rebuilds from the scanned pair. */
    function Rebuilt(): real {
      match ScanPair(Text())
      case None => 0.0
      case Some((i, f)) => AsDouble(1, i, f)
    }
  }

  function LeadingZeros(w: string): (z: nat)
    ensures z <= |w|
    ensures AllZeros(w[..z])
    ensures z < |w| ==> w[z] != '0'
  {
    if |w| > 0 && w[0] == '0' then
      var z := LeadingZeros(w[1..]);
      assert w[..z + 1] == [w[0]] + w[1..][..z];
      z + 1
    else 0
  }

  /** x times ten to the power z. */
  function Shifted(x: real, z: nat): real { if z == 0 then x else 10.0 * Shifted(x, z - 1) }

  // ---- digits and their printed form --------------------------------------

  lemma {:induction false} ZerosAreWorthless(z: string, w: string)
    requires AllZeros(z) && forall i :: 0 <= i < |w| ==> IsDigit(w[i])
    ensures DigitsValue(z + w) == DigitsValue(w)
  {
    if |w| > 0 {
      assert (z + w)[..|z + w| - 1] == z + w[..|w| - 1];
      ZerosAreWorthless(z, w[..|w| - 1]);
    } else if |z| > 0 {
      assert z + w == z;
      assert z[..|z| - 1] + w == z[..|z| - 1];
      ZerosAreWorthless(z[..|z| - 1], w);
    }
  }

  /** A numeral without leading zeros is exactly what printing its value gives. */
  lemma {:induction false} PrintingUndoesReading(w: string)
    requires IsDigits(w) && (w[0] != '0' || |w| == 1)
    ensures NatText(DigitsValue(w)) == w
    ensures w[0] != '0' ==> DigitsValue(w) > 0
  {
    var last := DigitValue(w[|w| - 1]);
    if |w| == 1 {
      assert DigitsValue(w[..0]) == 0;
      assert DigitChar(last) == w[0];
    } else {
      var init := w[..|w| - 1];
      PrintingUndoesReading(init);
      assert DigitsValue(w) / 10 == DigitsValue(init) && DigitsValue(w) % 10 == last;
      assert w == init + [DigitChar(last)];
    }
  }

  lemma ZeroIffAllZeros(w: string)
    requires IsDigits(w)
    ensures DigitsValue(w) == 0 <==> AllZeros(w)
  {
    var z := LeadingZeros(w);
    assert w == w[..z] + w[z..];
    ZerosAreWorthless(w[..z], w[z..]);
    if z < |w| { PrintingUndoesReading(w[z..]); }
  }

  /** Reading then printing a fraction loses exactly its leading zeros. */
  lemma PrintedLength(w: string)
    requires IsDigits(w)
    ensures DigitsValue(w) > 0 ==> |IntText(DigitsValue(w))| + LeadingZeros(w) == |w|
    ensures DigitsValue(w) == 0 ==> |IntText(DigitsValue(w))| == 1
  {
    var z := LeadingZeros(w);
    assert w == w[..z] + w[z..];
    ZerosAreWorthless(w[..z], w[z..]);
    if z < |w| { PrintingUndoesReading(w[z..]); }
  }

  // ---- scanning a numeral --------------------------------------------------

  lemma {:induction false} RunStopsAt(text: string, i: nat, end: nat)
    requires i <= end <= |text|
    requires forall k :: i <= k < end ==> IsDigit(text[k])
    requires end == |text| || !IsDigit(text[end])
    ensures DigitRun(text, i) == end
    decreases end - i
  {
    if i < end { RunStopsAt(text, i + 1, end); }
  }

  lemma DigitsEndAt(text: string, start: nat, w: string)
    requires IsDigits(w) && start + |w| <= |text| && text[start..start + |w|] == w
    requires start + |w| == |text| || !IsDigit(text[start + |w|])
    ensures DigitRun(text, start) == start + |w| && IsDigit(text[start])
  {
    forall k | start <= k < start + |w| ensures IsDigit(text[k]) {
      assert text[k] == text[start..start + |w|][k - start];
    }
    RunStopsAt(text, start, start + |w|);
  }

  /** "%d" over digits that begin at start and are followed by something else. */
  lemma ScanReadsDigits(text: string, i: nat, negative: bool, w: string)
    requires IsDigits(w)
    requires i + (if negative then 1 else 0) + |w| <= |text|
    requires negative ==> text[i] == '-'
    requires var start := if negative then i + 1 else i;
             && text[start..start + |w|] == w
             && (start + |w| == |text| || !IsDigit(text[start + |w|]))
    ensures ScanInt(text, i) ==
            Match(Signed(negative, DigitsValue(w)), (if negative then i + 1 else i) + |w|)
  {
    DigitsEndAt(text, if negative then i + 1 else i, w);
  }

  /** The shape of a numeral's text: where the digits are and what ends them. */
  lemma TextShape(x: Numeral, start: nat, dot: nat)
    requires start == (if x.negative then 1 else 0) && dot == start + |x.whole|
    ensures |x.Text()| == dot + 1 + |x.fraction|
    ensures x.negative ==> x.Text()[0] == '-'
    ensures x.Text()[start..dot] == x.whole
    ensures x.Text()[dot] == '.'
    ensures x.Text()[dot + 1..] == x.fraction
  {}

  lemma ScanReadsNumeral(x: Numeral)
    requires x.Valid()
    ensures ScanPair(x.Text()) ==
            Some((x.Whole(), DigitsValue(x.fraction)))
  {
    ScanReadsWhole(x);
    ScanReadsFraction(x);
  }

  lemma ScanReadsWhole(x: Numeral)
    requires x.Valid()
    ensures var dot := (if x.negative then 1 else 0) + |x.whole|;
            && dot < |x.Text()| && x.Text()[dot] == '.'
            && ScanInt(x.Text(), 0) == Match(x.Whole(), dot)
  {
    var start := if x.negative then 1 else 0;
    TextShape(x, start, start + |x.whole|);
    ScanReadsDigits(x.Text(), 0, x.negative, x.whole);
  }

  lemma ScanReadsFraction(x: Numeral)
    requires x.Valid()
    ensures var dot := (if x.negative then 1 else 0) + |x.whole|;
            && dot + 1 <= |x.Text()|
            && ScanInt(x.Text(), dot + 1) == Match(DigitsValue(x.fraction), |x.Text()|)
  {
    var text, start := x.Text(), if x.negative then 1 else 0;
    var dot := start + |x.whole|;
    TextShape(x, start, dot);
    assert text[dot + 1..|text|] == x.fraction;
    ScanReadsDigits(text, dot + 1, false, x.fraction);
  }

  // ---- fidelity -------------------------------------------------------------

  lemma TenthOf(n: real, a: real)
    requires a > 0.0
    ensures n / a == 10.0 * (n / (10.0 * a))
  {
    var q := n / (10.0 * a);
    assert q * (10.0 * a) == n;
    assert (10.0 * q) * a == n;
  }

  lemma FractionStep(n: int, places: nat)
    ensures Fraction(n, places) == 10.0 * Fraction(n, places + 1)
  {
    TenthOf(n as real, TenTo(places));
  }

  lemma {:induction false} FractionShift(n: int, z: nat, places: nat)
    ensures Fraction(n, places) == Shifted(Fraction(n, z + places), z)
    decreases z
  {
    if z > 0 {
      FractionShift(n, z - 1, places);
      FractionStep(n, z - 1 + places);
      ShiftInside(Fraction(n, z + places), z - 1);
    }
  }

  lemma {:induction false} ShiftInside(x: real, z: nat)
    ensures Shifted(10.0 * x, z) == 10.0 * Shifted(x, z)
  {
    if z > 0 { ShiftInside(x, z - 1); }
  }

  lemma {:induction false} ShiftGrows(x: real, z: nat)
    requires x > 0.0
    ensures Shifted(x, z) >= x
    ensures Shifted(x, z) == x <==> z == 0
  {
    if z > 0 { ShiftGrows(x, z - 1); }
  }

  lemma {:induction false} ShiftOfZero(z: nat)
    ensures Shifted(0.0, z) == 0.0
  {
    if z > 0 { ShiftOfZero(z - 1); }
  }

  lemma FractionSign(n: nat, places: nat)
    ensures Fraction(n, places) >= 0.0
    ensures Fraction(n, places) == 0.0 <==> n == 0
  {
    var q := Fraction(n, places);
    assert q * TenTo(places) == n as real;
  }

  /** The rebuilt fraction is the written one shifted left by its leading zeros. */
  lemma FractionScale(w: string, n: nat)
    requires IsDigits(w) && n == DigitsValue(w)
    ensures Fraction(n, |IntText(n)|) == Shifted(Fraction(n, |w|), LeadingZeros(w))
    ensures Fraction(n, |w|) >= 0.0
    ensures Fraction(n, |w|) == 0.0 <==> AllZeros(w)
  {
    var len := |IntText(n)|;
    ZeroIffAllZeros(w);
    PrintedLength(w);
    FractionSign(n, |w|);
    FractionSign(n, len);
    if n > 0 {
      FractionShift(n, LeadingZeros(w), len);
    } else {
      ShiftOfZero(LeadingZeros(w));
    }
  }

  lemma UnitMultiplier(i: int, f: int)
    ensures AsDouble(1, i, f) == i as real + Fraction(f, |IntText(f)|)
  {}

  /** The conversion keeps the signed whole part and adds the fraction, never negated and
      ten times too large for each zero it starts with. */
  lemma DecimalError(x: Numeral)
    requires x.Valid()
    ensures x.Rebuilt() == x.Whole() as real
                           + Shifted(Fraction(DigitsValue(x.fraction), |x.fraction|), LeadingZeros(x.fraction))
  {
    var i, n := x.Whole(), DigitsValue(x.fraction);
    ScanReadsNumeral(x);
    FractionScale(x.fraction, n);
    UnitMultiplier(i, n);
  }

  /** Parsing a decimal and converting it back is faithful exactly when the fraction is
      zero, or the number is not negative and the fraction does not start with a zero. */
  lemma DecimalFidelity(x: Numeral)
    requires x.Valid()
    ensures x.Rebuilt() == x.Value() <==>
            AllZeros(x.fraction) || (!x.negative && x.fraction[0] != '0')
  {
    var w, n := x.fraction, DigitsValue(x.fraction);
    DecimalError(x);
    FractionScale(w, n);
    if AllZeros(w) {
      ShiftOfZero(LeadingZeros(w));
    } else {
      ShiftGrows(Fraction(n, |w|), LeadingZeros(w));
    }
  }

  lemma {:induction false} NatTextLength(n: nat, digits: nat)
    requires digits > 0 && n < Pow10(digits)
    ensures |NatText(n)| <= digits
    decreases digits
  {
    if n >= 10 {
      assert Pow10(digits) == 10 * Pow10(digits - 1);
      NatTextLength(n / 10, digits - 1);
    }
  }

  /** Every printed int32 and its terminator fit the 12-byte buffer, and one fills it. */
  lemma PrintFitsBuffer(n: int)
    requires IsInt32(n)
    ensures |IntText(n)| + 1 <= 12
    ensures n == INT32_MIN ==> |IntText(n)| + 1 == 12
  {
    var m := if n < 0 then -n else n;
    assert Pow10(5) == 100_000;
    assert Pow10(10) == 10_000_000_000;
    NatTextLength(m, 10);
    if n == INT32_MIN {
      PrintingUndoesReading("2147483648");
      assert DigitsValue("2147483648") == 2147483648 by { TenDigits(); }
    }
  }

  lemma TenDigits()
    ensures DigitsValue("2147483648") == 2147483648
  {
    assert "2147483648"[..9] == "214748364";
    assert "214748364"[..8] == "21474836";
    assert "21474836"[..7] == "2147483";
    assert "2147483"[..6] == "214748";
    assert "214748"[..5] == "21474";
    assert "21474"[..4] == "2147";
    assert "2147"[..3] == "214";
    assert "214"[..2] == "21";
    assert "21"[..1] == "2";
  }
}
