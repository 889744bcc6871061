/** Which limits an entry of the cloud may set, and when the test on them is the order of the
    numbers written. */
module Limits {
  import opened Json
  import opened Protocol
  import opened Decimal
  import opened Documents
  import opened ConfigRules

  // ---- what the test compares --------------------------------------------------------------

  /** What acceptance means when the limits can be compared without overflow. */
  lemma AcceptedMeans(p: Params, c: Config)
    requires ViewsInRange(p.views(c.lower)) && ViewsInRange(p.views(c.upper))
    requires DifferencesFit(p.views(c.lower), p.views(c.upper))
    ensures ConfigAccepted(p, c) <==>
      && (c.eventFlags == 0
          || HasBit(c.eventFlags, p.timeBit) || HasBit(c.eventFlags, p.lowerBit) || HasBit(c.eventFlags, p.upperBit)
          || HasBit(c.eventFlags, p.changeBit) || HasBit(c.eventFlags, p.unregisteredBit))
      && (c.timeSec != 0 <==> HasBit(c.eventFlags, p.timeBit))
      && (HasBit(c.eventFlags, p.lowerBit) || HasBit(c.eventFlags, p.upperBit) ==>
            var lower, upper := p.views(c.lower), p.views(c.upper);
            upper.whole > lower.whole || (upper.whole == lower.whole && upper.fraction > lower.fraction))
  {
    LimitsMeanOrder(p.views(c.lower), p.views(c.upper));
  }

  /** A limit written as a decimal is kept as its whole part and the digits of its fraction. */
  lemma DecimalLimit(p: Params, j: Json, key: string, x: Numeral)
    requires p.Valid() && x.Valid() && Get(j, key) == Some(JDouble(x.Text()))
    ensures ParseOptionalValue(j, key) == Some(FloatValue(x.Whole(), DigitsValue(x.fraction)))
    ensures var v := p.views(FloatValue(x.Whole(), DigitsValue(x.fraction)));
            ViewsInRange(v) && v.whole == x.Whole() && v.fraction == DigitsValue(x.fraction)
  {
    ScanReadsNumeral(x);
  }

  /** The upper limit passes: its whole part is larger, or the same with a larger number after
      the point. */
  predicate DigitsAbove(lower: Numeral, upper: Numeral)
    requires lower.Valid() && upper.Valid()
  {
    || upper.Whole() > lower.Whole()
    || (upper.Whole() == lower.Whole() && DigitsValue(upper.fraction) > DigitsValue(lower.fraction))
  }

  /** An entry of the cloud with decimal limits whose whole parts do not differ too much: what it
      takes to be accepted, in the digits written. */
  lemma DecimalLimitsMean(p: Params, j: Json, lower: Numeral, upper: Numeral)
    requires p.Valid() && lower.Valid() && upper.Valid() && ParseConfigEntry(p, j).Some?
    requires Get(j, "lower_limit") == Some(JDouble(lower.Text())) && Get(j, "upper_limit") == Some(JDouble(upper.Text()))
    requires IsInt32(upper.Whole() - lower.Whole())
    ensures var c := ParseConfigEntry(p, j).value;
      ConfigAccepted(p, c) <==>
      && (c.eventFlags == 0 || HasKnownFlag(p, c.eventFlags))
      && (c.timeSec != 0 <==> HasBit(c.eventFlags, p.timeBit))
      && (HasThreshold(p, c.eventFlags) ==> DigitsAbove(lower, upper))
  {
    DecimalLimit(p, j, "lower_limit", lower);
    DecimalLimit(p, j, "upper_limit", upper);
    AcceptedMeans(p, ParseConfigEntry(p, j).value);
  }

  /** The entry has these decimal limits, asks for a threshold, and passes the checks that are
      not about limits. */
  predicate SetsThresholds(p: Params, j: Json, lower: Numeral, upper: Numeral)
    requires p.Valid() && lower.Valid() && upper.Valid()
  {
    && Get(j, "lower_limit") == Some(JDouble(lower.Text())) && Get(j, "upper_limit") == Some(JDouble(upper.Text()))
    && ParseConfigEntry(p, j).Some?
    && var c := ParseConfigEntry(p, j).value;
    HasThreshold(p, c.eventFlags) && (HasBit(c.eventFlags, p.timeBit) <==> c.timeSec != 0)
  }

  lemma ParsedLimits(p: Params, j: Json, lower: Numeral, upper: Numeral)
    requires p.Valid() && lower.Valid() && upper.Valid() && SetsThresholds(p, j, lower, upper)
    ensures var c := ParseConfigEntry(p, j).value;
            var l, u := p.views(c.lower), p.views(c.upper);
            && ViewsInRange(l) && l.whole == lower.Whole() && l.fraction == DigitsValue(lower.fraction)
            && ViewsInRange(u) && u.whole == upper.Whole() && u.fraction == DigitsValue(upper.fraction)
            && (ConfigAccepted(p, c) <==> LimitsAccepted(l, u))
  {
    DecimalLimit(p, j, "lower_limit", lower);
    DecimalLimit(p, j, "upper_limit", upper);
  }

  /** The entry is accepted by comparing whole parts and numbers after the point exactly when the
      difference of the whole parts fits an int. */
  lemma ThresholdsMean(p: Params, j: Json, lower: Numeral, upper: Numeral)
    requires p.Valid() && lower.Valid() && upper.Valid() && SetsThresholds(p, j, lower, upper)
    ensures (ConfigAccepted(p, ParseConfigEntry(p, j).value) <==> DigitsAbove(lower, upper)) <==>
            IsInt32(upper.Whole() - lower.Whole())
  {
    var c := ParseConfigEntry(p, j).value;
    ParsedLimits(p, j, lower, upper);
    LimitsMeanOrder(p.views(c.lower), p.views(c.upper));
  }

  // ---- fractions of different lengths ------------------------------------------------------------

  lemma {:induction false} DigitsBound(w: string)
    requires forall i :: 0 <= i < |w| ==> IsDigit(w[i])
    ensures DigitsValue(w) < Pow10(|w|)
  {
    if |w| > 0 { DigitsBound(w[..|w| - 1]); }
  }

  lemma {:induction false} TenToIsPow10(n: nat)
    ensures TenTo(n) == Pow10(n) as real
  {
    if n > 0 { TenToIsPow10(n - 1); }
  }

  lemma ProductIsPositive(x: real, y: real)
    requires x > 0.0 && y > 0.0
    ensures x * y > 0.0
  {}

  lemma ProductIsOrdered(q: real, r: real, t: real)
    requires q > r && t > 0.0
    ensures q * t > r * t
  {
    ProductIsPositive(q - r, t);
    assert (q - r) * t == q * t - r * t;
  }

  lemma QuotientOrder(x: real, y: real, t: real)
    requires t > 0.0
    ensures x / t > y / t <==> x > y
  {
    var q, r := x / t, y / t;
    assert q * t == x && r * t == y;
    if q > r { ProductIsOrdered(q, r, t); }
    if q < r { ProductIsOrdered(r, q, t); }
  }

  lemma QuotientBelowOne(x: real, t: real)
    requires x < t && t > 0.0
    ensures x / t < 1.0
  {
    var q := x / t;
    assert q * t == x;
    if q >= 1.0 { ProductGrows(q, t); }
  }

  lemma ProductGrows(q: real, t: real)
    requires q >= 1.0 && t > 0.0
    ensures q * t >= t
  {
    ProductIsNotNegative(q - 1.0, t);
    assert (q - 1.0) * t == q * t - t;
  }

  lemma ProductIsNotNegative(x: real, y: real)
    requires x >= 0.0 && y >= 0.0
    ensures x * y >= 0.0
  {}

  lemma FractionOrder(a: int, b: int, places: nat)
    ensures Fraction(a, places) > Fraction(b, places) <==> a > b
  {
    QuotientOrder(a as real, b as real, TenTo(places));
  }

  lemma FractionBelowOne(a: nat, places: nat)
    requires a < Pow10(places)
    ensures 0.0 <= Fraction(a, places) < 1.0
  {
    TenToIsPow10(places);
    FractionSign(a, places);
    QuotientBelowOne(a as real, TenTo(places));
  }

  /** Zeros after the last digit change nothing. */
  lemma {:induction false} FractionPadded(a: nat, places: nat, d: nat)
    ensures Fraction(a, places) == Fraction(a * Pow10(d), places + d)
    decreases d
  {
    if d == 0 {
      assert a * Pow10(d) == a;
    } else {
      FractionPadded(a, places, d - 1);
      var b := a * Pow10(d - 1);
      assert a * Pow10(d) == 10 * b;
      TenfoldFraction(b, places + d - 1);
    }
  }

  lemma TenfoldFraction(b: nat, places: nat)
    ensures Fraction(b, places) == Fraction(10 * b, places + 1)
  {
    var q := Fraction(b, places);
    assert q * TenTo(places) == b as real;
    assert TenTo(places + 1) == 10.0 * TenTo(places);
    assert q * TenTo(places + 1) == (10 * b) as real;
  }

  /** The number after the point, and how it grows when written with more digits. */
  function Digits(x: Numeral): nat
    requires x.Valid()
  {
    DigitsValue(x.fraction)
  }

  function Padded(x: Numeral, other: Numeral): nat
    requires x.Valid()
  {
    if |other.fraction| > |x.fraction| then Digits(x) * Pow10(|other.fraction| - |x.fraction|) else Digits(x)
  }

  function Part(x: Numeral): real
    requires x.Valid()
  {
    Fraction(Digits(x), |x.fraction|)
  }

  /** Fractions compare as their digits do once the shorter one is padded with zeros. */
  lemma PartsCompare(x: Numeral, y: Numeral)
    requires x.Valid() && y.Valid()
    ensures Part(x) > Part(y) <==> Padded(x, y) > Padded(y, x)
  {
    var m, n := |x.fraction|, |y.fraction|;
    if m >= n {
      FractionPadded(Digits(y), n, m - n);
      assert Pow10(0) == 1;
      FractionOrder(Digits(x), Padded(y, x), m);
    } else {
      FractionPadded(Digits(x), m, n - m);
      FractionOrder(Padded(x, y), Digits(y), n);
    }
  }

  lemma PartBound(x: Numeral)
    requires x.Valid()
    ensures 0.0 <= Part(x) < 1.0
    ensures Part(x) == 0.0 <==> Digits(x) == 0
  {
    DigitsBound(x.fraction);
    FractionBelowOne(Digits(x), |x.fraction|);
    FractionSign(Digits(x), |x.fraction|);
  }

  lemma ValueInParts(x: Numeral)
    requires x.Valid()
    ensures x.Value() == x.Whole() as real + (if x.negative then -Part(x) else Part(x))
    ensures if x.negative then x.Whole() <= 0 else x.Whole() >= 0
  {}

  // ---- when the test is the order of the numbers ----------------------------------------------------

  /** Limits with the same whole part that the digits put in the wrong order. Between two numbers
      that are not negative, one whose fraction has d more digits passes unless it is at least
      ten to the d times the other; between two negative ones the order is the other way round;
      and a minus sign on a whole part of zero is not seen. */
  predicate Misjudged(lower: Numeral, upper: Numeral)
    requires lower.Valid() && upper.Valid()
  {
    var a, b := Digits(upper), Digits(lower);
    var paddedA, paddedB := Padded(upper, lower), Padded(lower, upper);
    && upper.Whole() == lower.Whole()
    && if !upper.negative && !lower.negative then (b < a && paddedA <= paddedB) || (a <= b && paddedB < paddedA)
       else if upper.negative && lower.negative then (b < a && paddedB <= paddedA) || (a <= b && paddedA < paddedB)
       else if lower.negative then a <= b && 0 < b
       else b < a
  }

  lemma DifferentWholes(lower: Numeral, upper: Numeral)
    requires lower.Valid() && upper.Valid() && upper.Whole() != lower.Whole()
    ensures upper.Value() > lower.Value() <==> upper.Whole() > lower.Whole()
  {
    ValueInParts(lower);
    ValueInParts(upper);
    PartBound(lower);
    PartBound(upper);
  }

  lemma SameWhole(lower: Numeral, upper: Numeral)
    requires lower.Valid() && upper.Valid() && upper.Whole() == lower.Whole()
    ensures (DigitsAbove(lower, upper) <==> upper.Value() > lower.Value()) <==> !Misjudged(lower, upper)
  {
    ValueInParts(lower);
    ValueInParts(upper);
    PartBound(lower);
    PartBound(upper);
    PartsCompare(upper, lower);
    PartsCompare(lower, upper);
  }

  /** For limits that do not overflow, digits and numbers agree exactly when the limits are not
      misjudged. */
  lemma DigitsOrderIffNotMisjudged(lower: Numeral, upper: Numeral)
    requires lower.Valid() && upper.Valid()
    ensures (DigitsAbove(lower, upper) <==> upper.Value() > lower.Value()) <==> !Misjudged(lower, upper)
  {
    if upper.Whole() == lower.Whole() { SameWhole(lower, upper); } else { DifferentWholes(lower, upper); }
  }

  /** With fractions of the same length, limits that are not negative are never misjudged. */
  lemma SameLengthIsNeverMisjudged(lower: Numeral, upper: Numeral)
    requires lower.Valid() && upper.Valid() && !lower.negative && !upper.negative
    requires |lower.fraction| == |upper.fraction|
    ensures !Misjudged(lower, upper)
  {}

  /** An entry of the cloud passes exactly when its upper limit is the larger number, if and only
      if the difference of the whole parts fits an int and the limits are not misjudged. */
  lemma AcceptedIffAbove(p: Params, j: Json, lower: Numeral, upper: Numeral)
    requires p.Valid() && lower.Valid() && upper.Valid() && SetsThresholds(p, j, lower, upper)
    ensures (ConfigAccepted(p, ParseConfigEntry(p, j).value) <==> upper.Value() > lower.Value()) <==>
            IsInt32(upper.Whole() - lower.Whole()) && !Misjudged(lower, upper)
  {
    ThresholdsMean(p, j, lower, upper);
    DigitsOrderIffNotMisjudged(lower, upper);
  }

  // ---- entries that are misjudged --------------------------------------------------------------------

  /** An entry for sensor 1 with two limits. */
  function LimitsEntry(flags: int, lower: string, upper: string): Json {
    JObject([("sensor_id", JInt(1)), ("event_flags", JInt(flags)), ("lower_limit", JDouble(lower)), ("upper_limit", JDouble(upper))])
  }

  /** Flags that ask for a threshold and for no periodic report. */
  predicate ThresholdFlags(p: Params, flags: int) {
    0 <= flags < p.flagRange && IsInt32(flags) && HasThreshold(p, flags) && !HasBit(flags, p.timeBit)
  }

  lemma {:induction false} FieldAbsent(fields: seq<(string, Json)>, key: string)
    requires forall i :: 0 <= i < |fields| ==> fields[i].0 != key
    ensures FieldOf(fields, key) == None
  {
    if |fields| > 0 { FieldAbsent(fields[1..], key); }
  }

  lemma LimitsEntryFields(flags: int, lower: string, upper: string)
    ensures var j := LimitsEntry(flags, lower, upper);
            && Get(j, "sensor_id") == Some(JInt(1)) && Get(j, "event_flags") == Some(JInt(flags))
            && Get(j, "lower_limit") == Some(JDouble(lower)) && Get(j, "upper_limit") == Some(JDouble(upper))
            && Get(j, "time_sec") == None
  {
    var fields := LimitsEntry(flags, lower, upper).fields;
    assert fields[0].0[0] == 's' && fields[1].0[0] == 'e' && fields[2].0[0] == 'l' && fields[3].0[0] == 'u';
    assert "time_sec"[0] == 't';
    FieldAt(fields, 0);
    FieldAt(fields, 1);
    FieldAt(fields, 2);
    FieldAt(fields, 3);
    FieldAbsent(fields, "time_sec");
  }

  lemma FieldKeeps(n: int, range: nat)
    requires 0 <= n < range && IsInt32(n)
    ensures ToField(Clamp32(n), range) == n
  {}

  lemma FieldsSetThresholds(p: Params, j: Json, flags: int, lower: Numeral, upper: Numeral)
    requires p.Valid() && lower.Valid() && upper.Valid() && ThresholdFlags(p, flags)
    requires GetInt(j, "sensor_id").Some? && Get(j, "event_flags") == Some(JInt(flags)) && Get(j, "time_sec") == None
    requires Get(j, "lower_limit") == Some(JDouble(lower.Text())) && Get(j, "upper_limit") == Some(JDouble(upper.Text()))
    ensures SetsThresholds(p, j, lower, upper)
  {
    FieldKeeps(flags, p.flagRange);
    FieldKeeps(0, p.timeRange);
    DecimalLimit(p, j, "lower_limit", lower);
    DecimalLimit(p, j, "upper_limit", upper);
  }

  lemma LimitsEntryIsRead(p: Params, flags: int, lower: Numeral, upper: Numeral)
    requires p.Valid() && lower.Valid() && upper.Valid() && ThresholdFlags(p, flags)
    ensures SetsThresholds(p, LimitsEntry(flags, lower.Text(), upper.Text()), lower, upper)
  {
    LimitsEntryFields(flags, lower.Text(), upper.Text());
    FieldsSetThresholds(p, LimitsEntry(flags, lower.Text(), upper.Text()), flags, lower, upper);
  }

  /** Whether the entry with these two limits is accepted. */
  predicate Passes(p: Params, flags: int, lower: string, upper: string) {
    var c := ParseConfigEntry(p, LimitsEntry(flags, lower, upper));
    c.Some? && ConfigAccepted(p, c.value)
  }

  lemma PassesMeans(p: Params, flags: int, lower: Numeral, upper: Numeral)
    requires p.Valid() && lower.Valid() && upper.Valid() && ThresholdFlags(p, flags)
    ensures (Passes(p, flags, lower.Text(), upper.Text()) <==> DigitsAbove(lower, upper)) <==>
            IsInt32(upper.Whole() - lower.Whole())
  {
    LimitsEntryIsRead(p, flags, lower, upper);
    ThresholdsMean(p, LimitsEntry(flags, lower.Text(), upper.Text()), lower, upper);
  }

  lemma TwoDigits(w: string)
    requires |w| == 2 && IsDigits(w)
    ensures DigitsValue(w) == 10 * DigitValue(w[0]) + DigitValue(w[1])
  {
    OneDigit(w[..1]);
  }

  lemma OneDigit(w: string)
    requires |w| == 1 && IsDigits(w)
    ensures DigitsValue(w) == DigitValue(w[0])
  {
    assert DigitsValue(w[..0]) == 0;
  }

  /** 1.5 does not pass as above 1.25, and 1.25 passes as above 1.5. */
  lemma LongerFractionPasses(p: Params, flags: int)
    requires p.Valid() && ThresholdFlags(p, flags)
    ensures !Passes(p, flags, "1.25", "1.5") && Passes(p, flags, "1.5", "1.25")
  {
    var x, y := Numeral(false, "1", "25"), Numeral(false, "1", "5");
    TwoDigits(x.fraction);
    OneDigit(y.fraction);
    OneDigit("1");
    assert x.Text() == "1.25" && y.Text() == "1.5";
    PassesMeans(p, flags, x, y);
    PassesMeans(p, flags, y, x);
  }

  /** -1.2 does not pass as above -1.5, and -1.5 passes as above -1.2. */
  lemma NegativeLimitsAreReversed(p: Params, flags: int)
    requires p.Valid() && ThresholdFlags(p, flags)
    ensures !Passes(p, flags, "-1.5", "-1.2") && Passes(p, flags, "-1.2", "-1.5")
  {
    var x, y := Numeral(true, "1", "5"), Numeral(true, "1", "2");
    OneDigit(x.fraction);
    OneDigit(y.fraction);
    OneDigit("1");
    assert x.Text() == "-1.5" && y.Text() == "-1.2";
    PassesMeans(p, flags, x, y);
    PassesMeans(p, flags, y, x);
  }

  /** The difference of these limits overflows, and the smaller one passes as the upper limit. */
  lemma OverflowIsAccepted(p: Params, flags: int)
    requires p.Valid() && ThresholdFlags(p, flags)
    ensures Passes(p, flags, "2147483647.0", "-2147483648.0")
  {
    var x, y := Numeral(false, "2147483647", "0"), Numeral(true, "2147483648", "0");
    TenDigits();
    LargestDigits();
    OneDigit("0");
    assert x.Text() == "2147483647.0" && y.Text() == "-2147483648.0";
    PassesMeans(p, flags, x, y);
  }

  lemma LargestDigits()
    ensures DigitsValue("2147483647") == INT32_MAX
  {
    TenDigits();
    assert "2147483647"[..9] == "2147483648"[..9];
  }
}
