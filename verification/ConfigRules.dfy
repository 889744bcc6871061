/** Which sensor configurations the gateway accepts, and which it sends to the node. */
module ConfigRules {
  import opened Json
  import opened Protocol
  import opened Sequences

  // ---- validity ----------------------------------------------------------------

  function Pow2(n: nat): nat
    ensures Pow2(n) > 0
  {
    if n == 0 then 1 else 2 * Pow2(n - 1)
  }

  predicate HasBit(flags: nat, bit: nat) { flags / Pow2(bit) % 2 == 1 }

  /** The bit is set exactly when the flags split into an odd number of its weights and a rest
      below its weight. */
  lemma HasBitMeans(flags: nat, bit: nat)
    ensures HasBit(flags, bit) <==>
            exists high: nat, low: nat :: IsSplit(flags, bit, high, low)
    ensures Pow2(0) == 1 && Pow2(bit + 1) == 2 * Pow2(bit)
  {
    var w := Pow2(bit);
    if HasBit(flags, bit) {
      var high, low := flags / w / 2, flags % w;
      assert flags / w == 2 * high + 1;
      assert flags == w * (flags / w) + low;
      assert IsSplit(flags, bit, high, low);
    }
    if high: nat, low: nat :| IsSplit(flags, bit, high, low) {
      QuotientIs(flags, w, 2 * high + 1, low);
    }
  }

  predicate IsSplit(flags: nat, bit: nat, high: nat, low: nat) {
    low < Pow2(bit) && flags == Pow2(bit) * (2 * high + 1) + low
  }

  lemma QuotientIs(n: nat, w: nat, q: nat, low: nat)
    requires w > 0 && low < w && n == w * q + low
    ensures n / w == q
  {
    var d, rest := n / w - q, n % w;
    assert n == w * (n / w) + rest;
    ProductOfDifference(w, n / w, q);
    if d >= 1 { ProductIsLarge(w, d); }
    if d <= -1 { ProductIsLarge(w, -d); }
  }

  lemma ProductOfDifference(w: nat, a: int, b: int)
    ensures w * (a - b) == w * a - w * b && w * (b - a) == w * b - w * a
  {}

  lemma ProductIsLarge(w: nat, d: int)
    requires d >= 1
    ensures w * d >= w
  {
    assert w * d == w * (d - 1) + w;
  }

  predicate HasKnownFlag(p: Params, flags: nat) {
    || HasBit(flags, p.timeBit) || HasBit(flags, p.lowerBit) || HasBit(flags, p.upperBit)
    || HasBit(flags, p.changeBit) || HasBit(flags, p.unregisteredBit)
  }

  predicate HasThreshold(p: Params, flags: nat) { HasBit(flags, p.lowerBit) || HasBit(flags, p.upperBit) }

  /** 32-bit subtraction as the hardware does it. */
  function Subtract32(a: int, b: int): int {
    (a - b - INT32_MIN) % 0x1_0000_0000 + INT32_MIN
  }

  /** The test the code applies to two limits, each read as (integer, decimal). */
  predicate LimitsAccepted(lower: Views, upper: Views) {
    var diffInt := Subtract32(upper.whole, lower.whole);
    var diffDec := Subtract32(upper.fraction, lower.fraction);
    diffInt > 0 || (diffInt == 0 && diffDec > 0)
  }

  predicate ConfigAccepted(p: Params, c: Config) {
    && (c.eventFlags == 0 || HasKnownFlag(p, c.eventFlags))
    && (HasBit(c.eventFlags, p.timeBit) <==> c.timeSec != 0)
    && (HasThreshold(p, c.eventFlags) ==> LimitsAccepted(p.views(c.lower), p.views(c.upper)))
  }

  predicate AllAccepted(p: Params, list: seq<Config>) {
    forall i :: 0 <= i < |list| ==> ConfigAccepted(p, list[i])
  }

  /** config_is_valid, branch by branch. */
  method ConfigIsValid(p: Params, list: seq<Config>) returns (r: Result)
    ensures r == if AllAccepted(p, list) then Success else ErrorUnknown
  {
    var i := 0;
    while i < |list|
      invariant 0 <= i <= |list|
      invariant AllAccepted(p, list[..i])
    {
      var c := list[i];
      if c.eventFlags != 0 && !HasKnownFlag(p, c.eventFlags) { return ErrorUnknown; }
      if HasBit(c.eventFlags, p.timeBit) {
        if c.timeSec == 0 { return ErrorUnknown; }
      } else {
        if c.timeSec > 0 { return ErrorUnknown; }
      }
      if HasThreshold(p, c.eventFlags) {
        var lower, upper := p.views(c.lower), p.views(c.upper);
        var diffInt := Subtract32(upper.whole, lower.whole);
        var diffDec := Subtract32(upper.fraction, lower.fraction);
        if diffInt < 0 {
          return ErrorUnknown;
        } else if diffInt == 0 && diffDec <= 0 {
          return ErrorUnknown;
        }
      }
      i := i + 1;
    }
    return Success;
  }

  /** (int, dec) of the upper limit is lexicographically above that of the lower one. */
  predicate LexicallyAbove(lower: Views, upper: Views) {
    upper.whole > lower.whole || (upper.whole == lower.whole && upper.fraction > lower.fraction)
  }

  predicate ViewsInRange(v: Views) { IsInt32(v.whole) && IsInt32(v.fraction) }

  /** The differences the code relies on do not overflow an int. */
  predicate DifferencesFit(lower: Views, upper: Views) {
    && IsInt32(upper.whole - lower.whole)
    && (upper.whole == lower.whole ==> IsInt32(upper.fraction - lower.fraction))
  }

  /** The threshold test means "upper above lower" exactly when no difference overflows. */
  lemma LimitsMeanOrder(lower: Views, upper: Views)
    requires ViewsInRange(lower) && ViewsInRange(upper)
    ensures (LimitsAccepted(lower, upper) <==> LexicallyAbove(lower, upper)) <==> DifferencesFit(lower, upper)
  {
    SubtractionWraps(upper.whole, lower.whole);
    SubtractionWraps(upper.fraction, lower.fraction);
  }

  lemma SubtractionWraps(a: int, b: int)
    requires IsInt32(a) && IsInt32(b)
    ensures IsInt32(a - b) ==> Subtract32(a, b) == a - b
    ensures a - b > INT32_MAX ==> Subtract32(a, b) == a - b - 0x1_0000_0000 && Subtract32(a, b) < 0
    ensures a - b < INT32_MIN ==> Subtract32(a, b) == a - b + 0x1_0000_0000 && Subtract32(a, b) > 0
  {}

  // ---- what is sent to the node --------------------------------------------------

  function SameHash(hash: Json): Config -> bool { (c: Config) => c.hash == hash }

  function ForSensor(id: Byte): Config -> bool { (c: Config) => c.sensorId == id }

  /** exists_and_confirmed: the first entry with the same hash is confirmed. */
  predicate Withheld(current: seq<Config>, received: Config) {
    var i := First(current, SameHash(received.hash));
    i < |current| && current[i].confirmed
  }

  function NotWithheld(current: seq<Config>): Config -> bool { (c: Config) => !Withheld(current, c) }

  function ConfigMessageOf(p: Params, c: Config): Message {
    ConfigMessage(Header(SetConfig, p.sensorIdLen + p.configValuesLen),
                  c.sensorId, c.eventFlags, c.timeSec, c.lower, c.upper)
  }

  function ConfigMessages(p: Params, list: seq<Config>): seq<Message> {
    seq(|list|, i requires 0 <= i < |list| => ConfigMessageOf(p, list[i]))
  }

  method ExistsAndConfirmed(received: Config, current: seq<Config>) returns (r: bool)
    ensures r == Withheld(current, received)
  {
    var i := 0;
    while i < |current|
      invariant 0 <= i <= |current|
      invariant forall k :: 0 <= k < i ==> !SameHash(received.hash)(current[k])
    {
      if current[i].hash == received.hash {
        FirstIs(current, SameHash(received.hash), i);
        return current[i].confirmed;
      }
      i := i + 1;
    }
    FirstIs(current, SameHash(received.hash), i);
    return false;
  }

  /** get_changed_config: clone the received list, drop the confirmed entries, print the rest. */
  method GetChangedConfig(p: Params, current: seq<Config>, received: seq<Config>) returns (messages: seq<Message>)
    ensures messages == ConfigMessages(p, Keep(received, NotWithheld(current)))
  {
    var kept := [];
    for i := 0 to |received|
      invariant kept == Keep(received[..i], NotWithheld(current))
    {
      KeepStep(received, NotWithheld(current), i);
      var known := ExistsAndConfirmed(received[i], current);
      if !known { kept := kept + [received[i]]; }
    }
    assert received[..|received|] == received;
    messages := [];
    for i := 0 to |kept|
      invariant |messages| == i
      invariant forall k :: 0 <= k < i ==> messages[k] == ConfigMessageOf(p, kept[k])
    {
      messages := messages + [ConfigMessageOf(p, kept[i])];
    }
  }

  /** trust_config_confirm: the first entry for the sensor is marked. */
  function Confirm(list: seq<Config>, id: Byte): seq<Config> {
    var i := First(list, ForSensor(id));
    if i < |list| then list[i := list[i].(confirmed := true)] else list
  }

  method ConfirmConfig(list: seq<Config>, id: Byte) returns (r: seq<Config>)
    ensures r == Confirm(list, id)
  {
    var i := 0;
    while i < |list|
      invariant 0 <= i <= |list|
      invariant forall k :: 0 <= k < i ==> !ForSensor(id)(list[k])
    {
      if list[i].sensorId == id {
        FirstIs(list, ForSensor(id), i);
        return list[i := list[i].(confirmed := true)];
      }
      i := i + 1;
    }
    FirstIs(list, ForSensor(id), i);
    return list;
  }

  /** A list on which exactly the first entry for each acknowledged sensor is confirmed. */
  function Acknowledged(list: seq<Config>, acks: set<Byte>): seq<Config> {
    seq(|list|, i requires 0 <= i < |list| =>
      list[i].(confirmed := IsFirstForSensor(list, i) && list[i].sensorId in acks))
  }

  predicate IsFirstForSensor(list: seq<Config>, i: nat)
    requires i < |list|
  {
    forall k :: 0 <= k < i ==> list[k].sensorId != list[i].sensorId
  }

  /** Confirming commutes with the record of acknowledgements. */
  lemma ConfirmAdds(list: seq<Config>, acks: set<Byte>, id: Byte)
    ensures Confirm(Acknowledged(list, acks), id) == Acknowledged(list, acks + {id})
  {
    var marked := Acknowledged(list, acks);
    FirstAgrees(list, marked, ForSensor(id));
    var i := First(marked, ForSensor(id));
    forall k | 0 <= k < |list| ensures Confirm(marked, id)[k] == Acknowledged(list, acks + {id})[k] {
      if list[k].sensorId == id && IsFirstForSensor(list, k) {
        FirstIs(marked, ForSensor(id), k);
      }
    }
  }

  predicate Unconfirmed(list: seq<Config>) { forall i :: 0 <= i < |list| ==> !list[i].confirmed }

  lemma FreshIsUnacknowledged(list: seq<Config>)
    requires Unconfirmed(list)
    ensures Acknowledged(list, {}) == list
  {}

  /** An entry the node already has: the first entry of the accepted list with its hash is
      the first for its sensor, and the node acknowledged that sensor. */
  predicate AlreadyHas(list: seq<Config>, acks: set<Byte>, received: Config) {
    var i := First(list, SameHash(received.hash));
    i < |list| && IsFirstForSensor(list, i) && list[i].sensorId in acks
  }

  /** The received entries withheld are exactly those the node already has. */
  lemma WithheldMeans(list: seq<Config>, acks: set<Byte>, received: Config)
    ensures Withheld(Acknowledged(list, acks), received) <==> AlreadyHas(list, acks, received)
  {
    FirstAgrees(list, Acknowledged(list, acks), SameHash(received.hash));
  }
}
