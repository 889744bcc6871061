/** What is read from one entry of a list of the cloud, key by key. */
module Readings {
  import opened Json
  import opened Protocol
  import opened Decimal
  import opened Documents

  /** An integer counts as it is when it fits 32 bits and as the nearest one that does otherwise;
      nothing else is an integer. */
  lemma IntegerRead(j: Json, key: string)
    ensures GetInt(j, key).Some? <==> Get(j, key).Some? && Get(j, key).value.JInt?
    ensures GetInt(j, key).Some? ==>
      var n := Get(j, key).value.n;
      GetInt(j, key).value == if n > 0x7fff_ffff then 0x7fff_ffff else if n < -0x8000_0000 then -0x8000_0000 else n
  {}

  /** A value or limit may be absent, and is a number or a truth value otherwise. */
  predicate IsReadable(j: Json, key: string) {
    match Get(j, key)
    case None => true
    case Some(JBool(_)) => true
    case Some(JInt(_)) => true
    case Some(JDouble(_)) => true
    case _ => false
  }

  /** The value under the key: cleared when absent, and otherwise what is written there; a decimal
      is its whole part and the digits of its fraction, and one written without a point is
      cleared. */
  ghost predicate IsValueUnder(j: Json, key: string, v: Value) {
    match Get(j, key)
    case None => v == Cleared
    case Some(JBool(b)) => v == BoolValue(b)
    case Some(JInt(n)) => GetInt(j, key).Some? && v == IntValue(GetInt(j, key).value)
    case Some(JDouble(text)) =>
      && ('.' !in text ==> v == Cleared)
      && forall x: Numeral :: x.Valid() && x.Text() == text ==> v == FloatValue(x.Whole(), DigitsValue(x.fraction))
    case _ => false
  }

  lemma ValueRead(j: Json, key: string)
    ensures ParseOptionalValue(j, key).Some? <==> IsReadable(j, key)
    ensures ParseOptionalValue(j, key).Some? ==> IsValueUnder(j, key, ParseOptionalValue(j, key).value)
  {
    if Get(j, key).Some? && Get(j, key).value.JDouble? {
      forall x: Numeral | x.Valid() && x.Text() == Get(j, key).value.text
        ensures ParseOptionalValue(j, key).value == FloatValue(x.Whole(), DigitsValue(x.fraction))
      {
        ScanReadsNumeral(x);
      }
    }
  }

  // ---- configurations ----------------------------------------------------------------------

  predicate IsConfigEntry(j: Json) {
    && GetInt(j, "sensor_id").Some? && GetInt(j, "event_flags").Some?
    && (Get(j, "time_sec").None? || GetInt(j, "time_sec").Some?)
    && IsReadable(j, "lower_limit") && IsReadable(j, "upper_limit")
  }

  /** The sensor an entry is for: its id cut to a byte. */
  function SensorOf(j: Json): Byte {
    if GetInt(j, "sensor_id").Some? then GetInt(j, "sensor_id").value % 0x100 else 0
  }

  function FlagsOf(p: Params, j: Json): int
    requires p.Valid() && IsConfigEntry(j)
  {
    GetInt(j, "event_flags").value % p.flagRange
  }

  function TimeOf(p: Params, j: Json): int
    requires p.Valid() && IsConfigEntry(j)
  {
    if Get(j, "time_sec").None? then 0 else GetInt(j, "time_sec").value % p.timeRange
  }

  /** An entry can be read exactly when it has its two integers, and its time and limits, if any,
      are of the right type; it is then kept field by field, unconfirmed, and under a checksum
      that is the entry itself. */
  lemma ConfigEntryRead(p: Params, j: Json)
    requires p.Valid()
    ensures ParseConfigEntry(p, j).Some? <==> IsConfigEntry(j)
    ensures IsConfigEntry(j) ==>
      var c := ParseConfigEntry(p, j).value;
      && c.sensorId == SensorOf(j) && c.eventFlags == FlagsOf(p, j) && c.timeSec == TimeOf(p, j)
      && IsValueUnder(j, "lower_limit", c.lower) && IsValueUnder(j, "upper_limit", c.upper)
      && c.hash == j && !c.confirmed
  {
    ValueRead(j, "lower_limit");
    ValueRead(j, "upper_limit");
  }

  // ---- schemas ---------------------------------------------------------------------------------

  predicate IsSchemaEntry(j: Json) {
    && GetInt(j, "sensor_id").Some? && GetInt(j, "value_type").Some? && GetInt(j, "unit").Some?
    && GetInt(j, "type_id").Some? && Get(j, "name").Some? && Get(j, "name").value.JString?
  }

  /** The buffer holds the first m characters, and zeros after them. */
  predicate Holds(buffer: string, name: string, m: nat) {
    && m < |buffer| && m <= |name| && buffer[..m] == name[..m] && '\0' !in name[..m]
    && forall i :: m <= i < |buffer| ==> buffer[i] == '\0'
  }

  /** A name is kept up to its terminator, cut to leave room for one. */
  ghost predicate IsNameKept(buffer: string, name: string, size: nat) {
    |buffer| == size && exists m: nat :: Holds(buffer, name, m) && (m == |name| || m == size - 1 || name[m] == '\0')
  }

  lemma NameKept(name: string, size: nat)
    requires size > 0
    ensures IsNameKept(NameBuffer(name, size), name, size)
  {
    var c, buffer := CString(name), NameBuffer(name, size);
    var m := if |c| < size then |c| else size - 1;
    assert buffer == name[..m] + Zeros(size - m);
    assert Holds(buffer, name, m);
  }

  /** An entry can be read exactly when its five keys are there with the right types. */
  lemma SchemaEntryRead(p: Params, j: Json)
    requires p.Valid()
    ensures ParseSchemaEntry(p, j).Some? <==> IsSchemaEntry(j)
    ensures IsSchemaEntry(j) ==>
      var x := ParseSchemaEntry(p, j).value;
      && x.sensorId == SensorOf(j) && x.valueType == GetInt(j, "value_type").value % 0x100
      && x.unit == GetInt(j, "unit").value % 0x100 && x.typeId == GetInt(j, "type_id").value % 0x1_0000
      && IsNameKept(x.name, Get(j, "name").value.s, p.schemaNameLen)
  {
    if IsSchemaEntry(j) { NameKept(Get(j, "name").value.s, p.schemaNameLen); }
  }

  // ---- pending writes --------------------------------------------------------------------------

  predicate IsWriteEntry(j: Json) { GetInt(j, "sensor_id").Some? && IsReadable(j, "value") }

  lemma WriteEntryRead(j: Json)
    ensures SetDataItem()(j).Some? <==> IsWriteEntry(j)
    ensures IsWriteEntry(j) ==>
      SetDataItem()(j).value.sensorId == SensorOf(j) && IsValueUnder(j, "value", SetDataItem()(j).value.value)
  {
    ValueRead(j, "value");
  }
}
