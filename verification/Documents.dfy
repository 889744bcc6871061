/** The JSON the gateway exchanges with the cloud: what it prints and how it reads it back. */
module Documents {
  import opened Json
  import opened Protocol
  import Decimal

  // ---- values ----------------------------------------------------------------

  /** parse_json_value_types, into a cleared union. */
  function ParseValue(j: Json): Value {
    match j
    case JBool(b) => BoolValue(b)
    case JInt(n) => IntValue(Clamp32(n))
    case JDouble(text) =>
      (match Decimal.ScanPair(text)
       case Some((i, f)) => FloatValue(i, f)
       case None => Cleared)
    case _ => Cleared
  }

  predicate IsNumberOrBool(j: Json) { j.JInt? || j.JDouble? || j.JBool? }

  /** An optional limit or value: absent is cleared, and any other type is an error. */
  function ParseOptionalValue(j: Json, key: string): Option<Value> {
    match Get(j, key)
    case None => Some(Cleared)
    case Some(v) => if IsNumberOrBool(v) then Some(ParseValue(v)) else None
  }

  /** create_data_object: the payload read as the schema's type says. */
  function PrintData(p: Params, valueType: Byte, data: Views): Option<CloudValue> {
    if valueType == p.typeInt then Some(CloudInt(data.asInt))
    else if valueType == p.typeFloat then
      Some(CloudDouble(Decimal.AsDouble(data.multiplier, data.whole, data.fraction)))
    else if valueType == p.typeBool then Some(CloudBool(data.asBool))
    else if valueType == p.typeRaw then Some(NoValue)
    else None
  }

  // ---- device credentials ----------------------------------------------------

  function TextOf(p: Params, j: Json): string { if j.JString? then j.s else p.looseText(j) }

  /** parse_device_info followed by the length checks of proto_mknode. */
  function ParseCredential(p: Params, doc: Json): Option<Credential> {
    match (Get(doc, "uuid"), Get(doc, "token"))
    case (Some(u), Some(t)) =>
      var uuid, token := TextOf(p, u), TextOf(p, t);
      if |uuid| == p.uuidLen && |token| == p.tokenLen then Some(Credential(uuid, token)) else None
    case _ => None
  }

  // ---- lists that are read all or nothing ------------------------------------

  /** The order-preserving image of a list when every entry can be read, and nothing otherwise. */
  ghost function ParseAll<T>(items: seq<Json>, entry: Json -> Option<T>): Option<seq<T>> {
    if forall i :: 0 <= i < |items| ==> entry(items[i]).Some?
    then Some(seq(|items|, i requires 0 <= i < |items| && entry(items[i]).Some? => entry(items[i]).value))
    else None
  }

  lemma ParseAllIs<T>(items: seq<Json>, entry: Json -> Option<T>, list: seq<T>)
    requires |list| == |items| && forall i :: 0 <= i < |items| ==> entry(items[i]) == Some(list[i])
    ensures ParseAll(items, entry) == Some(list)
  {
    assert ParseAll(items, entry).Some?;
    assert ParseAll(items, entry).value == list;
  }

  /** The three list readers share this loop: append until an entry cannot be read. */
  method ReadList<T>(items: seq<Json>, entry: Json -> Option<T>) returns (r: Option<seq<T>>)
    ensures r == ParseAll(items, entry)
  {
    var list := [];
    for i := 0 to |items|
      invariant |list| == i
      invariant forall k :: 0 <= k < i ==> entry(items[k]) == Some(list[k])
    {
      match entry(items[i]) {
        case None => return None;
        case Some(v) => list := list + [v];
      }
    }
    ParseAllIs(items, entry, list);
    return Some(list);
  }

  function ConfigEntry(p: Params): Json -> Option<Config> { (j: Json) => ParseConfigEntry(p, j) }

  /** One element of "config": sensor_id and event_flags are required integers. */
  function ParseConfigEntry(p: Params, j: Json): Option<Config> {
    match (GetInt(j, "sensor_id"), GetInt(j, "event_flags"))
    case (Some(id), Some(flags)) =>
      var time := if Get(j, "time_sec").None? then Some(0) else GetInt(j, "time_sec");
      (match (time, ParseOptionalValue(j, "lower_limit"), ParseOptionalValue(j, "upper_limit"))
       case (Some(t), Some(lower), Some(upper)) =>
         Some(Config(ToByte(id), ToField(flags, p.flagRange), ToField(t, p.timeRange), lower, upper, j, false))
       case _ => None)
    case _ => None
  }

  /** C conversion of an int to an unsigned field that holds range values. */
  function ToField(n: int, range: nat): nat { if range == 0 then 0 else n % range }

  datatype SetDataEntry = SetDataEntry(sensorId: Byte, value: Value)

  function SetDataItem(): Json -> Option<SetDataEntry> {
    (j: Json) =>
      match (GetInt(j, "sensor_id"), ParseOptionalValue(j, "value"))
      case (Some(id), Some(v)) => Some(SetDataEntry(ToByte(id), v))
      case _ => None
  }

  function GetDataItem(): Json -> Option<Byte> {
    (j: Json) =>
      match GetInt(j, "sensor_id")
      case Some(id) => Some(ToByte(id))
      case None => None
  }

  ghost function ParseList<T>(doc: Json, key: string, entry: Json -> Option<T>): Option<seq<T>> {
    match GetArray(doc, key)
    case Some(items) => ParseAll(items, entry)
    case None => None
  }

  method ReadListField<T>(doc: Json, key: string, entry: Json -> Option<T>) returns (r: Option<seq<T>>)
    ensures r == ParseList(doc, key, entry)
  {
    match GetArray(doc, key) {
      case Some(items) => r := ReadList(items, entry);
      case None => return None;
    }
  }

  // ---- schemas ---------------------------------------------------------------

  ghost predicate ValidName(p: Params, name: string) { |name| == p.schemaNameLen && '\0' in name }

  function PrintSchemaEntry(s: Schema): Json {
    JObject([
      ("sensor_id", JInt(s.sensorId)), ("value_type", JInt(s.valueType)), ("unit", JInt(s.unit)),
      ("type_id", JInt(s.typeId)), ("name", JString(CString(s.name)))])
  }

  /** create_schema_list_object. */
  ghost function PrintSchema(list: seq<Schema>): Json {
    JObject([("schema", JArray(seq(|list|, i requires 0 <= i < |list| => PrintSchemaEntry(list[i]))))])
  }

  method CreateSchemaListObject(list: seq<Schema>) returns (doc: Json)
    ensures doc == PrintSchema(list)
  {
    var items := [];
    for i := 0 to |list|
      invariant |items| == i
      invariant forall k :: 0 <= k < i ==> items[k] == PrintSchemaEntry(list[k])
    {
      items := items + [PrintSchemaEntry(list[i])];
    }
    assert items == seq(|list|, i requires 0 <= i < |list| => PrintSchemaEntry(list[i]));
    doc := JObject([("schema", JArray(items))]);
  }

  function ParseSchemaEntry(p: Params, j: Json): Option<Schema>
    requires p.Valid()
  {
    match (GetInt(j, "sensor_id"), GetInt(j, "value_type"), GetInt(j, "unit"), GetInt(j, "type_id"), Get(j, "name"))
    case (Some(id), Some(valueType), Some(unit), Some(typeId), Some(JString(name))) =>
      Some(Schema(ToByte(id), ToByte(valueType), ToByte(unit), ToWord(typeId), NameBuffer(name, p.schemaNameLen)))
    case _ => None
  }

  /** parse_device_schema keeps what it read before the first entry it cannot read. */
  function ParseSchemaItems(p: Params, items: seq<Json>): seq<Schema>
    requires p.Valid()
  {
    if |items| == 0 then []
    else match ParseSchemaEntry(p, items[0])
      case None => []
      case Some(s) => [s] + ParseSchemaItems(p, items[1..])
  }

  function ParseSchema(p: Params, doc: Json): seq<Schema>
    requires p.Valid()
  {
    match GetArray(doc, "schema")
    case None => []
    case Some(items) => ParseSchemaItems(p, items)
  }

  method ParseDeviceSchema(p: Params, doc: Json) returns (list: seq<Schema>)
    requires p.Valid()
    ensures list == ParseSchema(p, doc)
  {
    list := [];
    match GetArray(doc, "schema") {
      case None => return;
      case Some(items) =>
        for i := 0 to |items|
          invariant list + ParseSchemaItems(p, items[i..]) == ParseSchema(p, doc)
        {
          assert items[i..][1..] == items[i + 1..];
          match ParseSchemaEntry(p, items[i]) {
            case None => return;
            case Some(s) => list := list + [s];
          }
        }
    }
  }

  /** The same schema, whatever the name buffer holds after its terminator. */
  function Canonical(p: Params, s: Schema): Schema
    requires p.Valid()
  {
    s.(name := NameBuffer(CString(s.name), p.schemaNameLen))
  }

  lemma NameRoundTrip(p: Params, name: string)
    requires p.Valid() && ValidName(p, name)
    ensures CString(NameBuffer(CString(name), p.schemaNameLen)) == CString(name)
    ensures NameBuffer(CString(CString(name)), p.schemaNameLen) == NameBuffer(CString(name), p.schemaNameLen)
  {
    var c := CString(name);
    assert |c| < p.schemaNameLen;
    CStringOfPadded(c, p.schemaNameLen - |c|);
    CStringIsItself(c);
    assert NameBuffer(c, p.schemaNameLen) == c + Zeros(p.schemaNameLen - |c|);
  }

  lemma PrintedFields(s: Schema)
    ensures var j := PrintSchemaEntry(s);
            && GetInt(j, "sensor_id") == Some(s.sensorId) && GetInt(j, "value_type") == Some(s.valueType)
            && GetInt(j, "unit") == Some(s.unit) && GetInt(j, "type_id") == Some(s.typeId)
            && Get(j, "name") == Some(JString(CString(s.name)))
  {
    var fields := PrintSchemaEntry(s).fields;
    KeysDiffer();
    FieldAt(fields, 0);
    FieldAt(fields, 1);
    FieldAt(fields, 2);
    FieldAt(fields, 3);
    FieldAt(fields, 4);
  }

  lemma EntryRoundTrip(p: Params, s: Schema)
    requires p.Valid() && ValidName(p, s.name)
    ensures ParseSchemaEntry(p, PrintSchemaEntry(s)) == Some(Canonical(p, s))
    ensures CString(Canonical(p, s).name) == CString(s.name)
  {
    NameRoundTrip(p, s.name);
    PrintedFields(s);
  }

  lemma KeysDiffer()
    ensures "unit" != "name"
  {
    assert "unit"[0] != "name"[0];
  }

  lemma {:induction false} ItemsRoundTrip(p: Params, list: seq<Schema>, items: seq<Json>)
    requires p.Valid() && forall i :: 0 <= i < |list| ==> ValidName(p, list[i].name)
    requires |items| == |list| && forall i :: 0 <= i < |list| ==> items[i] == PrintSchemaEntry(list[i])
    ensures |ParseSchemaItems(p, items)| == |list|
    ensures forall i :: 0 <= i < |list| ==> ParseSchemaItems(p, items)[i] == Canonical(p, list[i])
  {
    if |list| > 0 {
      EntryRoundTrip(p, list[0]);
      ItemsRoundTrip(p, list[1..], items[1..]);
    }
  }

  /** Reading back what was printed gives the same ids, types, units and names, in order. */
  lemma SchemaRoundTrip(p: Params, list: seq<Schema>)
    requires p.Valid() && forall i :: 0 <= i < |list| ==> ValidName(p, list[i].name)
    ensures |ParseSchema(p, PrintSchema(list))| == |list|
    ensures forall i :: 0 <= i < |list| ==>
      && ParseSchema(p, PrintSchema(list))[i] == Canonical(p, list[i])
      && CString(ParseSchema(p, PrintSchema(list))[i].name) == CString(list[i].name)
  {
    var doc := PrintSchema(list);
    ItemsRoundTrip(p, list, GetArray(doc, "schema").value);
    forall i | 0 <= i < |list| ensures CString(Canonical(p, list[i]).name) == CString(list[i].name) {
      EntryRoundTrip(p, list[i]);
    }
  }

  /** What parse_device_schema returns for any document: the longest readable prefix. */
  lemma {:induction false} SchemaPrefix(p: Params, items: seq<Json>)
    requires p.Valid()
    ensures var list := ParseSchemaItems(p, items);
            && |list| <= |items|
            && (forall i :: 0 <= i < |list| ==> ParseSchemaEntry(p, items[i]) == Some(list[i]))
            && (|list| < |items| ==> ParseSchemaEntry(p, items[|list|]).None?)
  {
    if |items| > 0 && ParseSchemaEntry(p, items[0]).Some? { SchemaPrefix(p, items[1..]); }
  }
}
