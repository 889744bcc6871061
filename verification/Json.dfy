/** JSON trees as json-c hands them to the gateway: tokenising is done, key order and
    the source text of a double are kept (both reach the config checksum). */
module Json {

  datatype Option<+T> = None | Some(value: T)

  datatype Json =
    | JNull
    | JBool(b: bool)
    | JInt(n: int)
    | JDouble(text: string)
    | JString(s: string)
    | JArray(items: seq<Json>)
    | JObject(fields: seq<(string, Json)>)

  function FieldOf(fields: seq<(string, Json)>, key: string): Option<Json> {
    if |fields| == 0 then None
    else if fields[0].0 == key then Some(fields[0].1)
    else FieldOf(fields[1..], key)
  }

  lemma {:induction false} FieldAt(fields: seq<(string, Json)>, i: nat)
    requires i < |fields| && forall k :: 0 <= k < i ==> fields[k].0 != fields[i].0
    ensures FieldOf(fields, fields[i].0) == Some(fields[i].1)
  {
    if i > 0 { FieldAt(fields[1..], i - 1); }
  }

  /** json_object_object_get_ex: nothing is found in a value that is not an object. */
  function Get(j: Json, key: string): Option<Json> {
    if j.JObject? then FieldOf(j.fields, key) else None
  }

  const INT32_MAX := 0x7fff_ffff
  const INT32_MIN := -0x8000_0000

  predicate IsInt32(n: int) { INT32_MIN <= n <= INT32_MAX }

  /** json_object_get_int saturates a 64-bit integer. */
  function Clamp32(n: int): int {
    if n > INT32_MAX then INT32_MAX else if n < INT32_MIN then INT32_MIN else n
  }

  /** The integer under key, when the field is there and has json-c's integer type. */
  function GetInt(j: Json, key: string): Option<int> {
    match Get(j, key)
    case Some(JInt(n)) => Some(Clamp32(n))
    case _ => None
  }

  /** The array under key, when the field is there and is an array. */
  function GetArray(j: Json, key: string): Option<seq<Json>> {
    match Get(j, key)
    case Some(JArray(items)) => Some(items)
    case _ => None
  }
}
