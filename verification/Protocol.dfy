/** The KNoT protocol as the gateway sees it. Sizes, bit positions, type codes and the union
    layout come from protocol headers that are not part of this model: they are parameters. */
module Protocol {
  import opened Json

  type Byte = n: int | 0 <= n < 0x100
  type Word = n: int | 0 <= n < 0x1_0000

  /** C conversion of an int to an unsigned field. */
  function ToByte(n: int): Byte { n % 0x100 }
  function ToWord(n: int): Word { n % 0x1_0000 }

  datatype Result =
    | Success
    | InvalidDeviceName
    | CloudFailure
    | CredentialUnauthorized
    | SchemaEmpty
    | InvalidData
    | ErrorUnknown

  /** A knot_value_types union as the JSON parser leaves it. */
  datatype Value = Cleared | BoolValue(b: bool) | IntValue(n: int) | FloatValue(whole: int, fraction: int)

  /** Every reading of the bytes of such a union. */
  datatype Views = Views(asInt: int, asBool: bool, multiplier: int, whole: int, fraction: int)

  datatype Schema = Schema(sensorId: Byte, valueType: Byte, unit: Byte, typeId: Word, name: string)

  datatype Config = Config(sensorId: Byte, eventFlags: nat, timeSec: nat, lower: Value, upper: Value,
                           hash: Json, confirmed: bool)

  datatype Params = Params(
    headerLen: nat, messageLen: nat, credentialLen: nat, deviceIdLen: nat,
    sensorIdLen: nat, configValuesLen: nat, dataPayloadLen: nat,
    uuidLen: nat, tokenLen: nat, deviceNameLen: nat, schemaNameLen: nat,
    flagRange: nat, timeRange: nat,
    timeBit: nat, lowerBit: nat, upperBit: nat, changeBit: nat, unregisteredBit: nat,
    typeInt: Byte, typeFloat: Byte, typeBool: Byte, typeRaw: Byte,
    views: Value -> Views,
    unitMismatch: (Word, Byte, Byte) -> bool,
    looseInt: Json -> int,
    looseText: Json -> string,
    queueOnAdd: bool)
  {
    /** What the headers must satisfy for the code to be meaningful. */
    ghost predicate Valid() {
      && headerLen + credentialLen <= messageLen
      && headerLen + RESULT_LEN <= messageLen
      && 0 < schemaNameLen
      && 0 < flagRange && 0 < timeRange
      && typeInt != typeFloat && typeInt != typeBool && typeInt != typeRaw
      && typeFloat != typeBool && typeFloat != typeRaw && typeBool != typeRaw
      && views(Cleared) == Views(0, false, 0, 0, 0)
      && forall w, f :: IsInt32(w) && IsInt32(f) ==>
           var v := views(FloatValue(w, f)); v.whole == w && v.fraction == f && v.multiplier == 1
    }
  }

  const RESULT_LEN: nat := 1
  const EINVAL := 22

  datatype Kind =
    | RegisterResp | UnregisterResp | DataResp | AuthResp | SchemaResp | SchemaEndResp
    | SetConfig | SetData | GetData

  datatype Header = Header(kind: Kind, payloadLen: nat)

  /** Messages the gateway writes to a node on its own initiative. */
  datatype Message =
    | ConfigMessage(header: Header, sensorId: Byte, eventFlags: nat, timeSec: nat, lower: Value, upper: Value)
    | DataMessage(header: Header, sensorId: Byte, value: Value)
    | ItemMessage(header: Header, sensorId: Byte)

  datatype Credential = Credential(uuid: string, token: string)

  /** The C string held in a buffer: everything before the first NUL. */
  function CString(buffer: string): (s: string)
    ensures |s| <= |buffer| && s == buffer[..|s|]
    ensures '\0' !in s
    ensures |s| < |buffer| ==> buffer[|s|] == '\0'
  {
    if |buffer| == 0 || buffer[0] == '\0' then ""
    else [buffer[0]] + CString(buffer[1..])
  }

  function Zeros(n: nat): string { seq(n, i => '\0') }

  /** strncpy of a string into a zeroed buffer of size n, keeping the last byte NUL. */
  function NameBuffer(s: string, n: nat): (buffer: string)
    requires n > 0
    ensures |buffer| == n
  {
    var c := CString(s);
    var kept := if |c| < n then c else c[..n - 1];
    kept + Zeros(n - |kept|)
  }

  lemma {:induction false} CStringOfPadded(s: string, n: nat)
    requires '\0' !in s && n > 0
    ensures CString(s + Zeros(n)) == s
  {
    if |s| > 0 {
      assert (s + Zeros(n))[1..] == s[1..] + Zeros(n);
      CStringOfPadded(s[1..], n);
    }
  }

  lemma {:induction false} CStringIsItself(s: string)
    requires '\0' !in s
    ensures CString(s) == s
  {
    if |s| > 0 { CStringIsItself(s[1..]); }
  }

  function Min(a: nat, b: nat): nat { if a < b then a else b }

  /** msg_register_get_device_name: the name field, cut at its length and at one less than
      the size of the name buffer. */
  function DeviceName(p: Params, devName: string, payloadLen: nat): string {
    var room := if p.deviceNameLen == 0 then 0 else p.deviceNameLen - 1;
    var sent := if payloadLen < p.deviceIdLen then 0 else payloadLen - p.deviceIdLen;
    CString(devName[..Min(|devName|, Min(sent, room))])
  }

  /** data sent by a node, as the JSON value the cloud receives; None for an unknown type. */
  datatype CloudValue = CloudInt(n: int) | CloudDouble(x: real) | CloudBool(b: bool) | NoValue
}
