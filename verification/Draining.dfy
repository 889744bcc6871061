/** The lists of pending writes and reads the cloud keeps for a device, and how each answer
    of the node removes its sensor from them. */
module Draining {
  import opened Json
  import opened Protocol
  import opened Sequences
  import opened Documents

  /** json_object_get_int on any value: json-c's own conversions for the other types. */
  function LooseInt(p: Params, j: Json): int {
    match j
    case JInt(n) => Clamp32(n)
    case _ => p.looseInt(j)
  }

  predicate Stays(p: Params, entry: Json, sensorId: Byte) {
    match Get(entry, "sensor_id")
    case None => false
    case Some(id) => LooseInt(p, id) != sensorId
  }

  /** What update_device_getdata and update_device_setdata write back: the walk stops at a
      null entry and loses the entries that have no sensor_id. */
  function Remaining(p: Params, items: seq<Json>, sensorId: Byte): seq<Json> {
    if |items| == 0 || items[0].JNull? then []
    else (if Stays(p, items[0], sensorId) then [items[0]] else []) + Remaining(p, items[1..], sensorId)
  }

  method RemoveSensor(p: Params, items: seq<Json>, sensorId: Byte) returns (rest: seq<Json>)
    ensures rest == Remaining(p, items, sensorId)
  {
    rest := [];
    var i := 0;
    while i < |items|
      invariant 0 <= i <= |items|
      invariant rest + Remaining(p, items[i..], sensorId) == Remaining(p, items, sensorId)
    {
      assert items[i..][1..] == items[i + 1..];
      if items[i].JNull? { return; }
      if Stays(p, items[i], sensorId) { rest := rest + [items[i]]; }
      i := i + 1;
    }
  }

  function IsNull(): Json -> bool { (j: Json) => j.JNull? }

  /** An entry that is kept: it has a sensor_id, which does not count as the answered one. */
  predicate IsKept(p: Params, entry: Json, sensorId: Byte) {
    match Get(entry, "sensor_id")
    case None => false
    case Some(JInt(n)) => n != sensorId
    case Some(j) => p.looseInt(j) != sensorId
  }

  function KeptFor(p: Params, sensorId: Byte): Json -> bool { (j: Json) => IsKept(p, j, sensorId) }

  /** For any list, well formed or not: what is written back is, in order, the entries before the
      first null that have another sensor_id. */
  lemma {:induction false} RemainingOfAnyList(p: Params, items: seq<Json>, sensorId: Byte)
    ensures Remaining(p, items, sensorId) == Keep(items[..First(items, IsNull())], KeptFor(p, sensorId))
  {
    var m := First(items, IsNull());
    if |items| > 0 && !items[0].JNull? {
      RemainingOfAnyList(p, items[1..], sensorId);
      assert m == 1 + First(items[1..], IsNull());
      assert items[..m][1..] == items[1..][..m - 1] && items[..m][0] == items[0];
      KeepFromFront(items[..m], KeptFor(p, sensorId));
    } else {
      assert items[..m] == [];
    }
  }

  /** The document handed to setdata, when the list can be fetched and is an array. */
  function UpdatedList(p: Params, fetched: Option<Json>, key: string, sensorId: Byte): Option<Json> {
    match fetched
    case None => None
    case Some(doc) =>
      match GetArray(doc, key)
      case None => None
      case Some(items) => Some(JObject([(key, JArray(Remaining(p, items, sensorId)))]))
  }

  // ---- well-formed lists -----------------------------------------------------------

  predicate WellFormed(items: seq<Json>) {
    forall i :: 0 <= i < |items| ==> GetInt(items[i], "sensor_id").Some?
  }

  function IdOf(entry: Json): int {
    match GetInt(entry, "sensor_id")
    case Some(id) => id
    case None => 0
  }

  function NotSensor(id: int): Json -> bool { (entry: Json) => IdOf(entry) != id }

  function NotAmong(ids: seq<Byte>): Json -> bool { (entry: Json) => IdOf(entry) !in ids }

  lemma StaysMeans(p: Params, entry: Json, id: Byte)
    requires GetInt(entry, "sensor_id").Some?
    ensures Stays(p, entry, id) == NotSensor(id)(entry)
  {}

  lemma {:induction false} RemovalFilters(p: Params, items: seq<Json>, id: Byte)
    requires WellFormed(items)
    ensures Remaining(p, items, id) == Keep(items, NotSensor(id))
  {
    if |items| > 0 {
      StaysMeans(p, items[0], id);
      RemovalFilters(p, items[1..], id);
      KeepFromFront(items, NotSensor(id));
    }
  }

  lemma RemovalKeepsForm(p: Params, items: seq<Json>, id: Byte)
    requires WellFormed(items)
    ensures WellFormed(Remaining(p, items, id))
  {
    RemovalFilters(p, items, id);
    forall i | 0 <= i < |Remaining(p, items, id)|
      ensures GetInt(Remaining(p, items, id)[i], "sensor_id").Some?
    {
      KeepMembers(items, NotSensor(id), Remaining(p, items, id)[i]);
    }
  }

  /** The list after the cloud stored the result of each answer in turn. */
  function AfterAnswers(p: Params, items: seq<Json>, ids: seq<Byte>): seq<Json> {
    if |ids| == 0 then items
    else Remaining(p, AfterAnswers(p, items, ids[..|ids| - 1]), ids[|ids| - 1])
  }

  /** Answering sensors, in any order and with repetitions, leaves exactly the entries of the
      sensors not answered, in their original order. */
  lemma {:induction false} AnswersDrain(p: Params, items: seq<Json>, ids: seq<Byte>)
    requires WellFormed(items)
    ensures AfterAnswers(p, items, ids) == Keep(items, NotAmong(ids))
    ensures WellFormed(AfterAnswers(p, items, ids))
  {
    if |ids| == 0 {
      KeepAll(items, NotAmong(ids));
    } else {
      var init, last := ids[..|ids| - 1], ids[|ids| - 1];
      AnswersDrain(p, items, init);
      RemovalFilters(p, AfterAnswers(p, items, init), last);
      RemovalKeepsForm(p, AfterAnswers(p, items, init), last);
      assert ids == init + [last];
      KeepTwice(items, NotAmong(init), NotSensor(last), NotAmong(ids));
    }
  }

  /** Two removals commute. */
  lemma RemovalsCommute(p: Params, items: seq<Json>, a: Byte, b: Byte)
    requires WellFormed(items)
    ensures Remaining(p, Remaining(p, items, a), b) == Remaining(p, Remaining(p, items, b), a)
  {
    RemovalKeepsForm(p, items, a);
    RemovalKeepsForm(p, items, b);
    RemovalFilters(p, items, a);
    RemovalFilters(p, items, b);
    RemovalFilters(p, Remaining(p, items, a), b);
    RemovalFilters(p, Remaining(p, items, b), a);
    KeepTwice(items, NotSensor(a), NotSensor(b), NotAmong([a, b]));
    KeepTwice(items, NotSensor(b), NotSensor(a), NotAmong([a, b]));
  }

  /** Only the set of answered sensors matters. */
  lemma AnswersInAnyOrder(p: Params, items: seq<Json>, ids: seq<Byte>, other: seq<Byte>)
    requires WellFormed(items)
    requires forall id :: id in ids <==> id in other
    ensures AfterAnswers(p, items, ids) == AfterAnswers(p, items, other)
  {
    AnswersDrain(p, items, ids);
    AnswersDrain(p, items, other);
    forall x | x in items ensures NotAmong(ids)(x) == NotAmong(other)(x) { SameMembership(ids, other, IdOf(x)); }
    KeepAgrees(items, NotAmong(ids), NotAmong(other));
  }

  lemma SameMembership(ids: seq<Byte>, other: seq<Byte>, n: int)
    requires forall id :: id in ids <==> id in other
    ensures n in ids <==> n in other
  {
    if n in ids { var b: Byte :| b == n && b in ids; assert b in other; }
    if n in other { var b: Byte :| b == n && b in other; assert b in ids; }
  }

  /** The list only gets shorter, and does so exactly when the answered sensor was on it. */
  lemma RemovalShrinks(p: Params, items: seq<Json>, id: Byte)
    requires WellFormed(items)
    ensures |Remaining(p, items, id)| <= |items|
    ensures |Remaining(p, items, id)| < |items| <==> exists i :: 0 <= i < |items| && IdOf(items[i]) == id
  {
    RemovalFilters(p, items, id);
    KeepShrinks(items, NotSensor(id));
    if x: Json :| x in items && !NotSensor(id)(x) {
      var i :| 0 <= i < |items| && items[i] == x;
      assert IdOf(items[i]) == id;
    } else {
      forall i | 0 <= i < |items| ensures IdOf(items[i]) != id { assert items[i] in items; assert NotSensor(id)(items[i]); }
    }
  }

  /** The sensors named in the messages sent to the node: ids cut to a byte. */
  function Forwarded(items: seq<Json>): seq<Byte> {
    seq(|items|, i requires 0 <= i < |items| => ToByte(IdOf(items[i])))
  }

  /** Once the node has answered every forwarded sensor, the entries left are exactly those
      whose id is no answered byte; none is left iff every listed id is between 0 and 255. */
  lemma AnsweringAllEmpties(p: Params, items: seq<Json>, ids: seq<Byte>)
    requires WellFormed(items)
    requires forall id :: id in ids <==> id in Forwarded(items)
    ensures AfterAnswers(p, items, ids) == [] <==>
            forall i :: 0 <= i < |items| ==> 0 <= IdOf(items[i]) <= 255
  {
    AnswersDrain(p, items, ids);
    var rest := AfterAnswers(p, items, ids);
    if rest == [] {
      forall i | 0 <= i < |items| ensures 0 <= IdOf(items[i]) <= 255 {
        KeepMembers(items, NotAmong(ids), items[i]);
        assert IdOf(items[i]) in ids;
      }
    } else {
      KeepMembers(items, NotAmong(ids), rest[0]);
      var i :| 0 <= i < |items| && items[i] == rest[0];
      assert IdOf(items[i]) !in ids && Forwarded(items)[i] in ids;
      assert IdOf(items[i]) != ToByte(IdOf(items[i]));
    }
  }

  /** A list of read requests reaches the node whole, as its ids cut to bytes, exactly when
      it is well formed. */
  lemma ForwardedIsParsed(items: seq<Json>)
    ensures ParseAll(items, GetDataItem()) == if WellFormed(items) then Some(Forwarded(items)) else None
  {
    if WellFormed(items) {
      ParseAllIs(items, GetDataItem(), Forwarded(items));
    } else {
      var i :| 0 <= i < |items| && GetInt(items[i], "sensor_id").None?;
      assert GetDataItem()(items[i]).None?;
    }
  }
}
