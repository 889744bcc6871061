/** What goes over the wire: replies, pushed messages, and what the cloud keeps between two
    calls of the gateway. */
module Exchange {
  import opened Json
  import opened Protocol
  import opened Sequences
  import opened Documents
  import opened ConfigRules
  import opened Draining
  import opened Engine
  import opened Readings
  import R = Requests
  import opened Tenure
  import opened SchemaHistory

  // ---- the dispatcher ------------------------------------------------------------------------

  /** A credential is handed out exactly by a successful registration. */
  lemma CredentialMeansRegistered(p: Params, s: State, sock: int, via: int, frame: Frame, answers: Answers)
    requires p.Valid()
    ensures var h := Handle(p, s, sock, via, frame, answers);
            h.credential.Some? <==> frame.request.RegisterRequest? && h.result == Success
  {}

  /** The result a request has to get, for the requests in which the cloud's credentials play no
      part. */
  ghost predicate ResultIs(s: State, sock: int, request: Request, answers: Answers, result: Result) {
    match request
    case UnregisterRequest =>
      result == if sock !in s.online then CredentialUnauthorized else if answers.removed then Success else CloudFailure
    case SchemaFragment(_, end) =>
      result == if sock !in s.online then CredentialUnauthorized
                else if end && !answers.schemaStored then CloudFailure else Success
    case DataReport(id, _) =>
      && (sock !in s.online ==> result == CredentialUnauthorized)
      && (Mapped(s, sock) && (forall n :: 0 <= n < |TrustOf(s, sock).schema| ==> TrustOf(s, sock).schema[n].sensorId != id) ==>
            result == InvalidData)
    case UnknownRequest => result == InvalidData
    case _ => true
  }

  lemma HandledResult(p: Params, s: State, sock: int, via: int, frame: Frame, answers: Answers)
    requires p.Valid() && (sock in s.online ==> Mapped(s, sock))
    ensures ResultIs(s, sock, frame.request, answers, Handle(p, s, sock, via, frame, answers).result)
  {}

  /** A request is refused without effect when it is incomplete or there is no room; a response is
      swallowed; any other known request is answered by the reply of its own kind, within the
      output buffer, with a lone result unless it registered. */
  lemma DispatcherAnswers(p: Params, s: State, sock: int, via: int, frame: Frame, answers: Answers)
    requires p.Valid() && (sock in s.online ==> Mapped(s, sock))
    ensures var e, request := Process(p, s, sock, via, frame, answers), frame.request;
      if frame.room < p.messageLen || frame.length < p.headerLen || frame.length != p.headerLen + frame.payloadLen then
        e == Effect(s, [], -22, None, [])
      else if request.ConfigResponse? || request.DataResponse? then
        e.octets == 0 && e.reply.None?
      else
        && e.reply.Some?
        && e.octets == p.headerLen + e.reply.value.payloadLen <= frame.room
        && (request.RegisterRequest? ==> e.reply.value.kind == Some(RegisterResp))
        && (request.UnregisterRequest? ==> e.reply.value.kind == Some(UnregisterResp))
        && (request.AuthRequest? ==> e.reply.value.kind == Some(AuthResp))
        && (request.SchemaFragment? && !request.end ==> e.reply.value.kind == Some(SchemaResp))
        && (request.SchemaFragment? && request.end ==> e.reply.value.kind == Some(SchemaEndResp))
        && (request.DataReport? ==> e.reply.value.kind == Some(DataResp))
        && ResultIs(s, sock, request, answers, e.reply.value.result)
        && (if request.RegisterRequest? && e.reply.value.result == Success
            then e.reply.value.credential.Some? && e.reply.value.payloadLen == p.credentialLen
            else e.reply.value.credential.None? && e.reply.value.payloadLen == 1)
  {
    CredentialMeansRegistered(p, s, sock, via, frame, answers);
    HandledResult(p, s, sock, via, frame, answers);
  }

  // ---- messages pushed to a node ---------------------------------------------------------------

  /** For every document, a mapped node is written the changed configurations, then the
      pending writes, then the pending reads. Each part is the image of its JSON array entry
      by entry, with its own header; a list with one entry that cannot be read contributes
      nothing, and the other parts still go out. */
  lemma PushOrder(p: Params, s: State, sock: int, doc: Json) returns (configs: seq<Message>, writes: seq<Message>, queries: seq<Message>)
    requires Mapped(s, sock)
    ensures IsConfigImage(p, ReceivedConfig(p, doc), TrustOf(s, sock).config, configs)
    ensures IsWriteImage(p, GetArray(doc, "set_data"), writes)
    ensures IsQueryImage(p, GetArray(doc, "get_data"), queries)
    ensures Push(p, s, sock, doc).pushed == configs + (writes + queries)
  {
    configs := ConfigPart(p, s, sock, doc);
    writes, queries := SetDataMessages(p, doc), GetDataMessages(p, doc);
    WriteImage(p, doc);
    QueryImage(p, doc);
  }

  lemma ConfigPart(p: Params, s: State, sock: int, doc: Json) returns (configs: seq<Message>)
    requires Mapped(s, sock)
    ensures IsConfigImage(p, ReceivedConfig(p, doc), TrustOf(s, sock).config, configs)
    ensures Push(p, s, sock, doc).pushed == configs + (SetDataMessages(p, doc) + GetDataMessages(p, doc))
  {
    match ReceivedConfig(p, doc) {
      case None =>
        configs := [];
        assert [] + (SetDataMessages(p, doc) + GetDataMessages(p, doc)) == SetDataMessages(p, doc) + GetDataMessages(p, doc);
      case Some(list) => configs := ConfigMessages(p, Keep(list, NotWithheld(TrustOf(s, sock).config)));
    }
  }

  /** The changed configurations of a list that passes, in order, or none. */
  ghost predicate IsConfigImage(p: Params, received: Option<seq<Config>>, stored: seq<Config>, configs: seq<Message>) {
    match received
    case None => configs == []
    case Some(list) =>
      var changed := Keep(list, NotWithheld(stored));
      && |configs| == |changed|
      && forall i :: 0 <= i < |changed| ==>
           configs[i] == ConfigMessage(Header(SetConfig, p.sensorIdLen + p.configValuesLen), changed[i].sensorId,
                                       changed[i].eventFlags, changed[i].timeSec, changed[i].lower, changed[i].upper)
  }

  /** The writes for a list: all of them, in order, or none. */
  ghost predicate IsWriteImage(p: Params, list: Option<seq<Json>>, writes: seq<Message>) {
    match list
    case None => writes == []
    case Some(items) =>
      if forall i :: 0 <= i < |items| ==> IsWriteEntry(items[i]) then
        && |writes| == |items|
        && forall i :: 0 <= i < |items| ==> IsWriteMessage(p, items[i], writes[i])
      else writes == []
  }

  ghost predicate IsWriteMessage(p: Params, j: Json, m: Message) {
    && m.DataMessage? && m.header == Header(SetData, p.sensorIdLen + p.dataPayloadLen)
    && m.sensorId == SensorOf(j) && IsValueUnder(j, "value", m.value)
  }

  /** The reads for a list: all of them, in order, or none. */
  ghost predicate IsQueryImage(p: Params, list: Option<seq<Json>>, queries: seq<Message>) {
    match list
    case None => queries == []
    case Some(items) =>
      if WellFormed(items) then
        && |queries| == |items|
        && forall i :: 0 <= i < |items| ==>
             queries[i] == ItemMessage(Header(GetData, p.sensorIdLen), ToByte(IdOf(items[i])))
      else queries == []
  }

  lemma WriteImage(p: Params, doc: Json)
    ensures IsWriteImage(p, GetArray(doc, "set_data"), SetDataMessages(p, doc))
  {
    if GetArray(doc, "set_data").Some? {
      var items := GetArray(doc, "set_data").value;
      forall i | 0 <= i < |items|
        ensures SetDataItem()(items[i]).Some? <==> IsWriteEntry(items[i])
        ensures IsWriteEntry(items[i]) ==> IsWriteMessage(p, items[i], DataMessageOf(p, SetDataItem()(items[i]).value))
      {
        WriteEntryRead(items[i]);
      }
    }
  }

  lemma QueryImage(p: Params, doc: Json)
    ensures IsQueryImage(p, GetArray(doc, "get_data"), GetDataMessages(p, doc))
  {
    if GetArray(doc, "get_data").Some? { ForwardedIsParsed(GetArray(doc, "get_data").value); }
  }

  // ---- data and the schema it is read by ----------------------------------------------------------

  /** The call publishes the request's data, read as the type that the first entry for the sensor
      declares. */
  predicate Publishes(p: Params, list: seq<Schema>, e: Event, call: Call)
    requires p.Valid()
  {
    && e.Pdu? && call.sock == e.sock && call.action.PutData?
    && (e.frame.request.DataReport? || e.frame.request.DataResponse?)
    && call.action.sensorId == e.frame.request.sensorId
    && var n := First(list, ForSchema(call.action.sensorId));
    && n < |list|
    && !p.unitMismatch(list[n].typeId, list[n].valueType, list[n].unit)
    && R.ReadsAs(p, list[n].valueType, e.frame.request.data, Some(call.action.value))
  }

  lemma UpdatesPublishNothing(p: Params, sock: int, via: int, c: Credential, key: string, id: Byte, fetched: Option<Json>)
    ensures forall call :: call in UpdateListCalls(p, sock, via, c, key, id, fetched) ==> !call.action.PutData?
  {}

  lemma PrintedForSensor(p: Params, trust: Trust, id: Byte, data: Views)
    requires p.Valid()
    ensures UsableSchema(p, trust, id).Some? ==>
      var x := UsableSchema(p, trust, id).value;
      R.ReadsAs(p, x.valueType, data, PrintData(p, x.valueType, data))
  {
    if UsableSchema(p, trust, id).Some? { R.PrintedIs(p, UsableSchema(p, trust, id).value.valueType, data); }
  }

  lemma HandlePublishes(p: Params, s: State, e: Event, call: Call)
    requires p.Valid() && e.Pdu? && call.action.PutData?
    requires call in Handle(p, s, e.sock, e.via, e.frame, e.answers).calls
    ensures Mapped(s, e.sock) && Publishes(p, TrustOf(s, e.sock).schema, e, call)
  {
    match e.frame.request {
      case DataReport(id, data) =>
        if Mapped(s, e.sock) {
          PrintedForSensor(p, TrustOf(s, e.sock), id, data);
          UpdatesPublishNothing(p, e.sock, e.via, TrustOf(s, e.sock).credential, "get_data", id, e.answers.fetched);
        }
      case DataResponse(id, data) =>
        if Mapped(s, e.sock) {
          PrintedForSensor(p, TrustOf(s, e.sock), id, data);
          UpdatesPublishNothing(p, e.sock, e.via, TrustOf(s, e.sock).credential, "set_data", id, e.answers.fetched);
        }
      case _ =>
    }
  }

  lemma StepPublishes(p: Params, s: State, e: Event, call: Call)
    requires p.Valid() && call in Step(p, s, e).calls && call.action.PutData?
    ensures Mapped(s, call.sock) && Publishes(p, TrustOf(s, call.sock).schema, e, call)
  {
    if e.Pdu? && call in Handle(p, s, e.sock, e.via, e.frame, e.answers).calls { HandlePublishes(p, s, e, call); }
  }

  /** A schema with entries is the one last committed, even when no queue is ever created. */
  lemma SchemaInUse(p: Params, es: seq<Event>, ss: seq<State>, k: nat, sock: int) returns (i: nat)
    requires IsRun(p, es, ss) && k <= |es| && Mapped(ss[k], sock) && TrustOf(ss[k], sock).schema != []
    ensures Origin(p, es, ss, i, k, sock)
    ensures TrustOf(ss[k], sock).schema == Visible(p, es, sock, i + 1, k, Installed(p, es[i]).schema)
  {
    i := SchemaCommit(p, es, ss, k, sock);
    if !p.queueOnAdd {
      HistoryFrom(p, es, ss, i, k, sock);
      WithoutQueueNothingIsKept(p, es, sock, Installed(p, es[i]), i + 1, k);
    }
  }

  /** Whatever is published for a socket, in any run, is for a sensor of the schema that its
      node last committed, with an acceptable unit, and is the node's data read as the type
      declared there. */
  lemma DataFollowsSchema(p: Params, es: seq<Event>, ss: seq<State>, k: nat, call: Call) returns (i: nat)
    requires IsRun(p, es, ss) && k < |es|
    requires call in Step(p, ss[k], es[k]).calls && call.action.PutData?
    ensures Origin(p, es, ss, i, k, call.sock)
    ensures Publishes(p, Visible(p, es, call.sock, i + 1, k, Installed(p, es[i]).schema), es[k], call)
  {
    StepPublishes(p, ss[k], es[k], call);
    i := SchemaInUse(p, es, ss, k, call.sock);
  }

  // ---- pending lists drained by answers ------------------------------------------------------------

  /** The list the cloud keeps under a key for a device, after some calls of the gateway. */
  function StoredAfter(c: Credential, key: string, items: seq<Json>, calls: seq<Call>): seq<Json> {
    if |calls| == 0 then items
    else
      var before := StoredAfter(c, key, items, calls[..|calls| - 1]);
      match calls[|calls| - 1].action
      case PutList(d, doc) =>
        if d == c && GetArray(doc, key).Some? then GetArray(doc, key).value else before
      case _ => before
  }

  /** The sensor a node answers for, with the list of a device it concerns: a data report
      takes its sensor off "get_data", a data response off "set_data". */
  function AnsweredSensor(p: Params, s: State, e: Event, c: Credential, key: string): Option<Byte> {
    if !e.Pdu? || Rejected(p, e.frame) || !Mapped(s, e.sock) || TrustOf(s, e.sock).credential != c then None
    else
      match e.frame.request
      case DataReport(id, _) =>
        if key == "get_data" && UsableSchema(p, TrustOf(s, e.sock), id).Some? then Some(id) else None
      case DataResponse(id, _) =>
        if key == "set_data" && UsableSchema(p, TrustOf(s, e.sock), id).Some? then Some(id) else None
      case _ => None
  }

  lemma StoredByUpdate(p: Params, sock: int, via: int, c: Credential, key: string, items: seq<Json>, id: Byte, doc: Json)
    requires GetArray(doc, key) == Some(items)
    ensures var calls := UpdateListCalls(p, sock, via, c, key, id, Some(doc));
            && |calls| == 2 && calls[0].action == Fetch(c)
            && calls[1].action.PutList? && calls[1].action.credential == c
            && GetArray(calls[1].action.doc, key) == Some(Remaining(p, items, id))
  {
    FieldAt([(key, JArray(Remaining(p, items, id)))], 0);
  }

  /** With a cloud that returns the list it keeps, an answer leaves what Remaining says. */
  lemma AnswerIsStored(p: Params, s: State, e: Event, c: Credential, key: string, id: Byte, items: seq<Json>)
    requires p.Valid() && AnsweredSensor(p, s, e, c, key) == Some(id)
    requires e.answers.fetched.Some? && GetArray(e.answers.fetched.value, key) == Some(items)
    ensures StoredAfter(c, key, items, Step(p, s, e).calls) == Remaining(p, items, id)
  {
    StoredByUpdate(p, e.sock, e.via, c, key, items, id, e.answers.fetched.value);
    var x := UsableSchema(p, TrustOf(s, e.sock), id).value;
    var update := UpdateListCalls(p, e.sock, e.via, c, key, id, e.answers.fetched);
    var value := PrintData(p, x.valueType, e.frame.request.data);
    var store := StoreCalls(e.sock, e.via, c, id, value);
    var calls := Step(p, s, e).calls;
    if e.frame.request.DataReport? {
      assert calls == store + update;
      assert calls[|calls| - 1] == update[1];
    } else {
      assert calls == update + store;
      LastPut(c, key, items, update, store);
    }
  }

  lemma LastPut(c: Credential, key: string, items: seq<Json>, update: seq<Call>, store: seq<Call>)
    requires |update| == 2 && update[1].action.PutList? && update[1].action.credential == c
    requires GetArray(update[1].action.doc, key).Some?
    requires |store| <= 1 && forall i :: 0 <= i < |store| ==> store[i].action.PutData?
    ensures StoredAfter(c, key, items, update + store) == GetArray(update[1].action.doc, key).value
  {
    if |store| == 0 {
      assert update + store == update;
    } else {
      assert (update + store)[..2] == update;
      assert (update + store)[2] == store[0];
    }
  }

  /** The sensors of a device answered by the first k events of a run, in order. */
  function AnsweredBy(p: Params, es: seq<Event>, ss: seq<State>, c: Credential, key: string, k: nat): seq<Byte>
    requires k <= |es| && |ss| == |es| + 1
  {
    if k == 0 then []
    else
      var before := AnsweredBy(p, es, ss, c, key, k - 1);
      match AnsweredSensor(p, ss[k - 1], es[k - 1], c, key)
      case None => before
      case Some(id) => before + [id]
  }

  /** A cloud that keeps what was last written under a key: an answer is given the list as it
      stands, and the gateway's own writes are all that changes it. */
  ghost predicate KeepsAt(p: Params, s: State, e: Event, c: Credential, key: string, before: seq<Json>, after: seq<Json>)
    requires p.Valid()
  {
    && (AnsweredSensor(p, s, e, c, key).Some? ==>
          e.answers.fetched.Some? && GetArray(e.answers.fetched.value, key) == Some(before))
    && after == StoredAfter(c, key, before, Step(p, s, e).calls)
  }

  ghost predicate Keeps(p: Params, es: seq<Event>, ss: seq<State>, c: Credential, key: string, lists: seq<seq<Json>>)
    requires p.Valid()
  {
    && |ss| == |lists| == |es| + 1
    && forall k :: 0 <= k < |es| ==> KeepsFrom(p, es, ss, c, key, lists, k)
  }

  ghost predicate KeepsFrom(p: Params, es: seq<Event>, ss: seq<State>, c: Credential, key: string, lists: seq<seq<Json>>, k: nat)
    requires p.Valid() && k < |es| && |ss| == |lists| == |es| + 1
  {
    KeepsAt(p, ss[k], es[k], c, key, lists[k], lists[k + 1])
  }

  /** Any other event leaves the list alone. */
  lemma OthersStoreNothing(p: Params, s: State, e: Event, c: Credential, key: string, items: seq<Json>)
    requires p.Valid()
    requires AnsweredSensor(p, s, e, c, key).None?
    ensures StoredAfter(c, key, items, Step(p, s, e).calls) == items
  {
    var calls := Step(p, s, e).calls;
    forall i | 0 <= i < |calls| ensures !Writes(c, key, calls[i]) { NoWrite(p, s, e, c, key, calls[i]); }
    NoWritesNoChange(c, key, items, calls);
  }

  predicate Writes(c: Credential, key: string, call: Call) {
    call.action.PutList? && call.action.credential == c && GetArray(call.action.doc, key).Some?
  }

  lemma {:induction false} NoWritesNoChange(c: Credential, key: string, items: seq<Json>, calls: seq<Call>)
    requires forall i :: 0 <= i < |calls| ==> !Writes(c, key, calls[i])
    ensures StoredAfter(c, key, items, calls) == items
  {
    if |calls| > 0 { NoWritesNoChange(c, key, items, calls[..|calls| - 1]); }
  }

  lemma NoWrite(p: Params, s: State, e: Event, c: Credential, key: string, call: Call)
    requires p.Valid()
    requires AnsweredSensor(p, s, e, c, key).None? && call in Step(p, s, e).calls
    ensures !Writes(c, key, call)
  {
    if Writes(c, key, call) { PutListOrigin(p, s, e, call, key); }
  }

  /** A list is only written for an answer of the trusted node, under the key of its kind. */
  lemma PutListOrigin(p: Params, s: State, e: Event, call: Call, key: string)
    requires p.Valid() && call in Step(p, s, e).calls && call.action.PutList? && GetArray(call.action.doc, key).Some?
    ensures AnsweredSensor(p, s, e, call.action.credential, key).Some?
  {
    assert e.Pdu? && !Rejected(p, e.frame);
    assert call in Handle(p, s, e.sock, e.via, e.frame, e.answers).calls;
    match e.frame.request {
      case DataReport(id, data) => ReportPuts(p, s, e, call, key);
      case DataResponse(id, data) => ResponsePuts(p, s, e, call, key);
      case _ => assert false;
    }
  }

  lemma UpdatePuts(p: Params, sock: int, via: int, c: Credential, own: string, id: Byte, fetched: Option<Json>, call: Call, key: string)
    requires call in UpdateListCalls(p, sock, via, c, own, id, fetched) && call.action.PutList?
    requires GetArray(call.action.doc, key).Some?
    ensures key == own && call.action.credential == c
  {
    var fields := call.action.doc.fields;
    assert |fields| == 1 && fields[0].0 == own && FieldOf(fields[1..], key) == None;
  }

  lemma ReportPuts(p: Params, s: State, e: Event, call: Call, key: string)
    requires e.Pdu? && !Rejected(p, e.frame) && e.frame.request.DataReport?
    requires call in ReportData(p, s, e.sock, e.via, e.frame.request.sensorId, e.frame.request.data, e.answers).calls
    requires call.action.PutList? && GetArray(call.action.doc, key).Some?
    ensures AnsweredSensor(p, s, e, call.action.credential, key).Some?
  {
    UpdatePuts(p, e.sock, e.via, TrustOf(s, e.sock).credential, "get_data", e.frame.request.sensorId, e.answers.fetched, call, key);
  }

  lemma ResponsePuts(p: Params, s: State, e: Event, call: Call, key: string)
    requires e.Pdu? && !Rejected(p, e.frame) && e.frame.request.DataResponse?
    requires call in AnswerData(p, s, e.sock, e.via, e.frame.request.sensorId, e.frame.request.data, e.answers).calls
    requires call.action.PutList? && GetArray(call.action.doc, key).Some?
    ensures AnsweredSensor(p, s, e, call.action.credential, key).Some?
  {
    UpdatePuts(p, e.sock, e.via, TrustOf(s, e.sock).credential, "set_data", e.frame.request.sensorId, e.answers.fetched, call, key);
  }

  /** Over any run against such a cloud, a list that was well formed at the start is at every
      moment exactly its entries for the sensors not answered so far, in their order. */
  lemma {:induction false} ListsDrain(p: Params, es: seq<Event>, ss: seq<State>, c: Credential, key: string,
                                      lists: seq<seq<Json>>, k: nat)
    requires IsRun(p, es, ss) && Keeps(p, es, ss, c, key, lists) && k <= |es|
    requires WellFormed(lists[0])
    ensures lists[k] == Keep(lists[0], NotAmong(AnsweredBy(p, es, ss, c, key, k)))
  {
    ListsFollow(p, es, ss, c, key, lists, k);
    AnswersDrain(p, lists[0], AnsweredBy(p, es, ss, c, key, k));
  }

  lemma {:induction false} ListsFollow(p: Params, es: seq<Event>, ss: seq<State>, c: Credential, key: string,
                                       lists: seq<seq<Json>>, k: nat)
    requires IsRun(p, es, ss) && Keeps(p, es, ss, c, key, lists) && k <= |es|
    ensures lists[k] == AfterAnswers(p, lists[0], AnsweredBy(p, es, ss, c, key, k))
  {
    if k > 0 {
      ListsFollow(p, es, ss, c, key, lists, k - 1);
      ListStep(p, es, ss, c, key, lists, k - 1);
      var before := AnsweredBy(p, es, ss, c, key, k - 1);
      match AnsweredSensor(p, ss[k - 1], es[k - 1], c, key) {
        case None =>
        case Some(id) => assert (before + [id])[..|before|] == before;
      }
    }
  }

  lemma ListStep(p: Params, es: seq<Event>, ss: seq<State>, c: Credential, key: string, lists: seq<seq<Json>>, k: nat)
    requires p.Valid() && Keeps(p, es, ss, c, key, lists) && k < |es|
    ensures lists[k + 1] == match AnsweredSensor(p, ss[k], es[k], c, key)
                            case None => lists[k]
                            case Some(id) => Remaining(p, lists[k], id)
  {
    assert KeepsFrom(p, es, ss, c, key, lists, k);
    match AnsweredSensor(p, ss[k], es[k], c, key) {
      case None => OthersStoreNothing(p, ss[k], es[k], c, key, lists[k]);
      case Some(id) => AnswerIsStored(p, ss[k], es[k], c, key, id, lists[k]);
    }
  }
}
