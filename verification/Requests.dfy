/** What a node is answered, what the cloud is asked and what is kept, request by request, said
    of the fields of the request and of the cloud's answer. */
module Requests {
  import opened Json
  import opened Protocol
  import opened Sequences
  import opened Decimal
  import opened Documents
  import opened Draining
  import opened Engine
  import opened Ownership

  /** A PDU that is long enough, as long as it says, and leaves room for a reply. */
  predicate Complete(p: Params, e: Event) {
    && e.Pdu? && e.frame.room >= p.messageLen && e.frame.length >= p.headerLen
    && e.frame.length == p.headerLen + e.frame.payloadLen
  }

  /** A reply that carries a result and nothing else. */
  predicate Replies(p: Params, r: Effect, kind: Kind, result: Result) {
    r.reply == Some(Reply(Some(kind), result, None, 1)) && r.octets == p.headerLen + 1 && r.pushed == []
  }

  /** Nothing is kept and nothing is asked. */
  predicate LeavesAlone(s: State, r: Effect) { r.state == s && r.calls == [] }

  predicate NoFault(s: State, sock: int) { sock in s.online ==> Mapped(s, sock) }

  lemma CompleteIsHandled(p: Params, s: State, e: Event)
    requires p.Valid() && Complete(p, e) && NoFault(s, e.sock) && !IsResponse(e.frame.request)
    ensures var h := Handle(p, s, e.sock, e.via, e.frame, e.answers);
            var r := Step(p, s, e);
      && r.state == h.state && r.calls == h.calls && r.pushed == []
      && r.octets == p.headerLen + (if h.credential.Some? then p.credentialLen else 1)
      && r.reply == Some(Reply(ReplyKind(e.frame.request), h.result, h.credential,
                               if h.credential.Some? then p.credentialLen else 1))
  {}

  /** An incomplete PDU is refused without effect. */
  lemma IncompleteIsRefused(p: Params, s: State, e: Event)
    requires p.Valid() && e.Pdu?
    ensures !Complete(p, e) ==> Step(p, s, e) == Effect(s, [], -22, None, [])
  {}

  // ---- registration ------------------------------------------------------------------------

  /** The request has a name after its identifier. */
  predicate Named(p: Params, e: Event) {
    && e.Pdu? && e.frame.request.RegisterRequest?
    && e.frame.length > p.headerLen + p.deviceIdLen
    && |e.frame.request.devName| > 0 && e.frame.request.devName[0] != '\0'
  }

  /** The socket already has a trust of this device and this peer. */
  predicate Repeats(s: State, e: Event) {
    && e.Pdu? && e.frame.request.RegisterRequest?
    && e.sock in s.online && s.online[e.sock] in s.trusts
    && s.trusts[s.online[e.sock]].deviceId == e.frame.request.deviceId
    && s.trusts[s.online[e.sock]].pid == e.answers.pid
  }

  /** The value under a key, as text. */
  predicate HasText(p: Params, doc: Json, key: string, text: string) {
    match Get(doc, key)
    case None => false
    case Some(JString(t)) => text == t
    case Some(j) => text == p.looseText(j)
  }

  /** The name: the field up to its terminator, cut at the length sent and to fit the buffer. */
  predicate IsNameSent(p: Params, e: Event, name: string)
    requires Named(p, e)
  {
    var field := e.frame.request.devName;
    && |name| <= |field| && name == field[..|name|] && '\0' !in name
    && |name| <= Limit(p, e)
    && (|name| == |field| || |name| == Limit(p, e) || field[|name|] == '\0')
  }

  function Limit(p: Params, e: Event): nat
    requires Named(p, e)
  {
    var sent := if e.frame.payloadLen < p.deviceIdLen then 0 else e.frame.payloadLen - p.deviceIdLen;
    var room := if p.deviceNameLen == 0 then 0 else p.deviceNameLen - 1;
    if sent < room then sent else room
  }

  lemma NameIsSent(p: Params, e: Event)
    requires Named(p, e)
    ensures IsNameSent(p, e, DeviceName(p, e.frame.request.devName, e.frame.payloadLen))
  {
    var field := e.frame.request.devName;
    var cut := field[..Min(|field|, Limit(p, e))];
    var name := CString(cut);
    assert DeviceName(p, field, e.frame.payloadLen) == name;
    assert name == cut[..|name|] == field[..|name|];
  }

  /** The call that asks the cloud for a device. */
  predicate AsksForDevice(p: Params, e: Event, call: Call)
    requires Named(p, e)
  {
    && call.sock == e.sock && call.via == e.via && call.action.MakeNode?
    && call.action.deviceId == e.frame.request.deviceId && IsNameSent(p, e, call.action.name)
  }

  /** The state with a new trust on the socket, held by its entry, its channel and its watch. */
  ghost predicate Gains(s: State, r: State, sock: int, trust: Trust) {
    && s.next !in s.trusts
    && r.online == s.online[sock := s.next]
    && r.channels == s.channels[s.next := Channel(sock, s.next, true)]
    && r.watches == s.watches[s.next := Watch(s.next, s.next)]
    && s.next in r.trusts && r.trusts[s.next] == trust && r.next == s.next + 1
  }

  lemma CreateGains(s: State, sock: int, trust: Trust)
    requires Inv(s)
    ensures Gains(s, TrustCreate(s, sock, trust), sock, trust.(refs := 3, watch := Some(s.next)))
  {
    CreateIs(s, sock, trust);
  }

  lemma NamelessIsRefused(p: Params, s: State, e: Event)
    requires p.Valid() && Complete(p, e) && NoFault(s, e.sock) && e.frame.request.RegisterRequest? && !Named(p, e)
    ensures Replies(p, Step(p, s, e), RegisterResp, InvalidDeviceName) && LeavesAlone(s, Step(p, s, e))
  {
    CompleteIsHandled(p, s, e);
  }

  lemma RepeatIsAnswered(p: Params, s: State, e: Event)
    requires p.Valid() && Complete(p, e) && NoFault(s, e.sock) && Named(p, e) && Repeats(s, e)
    ensures var c := s.trusts[s.online[e.sock]].credential;
            var r := Step(p, s, e);
      && LeavesAlone(s, r) && r.pushed == [] && r.octets == p.headerLen + p.credentialLen
      && r.reply == Some(Reply(Some(RegisterResp), Success, Some(c), p.credentialLen))
  {
    CompleteIsHandled(p, s, e);
  }

  /** A registration the cloud grants: the node, the sign-in, the watch and the new trust all
      have the uuid and the token of the cloud's document. */
  lemma GrantedRegistration(p: Params, s: State, e: Event, doc: Json, uuid: string, token: string)
    requires p.Valid() && Inv(s) && Complete(p, e) && Named(p, e) && !Repeats(s, e)
    requires e.answers.make == MakeAnswered(doc) && e.answers.signIn.Granted?
    requires HasText(p, doc, "uuid", uuid) && |uuid| == p.uuidLen
    requires HasText(p, doc, "token", token) && |token| == p.tokenLen
    ensures var c := Credential(uuid, token);
            var r := Step(p, s, e);
      && |r.calls| == 3 && AsksForDevice(p, e, r.calls[0])
      && r.calls[1] == Call(e.sock, e.via, SignIn(c, true))
      && r.calls[2] == Call(e.sock, e.via, StartWatch(c, s.next))
      && r.reply == Some(Reply(Some(RegisterResp), Success, Some(c), p.credentialLen))
      && r.octets == p.headerLen + p.credentialLen && r.pushed == []
      && Gains(s, r.state, e.sock,
               Trust(3, if e.answers.pid == 0 then 0x7fff_ffff else e.answers.pid, e.frame.request.deviceId, true, c,
                     e.via, [], [], [], Some(s.next)))
  {
    NameIsSent(p, e);
    RegistersAs(p, s, e, doc, uuid, token);
    RegistrationIsHandled(p, s, e);
    var pid := if e.answers.pid == 0 then 0x7fff_ffff else e.answers.pid;
    CreateGains(s, e.sock, Trust(1, pid, e.frame.request.deviceId, true, Credential(uuid, token), e.via, [], [], [], None));
  }

  lemma RegistrationIsHandled(p: Params, s: State, e: Event)
    requires p.Valid() && Complete(p, e) && NoFault(s, e.sock) && e.frame.request.RegisterRequest?
    ensures var h := Register(p, s, e.sock, e.via, e.frame, e.answers);
      h.credential.Some? ==>
        Step(p, s, e) == Effect(h.state, h.calls, p.headerLen + p.credentialLen,
                                Some(Reply(Some(RegisterResp), h.result, h.credential, p.credentialLen)), [])
  {}

  lemma RegistersAs(p: Params, s: State, e: Event, doc: Json, uuid: string, token: string)
    requires Named(p, e) && !Repeats(s, e) && e.answers.make == MakeAnswered(doc) && e.answers.signIn.Granted?
    requires HasText(p, doc, "uuid", uuid) && |uuid| == p.uuidLen
    requires HasText(p, doc, "token", token) && |token| == p.tokenLen
    ensures var c, id := Credential(uuid, token), e.frame.request.deviceId;
            var pid := if e.answers.pid == 0 then 0x7fff_ffff else e.answers.pid;
            var name := DeviceName(p, e.frame.request.devName, e.frame.payloadLen);
      Register(p, s, e.sock, e.via, e.frame, e.answers) ==
      Handled(TrustCreate(s, e.sock, Trust(1, pid, id, true, c, e.via, [], [], [], None)), Success, Some(c),
              [Call(e.sock, e.via, MakeNode(name, id)), Call(e.sock, e.via, SignIn(c, true)), Call(e.sock, e.via, StartWatch(c, s.next))])
  {}

  /** The cloud does not make the device, or its document lacks a credential of the right
      lengths. */
  ghost predicate MakesNone(p: Params, answer: MakeAnswer) {
    match answer
    case MakeFailed => true
    case MakeAnswered(doc) =>
      !exists uuid, token :: HasText(p, doc, "uuid", uuid) && HasText(p, doc, "token", token)
                          && |uuid| == p.uuidLen && |token| == p.tokenLen
  }

  lemma TextIs(p: Params, doc: Json, key: string, j: Json)
    requires Get(doc, key) == Some(j)
    ensures HasText(p, doc, key, TextOf(p, j))
  {}

  lemma FailedRegistration(p: Params, s: State, e: Event)
    requires p.Valid() && Complete(p, e) && NoFault(s, e.sock) && Named(p, e) && !Repeats(s, e) && MakesNone(p, e.answers.make)
    ensures var r := Step(p, s, e);
      Replies(p, r, RegisterResp, CloudFailure) && r.state == s && |r.calls| == 1 && AsksForDevice(p, e, r.calls[0])
  {
    CompleteIsHandled(p, s, e);
    NameIsSent(p, e);
    if e.answers.make.MakeAnswered? {
      var doc := e.answers.make.doc;
      if Get(doc, "uuid").Some? && Get(doc, "token").Some? {
        TextIs(p, doc, "uuid", Get(doc, "uuid").value);
        TextIs(p, doc, "token", Get(doc, "token").value);
      }
    }
  }

  lemma RefusedRegistration(p: Params, s: State, e: Event, doc: Json, uuid: string, token: string)
    requires p.Valid() && Complete(p, e) && NoFault(s, e.sock) && Named(p, e) && !Repeats(s, e)
    requires e.answers.make == MakeAnswered(doc) && !e.answers.signIn.Granted?
    requires HasText(p, doc, "uuid", uuid) && |uuid| == p.uuidLen
    requires HasText(p, doc, "token", token) && |token| == p.tokenLen
    ensures var r := Step(p, s, e);
      && Replies(p, r, RegisterResp, if e.answers.signIn.NoAnswer? then CloudFailure else CredentialUnauthorized)
      && r.state == s && |r.calls| == 2 && AsksForDevice(p, e, r.calls[0])
      && r.calls[1] == Call(e.sock, e.via, SignIn(Credential(uuid, token), false))
  {
    CompleteIsHandled(p, s, e);
    NameIsSent(p, e);
  }

  // ---- unregistration --------------------------------------------------------------------------

  lemma UnregistrationOutcome(p: Params, s: State, e: Event)
    requires p.Valid() && Inv(s) && Complete(p, e) && e.frame.request.UnregisterRequest?
    ensures var r := Step(p, s, e);
      if e.sock !in s.online then Replies(p, r, UnregisterResp, CredentialUnauthorized) && LeavesAlone(s, r)
      else
        && Replies(p, r, UnregisterResp, if e.answers.removed then Success else CloudFailure)
        && s.online[e.sock] in s.trusts
        && r.calls == [Call(e.sock, e.via, RemoveNode(s.trusts[s.online[e.sock]].credential))]
        && if e.answers.removed
           then r.state.online == s.online - {e.sock} && r.state.channels == s.channels && r.state.watches == s.watches
           else r.state == s
  {
    CompleteIsHandled(p, s, e);
    if e.sock in s.online { EntryRemoved(s, e.sock); }
  }

  // ---- authentication ----------------------------------------------------------------------------

  /** A sign-in that the gateway does not ask for, or that the cloud does not grant. */
  lemma UngrantedAuthentication(p: Params, s: State, e: Event)
    requires p.Valid() && Complete(p, e) && NoFault(s, e.sock) && e.frame.request.AuthRequest?
    requires e.sock in s.online || !e.answers.signIn.Granted?
    ensures var r := Step(p, s, e);
      if e.sock in s.online then Replies(p, r, AuthResp, Success) && LeavesAlone(s, r)
      else
        && Replies(p, r, AuthResp, if e.answers.signIn.NoAnswer? then CloudFailure else CredentialUnauthorized)
        && r.state == s && r.calls == [Call(e.sock, e.via, SignIn(e.frame.request.credential, false))]
  {
    CompleteIsHandled(p, s, e);
  }

  /** A granted sign-in: without a schema the node is refused, with one it has a trust for the
      credential it sent. */
  lemma GrantedAuthentication(p: Params, s: State, e: Event)
    requires p.Valid() && Inv(s) && Complete(p, e) && e.frame.request.AuthRequest?
    requires e.sock !in s.online && e.answers.signIn.Granted?
    ensures var c, r, list := e.frame.request.credential, Step(p, s, e), ParseSchema(p, e.answers.signIn.doc);
      if list == [] then
        && Replies(p, r, AuthResp, SchemaEmpty) && r.state == s
        && r.calls == [Call(e.sock, e.via, SignIn(c, true))]
      else
        && Replies(p, r, AuthResp, Success)
        && r.calls == [Call(e.sock, e.via, SignIn(c, true)), Call(e.sock, e.via, StartWatch(c, s.next))]
        && Gains(s, r.state, e.sock,
                 Trust(3, 0, 0, false, c, e.via, list, [], SignInConfig(p, e.answers.signIn.doc), Some(s.next)))
  {
    CompleteIsHandled(p, s, e);
    var c, doc := e.frame.request.credential, e.answers.signIn.doc;
    CreateGains(s, e.sock, Trust(1, 0, 0, false, c, e.via, ParseSchema(p, doc), [], SignInConfig(p, doc), None));
  }

  // ---- schema fragments ----------------------------------------------------------------------------

  lemma FragmentOutcome(p: Params, s: State, e: Event)
    requires p.Valid() && Complete(p, e) && NoFault(s, e.sock) && e.frame.request.SchemaFragment?
    ensures var r, end := Step(p, s, e), e.frame.request.end;
            var kind := if end then SchemaEndResp else SchemaResp;
      if e.sock !in s.online then Replies(p, r, kind, CredentialUnauthorized) && LeavesAlone(s, r)
      else if !end then Replies(p, r, kind, Success) && r.calls == []
      else
        && Replies(p, r, kind, if e.answers.schemaStored then Success else CloudFailure)
        && |r.calls| == 1 && r.calls[0].sock == e.sock && r.calls[0].via == e.via && r.calls[0].action.PutSchema?
        && r.calls[0].action.credential == s.trusts[s.online[e.sock]].credential
  {
    CompleteIsHandled(p, s, e);
  }

  // ---- data ------------------------------------------------------------------------------------------

  /** The node reports or answers with data for a sensor. */
  predicate BringsData(e: Event) { e.Pdu? && (e.frame.request.DataReport? || e.frame.request.DataResponse?) }

  /** The first entry for the sensor of a list. */
  predicate IsEntryFor(list: seq<Schema>, n: nat, id: Byte) {
    n < |list| && list[n].sensorId == id && forall j :: 0 <= j < n ==> list[j].sensorId != id
  }

  /** What the cloud is told, by the declared type. */
  predicate ReadsAs(p: Params, valueType: Byte, data: Views, value: Option<CloudValue>)
    requires p.Valid()
  {
    if valueType == p.typeInt then value == Some(CloudInt(data.asInt))
    else if valueType == p.typeBool then value == Some(CloudBool(data.asBool))
    else if valueType == p.typeRaw then value == Some(NoValue)
    else if valueType == p.typeFloat then
      value == Some(CloudDouble(
        data.multiplier as real * (data.whole as real + data.fraction as real / TenTo(|IntText(data.fraction)|))))
    else value == None
  }

  /** The list of pending requests is fetched, and written back without the sensor when it is
      there. */
  predicate UpdatesList(p: Params, e: Event, c: Credential, key: string, calls: seq<Call>)
    requires BringsData(e)
  {
    var id := e.frame.request.sensorId;
    && |calls| >= 1 && calls[0] == Call(e.sock, e.via, Fetch(c))
    && if e.answers.fetched.Some? && GetArray(e.answers.fetched.value, key).Some?
       then
         |calls| == 2
         && calls[1] == Call(e.sock, e.via, PutList(c,
              JObject([(key, JArray(Remaining(p, GetArray(e.answers.fetched.value, key).value, id)))])))
       else |calls| == 1
  }

  /** A response to a write request gets no reply; a report gets its result. */
  predicate TellsNode(p: Params, e: Event, r: Effect, result: Result)
    requires BringsData(e)
  {
    if e.frame.request.DataReport? then Replies(p, r, DataResp, result)
    else r.reply == None && r.octets == 0 && r.pushed == []
  }

  function IsPutData(): Call -> bool { (c: Call) => c.action.PutData? }

  lemma DataIsHandled(p: Params, s: State, e: Event)
    requires p.Valid() && Complete(p, e) && NoFault(s, e.sock) && BringsData(e)
    ensures var h := Handle(p, s, e.sock, e.via, e.frame, e.answers);
            var r := Step(p, s, e);
      && r.state == h.state == s && r.calls == h.calls && h.credential == None
      && TellsNode(p, e, r, h.result)
  {}

  lemma UnusableData(p: Params, s: State, e: Event)
    requires p.Valid() && Complete(p, e) && NoFault(s, e.sock) && BringsData(e)
    requires e.sock in s.online ==>
      var list := s.trusts[s.online[e.sock]].schema;
      forall n: nat :: IsEntryFor(list, n, e.frame.request.sensorId) ==> p.unitMismatch(list[n].typeId, list[n].valueType, list[n].unit)
    ensures LeavesAlone(s, Step(p, s, e))
    ensures TellsNode(p, e, Step(p, s, e), if e.sock in s.online then InvalidData else CredentialUnauthorized)
  {
    DataIsHandled(p, s, e);
    if e.sock in s.online {
      var list, id := TrustOf(s, e.sock).schema, e.frame.request.sensorId;
      if First(list, ForSchema(id)) < |list| { assert IsEntryFor(list, First(list, ForSchema(id)), id); }
    }
  }

  lemma UsableIs(p: Params, trust: Trust, id: Byte, n: nat)
    requires IsEntryFor(trust.schema, n, id)
    requires !p.unitMismatch(trust.schema[n].typeId, trust.schema[n].valueType, trust.schema[n].unit)
    ensures UsableSchema(p, trust, id) == Some(trust.schema[n])
  {
    FirstIs(trust.schema, ForSchema(id), n);
  }

  lemma PrintedIs(p: Params, valueType: Byte, data: Views)
    requires p.Valid()
    ensures ReadsAs(p, valueType, data, PrintData(p, valueType, data))
  {
    DoubleIs(data.multiplier, data.whole, data.fraction);
  }

  lemma DoubleIs(multiplier: int, whole: int, fraction: int)
    ensures AsDouble(multiplier, whole, fraction) ==
            multiplier as real * (whole as real + fraction as real / TenTo(|IntText(fraction)|))
  {
    assert Fraction(fraction, |IntText(fraction)|) == fraction as real / TenTo(|IntText(fraction)|);
  }

  lemma UpdateIs(p: Params, e: Event, c: Credential, key: string)
    requires BringsData(e)
    ensures UpdatesList(p, e, c, key, UpdateListCalls(p, e.sock, e.via, c, key, e.frame.request.sensorId, e.answers.fetched))
  {}

  /** Data for a sensor whose first schema entry has an acceptable unit: the value the declared
      type reads is published once, before a report and after a response is taken off its list;
      data of an unknown type is not published. */
  lemma DataOutcome(p: Params, s: State, e: Event, n: nat)
    returns (value: Option<CloudValue>, put: seq<Call>, update: seq<Call>)
    requires p.Valid() && Complete(p, e) && Mapped(s, e.sock) && BringsData(e)
    requires IsEntryFor(s.trusts[s.online[e.sock]].schema, n, e.frame.request.sensorId)
    requires var x := s.trusts[s.online[e.sock]].schema[n]; !p.unitMismatch(x.typeId, x.valueType, x.unit)
    ensures ReadsAs(p, s.trusts[s.online[e.sock]].schema[n].valueType, e.frame.request.data, value)
    ensures var c, r, id := s.trusts[s.online[e.sock]].credential, Step(p, s, e), e.frame.request.sensorId;
      && put == (if value.Some? then [Call(e.sock, e.via, PutData(c, id, value.value))] else [])
      && UpdatesList(p, e, c, if e.frame.request.DataReport? then "get_data" else "set_data", update)
      && r.calls == (if e.frame.request.DataReport? then put + update else update + put)
      && r.state == s
      && TellsNode(p, e, r, if value.None? then InvalidData else if e.answers.dataStored then Success else CloudFailure)
  {
    DataIsHandled(p, s, e);
    var trust, id, data := TrustOf(s, e.sock), e.frame.request.sensorId, e.frame.request.data;
    UsableIs(p, trust, id, n);
    value := PrintData(p, trust.schema[n].valueType, data);
    PrintedIs(p, trust.schema[n].valueType, data);
    put := StoreCalls(e.sock, e.via, trust.credential, id, value);
    var key := if e.frame.request.DataReport? then "get_data" else "set_data";
    update := UpdateListCalls(p, e.sock, e.via, trust.credential, key, id, e.answers.fetched);
    UpdateIs(p, e, trust.credential, key);
  }

  // ---- other requests ----------------------------------------------------------------------------------

  /** An acknowledged configuration gets no reply and asks nothing; an unknown request is answered
      with an error and has no effect. */
  lemma OtherOutcomes(p: Params, s: State, e: Event)
    requires p.Valid() && Complete(p, e) && NoFault(s, e.sock)
    ensures var r := Step(p, s, e);
      && (e.frame.request.ConfigResponse? ==>
            r.calls == [] && r.reply == None && r.octets == 0 && r.pushed == [] && (e.sock !in s.online ==> r.state == s))
      && (e.frame.request.UnknownRequest? ==>
            LeavesAlone(s, r) && r.octets == p.headerLen + 1 && r.reply == Some(Reply(None, InvalidData, None, 1)))
  {}

  // ---- callbacks -------------------------------------------------------------------------------------------

  /** Which entries, channels and watches a callback leaves; what the trusts are then follows
      from the exactness of the counts. No callback is replied to, a document makes the gateway
      ask for nothing, and without a trust on the socket it has no effect at all. */
  lemma CallbackOutcome(p: Params, s: State, e: Event)
    requires p.Valid() && Inv(s) && Enabled(s, e) && !e.Pdu?
    ensures var r := Step(p, s, e).state;
      match e
      case CloudPush(_, _, _) => Keeps(r, s.online, s.channels, s.watches)
      case Disconnected(c, sock, _) =>
        Keeps(r, s.online - {sock}, s.channels[c := Channel(sock, c, false)],
              if sock in s.online then s.watches - {s.online[sock]} else s.watches)
      case Destroyed(c) => Keeps(r, s.online, s.channels - {c}, s.watches)
      case WatchDropped(w) => Keeps(r, s.online, s.channels, s.watches - {w})
    ensures !e.Disconnected? ==> Step(p, s, e).calls == []
    ensures Step(p, s, e).reply == None && Step(p, s, e).octets == 0
    ensures !e.CloudPush? || e.sock !in s.online ==> Step(p, s, e).pushed == []
    ensures e.CloudPush? && e.sock !in s.online ==> Step(p, s, e).state == s
  {
    match e {
      case CloudPush(_, sock, doc) => PushLeaves(p, s, sock, doc);
      case Disconnected(c, sock, removed) => DisconnectLeaves(s, c, sock, removed);
      case Destroyed(c) => DestroyLeaves(s, c);
      case WatchDropped(w) => DropLeaves(s, w);
    }
  }

  predicate Keeps(r: State, online: map<int, nat>, channels: map<nat, Channel>, watches: map<nat, Watch>) {
    r.online == online && r.channels == channels && r.watches == watches
  }

  lemma PushLeaves(p: Params, s: State, sock: int, doc: Json)
    ensures Keeps(Push(p, s, sock, doc).state, s.online, s.channels, s.watches)
  {}

  lemma DisconnectLeaves(s: State, c: nat, sock: int, removed: bool)
    requires Inv(s) && c in s.channels && s.channels[c].fd == sock
    ensures Keeps(Disconnect(s, c, sock, removed), s.online - {sock}, s.channels[c := Channel(sock, c, false)],
                  if sock in s.online then s.watches - {s.online[sock]} else s.watches)
  {
    DisconnectKeeps(s, c, sock, removed);
    if sock !in s.online { assert s.online - {sock} == s.online; }
  }

  lemma DestroyLeaves(s: State, c: nat)
    requires Inv(s) && c in s.channels && !s.channels[c].connected
    ensures Keeps(DestroyChannel(s, c), s.online, s.channels - {c}, s.watches)
  {
    DestroyIs(s, c);
  }

  lemma DropLeaves(s: State, w: nat)
    requires Inv(s) && w in s.watches
    ensures Keeps(DropWatch(s, w), s.online, s.channels, s.watches - {w})
  {
    DropWatchIs(s, w);
  }

  /** What a disconnection asks of the cloud: the removal of a node whose registration was never
      completed, then the end of its watch, both through the trust's own cloud socket. */
  lemma DisconnectionCalls(p: Params, s: State, e: Event)
    requires p.Valid() && Inv(s) && Enabled(s, e) && e.Disconnected?
    ensures Step(p, s, e).calls ==
      if e.sock !in s.online then []
      else
        var t := s.online[e.sock];
        var trust := s.trusts[t];
        (if trust.rollback then [Call(e.sock, trust.via, RemoveNode(trust.credential))] else [])
        + (if t in s.watches then [Call(e.sock, trust.via, StopWatch(t))] else [])
  {
    if e.sock in s.online { assert CountedAt(s, s.online[e.sock]); }
  }
}
