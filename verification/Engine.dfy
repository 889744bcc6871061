/** The gateway's trust protocol as a state machine on values: one step for each message of
    a node, each document pushed by the cloud and each callback of a channel or a watch.
    The answers of the cloud and of the kernel are part of the event. */
module Engine {
  import opened Json
  import opened Protocol
  import opened Sequences
  import opened Documents
  import opened ConfigRules
  import opened Draining

  // ---- state -------------------------------------------------------------------

  datatype Trust = Trust(
    refs: int, pid: int, deviceId: int, rollback: bool, credential: Credential, via: int,
    schema: seq<Schema>, pending: seq<Schema>, config: seq<Config>, watch: Option<nat>)

  /** A node channel: its descriptor, the trust it holds, and whether its disconnect handler
      is still to run. */
  datatype Channel = Channel(fd: int, trust: nat, connected: bool)

  /** A device watch: the node channel it reports to and the trust it holds. */
  datatype Watch = Watch(channel: nat, trust: nat)

  /** Allocated objects are keys; freed counts how often each
      number's trust has been freed. fault records any
      access to a trust that is not allocated. */
  datatype State = State(
    trusts: map<nat, Trust>, online: map<int, nat>, channels: map<nat, Channel>, watches: map<nat, Watch>,
    freed: multiset<nat>, next: nat, fault: bool)

  const Start := State(map[], map[], map[], map[], multiset{}, 0, false)

  // ---- events and effects ----------------------------------------------------------

  datatype Request =
    | RegisterRequest(deviceId: int, devName: string)
    | UnregisterRequest
    | AuthRequest(credential: Credential)
    | SchemaFragment(schema: Schema, end: bool)
    | DataReport(sensorId: Byte, data: Views)
    | ConfigResponse(sensorId: Byte)
    | DataResponse(sensorId: Byte, data: Views)
    | UnknownRequest

  /** An input PDU: its length, the payload length in its header, and the room for a reply. */
  datatype Frame = Frame(request: Request, length: nat, payloadLen: Byte, room: nat)

  datatype MakeAnswer = MakeFailed | MakeAnswered(doc: Json)
  datatype SignInAnswer = NoAnswer | Refused | Granted(doc: Json)

  /** What the kernel says of the peer and what the cloud answers during one PDU. */
  datatype Answers = Answers(pid: int, make: MakeAnswer, signIn: SignInAnswer, removed: bool,
                             schemaStored: bool, dataStored: bool, fetched: Option<Json>)

  datatype Event =
    | Pdu(sock: int, via: int, frame: Frame, answers: Answers)
    | CloudPush(watch: nat, sock: int, doc: Json)
    | Disconnected(channel: nat, sock: int, removed: bool)
    | Destroyed(channel: nat)
    | WatchDropped(watch: nat)

  datatype Action =
    | MakeNode(name: string, deviceId: int)
    | SignIn(credential: Credential, granted: bool)
    | RemoveNode(credential: Credential)
    | PutSchema(credential: Credential, doc: Json)
    | PutData(credential: Credential, sensorId: Byte, value: CloudValue)
    | Fetch(credential: Credential)
    | PutList(credential: Credential, doc: Json)
    | StartWatch(credential: Credential, watch: nat)
    | StopWatch(watch: nat)

  /** A cloud call made for a node's socket through a cloud socket. */
  datatype Call = Call(sock: int, via: int, action: Action)

  /** A reply PDU. An unknown request leaves the type of the reply unset. */
  datatype Reply = Reply(kind: Option<Kind>, result: Result, credential: Option<Credential>, payloadLen: nat)

  datatype Effect = Effect(state: State, calls: seq<Call>, octets: int, reply: Option<Reply>, pushed: seq<Message>)

  // ---- references -------------------------------------------------------------------

  function Fault(s: State): State { s.(fault := true) }

  function SetTrust(s: State, t: nat, trust: Trust): State { s.(trusts := s.trusts[t := trust]) }

  function Ref(s: State, t: nat): State {
    if t !in s.trusts then Fault(s)
    else SetTrust(s, t, s.trusts[t].(refs := s.trusts[t].refs + 1))
  }

  function Unref(s: State, t: nat): State {
    if t !in s.trusts then Fault(s)
    else if s.trusts[t].refs > 1 then SetTrust(s, t, s.trusts[t].(refs := s.trusts[t].refs - 1))
    else s.(trusts := s.trusts - {t}, freed := s.freed + multiset{t})
  }

  function MapRemove(s: State, sock: int): State {
    if sock in s.online then Unref(s.(online := s.online - {sock}), s.online[sock]) else s
  }

  function MapReplace(s: State, sock: int, t: nat): State {
    var r := MapRemove(s, sock);
    r.(online := r.online[sock := t])
  }

  function NewTrust(s: State, trust: Trust): State {
    SetTrust(s, s.next, trust.(refs := 1)).(next := s.next + 1)
  }

  /** The three objects trust_create makes carry the same number. */
  function OpenChannel(s: State, t: nat, sock: int): State {
    Ref(s, t).(channels := s.channels[t := Channel(sock, t, true)])
  }

  function OpenWatch(s: State, t: nat): State {
    var r := Ref(s, t).(watches := s.watches[t := Watch(t, t)]);
    if t in r.trusts then SetTrust(r, t, r.trusts[t].(watch := Some(t))) else r
  }

  function TrustCreate(s: State, sock: int, trust: Trust): State {
    var t := s.next;
    OpenWatch(OpenChannel(MapReplace(NewTrust(s, trust), sock, t), t, sock), t)
  }

  /** on_device_watch_destroyed. */
  function DropWatch(s: State, w: nat): State {
    if w !in s.watches || s.watches[w].trust !in s.trusts then Fault(s)
    else
      var t := s.watches[w].trust;
      var r := Unref(SetTrust(s, t, s.trusts[t].(watch := None)), t);
      r.(watches := r.watches - {w})
  }

  // ---- requests of a node --------------------------------------------------------------

  datatype Handled = Handled(state: State, result: Result, credential: Option<Credential>, calls: seq<Call>)

  /** The trust mapped to a socket. */
  predicate Mapped(s: State, sock: int) { sock in s.online && s.online[sock] in s.trusts }

  function TrustOf(s: State, sock: int): Trust
    requires Mapped(s, sock)
  {
    s.trusts[s.online[sock]]
  }

  function Denied(s: State): Handled { Handled(s, CredentialUnauthorized, None, []) }

  const PID_UNKNOWN := INT32_MAX

  function StoredPid(pid: int): int { if pid == 0 then PID_UNKNOWN else pid }

  /** A retransmitted registration. */
  predicate Recognised(s: State, sock: int, deviceId: int, pid: int) {
    Mapped(s, sock) && TrustOf(s, sock).deviceId == deviceId && TrustOf(s, sock).pid == pid
  }

  predicate ValidRegistration(p: Params, request: Request, length: nat)
    requires request.RegisterRequest?
  {
    && length > p.headerLen + p.deviceIdLen
    && |request.devName| > 0 && request.devName[0] != '\0'
  }

  function Register(p: Params, s: State, sock: int, via: int, frame: Frame, answers: Answers): Handled
    requires frame.request.RegisterRequest?
  {
    var id := frame.request.deviceId;
    var make := Call(sock, via, MakeNode(DeviceName(p, frame.request.devName, frame.payloadLen), id));
    if !ValidRegistration(p, frame.request, frame.length) then Handled(s, InvalidDeviceName, None, [])
    else if Recognised(s, sock, id, answers.pid) then
      Handled(s, Success, Some(TrustOf(s, sock).credential), [])
    else match MadeCredential(p, answers.make)
      case None => Handled(s, CloudFailure, None, [make])
      case Some(c) =>
        var signIn := Call(sock, via, SignIn(c, answers.signIn.Granted?));
        if !answers.signIn.Granted? then Handled(s, SignInFailure(answers.signIn), None, [make, signIn])
        else
          Handled(TrustCreate(s, sock, Trust(1, StoredPid(answers.pid), id, true, c, via, [], [], [], None)),
                  Success, Some(c), [make, signIn, Call(sock, via, StartWatch(c, s.next))])
  }

  function MadeCredential(p: Params, answer: MakeAnswer): Option<Credential> {
    match answer
    case MakeFailed => None
    case MakeAnswered(doc) => ParseCredential(p, doc)
  }

  function SignInFailure(answer: SignInAnswer): Result {
    if answer.NoAnswer? then CloudFailure else CredentialUnauthorized
  }

  /** The config kept at sign-in: an invalid list is dropped, an unreadable one is none. */
  ghost function SignInConfig(p: Params, doc: Json): seq<Config> {
    match ParseList(doc, "config", ConfigEntry(p))
    case Some(list) => if AllAccepted(p, list) then list else []
    case None => []
  }

  ghost function Authenticate(p: Params, s: State, sock: int, via: int, c: Credential, answer: SignInAnswer): Handled
    requires p.Valid()
  {
    var signIn := Call(sock, via, SignIn(c, answer.Granted?));
    if sock in s.online then Handled(s, Success, None, [])
    else if !answer.Granted? then Handled(s, SignInFailure(answer), None, [signIn])
    else
      var schema := ParseSchema(p, answer.doc);
      if schema == [] then Handled(s, SchemaEmpty, None, [signIn])
      else
        Handled(TrustCreate(s, sock, Trust(1, 0, 0, false, c, via, schema, [], SignInConfig(p, answer.doc), None)),
                Success, None, [signIn, Call(sock, via, StartWatch(c, s.next))])
  }

  function Unregister(s: State, sock: int, via: int, removed: bool): Handled {
    if !Mapped(s, sock) then Denied(s)
    else
      var calls := [Call(sock, via, RemoveNode(TrustOf(s, sock).credential))];
      if removed then Handled(MapRemove(s, sock), Success, None, calls)
      else Handled(s, CloudFailure, None, calls)
  }

  predicate HasSensor(list: seq<Schema>, id: Byte) { exists i :: 0 <= i < |list| && list[i].sensorId == id }

  /** A fragment joins the pending list unless its sensor is already there. As the source
      stands the list is never allocated and nothing can join it; queueOnAdd says otherwise. */
  function AddPending(p: Params, pending: seq<Schema>, schema: Schema): seq<Schema> {
    if HasSensor(pending, schema.sensorId) || !p.queueOnAdd then pending else pending + [schema]
  }

  ghost function UploadSchema(p: Params, s: State, sock: int, via: int, fragment: Request, stored: bool): Handled
    requires fragment.SchemaFragment?
  {
    if !Mapped(s, sock) then Denied(s)
    else
      var t, trust := s.online[sock], TrustOf(s, sock);
      var pending := AddPending(p, trust.pending, fragment.schema);
      if !fragment.end then
        Handled(SetTrust(s, t, trust.(rollback := false, pending := pending)), Success, None, [])
      else
        var calls := [Call(sock, via, PutSchema(trust.credential, PrintSchema(pending)))];
        if stored then
          Handled(SetTrust(s, t, trust.(rollback := false, schema := pending, pending := [])), Success, None, calls)
        else
          Handled(SetTrust(s, t, trust.(rollback := false, pending := [])), CloudFailure, None, calls)
  }

  function ForSchema(id: Byte): Schema -> bool { (x: Schema) => x.sensorId == id }

  /** The schema of a sensor, when it is known and its unit is acceptable. */
  function UsableSchema(p: Params, trust: Trust, id: Byte): Option<Schema> {
    var i := First(trust.schema, ForSchema(id));
    if i == |trust.schema| then None
    else
      var x := trust.schema[i];
      if p.unitMismatch(x.typeId, x.valueType, x.unit) then None else Some(x)
  }

  function UpdateListCalls(p: Params, sock: int, via: int, c: Credential, key: string, id: Byte,
                           fetched: Option<Json>): seq<Call> {
    var fetch := Call(sock, via, Fetch(c));
    match UpdatedList(p, fetched, key, id)
    case None => [fetch]
    case Some(doc) => [fetch, Call(sock, via, PutList(c, doc))]
  }

  function StoreResult(value: Option<CloudValue>, stored: bool): Result {
    if value.None? then InvalidData else if stored then Success else CloudFailure
  }

  function StoreCalls(sock: int, via: int, c: Credential, id: Byte, value: Option<CloudValue>): seq<Call> {
    match value
    case None => []
    case Some(v) => [Call(sock, via, PutData(c, id, v))]
  }

  /** msg_data: publish, then take the sensor off the list of pending reads. */
  function ReportData(p: Params, s: State, sock: int, via: int, id: Byte, data: Views, answers: Answers): Handled {
    if !Mapped(s, sock) then Denied(s)
    else match UsableSchema(p, TrustOf(s, sock), id)
      case None => Handled(s, InvalidData, None, [])
      case Some(x) =>
        var c := TrustOf(s, sock).credential;
        var value := PrintData(p, x.valueType, data);
        Handled(s, StoreResult(value, answers.dataStored), None,
                StoreCalls(sock, via, c, id, value) + UpdateListCalls(p, sock, via, c, "get_data", id, answers.fetched))
  }

  /** msg_setdata_resp: take the sensor off the list of pending writes, then publish. */
  function AnswerData(p: Params, s: State, sock: int, via: int, id: Byte, data: Views, answers: Answers): Handled {
    if !Mapped(s, sock) then Denied(s)
    else match UsableSchema(p, TrustOf(s, sock), id)
      case None => Handled(s, InvalidData, None, [])
      case Some(x) =>
        var c := TrustOf(s, sock).credential;
        var value := PrintData(p, x.valueType, data);
        Handled(s, StoreResult(value, answers.dataStored), None,
                UpdateListCalls(p, sock, via, c, "set_data", id, answers.fetched) + StoreCalls(sock, via, c, id, value))
  }

  function AnswerConfig(s: State, sock: int, id: Byte): Handled {
    if !Mapped(s, sock) then Denied(s)
    else
      var trust := TrustOf(s, sock);
      Handled(SetTrust(s, s.online[sock], trust.(config := Confirm(trust.config, id))), Success, None, [])
  }

  ghost function Handle(p: Params, s: State, sock: int, via: int, frame: Frame, answers: Answers): Handled
    requires p.Valid()
  {
    match frame.request
    case RegisterRequest(_, _) => Register(p, s, sock, via, frame, answers)
    case UnregisterRequest => Unregister(s, sock, via, answers.removed)
    case AuthRequest(c) => Authenticate(p, s, sock, via, c, answers.signIn)
    case SchemaFragment(_, _) => UploadSchema(p, s, sock, via, frame.request, answers.schemaStored)
    case DataReport(id, data) => ReportData(p, s, sock, via, id, data, answers)
    case ConfigResponse(id) => AnswerConfig(s, sock, id)
    case DataResponse(id, data) => AnswerData(p, s, sock, via, id, data, answers)
    case UnknownRequest => Handled(s, InvalidData, None, [])
  }

  function ReplyKind(request: Request): Option<Kind> {
    match request
    case RegisterRequest(_, _) => Some(RegisterResp)
    case UnregisterRequest => Some(UnregisterResp)
    case AuthRequest(_) => Some(AuthResp)
    case SchemaFragment(_, end) => Some(if end then SchemaEndResp else SchemaResp)
    case DataReport(_, _) => Some(DataResp)
    case _ => None
  }

  predicate Rejected(p: Params, frame: Frame) {
    || frame.room < p.messageLen
    || frame.length < p.headerLen
    || frame.length != p.headerLen + frame.payloadLen
  }

  predicate IsResponse(request: Request) { request.ConfigResponse? || request.DataResponse? }

  ghost function Process(p: Params, s: State, sock: int, via: int, frame: Frame, answers: Answers): Effect
    requires p.Valid()
  {
    if Rejected(p, frame) then Effect(s, [], -EINVAL, None, [])
    else if sock in s.online && !Mapped(s, sock) then Effect(Fault(s), [], 0, None, [])
    else
      var h := Handle(p, s, sock, via, frame, answers);
      if IsResponse(frame.request) then Effect(h.state, h.calls, 0, None, [])
      else
        var payloadLen := if h.credential.Some? then p.credentialLen else RESULT_LEN;
        Effect(h.state, h.calls, p.headerLen + payloadLen,
               Some(Reply(ReplyKind(frame.request), h.result, h.credential, payloadLen)), [])
  }

  // ---- documents pushed by the cloud ---------------------------------------------------

  /** The received list when it passes: an unreadable list counts as an empty one. */
  ghost function ReceivedConfig(p: Params, doc: Json): Option<seq<Config>> {
    match ParseList(doc, "config", ConfigEntry(p))
    case None => Some([])
    case Some(list) => if AllAccepted(p, list) then Some(list) else None
  }

  function DataMessageOf(p: Params, e: SetDataEntry): Message {
    DataMessage(Header(SetData, p.sensorIdLen + p.dataPayloadLen), e.sensorId, e.value)
  }

  function ItemMessageOf(p: Params, id: Byte): Message {
    ItemMessage(Header(GetData, p.sensorIdLen), id)
  }

  ghost function SetDataMessages(p: Params, doc: Json): seq<Message> {
    match ParseList(doc, "set_data", SetDataItem())
    case None => []
    case Some(list) => seq(|list|, i requires 0 <= i < |list| => DataMessageOf(p, list[i]))
  }

  ghost function GetDataMessages(p: Params, doc: Json): seq<Message> {
    match ParseList(doc, "get_data", GetDataItem())
    case None => []
    case Some(list) => seq(|list|, i requires 0 <= i < |list| => ItemMessageOf(p, list[i]))
  }

  /** on_device_changed: only the trust mapped to the watch's socket counts. */
  ghost function Push(p: Params, s: State, sock: int, doc: Json): Effect {
    if sock !in s.online then Effect(s, [], 0, None, [])
    else if !Mapped(s, sock) then Effect(Fault(s), [], 0, None, [])
    else
      var t, trust := s.online[sock], TrustOf(s, sock);
      var lists := SetDataMessages(p, doc) + GetDataMessages(p, doc);
      match ReceivedConfig(p, doc)
      case None => Effect(s, [], 0, None, lists)
      case Some(received) =>
        Effect(SetTrust(s, t, trust.(config := received)), [], 0, None,
               ConfigMessages(p, Keep(received, NotWithheld(trust.config))) + lists)
  }

  // ---- callbacks of channels -------------------------------------------------------------

  /** on_node_channel_disconnected: the handler finds the trust by socket, undoes a
      registration that was never completed, and drops the watch and the map entry. */
  function Teardown(s: State, sock: int, removed: bool): State {
    if sock !in s.online then s
    else if !Mapped(s, sock) then Fault(s)
    else
      var t := s.online[sock];
      var s1 := if TrustOf(s, sock).rollback && removed then MapRemove(s, sock) else s;
      if t !in s1.trusts then Fault(s1)
      else match s1.trusts[t].watch
        case None => MapRemove(s1, sock)
        case Some(w) => MapRemove(DropWatch(s1, w), sock)
  }

  function TeardownCalls(s: State, sock: int): seq<Call> {
    if !Mapped(s, sock) then []
    else
      var trust := TrustOf(s, sock);
      (if trust.rollback then [Call(sock, trust.via, RemoveNode(trust.credential))] else [])
      + (match trust.watch case None => [] case Some(w) => [Call(sock, trust.via, StopWatch(w))])
  }

  function Disconnect(s: State, c: nat, sock: int, removed: bool): State {
    var r := Teardown(s, sock, removed);
    if c !in r.channels then Fault(r)
    else r.(channels := r.channels[c := r.channels[c].(connected := false)])
  }

  function DestroyChannel(s: State, c: nat): State {
    if c !in s.channels then Fault(s)
    else Unref(s, s.channels[c].trust).(channels := s.channels - {c})
  }

  /** What the libraries promise about their callbacks: a channel's disconnect handler runs
      before its destroy handler and each runs once; a document arrives while the watch and
      the channel it reports to exist. */
  predicate Enabled(s: State, e: Event) {
    match e
    case Pdu(_, _, _, _) => true
    case CloudPush(w, sock, _) =>
      w in s.watches && s.watches[w].channel in s.channels && s.channels[s.watches[w].channel].fd == sock
    case Disconnected(c, sock, _) => c in s.channels && s.channels[c].connected && s.channels[c].fd == sock
    case Destroyed(c) => c in s.channels && !s.channels[c].connected
    case WatchDropped(w) => w in s.watches
  }

  ghost function Step(p: Params, s: State, e: Event): Effect
    requires p.Valid()
  {
    match e
    case Pdu(sock, via, frame, answers) => Process(p, s, sock, via, frame, answers)
    case CloudPush(_, sock, doc) => Push(p, s, sock, doc)
    case Disconnected(c, sock, removed) =>
      Effect(Disconnect(s, c, sock, removed), TeardownCalls(s, sock), 0, None, [])
    case Destroyed(c) => Effect(DestroyChannel(s, c), [], 0, None, [])
    case WatchDropped(w) => Effect(DropWatch(s, w), [], 0, None, [])
  }

  /** The k-th step of a run leads from the k-th state to the next one. */
  ghost predicate StepAt(p: Params, es: seq<Event>, ss: seq<State>, k: nat)
    requires p.Valid() && k < |es| && |ss| == |es| + 1
  {
    Enabled(ss[k], es[k]) && ss[k + 1] == Step(p, ss[k], es[k]).state
  }

  /** A run of the gateway: its events and the states around them. */
  ghost predicate IsRun(p: Params, es: seq<Event>, ss: seq<State>) {
    && p.Valid()
    && |ss| == |es| + 1
    && ss[0] == Start
    && forall k :: 0 <= k < |es| ==> StepAt(p, es, ss, k)
  }
}
