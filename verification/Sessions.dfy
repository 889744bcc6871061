/** Sessions: one object for a node's connection and the cloud connections opened for it, shared
    by their channels and counted by hand. */
module Sessions {
  import opened Counting
  import opened Json

  datatype Session = Session(refs: int, node: Option<nat>, proto: Option<nat>)

  /** A channel of the library: the session its handlers get, and whether its disconnect
      handler is still to run. */
  datatype Channel = Channel(session: nat, connected: bool)

  /** Allocated sessions and channels not yet destroyed are keys. fault records any access to
      a session that is not allocated. */
  datatype State = State(
    sessions: map<nat, Session>, nodes: map<nat, Channel>, protos: map<nat, Channel>, list: seq<nat>,
    freed: multiset<nat>, nextSession: nat, nextProto: nat, fault: bool)

  const Start := State(map[], map[], map[], [], multiset{}, 0, 0, false)

  datatype Event =
    | Create(connects: bool)
    | NodeData(node: nat, connects: bool)
    | ProtoDropped(proto: nat)
    | ProtoDestroyed(proto: nat)
    | NodeDisconnected(node: nat)
    | NodeDestroyed(node: nat)

  // ---- steps ---------------------------------------------------------------------------

  function Fault(s: State): State { s.(fault := true) }

  function SetSession(s: State, x: nat, session: Session): State { s.(sessions := s.sessions[x := session]) }

  function Ref(s: State, x: nat): State {
    if x !in s.sessions then Fault(s)
    else SetSession(s, x, s.sessions[x].(refs := s.sessions[x].refs + 1))
  }

  function Unref(s: State, x: nat): State {
    if x !in s.sessions then Fault(s)
    else if s.sessions[x].refs > 1 then SetSession(s, x, s.sessions[x].(refs := s.sessions[x].refs - 1))
    else s.(sessions := s.sessions - {x}, freed := s.freed + multiset{x})
  }

  /** connect_proto, once the driver has connected. */
  function Connect(s: State, x: nat): State {
    var c := s.nextProto;
    var r := Ref(s, x).(protos := s.protos[c := Channel(x, true)], nextProto := c + 1);
    if x in r.sessions then SetSession(r, x, r.sessions[x].(proto := Some(c))) else r
  }

  function NewSession(s: State): State {
    SetSession(s, s.nextSession, Session(1, None, None)).(nextSession := s.nextSession + 1)
  }

  /** The node channel of a session has its number. */
  function OpenNode(s: State, x: nat): State {
    var r := s.(nodes := s.nodes[x := Channel(x, true)], list := s.list + [x]);
    if x in r.sessions then SetSession(r, x, r.sessions[x].(node := Some(x))) else Fault(r)
  }

  function SessionCreate(s: State, connects: bool): State {
    var x, r := s.nextSession, NewSession(s);
    if connects then OpenNode(Connect(r, x), x) else Unref(r, x)
  }

  function Receive(s: State, node: nat, connects: bool): State {
    if node !in s.nodes || s.nodes[node].session !in s.sessions then Fault(s)
    else
      var x := s.nodes[node].session;
      if s.sessions[x].proto.None? && connects then Connect(s, x) else s
  }

  function DropProto(s: State, proto: nat): State {
    if proto !in s.protos || s.protos[proto].session !in s.sessions then Fault(s)
    else
      var x := s.protos[proto].session;
      SetSession(s, x, s.sessions[x].(proto := None)).(protos := s.protos[proto := Channel(x, false)])
  }

  function DestroyProto(s: State, proto: nat): State {
    if proto !in s.protos then Fault(s)
    else Unref(s, s.protos[proto].session).(protos := s.protos - {proto})
  }

  function DisconnectNode(s: State, node: nat): State {
    if node !in s.nodes || s.nodes[node].session !in s.sessions then Fault(s)
    else
      var x := s.nodes[node].session;
      SetSession(s, x, s.sessions[x].(node := None)).(nodes := s.nodes[node := Channel(x, false)])
  }

  /** l_queue_remove: the first occurrence goes. */
  function Without(list: seq<nat>, x: nat): seq<nat> {
    if |list| == 0 then []
    else if list[0] == x then list[1..]
    else [list[0]] + Without(list[1..], x)
  }

  function DestroyNode(s: State, node: nat): State {
    if node !in s.nodes then Fault(s)
    else
      var x := s.nodes[node].session;
      Unref(s.(list := Without(s.list, x)), x).(nodes := s.nodes - {node})
  }

  function Step(s: State, e: Event): State {
    match e
    case Create(connects) => SessionCreate(s, connects)
    case NodeData(node, connects) => Receive(s, node, connects)
    case ProtoDropped(proto) => DropProto(s, proto)
    case ProtoDestroyed(proto) => DestroyProto(s, proto)
    case NodeDisconnected(node) => DisconnectNode(s, node)
    case NodeDestroyed(node) => DestroyNode(s, node)
  }

  /** Handlers of a channel run while it exists: data while it is connected, the disconnect
      handler once, and the destroy handler after it. */
  predicate Enabled(s: State, e: Event) {
    match e
    case Create(_) => true
    case NodeData(node, _) => node in s.nodes && s.nodes[node].connected
    case ProtoDropped(proto) => proto in s.protos && s.protos[proto].connected
    case ProtoDestroyed(proto) => proto in s.protos && !s.protos[proto].connected
    case NodeDisconnected(node) => node in s.nodes && s.nodes[node].connected
    case NodeDestroyed(node) => node in s.nodes && !s.nodes[node].connected
  }

  /** The cloud channel that carries the data of a node, once any reconnection is done. */
  function CarriedBy(s: State, node: nat, connects: bool): Option<nat> {
    var r := Receive(s, node, connects);
    if node in r.nodes && r.nodes[node].session in r.sessions then r.sessions[r.nodes[node].session].proto else None
  }

  /** The cloud channels that a node's disconnection asks the driver to close. */
  function Closes(s: State, node: nat): seq<nat> {
    if node in s.nodes && s.nodes[node].session in s.sessions then
      match s.sessions[s.nodes[node].session].proto
      case None => []
      case Some(c) => [c]
    else []
  }

  ghost predicate StepAt(es: seq<Event>, ss: seq<State>, k: nat)
    requires k < |es| && |ss| == |es| + 1
  {
    Enabled(ss[k], es[k]) && ss[k + 1] == Step(ss[k], es[k])
  }

  ghost predicate IsRun(es: seq<Event>, ss: seq<State>) {
    && |ss| == |es| + 1 && ss[0] == Start
    && forall k :: 0 <= k < |es| ==> StepAt(es, ss, k)
  }

  // ---- the invariant ---------------------------------------------------------------------

  ghost function ProtosOf(s: State, x: nat): set<nat> { set c | c in s.protos && s.protos[c].session == x }

  ghost function ConnectedOf(s: State, x: nat): set<nat> {
    set c | c in s.protos && s.protos[c].session == x && s.protos[c].connected
  }

  /** Who holds a session: the node side until its channel is destroyed, and every cloud
      channel not yet destroyed. */
  ghost function Holders(s: State, x: nat): nat { One(x in s.nodes) + |ProtosOf(s, x)| }

  ghost predicate PointsRight(s: State, x: nat)
    requires x in s.sessions
  {
    && ConnectedOf(s, x) == (match s.sessions[x].proto case None => {} case Some(c) => {c})
    && s.sessions[x].node == (if x in s.nodes && s.nodes[x].connected then Some(x) else None)
  }

  ghost predicate Distinct(list: seq<nat>) { forall i, j :: 0 <= i < j < |list| ==> list[i] != list[j] }

  ghost predicate Shape(s: State) {
    && (forall c :: c in s.nodes ==> s.nodes[c].session == c && c in s.sessions)
    && (forall c :: c in s.protos ==> s.protos[c].session in s.sessions && c < s.nextProto)
    && Distinct(s.list) && (forall x :: x in s.list <==> x in s.nodes)
    && (forall x :: x in s.sessions ==> x < s.nextSession)
    && (forall x: nat :: s.freed[x] == One(x < s.nextSession && x !in s.sessions))
  }

  ghost predicate SoundAt(s: State, x: nat)
    requires x in s.sessions
  {
    s.sessions[x].refs == Holders(s, x) > 0 && PointsRight(s, x)
  }

  ghost predicate SoundBut(s: State, x: nat) {
    forall y {:trigger SoundAt(s, y)} :: y in s.sessions && y != x ==> SoundAt(s, y)
  }

  ghost predicate Inv(s: State) {
    !s.fault && Shape(s) && forall x {:trigger SoundAt(s, x)} :: x in s.sessions ==> SoundAt(s, x)
  }

  // ---- each step keeps it -------------------------------------------------------------------

  /** The two states agree on every session but x, and on its channels. */
  ghost predicate AgreeBut(s: State, r: State, x: nat) {
    && (forall y :: y != x ==> (y in s.sessions <==> y in r.sessions) && (y in s.nodes <==> y in r.nodes))
    && (forall y :: y != x && y in s.sessions ==> s.sessions[y] == r.sessions[y])
    && (forall y :: y != x && y in s.nodes ==> s.nodes[y] == r.nodes[y])
    && (forall c :: c in s.protos && s.protos[c].session != x ==> c in r.protos && r.protos[c] == s.protos[c])
    && (forall c :: c in r.protos && r.protos[c].session != x ==> c in s.protos && r.protos[c] == s.protos[c])
  }

  lemma Undisturbed(s: State, r: State, x: nat, y: nat)
    requires AgreeBut(s, r, x) && y != x && y in s.sessions && SoundAt(s, y)
    ensures SoundAt(r, y)
  {
    assert ProtosOf(r, y) == ProtosOf(s, y);
    assert ConnectedOf(r, y) == ConnectedOf(s, y);
  }

  lemma OthersStay(s: State, r: State, x: nat)
    requires AgreeBut(s, r, x) && SoundBut(s, x)
    ensures SoundBut(r, x)
  {
    forall y | y in r.sessions && y != x ensures SoundAt(r, y) { Undisturbed(s, r, x, y); }
  }

  lemma SameProtos(s: State, r: State, x: nat)
    requires s.protos == r.protos
    ensures ProtosOf(r, x) == ProtosOf(s, x) && ConnectedOf(r, x) == ConnectedOf(s, x)
  {}

  lemma {:induction false} WithoutRemoves(list: seq<nat>, x: nat)
    requires Distinct(list)
    ensures Distinct(Without(list, x))
    ensures forall y :: y in Without(list, x) <==> y in list && y != x
  {
    if |list| > 0 {
      assert list == [list[0]] + list[1..];
      if list[0] == x {
        assert forall y :: y in list[1..] ==> y != x;
      } else {
        WithoutRemoves(list[1..], x);
        assert list[0] !in list[1..];
      }
    }
  }

  lemma AppendedStayDistinct(list: seq<nat>, x: nat)
    requires Distinct(list) && x !in list
    ensures Distinct(list + [x])
  {
    forall i, j | 0 <= i < j < |list + [x]| ensures (list + [x])[i] != (list + [x])[j] {
      assert list[i] in list;
    }
  }

  /** The state session_create leaves when the cloud accepts the connection. */
  ghost function Created(s: State): State {
    var x, c := s.nextSession, s.nextProto;
    s.(sessions := s.sessions[x := Session(2, Some(x), Some(c))], nodes := s.nodes[x := Channel(x, true)],
       protos := s.protos[c := Channel(x, true)], list := s.list + [x], nextSession := x + 1, nextProto := c + 1)
  }

  lemma CreateIs(s: State)
    ensures SessionCreate(s, true) == Created(s)
  {
    var x, c := s.nextSession, s.nextProto;
    var r := Connect(NewSession(s), x);
    assert r.sessions == s.sessions[x := Session(2, None, Some(c))];
    assert OpenNode(r, x).sessions == s.sessions[x := Session(2, Some(x), Some(c))];
  }

  lemma CreatedShape(s: State)
    requires Shape(s)
    ensures Shape(Created(s))
  {
    AppendedStayDistinct(s.list, s.nextSession);
  }

  lemma CreateKeeps(s: State)
    requires Inv(s)
    ensures Inv(SessionCreate(s, true))
  {
    CreateIs(s);
    CreatedShape(s);
    var r, x := Created(s), s.nextSession;
    CreatedAgrees(s);
    OthersStay(s, r, x);
    CreatedSound(s);
  }

  lemma CreatedAgrees(s: State)
    requires s.nextProto !in s.protos
    ensures AgreeBut(s, Created(s), s.nextSession)
  {}

  lemma CreatedSound(s: State)
    requires forall c :: c in s.protos ==> s.protos[c].session != s.nextSession
    ensures SoundAt(Created(s), s.nextSession)
  {
    var r, x, c := Created(s), s.nextSession, s.nextProto;
    assert ProtosOf(r, x) == {c};
    assert ConnectedOf(r, x) == {c};
  }

  lemma RefusedIs(s: State)
    requires s.nextSession !in s.sessions
    ensures SessionCreate(s, false) == s.(nextSession := s.nextSession + 1, freed := s.freed + multiset{s.nextSession})
  {
    assert SessionCreate(s, false).sessions == s.sessions;
  }

  lemma RefusedKeeps(s: State)
    requires Inv(s)
    ensures Inv(SessionCreate(s, false))
  {
    RefusedIs(s);
    OthersStay(s, SessionCreate(s, false), s.nextSession);
  }

  lemma ConnectIs(s: State, x: nat)
    requires x in s.sessions
    ensures Connect(s, x) ==
            s.(sessions := s.sessions[x := s.sessions[x].(refs := s.sessions[x].refs + 1, proto := Some(s.nextProto))],
               protos := s.protos[s.nextProto := Channel(x, true)], nextProto := s.nextProto + 1)
  {
    assert Ref(s, x).sessions[x := Connect(s, x).sessions[x]] == s.sessions[x := Connect(s, x).sessions[x]];
  }

  lemma ConnectKeeps(s: State, x: nat)
    requires Inv(s) && x in s.nodes && s.sessions[x].proto.None?
    ensures Inv(Connect(s, x))
  {
    var r := Connect(s, x);
    ConnectIs(s, x);
    assert AgreeBut(s, r, x);
    OthersStay(s, r, x);
    ConnectAdds(s, r, x);
  }

  lemma ConnectAdds(s: State, r: State, x: nat)
    requires x in s.sessions && SoundAt(s, x) && s.sessions[x].proto.None?
    requires s.nextProto !in s.protos
    requires r == s.(sessions := s.sessions[x := s.sessions[x].(refs := s.sessions[x].refs + 1, proto := Some(s.nextProto))],
                     protos := s.protos[s.nextProto := Channel(x, true)], nextProto := s.nextProto + 1)
    ensures SoundAt(r, x)
  {
    assert s.nextProto !in ProtosOf(s, x);
    assert ProtosOf(r, x) == ProtosOf(s, x) + {s.nextProto};
    assert ConnectedOf(r, x) == ConnectedOf(s, x) + {s.nextProto};
  }

  lemma ReceiveKeeps(s: State, node: nat, connects: bool)
    requires Inv(s) && node in s.nodes
    ensures Inv(Receive(s, node, connects))
  {
    if s.sessions[node].proto.None? && connects { ConnectKeeps(s, node); }
  }

  lemma DropProtoKeeps(s: State, proto: nat)
    requires Inv(s) && proto in s.protos && s.protos[proto].connected
    ensures Inv(DropProto(s, proto))
  {
    var x, r := s.protos[proto].session, DropProto(s, proto);
    assert AgreeBut(s, r, x);
    OthersStay(s, r, x);
    DropClears(s, proto);
  }

  lemma DropClears(s: State, proto: nat)
    requires proto in s.protos && s.protos[proto].connected
    requires s.protos[proto].session in s.sessions && SoundAt(s, s.protos[proto].session)
    ensures SoundAt(DropProto(s, proto), s.protos[proto].session)
  {
    var x, r := s.protos[proto].session, DropProto(s, proto);
    assert proto in ConnectedOf(s, x);
    assert ProtosOf(r, x) == ProtosOf(s, x) && ConnectedOf(r, x) == ConnectedOf(s, x) - {proto};
  }

  lemma DisconnectNodeKeeps(s: State, node: nat)
    requires Inv(s) && node in s.nodes && s.nodes[node].connected
    ensures Inv(DisconnectNode(s, node))
  {
    var r := DisconnectNode(s, node);
    DisconnectAgrees(s, node);
    OthersStay(s, r, node);
    DisconnectSound(s, node);
  }

  lemma DisconnectAgrees(s: State, node: nat)
    requires node in s.nodes && s.nodes[node].session == node && node in s.sessions
    ensures AgreeBut(s, DisconnectNode(s, node), node)
  {}

  lemma DisconnectSound(s: State, node: nat)
    requires node in s.nodes && s.nodes[node].session == node && node in s.sessions && SoundAt(s, node)
    ensures SoundAt(DisconnectNode(s, node), node)
  {
    SameProtos(s, DisconnectNode(s, node), node);
  }

  /** A holder of x has just gone and its reference is not yet given back. */
  ghost predicate OneTooMany(s: State, x: nat) {
    && !s.fault && Shape(s) && SoundBut(s, x)
    && x in s.sessions && s.sessions[x].refs == Holders(s, x) + 1 && PointsRight(s, x)
  }

  lemma UnrefShape(s: State, x: nat)
    requires OneTooMany(s, x)
    ensures Shape(Unref(s, x))
  {
    if Holders(s, x) == 0 {
      forall c | c in s.protos ensures s.protos[c].session != x {
        assert s.protos[c].session == x ==> c in ProtosOf(s, x);
      }
    }
  }

  lemma UnrefAgrees(s: State, x: nat)
    ensures AgreeBut(s, Unref(s, x), x)
  {}

  lemma UnrefSound(s: State, x: nat)
    requires x in s.sessions && s.sessions[x].refs == Holders(s, x) + 1 && PointsRight(s, x)
    ensures x in Unref(s, x).sessions ==> SoundAt(Unref(s, x), x)
  {
    SameProtos(s, Unref(s, x), x);
  }

  lemma UnrefKeeps(s: State, x: nat)
    requires OneTooMany(s, x)
    ensures Inv(Unref(s, x))
  {
    UnrefShape(s, x);
    UnrefAgrees(s, x);
    OthersStay(s, Unref(s, x), x);
    UnrefSound(s, x);
  }

  lemma ProtoForgotten(s: State, proto: nat)
    requires Inv(s) && proto in s.protos && !s.protos[proto].connected
    ensures OneTooMany(s.(protos := s.protos - {proto}), s.protos[proto].session)
  {
    var x, m := s.protos[proto].session, s.(protos := s.protos - {proto});
    assert AgreeBut(s, m, x);
    OthersStay(s, m, x);
    assert SoundAt(s, x);
    assert ProtosOf(m, x) == ProtosOf(s, x) - {proto} && ConnectedOf(m, x) == ConnectedOf(s, x);
  }

  lemma DestroyProtoKeeps(s: State, proto: nat)
    requires Inv(s) && proto in s.protos && !s.protos[proto].connected
    ensures Inv(DestroyProto(s, proto))
  {
    var x, m := s.protos[proto].session, s.(protos := s.protos - {proto});
    ProtoForgotten(s, proto);
    UnrefKeeps(m, x);
    assert DestroyProto(s, proto) == Unref(m, x);
  }

  lemma NodeForgotten(s: State, node: nat)
    requires Inv(s) && node in s.nodes && !s.nodes[node].connected
    ensures OneTooMany(s.(nodes := s.nodes - {node}, list := Without(s.list, node)), node)
  {
    var m := s.(nodes := s.nodes - {node}, list := Without(s.list, node));
    WithoutRemoves(s.list, node);
    assert AgreeBut(s, m, node);
    OthersStay(s, m, node);
    NodeLetsGo(s, m, node);
  }

  lemma NodeLetsGo(s: State, m: State, node: nat)
    requires node in s.sessions && node in s.nodes && !s.nodes[node].connected && SoundAt(s, node)
    requires m.sessions == s.sessions && m.protos == s.protos && node !in m.nodes
    ensures m.sessions[node].refs == Holders(m, node) + 1 && PointsRight(m, node)
  {
    SameProtos(s, m, node);
  }

  lemma DestroyNodeKeeps(s: State, node: nat)
    requires Inv(s) && node in s.nodes && !s.nodes[node].connected
    ensures Inv(DestroyNode(s, node))
  {
    var m := s.(nodes := s.nodes - {node}, list := Without(s.list, node));
    NodeForgotten(s, node);
    UnrefKeeps(m, node);
    assert DestroyNode(s, node) == Unref(m, node);
  }

  lemma StepKeeps(s: State, e: Event)
    requires Inv(s) && Enabled(s, e)
    ensures Inv(Step(s, e))
  {
    match e {
      case Create(connects) => if connects { CreateKeeps(s); } else { RefusedKeeps(s); }
      case NodeData(node, connects) => ReceiveKeeps(s, node, connects);
      case ProtoDropped(proto) => DropProtoKeeps(s, proto);
      case ProtoDestroyed(proto) => DestroyProtoKeeps(s, proto);
      case NodeDisconnected(node) => DisconnectNodeKeeps(s, node);
      case NodeDestroyed(node) => DestroyNodeKeeps(s, node);
    }
  }

  lemma NextIs(es: seq<Event>, ss: seq<State>, k: nat)
    requires IsRun(es, ss) && k < |es|
    ensures Enabled(ss[k], es[k]) && ss[k + 1] == Step(ss[k], es[k])
  {
    assert StepAt(es, ss, k);
  }

  lemma {:induction false} Reachable(es: seq<Event>, ss: seq<State>, k: nat)
    requires IsRun(es, ss) && k <= |es|
    ensures Inv(ss[k])
  {
    if k > 0 {
      Reachable(es, ss, k - 1);
      NextIs(es, ss, k - 1);
      StepKeeps(ss[k - 1], es[k - 1]);
    }
  }

  // ---- the theorems ----------------------------------------------------------------------------

  /** In every reachable state a session's count is the node side plus the cloud channels not
      yet destroyed; it is allocated exactly while that is not zero, was freed once if it is
      zero, and no step touched a session that was not allocated. */
  lemma CountsAreExact(es: seq<Event>, ss: seq<State>, k: nat, x: nat)
    requires IsRun(es, ss) && k <= |es|
    ensures var s := ss[k];
            && !s.fault
            && (x in s.sessions ==> s.sessions[x].refs == One(x in s.nodes) + |ProtosOf(s, x)|)
            && (x in s.sessions <==> Holders(s, x) > 0)
            && s.freed[x] == One(x < s.nextSession && Holders(s, x) == 0)
  {
    var s := ss[k];
    Reachable(es, ss, k);
    if x in s.sessions {
      assert SoundAt(s, x);
    } else {
      assert x !in s.nodes && ProtosOf(s, x) == {};
    }
  }

  /** What each event of a run does to the list and the channels; what the sessions are then
      follows from the other theorems. A created session is listed, with a node channel and a
      connected cloud channel, or freed at once when the cloud refuses; data reconnects a session
      without a cloud channel; a drop and a disconnection leave the channel to be destroyed. */
  lemma EventOutcome(es: seq<Event>, ss: seq<State>, k: nat)
    requires IsRun(es, ss) && k < |es|
    ensures var s, r := ss[k], ss[k + 1];
      match es[k]
      case Create(connects) =>
        && r.nextSession == s.nextSession + 1
        && if connects
           then TablesAre(r, s.list + [s.nextSession], s.nodes[s.nextSession := Channel(s.nextSession, true)],
                          s.protos[s.nextProto := Channel(s.nextSession, true)])
           else TablesAre(r, s.list, s.nodes, s.protos) && s.nextSession !in r.sessions && r.freed[s.nextSession] == 1
      case NodeData(node, connects) =>
        if node in s.sessions && s.sessions[node].proto.None? && connects
        then TablesAre(r, s.list, s.nodes, s.protos[s.nextProto := Channel(node, true)])
        else r == s
      case ProtoDropped(c) =>
        c in s.protos && TablesAre(r, s.list, s.nodes, s.protos[c := Channel(s.protos[c].session, false)])
      case ProtoDestroyed(c) => c in s.protos && TablesAre(r, s.list, s.nodes, s.protos - {c})
      case NodeDisconnected(node) => TablesAre(r, s.list, s.nodes[node := Channel(node, false)], s.protos)
      case NodeDestroyed(node) => TablesAre(r, Without(s.list, node), s.nodes - {node}, s.protos)
  {
    Reachable(es, ss, k);
    Reachable(es, ss, k + 1);
    NextIs(es, ss, k);
    StepTables(ss[k], es[k]);
  }

  predicate TablesAre(r: State, list: seq<nat>, nodes: map<nat, Channel>, protos: map<nat, Channel>) {
    r.list == list && r.nodes == nodes && r.protos == protos
  }

  lemma StepTables(s: State, e: Event)
    requires Inv(s) && Enabled(s, e)
    ensures var r := Step(s, e);
      match e
      case Create(connects) =>
        && r.nextSession == s.nextSession + 1
        && if connects
           then TablesAre(r, s.list + [s.nextSession], s.nodes[s.nextSession := Channel(s.nextSession, true)],
                          s.protos[s.nextProto := Channel(s.nextSession, true)])
           else TablesAre(r, s.list, s.nodes, s.protos) && s.nextSession !in r.sessions
      case NodeData(node, connects) =>
        if node in s.sessions && s.sessions[node].proto.None? && connects
        then TablesAre(r, s.list, s.nodes, s.protos[s.nextProto := Channel(node, true)])
        else r == s
      case ProtoDropped(c) => TablesAre(r, s.list, s.nodes, s.protos[c := Channel(s.protos[c].session, false)])
      case ProtoDestroyed(c) => TablesAre(r, s.list, s.nodes, s.protos - {c})
      case NodeDisconnected(node) => TablesAre(r, s.list, s.nodes[node := Channel(node, false)], s.protos)
      case NodeDestroyed(node) => TablesAre(r, Without(s.list, node), s.nodes - {node}, s.protos)
  {
    match e {
      case Create(connects) => if connects { CreateIs(s); } else { RefusedIs(s); }
      case NodeData(node, connects) => if s.sessions[node].proto.None? && connects { ConnectIs(s, node); }
      case _ =>
    }
  }

  /** proto_channel is set exactly when one of the session's cloud channels is connected, and
      it is that one. */
  lemma ProtoIsTheConnected(es: seq<Event>, ss: seq<State>, k: nat, x: nat)
    requires IsRun(es, ss) && k <= |es| && x in ss[k].sessions
    ensures ss[k].sessions[x].proto == None <==> ConnectedOf(ss[k], x) == {}
    ensures forall c :: ss[k].sessions[x].proto == Some(c) <==> ConnectedOf(ss[k], x) == {c}
    ensures |ConnectedOf(ss[k], x)| <= 1
  {
    Reachable(es, ss, k);
    assert SoundAt(ss[k], x);
    var one := ConnectedOf(ss[k], x);
    forall c | one == {c} ensures ss[k].sessions[x].proto == Some(c) { assert c in one; }
  }

  /** A session is on the list, once, exactly while its node channel is not destroyed; the
      channel's handlers always find it allocated. */
  lemma ListedWhileNodeLives(es: seq<Event>, ss: seq<State>, k: nat, x: nat)
    requires IsRun(es, ss) && k <= |es|
    ensures x in ss[k].list <==> x in ss[k].nodes
    ensures x in ss[k].nodes ==> x in ss[k].sessions
    ensures forall i, j :: 0 <= i < j < |ss[k].list| ==> ss[k].list[i] != ss[k].list[j]
  {
    Reachable(es, ss, k);
  }

  /** Data of a node is handed on only through the connected cloud channel of its own session,
      and a failed reconnection changes nothing. */
  lemma DataGoesThroughOwnChannel(es: seq<Event>, ss: seq<State>, k: nat, node: nat, connects: bool)
    requires IsRun(es, ss) && k <= |es| && Enabled(ss[k], NodeData(node, connects))
    ensures var r := Step(ss[k], NodeData(node, connects));
            match CarriedBy(ss[k], node, connects)
            case Some(c) => ConnectedOf(r, node) == {c}
            case None => !connects && r == ss[k] && ConnectedOf(r, node) == {}
  {
    Reachable(es, ss, k);
    ReceiveKeeps(ss[k], node, connects);
    var r := Receive(ss[k], node, connects);
    assert SoundAt(r, node);
    if ss[k].sessions[node].proto.None? && connects { ConnectIs(ss[k], node); }
  }

  /** When a node leaves, the driver is asked to close exactly the cloud channels of its
      session that are connected. */
  lemma NodeLeavingClosesCloud(es: seq<Event>, ss: seq<State>, k: nat, node: nat)
    requires IsRun(es, ss) && k <= |es| && Enabled(ss[k], NodeDisconnected(node))
    ensures forall c :: c in Closes(ss[k], node) <==> c in ConnectedOf(ss[k], node)
  {
    Reachable(es, ss, k);
    assert SoundAt(ss[k], node);
  }
}
