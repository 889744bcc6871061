/** Sessions as the program has them: objects that the channels of the node and of the cloud
    point to, counted by hand and updated in place. Every callback is proved to do to the
    objects what the state machine of module Sessions does to values. */
module SessionManager {
  import opened Json
  import S = Sessions

  class Session {
    var refs: int
    var nodeChannel: Option<nat>
    var protoChannel: Option<nat>

    ghost function Value(): S.Session
      reads this
    {
      S.Session(refs, nodeChannel, protoChannel)
    }

    constructor ()
      ensures Value() == S.Session(1, None, None)
    {
      refs, nodeChannel, protoChannel := 1, None, None;
    }
  }

  class Manager {
    // Allocated sessions by address, and the library's channels with the address each of
    // their handlers is given.
    var memory: map<nat, Session>
    var nodes: map<nat, S.Channel>
    var protos: map<nat, S.Channel>
    var sessionList: seq<nat>
    var nextSession: nat
    var nextProto: nat
    ghost var freed: multiset<nat>

    /** No two addresses share an object. */
    ghost predicate Separate()
      reads `memory
    {
      forall m, n :: m in memory && n in memory && memory[m] == memory[n] ==> m == n
    }

    ghost function Objects(): map<nat, S.Session>
      reads `memory, memory.Values
    {
      map n | n in memory :: memory[n].Value()
    }

    ghost function Model(): S.State
      reads this, memory.Values
    {
      S.State(Objects(), nodes, protos, sessionList, freed, nextSession, nextProto, false)
    }

    ghost predicate Valid()
      reads this, memory.Values
    {
      Separate() && S.Inv(Model())
    }

    /** Every pointer the callbacks follow is to an allocated session. */
    ghost predicate Sound()
      reads `memory, `nodes, `protos, `nextSession
    {
      && Separate() && nextSession !in memory
      && (forall c :: c in nodes ==> nodes[c].session in memory)
      && (forall c :: c in protos ==> protos[c].session in memory)
    }

    lemma ValidIsSound()
      requires Valid()
      ensures Sound()
    {
      var s := Model();
      assert s.sessions.Keys == memory.Keys;
      assert nextSession in s.sessions ==> nextSession < s.nextSession;
      forall c | c in nodes ensures nodes[c].session in memory { assert c in s.nodes; }
      forall c | c in protos ensures protos[c].session in memory { assert c in s.protos; }
    }

    constructor ()
      ensures Valid() && Model() == S.Start
    {
      memory, nodes, protos, sessionList := map[], map[], map[], [];
      nextSession, nextProto, freed := 0, 0, multiset{};
    }

    method SessionNew() returns (x: nat)
      requires Separate() && nextSession !in memory
      modifies `memory, `nextSession
      ensures Separate() && x == old(nextSession) && x in memory && fresh(memory.Values - old(memory.Values))
      ensures Model() == S.NewSession(old(Model()))
    {
      var session := new Session();
      x := nextSession;
      memory, nextSession := memory[x := session], nextSession + 1;
      assert Objects() == old(Objects())[x := session.Value()];
    }

    method SessionRef(x: nat)
      requires Separate() && x in memory
      modifies memory[x]
      ensures Model() == S.Ref(old(Model()), x)
    {
      var session := memory[x];
      session.refs := session.refs + 1;
      assert Objects() == old(Objects())[x := session.Value()];
    }

    /** Gives a reference back, and frees the session with the last one. */
    method SessionUnref(x: nat)
      requires Separate() && x in memory
      modifies `memory, `freed, memory[x]
      ensures Separate() && memory.Values <= old(memory.Values)
      ensures Model() == S.Unref(old(Model()), x)
    {
      var session := memory[x];
      session.refs := session.refs - 1;
      if session.refs > 0 {
        assert Objects() == old(Objects())[x := session.Value()];
      } else {
        memory, freed := memory - {x}, freed + multiset{x};
        assert Objects() == old(Objects()) - {x};
      }
    }

    method SetProto(x: nat, proto: Option<nat>)
      requires Separate() && x in memory
      modifies memory[x]
      ensures Model() == S.SetSession(old(Model()), x, old(Model()).sessions[x].(proto := proto))
    {
      memory[x].protoChannel := proto;
      assert memory[x].Value() == old(memory[x].Value()).(proto := proto);
      assert Objects() == old(Objects())[x := memory[x].Value()];
    }

    method SetNode(x: nat, node: Option<nat>)
      requires Separate() && x in memory
      modifies memory[x]
      ensures Model() == S.SetSession(old(Model()), x, old(Model()).sessions[x].(node := node))
    {
      memory[x].nodeChannel := node;
      assert memory[x].Value() == old(memory[x].Value()).(node := node);
      assert Objects() == old(Objects())[x := memory[x].Value()];
    }

    /** connect_proto; the driver's answer is a parameter. */
    method ConnectProto(x: nat, connects: bool) returns (ok: bool)
      requires Separate() && x in memory
      modifies `protos, `nextProto, memory[x]
      ensures ok == connects
      ensures Model() == if connects then S.Connect(old(Model()), x) else old(Model())
    {
      if !connects { return false; }
      var c := nextProto;
      SessionRef(x);
      ghost var objects := Objects();
      protos, nextProto := protos[c := S.Channel(x, true)], c + 1;
      assert Objects() == objects;
      SetProto(x, Some(c));
      return true;
    }

    method OpenNode(x: nat)
      requires Separate() && x in memory
      modifies `nodes, `sessionList, memory[x]
      ensures Model() == S.OpenNode(old(Model()), x)
    {
      nodes, sessionList := nodes[x := S.Channel(x, true)], sessionList + [x];
      assert Objects() == old(Objects());
      SetNode(x, Some(x));
    }

    method SessionCreate(connects: bool) returns (ok: bool)
      requires Separate() && nextSession !in memory
      modifies this, memory.Values
      ensures Separate() && fresh(memory.Values - old(memory.Values))
      ensures ok == connects && Model() == S.SessionCreate(old(Model()), connects)
    {
      var x := SessionNew();
      ok := ConnectProto(x, connects);
      if ok { OpenNode(x); } else { SessionUnref(x); }
    }

    /** on_node_channel_data: the cloud channel that carries the data, if there is one. */
    method OnNodeChannelData(node: nat, connects: bool) returns (carrier: Option<nat>)
      requires Separate() && node in nodes && nodes[node].session in memory
      modifies this, memory.Values
      ensures Separate() && memory == old(memory)
      ensures Model() == S.Receive(old(Model()), node, connects)
      ensures carrier == S.CarriedBy(old(Model()), node, connects)
    {
      var x := nodes[node].session;
      if memory[x].protoChannel.None? {
        var ok := ConnectProto(x, connects);
        if !ok { return None; }
      }
      assert Model().sessions[x] == memory[x].Value();
      return memory[x].protoChannel;
    }

    method OnProtoChannelDisconnected(proto: nat)
      requires Separate() && proto in protos && protos[proto].session in memory
      modifies this, memory.Values
      ensures Separate() && memory == old(memory)
      ensures Model() == S.DropProto(old(Model()), proto)
    {
      SetProto(protos[proto].session, None);
      ghost var objects := Objects();
      protos := protos[proto := protos[proto].(connected := false)];
      assert Objects() == objects;
    }

    method OnProtoChannelDestroyed(proto: nat)
      requires Separate() && proto in protos && protos[proto].session in memory
      modifies this, memory.Values
      ensures Separate() && memory.Values <= old(memory.Values)
      ensures Model() == S.DestroyProto(old(Model()), proto)
    {
      SessionUnref(protos[proto].session);
      ghost var objects := Objects();
      protos := protos - {proto};
      assert Objects() == objects;
    }

    /** on_node_channel_disconnected: the channels the driver is asked to close. */
    method OnNodeChannelDisconnected(node: nat) returns (closes: seq<nat>)
      requires Separate() && node in nodes && nodes[node].session in memory
      modifies this, memory.Values
      ensures Separate() && memory == old(memory)
      ensures Model() == S.DisconnectNode(old(Model()), node)
      ensures closes == S.Closes(old(Model()), node)
    {
      var x := nodes[node].session;
      closes := match memory[x].protoChannel case None => [] case Some(c) => [c];
      SetNode(x, None);
      ghost var objects := Objects();
      nodes := nodes[node := nodes[node].(connected := false)];
      assert Objects() == objects;
    }

    method OnNodeChannelDestroyed(node: nat)
      requires Separate() && node in nodes && nodes[node].session in memory
      modifies this, memory.Values
      ensures Separate() && memory.Values <= old(memory.Values)
      ensures Model() == S.DestroyNode(old(Model()), node)
    {
      var x := nodes[node].session;
      sessionList := S.Without(sessionList, x);
      assert Objects() == old(Objects());
      SessionUnref(x);
      ghost var objects := Objects();
      nodes := nodes - {node};
      assert Objects() == objects;
    }

    method Dispatch(e: S.Event) returns (output: Output)
      requires Sound() && S.Enabled(Model(), e)
      modifies this, memory.Values
      ensures Separate() && fresh(memory.Values - old(memory.Values))
      ensures Model() == S.Step(old(Model()), e) && output == OutputOf(old(Model()), e)
    {
      var carrier, closes := None, [];
      match e {
        case Create(connects) => var ok := SessionCreate(connects);
        case NodeData(node, connects) => carrier := OnNodeChannelData(node, connects);
        case ProtoDropped(proto) => OnProtoChannelDisconnected(proto);
        case ProtoDestroyed(proto) => OnProtoChannelDestroyed(proto);
        case NodeDisconnected(node) => closes := OnNodeChannelDisconnected(node);
        case NodeDestroyed(node) => OnNodeChannelDestroyed(node);
      }
      output := Output(carrier, closes);
    }

    /** One turn of the event loop does to the objects what a step does to their state, and
        leaves every count exact. */
    method Serve(e: S.Event) returns (output: Output)
      requires Valid() && S.Enabled(Model(), e)
      modifies this, memory.Values
      ensures Valid() && fresh(memory.Values - old(memory.Values))
      ensures Model() == S.Step(old(Model()), e) && output == OutputOf(old(Model()), e)
    {
      ValidIsSound();
      S.StepKeeps(Model(), e);
      output := Dispatch(e);
    }

    /** Turn k of a run. */
    method Turn(es: seq<S.Event>, ghost ss: seq<S.State>, k: nat) returns (output: Output)
      requires Valid() && S.IsRun(es, ss) && k < |es| && Model() == ss[k]
      modifies this, memory.Values
      ensures Valid() && fresh(memory.Values - old(memory.Values))
      ensures Model() == ss[k + 1] && output == OutputOf(ss[k], es[k])
    {
      S.NextIs(es, ss, k);
      output := Serve(es[k]);
    }

    /** The event loop. In any run the objects stand for its states one after the other, and
        data goes out and channels are closed as the states say. */
    method Run(es: seq<S.Event>, ghost ss: seq<S.State>) returns (outputs: seq<Output>)
      requires Valid() && S.IsRun(es, ss) && Model() == S.Start
      modifies this, memory.Values
      ensures Valid() && Model() == ss[|es|]
      ensures |outputs| == |es| && forall k :: 0 <= k < |es| ==> outputs[k] == OutputOf(ss[k], es[k])
    {
      outputs := [];
      for k := 0 to |es|
        invariant Valid() && fresh(memory.Values - old(memory.Values)) && Model() == ss[k]
        invariant |outputs| == k && forall j :: 0 <= j < k ==> outputs[j] == OutputOf(ss[j], es[j])
      {
        var output := Turn(es, ss, k);
        outputs := outputs + [output];
      }
    }
  }

  /** The cloud channel that carries a node's data, and the ones to be closed. */
  datatype Output = Output(carrier: Option<nat>, closes: seq<nat>)

  ghost function OutputOf(s: S.State, e: S.Event): Output {
    match e
    case NodeData(node, connects) => Output(S.CarriedBy(s, node, connects), [])
    case NodeDisconnected(node) => Output(None, S.Closes(s, node))
    case _ => Output(None, [])
  }
}
