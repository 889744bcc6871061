/** The gateway as the program has it: trusts are objects that the map, the node channels and
    the device watches point to, counted by hand and updated in place. Every method is proved
    to do to the objects what the state machine of module Engine does to values. */
module Gateway {
  import opened Json
  import opened Protocol
  import opened Sequences
  import opened Documents
  import opened ConfigRules
  import Rules = ConfigRules
  import opened Draining
  import E = Engine
  import O = Ownership

  /** l_queue_find on sensor_id. */
  method FindSensor(list: seq<Schema>, id: Byte) returns (i: nat)
    ensures i == First(list, E.ForSchema(id))
    ensures i < |list| <==> E.HasSensor(list, id)
  {
    i := 0;
    while i < |list| && list[i].sensorId != id
      invariant i <= |list|
      invariant forall k :: 0 <= k < i ==> list[k].sensorId != id
    {
      i := i + 1;
    }
    FirstIs(list, E.ForSchema(id), i);
  }

  class Trust {
    var refs: int
    var pid: int
    var deviceId: int
    var rollback: bool
    var credential: Credential
    var via: int
    var schema: seq<Schema>
    var pending: seq<Schema>
    var config: seq<Config>
    var watch: Option<nat>

    ghost function Value(): E.Trust
      reads this
    {
      E.Trust(refs, pid, deviceId, rollback, credential, via, schema, pending, config, watch)
    }

    constructor (credential: Credential, deviceId: int, pid: int, rollback: bool,
                 schema: seq<Schema>, config: seq<Config>, via: int)
      ensures Value() == E.Trust(1, pid, deviceId, rollback, credential, via, schema, [], config, None)
    {
      this.refs := 1;
      this.credential, this.deviceId, this.pid, this.rollback := credential, deviceId, pid, rollback;
      this.schema, this.pending, this.config, this.via := schema, [], config, via;
      this.watch := None;
    }

    /** A fragment arrived: the registration is complete, and a new sensor joins the pending
        list. */
    method AddFragment(p: Params, fragment: Schema)
      modifies this
      ensures Value() == old(Value()).(rollback := false, pending := E.AddPending(p, old(pending), fragment))
    {
      rollback := false;
      var known := FindSensor(pending, fragment.sensorId);
      if known == |pending| && p.queueOnAdd { pending := pending + [fragment]; }
    }

    /** trust_sensor_schema_complete. */
    method CompleteSchema()
      modifies this
      ensures Value() == old(Value()).(schema := old(pending), pending := [])
    {
      schema := pending;
      pending := [];
    }

    /** trust_sensor_schema_tmp_free. */
    method FreePending()
      modifies this
      ensures Value() == old(Value()).(pending := [])
    {
      pending := [];
    }

    /** trust_config_confirm. */
    method ConfirmConfig(id: Byte)
      modifies this
      ensures Value() == old(Value()).(config := Confirm(old(config), id))
    {
      config := Rules.ConfirmConfig(config, id);
    }

    /** trust_config_update. */
    method UpdateConfig(received: seq<Config>)
      modifies this
      ensures Value() == old(Value()).(config := received)
    {
      config := received;
    }
  }

  class TrustGateway {
    // Allocated trusts by address: a pointer to a trust is a key, and following it needs the
    // key to be there.
    var memory: map<nat, Trust>
    var trustMap: map<int, nat>

    // What the event loop keeps for each node channel, and the driver for each watch.
    var channels: map<nat, E.Channel>
    var watches: map<nat, E.Watch>
    var next: nat
    ghost var freed: multiset<nat>

    /** No two addresses share an object. */
    ghost predicate Separate()
      reads `memory
    {
      forall m, n :: m in memory && n in memory && memory[m] == memory[n] ==> m == n
    }

    ghost function Trusts(): map<nat, E.Trust>
      reads `memory, memory.Values
    {
      map n | n in memory :: memory[n].Value()
    }

    /** The state the objects stand for. */
    ghost function Model(): E.State
      reads this, memory.Values
    {
      E.State(Trusts(), trustMap, channels, watches, freed, next, false)
    }

    /** What following a pointer from the map, and allocating, rely on. */
    ghost predicate Ready()
      reads `memory, `trustMap, `next
    {
      && Separate() && next !in memory
      && forall sock :: sock in trustMap ==> trustMap[sock] in memory
    }

    ghost predicate Valid()
      reads this, memory.Values
    {
      Separate() && O.Inv(Model())
    }

    constructor ()
      ensures Valid() && Model() == E.Start
    {
      memory, trustMap, channels, watches, next, freed := map[], map[], map[], map[], 0, multiset{};
      new;
      O.StartIsSound();
    }

    // ---- references ---------------------------------------------------------------------

    method TrustRef(n: nat)
      requires Separate() && n in memory
      modifies memory[n]
      ensures Model() == E.Ref(old(Model()), n)
    {
      var t := memory[n];
      t.refs := t.refs + 1;
      assert Trusts() == old(Trusts())[n := t.Value()];
    }

    /** Gives a reference back, and frees the trust with the last one. */
    method TrustUnref(n: nat)
      requires Separate() && n in memory
      modifies `memory, `freed, memory[n]
      ensures Separate() && memory.Values <= old(memory.Values)
      ensures forall m :: m in memory ==> m in old(memory) && memory[m] == old(memory[m])
      ensures Model() == E.Unref(old(Model()), n)
    {
      var t := memory[n];
      t.refs := t.refs - 1;
      if t.refs > 0 {
        assert Trusts() == old(Trusts())[n := t.Value()];
      } else {
        memory, freed := memory - {n}, freed + multiset{n};
        assert Trusts() == old(Trusts()) - {n};
      }
    }

    method TrustMapRemove(sock: int)
      requires Separate() && (sock in trustMap ==> trustMap[sock] in memory)
      modifies `trustMap, `memory, `freed, memory.Values
      ensures Separate() && memory.Values <= old(memory.Values)
      ensures forall m :: m in memory ==> m in old(memory) && memory[m] == old(memory[m])
      ensures Model() == E.MapRemove(old(Model()), sock)
    {
      if sock in trustMap {
        var n := trustMap[sock];
        trustMap := trustMap - {sock};
        TrustUnref(n);
      }
    }

    method TrustMapReplace(sock: int, n: nat)
      requires Separate() && (sock in trustMap ==> trustMap[sock] in memory)
      modifies `trustMap, `memory, `freed, memory.Values
      ensures Separate() && memory.Values <= old(memory.Values)
      ensures Model() == E.MapReplace(old(Model()), sock, n)
    {
      TrustMapRemove(sock);
      trustMap := trustMap[sock := n];
    }

    method TrustNew(credential: Credential, deviceId: int, pid: int, rollback: bool,
                    schema: seq<Schema>, config: seq<Config>, via: int) returns (n: nat)
      requires Separate() && next !in memory
      modifies `memory, `next
      ensures Separate() && n == old(next) && n in memory && memory == old(memory)[n := memory[n]]
      ensures fresh(memory.Values - old(memory.Values))
      ensures Model() == E.NewTrust(old(Model()), E.Trust(1, pid, deviceId, rollback, credential, via, schema, [], config, None))
    {
      var t := new Trust(credential, deviceId, pid, rollback, schema, config, via);
      n := next;
      memory, next := memory[n := t], next + 1;
      assert Trusts() == old(Trusts())[n := t.Value()];
    }

    method CreateNodeChannel(n: nat, sock: int)
      requires Separate() && n in memory
      modifies `channels, memory[n]
      ensures Model() == E.OpenChannel(old(Model()), n, sock)
    {
      TrustRef(n);
      ghost var trusts := Trusts();
      channels := channels[n := E.Channel(sock, n, true)];
      assert Trusts() == trusts;
    }

    method CreateDeviceWatch(n: nat) returns (w: nat)
      requires Separate() && n in memory
      modifies `watches, memory[n]
      ensures w == n && Model() == E.Ref(old(Model()), n).(watches := old(watches)[n := E.Watch(n, n)])
    {
      TrustRef(n);
      ghost var trusts := Trusts();
      w := n;
      watches := watches[w := E.Watch(n, n)];
      assert Trusts() == trusts;
    }

    method SetWatch(n: nat, w: Option<nat>)
      requires Separate() && n in memory
      modifies memory[n]
      ensures Model() == E.SetTrust(old(Model()), n, old(Model()).trusts[n].(watch := w))
    {
      memory[n].watch := w;
      assert memory[n].Value() == old(memory[n].Value()).(watch := w);
      assert Trusts() == old(Trusts())[n := memory[n].Value()];
    }

    /** A new trust takes the map entry of the socket, from the trust that had it if any. */
    method NewMapped(sock: int, credential: Credential, deviceId: int, pid: int, rollback: bool,
                     schema: seq<Schema>, config: seq<Config>, via: int) returns (n: nat)
      requires Ready()
      modifies `memory, `next, `trustMap, `freed, memory.Values
      ensures Separate() && n == old(next) && n in memory && fresh(memory.Values - old(memory.Values))
      ensures var trust := E.Trust(1, pid, deviceId, rollback, credential, via, schema, [], config, None);
              Model() == E.MapReplace(E.NewTrust(old(Model()), trust), sock, n)
    {
      n := TrustNew(credential, deviceId, pid, rollback, schema, config, via);
      TrustMapReplace(sock, n);
      assert n in Trusts();
    }

    /** trust_create: the trust, its map entry, its channel and its watch. */
    method TrustCreate(sock: int, credential: Credential, deviceId: int, pid: int, rollback: bool,
                       schema: seq<Schema>, config: seq<Config>, via: int)
      requires Ready()
      modifies this, memory.Values
      ensures Separate() && fresh(memory.Values - old(memory.Values))
      ensures Model() == E.TrustCreate(old(Model()), sock, E.Trust(1, pid, deviceId, rollback, credential, via, schema, [], config, None))
    {
      var n := NewMapped(sock, credential, deviceId, pid, rollback, schema, config, via);
      CreateNodeChannel(n, sock);
      var w := CreateDeviceWatch(n);
      SetWatch(n, Some(w));
    }

    // ---- callbacks ------------------------------------------------------------------------

    /** on_device_watch_destroyed. */
    method OnDeviceWatchDestroyed(w: nat)
      requires Separate() && w in watches && watches[w].trust in memory
      modifies this, memory.Values
      ensures Separate() && memory.Values <= old(memory.Values)
      ensures Model() == E.DropWatch(old(Model()), w)
    {
      SetWatch(watches[w].trust, None);
      TrustUnref(watches[w].trust);
      ghost var trusts := Trusts();
      watches := watches - {w};
      assert Trusts() == trusts;
    }

    /** on_node_channel_destroyed. */
    method OnNodeChannelDestroyed(c: nat)
      requires Separate() && c in channels && channels[c].trust in memory
      modifies this, memory.Values
      ensures Separate() && memory.Values <= old(memory.Values)
      ensures Model() == E.DestroyChannel(old(Model()), c)
    {
      TrustUnref(channels[c].trust);
      ghost var trusts := Trusts();
      channels := channels - {c};
      assert Trusts() == trusts;
    }

    /** on_node_channel_disconnected, up to the end of the handler. A mapped trust is also held
        by its channel, and by the watch it points to. */
    method OnNodeChannelDisconnected(c: nat, sock: int, removed: bool) returns (calls: seq<E.Call>)
      requires Ready() && c in channels
      requires sock in trustMap ==> HeldBesides(trustMap[sock])
      modifies this, memory.Values
      ensures Separate() && memory.Values <= old(memory.Values)
      ensures Model() == E.Disconnect(old(Model()), c, sock, removed)
      ensures calls == E.TeardownCalls(old(Model()), sock)
    {
      calls := Teardown(sock, removed);
      ghost var trusts := Trusts();
      channels := channels[c := channels[c].(connected := false)];
      assert Trusts() == trusts;
    }

    ghost predicate HeldBesides(n: nat)
      requires n in memory
      reads `memory, `watches, memory.Values
    {
      match memory[n].watch
      case None => memory[n].refs >= 2
      case Some(w) => memory[n].refs >= 3 && w in watches && watches[w].trust == n
    }

    method Teardown(sock: int, removed: bool) returns (calls: seq<E.Call>)
      requires Ready() && (sock in trustMap ==> HeldBesides(trustMap[sock]))
      modifies this, memory.Values
      ensures Separate() && memory.Values <= old(memory.Values) && channels == old(channels)
      ensures Model() == E.Teardown(old(Model()), sock, removed)
      ensures calls == E.TeardownCalls(old(Model()), sock)
    {
      if sock !in trustMap { return []; }
      var n := trustMap[sock];
      var trust := memory[n];
      var via := trust.via;
      calls := UndoRegistration(sock, removed);
      assert E.Mapped(old(Model()), sock) && n in Model().trusts;
      match trust.watch {
        case None =>
        case Some(w) =>
          calls := calls + [E.Call(sock, via, E.StopWatch(w))];
          OnDeviceWatchDestroyed(w);
          assert n in Model().trusts;
      }
      TrustMapRemove(sock);
    }

    /** A registration that was never completed is taken back in the cloud. */
    method UndoRegistration(sock: int, removed: bool) returns (calls: seq<E.Call>)
      requires Ready() && sock in trustMap && memory[trustMap[sock]].refs >= 2
      modifies `trustMap, `memory, `freed, memory.Values
      ensures Separate() && memory.Values <= old(memory.Values)
      ensures var n := old(trustMap[sock]);
        && n in memory && memory[n] == old(memory[n]) && memory[n].watch == old(memory[n].watch)
        && memory[n].refs >= old(memory[n].refs) - (if sock in trustMap then 0 else 1)
        && (sock in trustMap ==> trustMap[sock] == n)
      ensures Model() == if old(memory[trustMap[sock]].rollback) && removed then E.MapRemove(old(Model()), sock) else old(Model())
      ensures calls == if old(memory[trustMap[sock]].rollback)
                       then [E.Call(sock, old(memory[trustMap[sock]].via), E.RemoveNode(old(memory[trustMap[sock]].credential)))] else []
    {
      var n := trustMap[sock];
      calls := [];
      if memory[n].rollback {
        var result;
        result, calls := MsgUnregister(sock, memory[n].via, removed);
        assert n in Trusts() && Trusts()[n] == memory[n].Value();
      }
    }

    // ---- requests of a node ---------------------------------------------------------------

    method MsgUnregister(sock: int, via: int, removed: bool) returns (result: Result, calls: seq<E.Call>)
      requires Ready()
      modifies `trustMap, `memory, `freed, memory.Values
      ensures Separate() && memory.Values <= old(memory.Values)
      ensures forall m :: m in memory ==> m in old(memory) && memory[m] == old(memory[m])
      ensures E.Handled(Model(), result, None, calls) == E.Unregister(old(Model()), sock, via, removed)
    {
      if sock !in trustMap { return CredentialUnauthorized, []; }
      calls := [E.Call(sock, via, E.RemoveNode(memory[trustMap[sock]].credential))];
      if !removed { return CloudFailure, calls; }
      TrustMapRemove(sock);
      return Success, calls;
    }

    /** The credential of a device that retransmits its registration. */
    method FindKnown(sock: int, id: int, pid: int) returns (credential: Option<Credential>)
      requires Ready()
      ensures credential == if E.Recognised(Model(), sock, id, pid) then Some(E.TrustOf(Model(), sock).credential) else None
    {
      if sock !in trustMap { return None; }
      var trust := memory[trustMap[sock]];
      return if trust.deviceId == id && trust.pid == pid then Some(trust.credential) else None;
    }

    method MsgRegister(p: Params, sock: int, via: int, frame: E.Frame, answers: E.Answers)
      returns (result: Result, credential: Option<Credential>, calls: seq<E.Call>)
      requires Ready() && frame.request.RegisterRequest?
      modifies this, memory.Values
      ensures Separate() && fresh(memory.Values - old(memory.Values))
      ensures E.Handled(Model(), result, credential, calls) == E.Register(p, old(Model()), sock, via, frame, answers)
    {
      var id := frame.request.deviceId;
      if !E.ValidRegistration(p, frame.request, frame.length) { return InvalidDeviceName, None, []; }
      var known := FindKnown(sock, id, answers.pid);
      if known.Some? { return Success, known, []; }
      calls := [E.Call(sock, via, E.MakeNode(DeviceName(p, frame.request.devName, frame.payloadLen), id))];
      match E.MadeCredential(p, answers.make) {
        case None => return CloudFailure, None, calls;
        case Some(c) =>
          calls := calls + [E.Call(sock, via, E.SignIn(c, answers.signIn.Granted?))];
          if !answers.signIn.Granted? { return E.SignInFailure(answers.signIn), None, calls; }
          calls := calls + [E.Call(sock, via, E.StartWatch(c, next))];
          TrustCreate(sock, c, id, E.StoredPid(answers.pid), true, [], [], via);
          return Success, Some(c), calls;
      }
    }

    method MsgAuth(p: Params, sock: int, via: int, c: Credential, answer: E.SignInAnswer)
      returns (result: Result, calls: seq<E.Call>)
      requires Ready() && p.Valid()
      modifies this, memory.Values
      ensures Separate() && fresh(memory.Values - old(memory.Values))
      ensures E.Handled(Model(), result, None, calls) == E.Authenticate(p, old(Model()), sock, via, c, answer)
    {
      if sock in trustMap { return Success, []; }
      calls := [E.Call(sock, via, E.SignIn(c, answer.Granted?))];
      if !answer.Granted? { return E.SignInFailure(answer), calls; }
      var schema, config := SignInLists(p, answer.doc);
      if schema == [] { return SchemaEmpty, calls; }
      calls := calls + [E.Call(sock, via, E.StartWatch(c, next))];
      TrustCreate(sock, c, 0, 0, false, schema, config, via);
      return Success, calls;
    }

    /** What proto_signin returns beside its verdict, and what is kept of it. */
    static method SignInLists(p: Params, doc: Json) returns (schema: seq<Schema>, config: seq<Config>)
      requires p.Valid()
      ensures schema == ParseSchema(p, doc) && config == E.SignInConfig(p, doc)
    {
      schema := ParseDeviceSchema(p, doc);
      config := SignInConfig(p, doc);
    }

    static method SignInConfig(p: Params, doc: Json) returns (config: seq<Config>)
      ensures config == E.SignInConfig(p, doc)
    {
      var list := ReadListField(doc, "config", ConfigEntry(p));
      match list {
        case None => return [];
        case Some(read) =>
          var verdict := ConfigIsValid(p, read);
          return if verdict == Success then read else [];
      }
    }

    method MsgSchema(p: Params, sock: int, via: int, schema: Schema, end: bool, stored: bool)
      returns (result: Result, calls: seq<E.Call>)
      requires Ready()
      modifies memory.Values
      ensures Separate()
      ensures E.Handled(Model(), result, None, calls) ==
              E.UploadSchema(p, old(Model()), sock, via, E.SchemaFragment(schema, end), stored)
    {
      if sock !in trustMap { return CredentialUnauthorized, []; }
      var n := trustMap[sock];
      var trust := memory[n];
      trust.AddFragment(p, schema);
      result, calls := Success, [];
      if end {
        var doc := CreateSchemaListObject(trust.pending);
        calls := [E.Call(sock, via, E.PutSchema(trust.credential, doc))];
        if stored {
          trust.CompleteSchema();
        } else {
          trust.FreePending();
          result := CloudFailure;
        }
      }
      assert Trusts() == old(Trusts())[n := trust.Value()];
    }

    method MsgConfigResp(sock: int, id: Byte) returns (result: Result)
      requires Ready()
      modifies memory.Values
      ensures Separate()
      ensures E.Handled(Model(), result, None, []) == E.AnswerConfig(old(Model()), sock, id)
    {
      if sock !in trustMap { return CredentialUnauthorized; }
      var n := trustMap[sock];
      var trust := memory[n];
      trust.ConfirmConfig(id);
      assert Trusts() == old(Trusts())[n := trust.Value()];
      return Success;
    }

    /** update_device_getdata and update_device_setdata: fetch the list, write the rest back. */
    static method UpdateList(p: Params, sock: int, via: int, c: Credential, key: string, id: Byte, fetched: Option<Json>)
      returns (calls: seq<E.Call>)
      ensures calls == E.UpdateListCalls(p, sock, via, c, key, id, fetched)
    {
      calls := [E.Call(sock, via, E.Fetch(c))];
      match fetched {
        case None =>
        case Some(doc) =>
          match GetArray(doc, key) {
            case None =>
            case Some(items) =>
              var rest := RemoveSensor(p, items, id);
              calls := calls + [E.Call(sock, via, E.PutList(c, JObject([(key, JArray(rest))])))];
          }
      }
    }

    /** The schema of a sensor of the trust, when it is known and its unit is acceptable. */
    static method FindUsable(p: Params, trust: Trust, id: Byte) returns (schema: Option<Schema>)
      ensures schema == E.UsableSchema(p, trust.Value(), id)
    {
      var i := FindSensor(trust.schema, id);
      if i == |trust.schema| { return None; }
      var x := trust.schema[i];
      return if p.unitMismatch(x.typeId, x.valueType, x.unit) then None else Some(x);
    }

    method MsgData(p: Params, sock: int, via: int, id: Byte, data: Views, answers: E.Answers)
      returns (result: Result, calls: seq<E.Call>)
      requires Ready()
      ensures E.Handled(Model(), result, None, calls) == E.ReportData(p, Model(), sock, via, id, data, answers)
    {
      if sock !in trustMap { return CredentialUnauthorized, []; }
      var trust := memory[trustMap[sock]];
      var schema := FindUsable(p, trust, id);
      match schema {
        case None => return InvalidData, [];
        case Some(x) =>
          var value := PrintData(p, x.valueType, data);
          var update := UpdateList(p, sock, via, trust.credential, "get_data", id, answers.fetched);
          result := E.StoreResult(value, answers.dataStored);
          calls := E.StoreCalls(sock, via, trust.credential, id, value) + update;
      }
    }

    method MsgSetDataResp(p: Params, sock: int, via: int, id: Byte, data: Views, answers: E.Answers)
      returns (result: Result, calls: seq<E.Call>)
      requires Ready()
      ensures E.Handled(Model(), result, None, calls) == E.AnswerData(p, Model(), sock, via, id, data, answers)
    {
      if sock !in trustMap { return CredentialUnauthorized, []; }
      var trust := memory[trustMap[sock]];
      var schema := FindUsable(p, trust, id);
      match schema {
        case None => return InvalidData, [];
        case Some(x) =>
          var value := PrintData(p, x.valueType, data);
          var update := UpdateList(p, sock, via, trust.credential, "set_data", id, answers.fetched);
          result := E.StoreResult(value, answers.dataStored);
          calls := update + E.StoreCalls(sock, via, trust.credential, id, value);
      }
    }

    // ---- documents pushed by the cloud ------------------------------------------------------

    /** msg_config: an invalid list changes nothing, a list that cannot be read is empty. */
    method MsgConfig(p: Params, sock: int, doc: Json) returns (messages: seq<Message>)
      requires Ready()
      modifies memory.Values
      ensures Separate()
      ensures if sock !in trustMap || E.ReceivedConfig(p, doc).None? then Model() == old(Model()) && messages == []
        else
          var trust, received := old(memory[trustMap[sock]].Value()), E.ReceivedConfig(p, doc).value;
          && Model() == E.SetTrust(old(Model()), trustMap[sock], trust.(config := received))
          && messages == ConfigMessages(p, Keep(received, NotWithheld(trust.config)))
    {
      if sock !in trustMap { return []; }
      var n := trustMap[sock];
      var trust := memory[n];
      var received, valid := ReadConfig(p, doc);
      if !valid { return []; }
      messages := GetChangedConfig(p, trust.config, received);
      trust.UpdateConfig(received);
      assert Trusts() == old(Trusts())[n := trust.Value()];
    }

    /** The received list and whether it passes. */
    static method ReadConfig(p: Params, doc: Json) returns (received: seq<Config>, valid: bool)
      ensures E.ReceivedConfig(p, doc) == if valid then Some(received) else None
    {
      var list := ReadListField(doc, "config", ConfigEntry(p));
      received := if list.Some? then list.value else [];
      var verdict := ConfigIsValid(p, received);
      valid := verdict == Success;
    }

    method MsgSetData(p: Params, sock: int, doc: Json) returns (messages: seq<Message>)
      ensures messages == if sock in trustMap then E.SetDataMessages(p, doc) else []
    {
      if sock !in trustMap { return []; }
      var list := ReadListField(doc, "set_data", SetDataItem());
      if list.None? { return []; }
      messages := [];
      for i := 0 to |list.value|
        invariant |messages| == i
        invariant forall k :: 0 <= k < i ==> messages[k] == E.DataMessageOf(p, list.value[k])
      {
        messages := messages + [E.DataMessageOf(p, list.value[i])];
      }
    }

    method MsgGetData(p: Params, sock: int, doc: Json) returns (messages: seq<Message>)
      ensures messages == if sock in trustMap then E.GetDataMessages(p, doc) else []
    {
      if sock !in trustMap { return []; }
      var list := ReadListField(doc, "get_data", GetDataItem());
      if list.None? { return []; }
      messages := [];
      for i := 0 to |list.value|
        invariant |messages| == i
        invariant forall k :: 0 <= k < i ==> messages[k] == E.ItemMessageOf(p, list.value[k])
      {
        messages := messages + [E.ItemMessageOf(p, list.value[i])];
      }
    }

    /** on_device_changed: each of the three looks the trust up again. */
    method OnDeviceChanged(p: Params, sock: int, doc: Json) returns (messages: seq<Message>)
      requires Ready()
      modifies memory.Values
      ensures Separate()
      ensures E.Effect(Model(), [], 0, None, messages) == E.Push(p, old(Model()), sock, doc)
    {
      var configs := MsgConfig(p, sock, doc);
      var lists := DataMessages(p, sock, doc);
      messages := configs + lists;
      assert [] + lists == lists;
    }

    method DataMessages(p: Params, sock: int, doc: Json) returns (messages: seq<Message>)
      ensures messages == if sock in trustMap then E.SetDataMessages(p, doc) + E.GetDataMessages(p, doc) else []
    {
      var settings := MsgSetData(p, sock, doc);
      var requests := MsgGetData(p, sock, doc);
      messages := settings + requests;
    }

    // ---- dispatch -----------------------------------------------------------------------------

    /** The branches of msg_process. */
    method Handle(p: Params, sock: int, via: int, frame: E.Frame, answers: E.Answers)
      returns (result: Result, credential: Option<Credential>, calls: seq<E.Call>)
      requires Ready() && p.Valid()
      modifies this, memory.Values
      ensures Separate() && fresh(memory.Values - old(memory.Values))
      ensures E.Handled(Model(), result, credential, calls) == E.Handle(p, old(Model()), sock, via, frame, answers)
    {
      credential := None;
      match frame.request {
        case RegisterRequest(_, _) => result, credential, calls := MsgRegister(p, sock, via, frame, answers);
        case UnregisterRequest => result, calls := MsgUnregister(sock, via, answers.removed);
        case AuthRequest(c) => result, calls := MsgAuth(p, sock, via, c, answers.signIn);
        case SchemaFragment(schema, end) => result, calls := MsgSchema(p, sock, via, schema, end, answers.schemaStored);
        case DataReport(id, data) => result, calls := MsgData(p, sock, via, id, data, answers);
        case ConfigResponse(id) => calls := []; result := MsgConfigResp(sock, id);
        case DataResponse(id, data) => result, calls := MsgSetDataResp(p, sock, via, id, data, answers);
        case UnknownRequest => result, calls := InvalidData, [];
      }
    }

    method MsgProcess(p: Params, sock: int, via: int, frame: E.Frame, answers: E.Answers)
      returns (octets: int, reply: Option<E.Reply>, calls: seq<E.Call>)
      requires Ready() && p.Valid()
      modifies this, memory.Values
      ensures Separate() && fresh(memory.Values - old(memory.Values))
      ensures E.Effect(Model(), calls, octets, reply, []) == E.Process(p, old(Model()), sock, via, frame, answers)
    {
      if frame.room < p.messageLen || frame.length < p.headerLen || frame.length != p.headerLen + frame.payloadLen {
        return -EINVAL, None, [];
      }
      var result, credential;
      result, credential, calls := Handle(p, sock, via, frame, answers);
      if E.IsResponse(frame.request) { return 0, None, calls; }
      var payloadLen := if credential.Some? then p.credentialLen else RESULT_LEN;
      reply := Some(E.Reply(E.ReplyKind(frame.request), result, credential, payloadLen));
      octets := p.headerLen + payloadLen;
    }

    /** Every pointer the callbacks follow is to an allocated trust. */
    ghost predicate Sound()
      reads this, memory.Values
    {
      && Ready()
      && (forall sock :: sock in trustMap ==> HeldBesides(trustMap[sock]))
      && (forall w :: w in watches ==> watches[w].trust in memory)
      && (forall c :: c in channels ==> channels[c].trust in memory)
    }

    lemma ValidIsSound()
      requires Valid()
      ensures Sound()
    {
      var s := Model();
      assert s.trusts.Keys == memory.Keys;
      assert next in s.trusts ==> next < s.next;
      forall sock | sock in trustMap ensures HeldBesides(trustMap[sock]) {
        assert s.online[sock] in s.trusts && O.CountedAt(s, s.online[sock]);
      }
      forall w | w in watches ensures watches[w].trust in memory { assert w in s.watches; }
      forall c | c in channels ensures channels[c].trust in memory { assert c in s.channels; }
    }

    method Dispatch(p: Params, e: E.Event)
      returns (octets: int, reply: Option<E.Reply>, calls: seq<E.Call>, messages: seq<Message>)
      requires Sound() && p.Valid() && E.Enabled(Model(), e)
      modifies this, memory.Values
      ensures Separate() && fresh(memory.Values - old(memory.Values))
      ensures E.Effect(Model(), calls, octets, reply, messages) == E.Step(p, old(Model()), e)
    {
      octets, reply, calls, messages := 0, None, [], [];
      match e {
        case Pdu(sock, via, frame, answers) => octets, reply, calls := MsgProcess(p, sock, via, frame, answers);
        case CloudPush(_, sock, doc) => messages := OnDeviceChanged(p, sock, doc);
        case Disconnected(c, sock, removed) => calls := OnNodeChannelDisconnected(c, sock, removed);
        case Destroyed(c) => OnNodeChannelDestroyed(c);
        case WatchDropped(w) => OnDeviceWatchDestroyed(w);
      }
    }

    /** One turn of the event loop does to the objects what a step does to their state, and
        leaves every count exact. */
    method Serve(p: Params, e: E.Event)
      returns (octets: int, reply: Option<E.Reply>, calls: seq<E.Call>, messages: seq<Message>)
      requires Valid() && p.Valid() && E.Enabled(Model(), e)
      modifies this, memory.Values
      ensures Valid() && fresh(memory.Values - old(memory.Values))
      ensures E.Effect(Model(), calls, octets, reply, messages) == E.Step(p, old(Model()), e)
    {
      ValidIsSound();
      O.StepKeeps(p, Model(), e);
      octets, reply, calls, messages := Dispatch(p, e);
    }

    /** Turn k of a run takes the objects from one of its states to the next. */
    method Turn(p: Params, es: seq<E.Event>, ghost ss: seq<E.State>, k: nat, before: seq<Output>) returns (outputs: seq<Output>)
      requires Valid() && E.IsRun(p, es, ss) && k < |es| && Model() == ss[k] && IsTrace(p, es, ss, before, k)
      modifies this, memory.Values
      ensures Valid() && fresh(memory.Values - old(memory.Values))
      ensures Model() == ss[k + 1] && IsTrace(p, es, ss, outputs, k + 1)
    {
      O.NextIs(p, es, ss, k);
      var octets, reply, calls, messages := Serve(p, es[k]);
      outputs := before + [Output(octets, reply, calls, messages)];
    }

    /** The event loop. In any run the objects stand for its states one after the other, and
        what leaves the gateway at each turn is what the step says. */
    method Run(p: Params, es: seq<E.Event>, ghost ss: seq<E.State>) returns (outputs: seq<Output>)
      requires Valid() && E.IsRun(p, es, ss) && Model() == E.Start
      modifies this, memory.Values
      ensures Valid() && Model() == ss[|es|] && IsTrace(p, es, ss, outputs, |es|)
    {
      outputs := [];
      for k := 0 to |es|
        invariant Valid() && fresh(memory.Values - old(memory.Values))
        invariant Model() == ss[k] && IsTrace(p, es, ss, outputs, k)
      {
        outputs := Turn(p, es, ss, k, outputs);
      }
    }
  }

  /** What one turn sends: to the node in answer, to the cloud, and to the node unasked. */
  datatype Output = Output(octets: int, reply: Option<E.Reply>, calls: seq<E.Call>, messages: seq<Message>)

  /** The first k turns of a run sent exactly what its steps say. */
  ghost predicate IsTrace(p: Params, es: seq<E.Event>, ss: seq<E.State>, outputs: seq<Output>, k: nat)
    requires p.Valid() && k <= |es| && |ss| == |es| + 1
  {
    |outputs| == k && forall j :: 0 <= j < k ==> SentAt(p, es, ss, outputs[j], j)
  }

  ghost predicate SentAt(p: Params, es: seq<E.Event>, ss: seq<E.State>, output: Output, j: nat)
    requires p.Valid() && j < |es| && |ss| == |es| + 1
  {
    E.Effect(ss[j + 1], output.calls, output.octets, output.reply, output.messages) == E.Step(p, ss[j], es[j])
  }
}
