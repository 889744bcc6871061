/** Delivery of sensor configurations over whole runs, and their validity. */
module ConfigHistory {
  import opened Json
  import opened Protocol
  import opened Sequences
  import opened Documents
  import opened ConfigRules
  import opened Engine
  import opened Ownership
  import opened Tenure

  // ---- what the events say -----------------------------------------------------------

  /** The last document among events i to k whose configuration passed. */
  ghost function LastPoll(p: Params, es: seq<Event>, sock: int, i: nat, k: nat): (r: Option<nat>)
    requires i <= k <= |es|
    ensures r.Some? ==> i <= r.value < k && IsPoll(p, es[r.value], sock)
    ensures forall m :: (if r.Some? then r.value + 1 else i) <= m < k ==> !IsPoll(p, es[m], sock)
    decreases k
  {
    if k == i then None
    else if IsPoll(p, es[k - 1], sock) then Some(k - 1)
    else LastPoll(p, es, sock, i, k - 1)
  }

  ghost function LastAccepted(p: Params, es: seq<Event>, sock: int, i: nat, k: nat, initial: seq<Config>): seq<Config>
    requires i <= k <= |es|
  {
    match LastPoll(p, es, sock, i, k)
    case None => initial
    case Some(j) => ReceivedConfig(p, es[j].doc).value
  }

  /** The sensors the node acknowledged since the last poll. */
  ghost function AcksSince(p: Params, es: seq<Event>, sock: int, i: nat, k: nat): set<Byte>
    requires i <= k <= |es|
    decreases k
  {
    if k == i || IsPoll(p, es[k - 1], sock) then {}
    else AcksSince(p, es, sock, i, k - 1)
         + (if IsConfigResponse(p, es[k - 1], sock) then {es[k - 1].frame.request.sensorId} else {})
  }

  lemma {:induction false} AckHappened(p: Params, es: seq<Event>, sock: int, i: nat, k: nat, id: Byte)
    requires i <= k <= |es|
    ensures id in AcksSince(p, es, sock, i, k) <==>
            exists m :: Since(LastPoll(p, es, sock, i, k), i) <= m < k
              && IsConfigResponse(p, es[m], sock) && es[m].frame.request.sensorId == id
    decreases k
  {
    if k > i && !IsPoll(p, es[k - 1], sock) { AckHappened(p, es, sock, i, k - 1, id); }
  }

  function Since(poll: Option<nat>, i: nat): nat { if poll.Some? then poll.value + 1 else i }

  // ---- the engine agrees ------------------------------------------------------------------

  lemma EntryIsUnconfirmed(p: Params, j: Json)
    ensures ParseConfigEntry(p, j).Some? ==> !ParseConfigEntry(p, j).value.confirmed
  {}

  lemma ReadIsUnconfirmed(p: Params, doc: Json)
    ensures ParseList(doc, "config", ConfigEntry(p)).Some? ==>
            Unconfirmed(ParseList(doc, "config", ConfigEntry(p)).value)
  {
    forall j ensures ParseConfigEntry(p, j).Some? ==> !ParseConfigEntry(p, j).value.confirmed { EntryIsUnconfirmed(p, j); }
  }

  lemma {:induction false} ConfigFollows(p: Params, es: seq<Event>, sock: int, a: Record, i: nat, k: nat)
    requires i <= k <= |es| && Unconfirmed(a.config)
    ensures Advanced(p, sock, a, es, i, k).config ==
            Acknowledged(LastAccepted(p, es, sock, i, k, a.config), AcksSince(p, es, sock, i, k))
    decreases k
  {
    if k == i {
      FreshIsUnacknowledged(a.config);
    } else {
      ConfigFollows(p, es, sock, a, i, k - 1);
      var e := es[k - 1];
      if IsPoll(p, e, sock) {
        ReadIsUnconfirmed(p, e.doc);
        FreshIsUnacknowledged(ReceivedConfig(p, e.doc).value);
      } else {
        NotPolled(p, es, sock, Advanced(p, sock, a, es, i, k - 1), i, k, a.config);
      }
    }
  }

  lemma NotPolled(p: Params, es: seq<Event>, sock: int, now: Record, i: nat, k: nat, initial: seq<Config>)
    requires i < k <= |es| && !IsPoll(p, es[k - 1], sock)
    requires now.config == Acknowledged(LastAccepted(p, es, sock, i, k - 1, initial), AcksSince(p, es, sock, i, k - 1))
    ensures Advance(p, sock, now, es[k - 1]).config ==
            Acknowledged(LastAccepted(p, es, sock, i, k, initial), AcksSince(p, es, sock, i, k))
  {
    var list, acks := LastAccepted(p, es, sock, i, k - 1, initial), AcksSince(p, es, sock, i, k - 1);
    assert LastAccepted(p, es, sock, i, k, initial) == list;
    if IsConfigResponse(p, es[k - 1], sock) {
      ConfirmAdds(list, acks, es[k - 1].frame.request.sensorId);
    } else {
      assert acks + {} == acks;
    }
  }

  lemma InstalledUnconfirmed(p: Params, e: Event)
    requires p.Valid() && e.Pdu? && e.answers.signIn.Granted?
    ensures Unconfirmed(Installed(p, e).config)
  {
    ReadIsUnconfirmed(p, e.answers.signIn.doc);
  }

  /** In every reachable state, the stored list of a mapped trust is the last accepted one,
      with exactly the first entry of each sensor acknowledged since then confirmed. */
  lemma StoredConfig(p: Params, es: seq<Event>, ss: seq<State>, k: nat, sock: int) returns (i: nat)
    requires IsRun(p, es, ss) && k <= |es| && sock in ss[k].online
    ensures Origin(p, es, ss, i, k, sock)
    ensures TrustOf(ss[k], sock).config ==
            Acknowledged(LastAccepted(p, es, sock, i + 1, k, Installed(p, es[i]).config), AcksSince(p, es, sock, i + 1, k))
  {
    i := HistoryOf(p, es, ss, k, sock);
    InstalledUnconfirmed(p, es[i]);
    ConfigFollows(p, es, sock, Installed(p, es[i]), i + 1, k);
  }

  // ---- what a poll sends -------------------------------------------------------------------

  function Needed(list: seq<Config>, acks: set<Byte>): Config -> bool {
    (received: Config) => !AlreadyHas(list, acks, received)
  }

  lemma NeededIsNotWithheld(list: seq<Config>, acks: set<Byte>, received: seq<Config>)
    ensures Keep(received, NotWithheld(Acknowledged(list, acks))) == Keep(received, Needed(list, acks))
  {
    forall c | c in received ensures NotWithheld(Acknowledged(list, acks))(c) == Needed(list, acks)(c) {
      WithheldMeans(list, acks, c);
    }
    KeepAgrees(received, NotWithheld(Acknowledged(list, acks)), Needed(list, acks));
  }

  lemma PollSends(p: Params, s: State, sock: int, doc: Json, list: seq<Config>, acks: set<Byte>)
    requires p.Valid() && Mapped(s, sock) && ReceivedConfig(p, doc).Some?
    requires TrustOf(s, sock).config == Acknowledged(list, acks)
    ensures Push(p, s, sock, doc).pushed ==
            ConfigMessages(p, Keep(ReceivedConfig(p, doc).value, Needed(list, acks)))
            + (SetDataMessages(p, doc) + GetDataMessages(p, doc))
  {
    NeededIsNotWithheld(list, acks, ReceivedConfig(p, doc).value);
  }

  lemma PushHappens(p: Params, es: seq<Event>, ss: seq<State>, k: nat)
    requires IsRun(p, es, ss) && k < |es| && es[k].CloudPush?
    ensures ss[k + 1] == Push(p, ss[k], es[k].sock, es[k].doc).state
  {
    assert StepAt(p, es, ss, k);
  }

  /** At each accepted poll the node is sent, in order, exactly the received entries it does
      not already have; the received list becomes the stored one. */
  lemma PollDelivers(p: Params, es: seq<Event>, ss: seq<State>, k: nat, sock: int) returns (i: nat)
    requires IsRun(p, es, ss) && k < |es| && IsPoll(p, es[k], sock) && sock in ss[k].online
    ensures Origin(p, es, ss, i, k, sock)
    ensures var received := ReceivedConfig(p, es[k].doc).value;
            var list := LastAccepted(p, es, sock, i + 1, k, Installed(p, es[i]).config);
            var acks := AcksSince(p, es, sock, i + 1, k);
            && Push(p, ss[k], sock, es[k].doc).pushed ==
               ConfigMessages(p, Keep(received, Needed(list, acks)))
               + (SetDataMessages(p, es[k].doc) + GetDataMessages(p, es[k].doc))
            && Mapped(ss[k + 1], sock) && TrustOf(ss[k + 1], sock).config == received
  {
    i := StoredConfig(p, es, ss, k, sock);
    PollSends(p, ss[k], sock, es[k].doc,
              LastAccepted(p, es, sock, i + 1, k, Installed(p, es[i]).config), AcksSince(p, es, sock, i + 1, k));
    PushHappens(p, es, ss, k);
  }

  lemma NeededIsSent(p: Params, list: seq<Config>, f: Config -> bool, c: Config)
    requires c in list && f(c)
    ensures ConfigMessageOf(p, c) in ConfigMessages(p, Keep(list, f))
  {
    KeepMembers(list, f, c);
    var n :| 0 <= n < |Keep(list, f)| && Keep(list, f)[n] == c;
    assert ConfigMessages(p, Keep(list, f))[n] == ConfigMessageOf(p, c);
  }

  /** The document has an accepted list with the entry, and the entry is not sent to the node. */
  ghost predicate Unsent(p: Params, s: State, sock: int, doc: Json, received: Config) {
    && ReceivedConfig(p, doc).Some? && received in ReceivedConfig(p, doc).value
    && ConfigMessageOf(p, received) !in Push(p, s, sock, doc).pushed
  }

  lemma UnsentIsConfirmed(p: Params, s: State, sock: int, doc: Json, received: Config) returns (n: nat)
    requires Mapped(s, sock) && Unsent(p, s, sock, doc, received)
    ensures var stored := TrustOf(s, sock).config;
            n < |stored| && stored[n].hash == received.hash && stored[n].confirmed
  {
    var stored := TrustOf(s, sock).config;
    n := First(stored, SameHash(received.hash));
    if NotWithheld(stored)(received) {
      NeededIsSent(p, ReceivedConfig(p, doc).value, NotWithheld(stored), received);
    }
  }

  lemma ConfirmedWasAcked(p: Params, es: seq<Event>, sock: int, i: nat, k: nat, initial: seq<Config>, stored: seq<Config>, n: nat)
    returns (m: nat)
    requires i <= k <= |es| && n < |stored| && stored[n].confirmed
    requires stored == Acknowledged(LastAccepted(p, es, sock, i, k, initial), AcksSince(p, es, sock, i, k))
    ensures i <= m < k && AckedSinceLastPoll(p, es, sock, m, k, stored[n].sensorId)
  {
    AckHappened(p, es, sock, i, k, stored[n].sensorId);
    m :| Since(LastPoll(p, es, sock, i, k), i) <= m < k
         && IsConfigResponse(p, es[m], sock) && es[m].frame.request.sensorId == stored[n].sensorId;
  }

  /** Event m acknowledges the sensor, and no list was accepted between it and k. */
  ghost predicate AckedSinceLastPoll(p: Params, es: seq<Event>, sock: int, m: nat, k: nat, id: Byte)
    requires m < k <= |es|
  {
    && IsConfigResponse(p, es[m], sock) && es[m].frame.request.sensorId == id
    && forall x :: m < x < k ==> !IsPoll(p, es[x], sock)
  }

  lemma ConfirmedAt(p: Params, es: seq<Event>, ss: seq<State>, k: nat, sock: int, n: nat) returns (m: nat)
    requires IsRun(p, es, ss) && k <= |es| && Mapped(ss[k], sock)
    requires n < |TrustOf(ss[k], sock).config| && TrustOf(ss[k], sock).config[n].confirmed
    ensures m < k && Holds(ss, m, k, sock, ss[k].online[sock])
    ensures AckedSinceLastPoll(p, es, sock, m, k, TrustOf(ss[k], sock).config[n].sensorId)
  {
    var i := StoredConfig(p, es, ss, k, sock);
    m := ConfirmedWasAcked(p, es, sock, i + 1, k, Installed(p, es[i]).config, TrustOf(ss[k], sock).config, n);
  }

  /** At any moment of a run, whatever accepted document arrives: for a received entry that is not
      sent, the stored list has a confirmed entry n with its hash, and the node acknowledged that
      entry's sensor by an event m while it had this trust, with no accepted list since. A
      confirmation lasts for one poll. */
  lemma WithheldNeedsNewAck(p: Params, es: seq<Event>, ss: seq<State>, k: nat, sock: int, doc: Json, received: Config)
    returns (m: nat, n: nat)
    requires IsRun(p, es, ss) && k <= |es| && Mapped(ss[k], sock) && Unsent(p, ss[k], sock, doc, received)
    ensures var stored := TrustOf(ss[k], sock).config;
      && n < |stored| && stored[n].hash == received.hash && stored[n].confirmed
      && m < k && Holds(ss, m, k, sock, ss[k].online[sock])
      && AckedSinceLastPoll(p, es, sock, m, k, stored[n].sensorId)
  {
    n := UnsentIsConfirmed(p, ss[k], sock, doc, received);
    m := ConfirmedAt(p, es, ss, k, sock, n);
  }

  /** What one document does to the trust of its socket. */
  lemma PushChanges(p: Params, s: State, sock: int, doc: Json)
    requires Mapped(s, sock)
    ensures ReceivedConfig(p, doc).None? ==> Push(p, s, sock, doc).state == s
    ensures ReceivedConfig(p, doc).Some? ==>
      Push(p, s, sock, doc).state == SetTrust(s, s.online[sock], TrustOf(s, sock).(config := ReceivedConfig(p, doc).value))
  {}

  lemma SetTrustIsIdle(s: State, t: nat, trust: Trust)
    requires t in s.trusts
    ensures SetTrust(s, t, trust) == s <==> trust == s.trusts[t]
  {
    assert SetTrust(s, t, trust).trusts[t] == trust;
    if trust == s.trusts[t] { assert s.trusts[t := trust] == s.trusts; }
  }

  /** A document leaves the state alone exactly when its list fails the checks or is the stored
      one; a list that cannot be read stands for an empty one. When the list fails, the other
      two lists are all that is sent. */
  lemma StoredListSurvivesIff(p: Params, es: seq<Event>, ss: seq<State>, k: nat, sock: int)
    requires IsRun(p, es, ss) && k < |es| && es[k].CloudPush? && es[k].sock == sock && sock in ss[k].online
    ensures Mapped(ss[k], sock)
    ensures ss[k + 1] == ss[k] <==>
            match ParseList(es[k].doc, "config", ConfigEntry(p))
            case Some(list) => !AllAccepted(p, list) || list == TrustOf(ss[k], sock).config
            case None => TrustOf(ss[k], sock).config == []
    ensures ReceivedConfig(p, es[k].doc).None? ==>
            Push(p, ss[k], sock, es[k].doc).pushed == SetDataMessages(p, es[k].doc) + GetDataMessages(p, es[k].doc)
  {
    Reachable(p, es, ss, k);
    PushHappens(p, es, ss, k);
    PushChanges(p, ss[k], sock, es[k].doc);
    if ReceivedConfig(p, es[k].doc).Some? {
      var trust := TrustOf(ss[k], sock);
      SetTrustIsIdle(ss[k], ss[k].online[sock], trust.(config := ReceivedConfig(p, es[k].doc).value));
    }
  }

  lemma {:induction false} EmptyStays(p: Params, es: seq<Event>, sock: int, a: Record, i: nat, k: nat)
    requires i <= k <= |es| && a.config == []
    requires forall m :: i <= m < k ==> !IsPoll(p, es[m], sock)
    ensures Advanced(p, sock, a, es, i, k).config == []
    decreases k
  {
    if i < k { EmptyStays(p, es, sock, a, i, k - 1); }
  }

  /** After a document whose list cannot be read, the trust stores no entry until the next
      accepted list arrives, whatever the node acknowledges, and all of that list is sent. */
  lemma UnreadableListForgets(p: Params, es: seq<Event>, ss: seq<State>, j: nat, k: nat, sock: int)
    requires IsRun(p, es, ss) && j < k <= |es|
    requires es[j].CloudPush? && es[j].sock == sock && ParseList(es[j].doc, "config", ConfigEntry(p)).None?
    requires sock in ss[j].online && Holds(ss, j, k, sock, ss[j].online[sock])
    requires forall m :: j < m < k ==> !IsPoll(p, es[m], sock)
    ensures TrustOf(ss[k], sock).config == []
    ensures forall doc :: ReceivedConfig(p, doc).Some? ==>
      Push(p, ss[k], sock, doc).pushed ==
      ConfigMessages(p, ReceivedConfig(p, doc).value) + (SetDataMessages(p, doc) + GetDataMessages(p, doc))
  {
    var t := ss[j].online[sock];
    PushHappens(p, es, ss, j);
    PushChanges(p, ss[j], sock, es[j].doc);
    assert Holds(ss, j + 1, k, sock, t);
    RecordFollows(p, es, ss, j + 1, k, sock, t);
    EmptyStays(p, es, sock, RecordOf(TrustOf(ss[j + 1], sock)), j + 1, k);
    forall doc | ReceivedConfig(p, doc).Some?
      ensures Push(p, ss[k], sock, doc).pushed ==
              ConfigMessages(p, ReceivedConfig(p, doc).value) + (SetDataMessages(p, doc) + GetDataMessages(p, doc))
    {
      KeepAll(ReceivedConfig(p, doc).value, NotWithheld([]));
    }
  }

  // ---- validity -------------------------------------------------------------------------------

  ghost predicate AllValid(p: Params, s: State) {
    forall t :: t in s.trusts ==> AllAccepted(p, s.trusts[t].config)
  }

  lemma ConfirmKeepsValid(p: Params, list: seq<Config>, id: Byte)
    requires AllAccepted(p, list)
    ensures AllAccepted(p, Confirm(list, id))
  {}

  lemma ValidCreate(p: Params, s: State, sock: int, trust: Trust)
    requires Inv(s) && AllValid(p, s) && AllAccepted(p, trust.config)
    ensures AllValid(p, TrustCreate(s, sock, trust))
  {
    CreateIs(s, sock, trust);
  }

  lemma ValidRecord(p: Params, s: State, t: nat, trust: Trust)
    requires AllValid(p, s) && AllAccepted(p, trust.config)
    ensures AllValid(p, SetTrust(s, t, trust))
  {}

  lemma ReleasesAreValid(p: Params, s: State, r: State)
    requires AllValid(p, s) && OnlyLoses(s, r)
    ensures AllValid(p, r)
  {}

  lemma DisconnectReleases(s: State, c: nat, sock: int, removed: bool)
    requires Inv(s) && c in s.channels && s.channels[c].fd == sock
    ensures OnlyLoses(s, Disconnect(s, c, sock, removed))
  {
    DisconnectKeeps(s, c, sock, removed);
    SettledLoses(s, c, sock);
  }

  lemma DestroyReleases(s: State, c: nat)
    requires Inv(s) && c in s.channels && !s.channels[c].connected
    ensures OnlyLoses(s, DestroyChannel(s, c))
  {
    DestroyIs(s, c);
    ReleasedLoses(s, ForgetChannel(s, c), c);
  }

  lemma DropReleases(s: State, w: nat)
    requires Inv(s) && w in s.watches
    ensures OnlyLoses(s, DropWatch(s, w))
  {
    DropWatchIs(s, w);
    ReleasedLoses(s, ForgetWatch(s, w), w);
  }

  lemma UnregisterReleases(s: State, sock: int, via: int, removed: bool)
    requires Inv(s)
    ensures OnlyLoses(s, Unregister(s, sock, via, removed).state)
  {
    if sock in s.online { EntryRemoved(s, sock); }
  }

  lemma ValidHandle(p: Params, s: State, e: Event)
    requires p.Valid() && Inv(s) && AllValid(p, s) && e.Pdu? && !Rejected(p, e.frame)
    ensures AllValid(p, Handle(p, s, e.sock, e.via, e.frame, e.answers).state)
  {
    match e.frame.request {
      case RegisterRequest(_, _) => ValidRegister(p, s, e);
      case UnregisterRequest =>
        UnregisterReleases(s, e.sock, e.via, e.answers.removed);
        ReleasesAreValid(p, s, Unregister(s, e.sock, e.via, e.answers.removed).state);
      case AuthRequest(c) => ValidAuthenticate(p, s, e.sock, e.via, c, e.answers.signIn);
      case SchemaFragment(_, _) => ValidUpload(p, s, e);
      case ConfigResponse(id) => ValidAnswer(p, s, e.sock, id);
      case _ =>
    }
  }

  lemma ValidRegister(p: Params, s: State, e: Event)
    requires Inv(s) && AllValid(p, s) && e.Pdu? && e.frame.request.RegisterRequest?
    ensures AllValid(p, Register(p, s, e.sock, e.via, e.frame, e.answers).state)
  {
    var r := Register(p, s, e.sock, e.via, e.frame, e.answers).state;
    var make := MadeCredential(p, e.answers.make);
    if r != s {
      var trust := Trust(1, StoredPid(e.answers.pid), e.frame.request.deviceId, true, make.value, e.via, [], [], [], None);
      assert r == TrustCreate(s, e.sock, trust);
      ValidCreate(p, s, e.sock, trust);
    }
  }

  lemma ValidAuthenticate(p: Params, s: State, sock: int, via: int, c: Credential, answer: SignInAnswer)
    requires p.Valid() && Inv(s) && AllValid(p, s)
    ensures AllValid(p, Authenticate(p, s, sock, via, c, answer).state)
  {
    var r := Authenticate(p, s, sock, via, c, answer).state;
    if r != s {
      var trust := Trust(1, 0, 0, false, c, via, ParseSchema(p, answer.doc), [], SignInConfig(p, answer.doc), None);
      assert r == TrustCreate(s, sock, trust);
      ValidCreate(p, s, sock, trust);
    }
  }

  lemma ValidUpload(p: Params, s: State, e: Event)
    requires AllValid(p, s) && e.Pdu? && e.frame.request.SchemaFragment?
    ensures AllValid(p, UploadSchema(p, s, e.sock, e.via, e.frame.request, e.answers.schemaStored).state)
  {
    forall t, trust: Trust | AllAccepted(p, trust.config) ensures AllValid(p, SetTrust(s, t, trust)) {
      ValidRecord(p, s, t, trust);
    }
  }

  lemma ValidAnswer(p: Params, s: State, sock: int, id: Byte)
    requires AllValid(p, s)
    ensures AllValid(p, AnswerConfig(s, sock, id).state)
  {
    if Mapped(s, sock) {
      var trust := TrustOf(s, sock);
      ConfirmKeepsValid(p, trust.config, id);
      ValidRecord(p, s, s.online[sock], trust.(config := Confirm(trust.config, id)));
    }
  }

  lemma ValidStep(p: Params, s: State, e: Event)
    requires p.Valid() && Inv(s) && Enabled(s, e) && AllValid(p, s)
    ensures AllValid(p, Step(p, s, e).state)
  {
    match e {
      case Pdu(_, _, frame, _) => if !Rejected(p, frame) { ValidHandle(p, s, e); }
      case CloudPush(_, sock, doc) => ValidPush(p, s, sock, doc);
      case Disconnected(c, sock, removed) =>
        DisconnectReleases(s, c, sock, removed);
        ReleasesAreValid(p, s, Disconnect(s, c, sock, removed));
      case Destroyed(c) =>
        DestroyReleases(s, c);
        ReleasesAreValid(p, s, DestroyChannel(s, c));
      case WatchDropped(w) =>
        DropReleases(s, w);
        ReleasesAreValid(p, s, DropWatch(s, w));
    }
  }

  lemma ValidPush(p: Params, s: State, sock: int, doc: Json)
    requires p.Valid() && Inv(s) && AllValid(p, s)
    ensures AllValid(p, Push(p, s, sock, doc).state)
  {
    if Mapped(s, sock) && ReceivedConfig(p, doc).Some? {
      var received := ReceivedConfig(p, doc).value;
      ValidRecord(p, s, s.online[sock], TrustOf(s, sock).(config := received));
    }
  }

  /** Every configuration stored in any trust is accepted, in every reachable state. */
  lemma {:induction false} StoredConfigsAreValid(p: Params, es: seq<Event>, ss: seq<State>, k: nat)
    requires IsRun(p, es, ss) && k <= |es|
    ensures AllValid(p, ss[k])
  {
    if k > 0 {
      StoredConfigsAreValid(p, es, ss, k - 1);
      Reachable(p, es, ss, k - 1);
      assert StepAt(p, es, ss, k - 1);
      ValidStep(p, ss[k - 1], es[k - 1]);
    }
  }

  /** Every configuration pushed to a node comes from an accepted entry of the document. */
  lemma PushedConfigsAreValid(p: Params, s: State, sock: int, doc: Json)
    ensures forall m :: m in Push(p, s, sock, doc).pushed && m.ConfigMessage? ==> IsValidConfigMessage(p, m)
  {
    forall m | m in Push(p, s, sock, doc).pushed && m.ConfigMessage? ensures IsValidConfigMessage(p, m) {
      PushedConfigIsValid(p, s, sock, doc, m);
    }
  }

  ghost predicate IsValidConfigMessage(p: Params, m: Message) {
    exists c :: ConfigAccepted(p, c) && m == ConfigMessageOf(p, c)
  }

  lemma PushedConfigIsValid(p: Params, s: State, sock: int, doc: Json, m: Message)
    requires m in Push(p, s, sock, doc).pushed && m.ConfigMessage?
    ensures IsValidConfigMessage(p, m)
  {
    OtherListsSendNone(p, doc, m);
    var received := ReceivedConfig(p, doc).value;
    KeptAreValid(p, received, NotWithheld(TrustOf(s, sock).config), m);
  }

  lemma OtherListsSendNone(p: Params, doc: Json, m: Message)
    requires m.ConfigMessage?
    ensures m !in SetDataMessages(p, doc) + GetDataMessages(p, doc)
  {}

  lemma KeptAreValid(p: Params, list: seq<Config>, f: Config -> bool, m: Message)
    requires AllAccepted(p, list) && m in ConfigMessages(p, Keep(list, f))
    ensures IsValidConfigMessage(p, m)
  {
    var kept := Keep(list, f);
    var i :| 0 <= i < |kept| && ConfigMessages(p, kept)[i] == m;
    KeepMembers(list, f, kept[i]);
  }
}
