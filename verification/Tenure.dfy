/** How long a socket keeps its trust, who put it there, and what a trust records in the
    meantime: each trust evolves by the events on its own socket alone. */
module Tenure {
  import opened Json
  import opened Protocol
  import opened Documents
  import opened ConfigRules
  import opened Engine
  import opened Ownership

  // ---- what a trust records -----------------------------------------------------------

  datatype Record = Record(rollback: bool, schema: seq<Schema>, pending: seq<Schema>, config: seq<Config>)

  function RecordOf(trust: Trust): Record { Record(trust.rollback, trust.schema, trust.pending, trust.config) }

  /** The PDUs on a socket that reach their handler. */
  predicate Accepts(p: Params, e: Event, sock: int) { e.Pdu? && e.sock == sock && !Rejected(p, e.frame) }

  predicate IsFragment(p: Params, e: Event, sock: int) { Accepts(p, e, sock) && e.frame.request.SchemaFragment? }

  predicate IsConfigResponse(p: Params, e: Event, sock: int) { Accepts(p, e, sock) && e.frame.request.ConfigResponse? }

  /** A pushed document whose configuration passes. */
  ghost predicate IsPoll(p: Params, e: Event, sock: int) {
    e.CloudPush? && e.sock == sock && ReceivedConfig(p, e.doc).Some?
  }

  /** One event, seen by the trust mapped to a socket. */
  ghost function Advance(p: Params, sock: int, a: Record, e: Event): Record {
    if IsFragment(p, e, sock) then
      var pending := AddPending(p, a.pending, e.frame.request.schema);
      if !e.frame.request.end then a.(rollback := false, pending := pending)
      else if e.answers.schemaStored then a.(rollback := false, schema := pending, pending := [])
      else a.(rollback := false, pending := [])
    else if IsConfigResponse(p, e, sock) then a.(config := Confirm(a.config, e.frame.request.sensorId))
    else if IsPoll(p, e, sock) then a.(config := ReceivedConfig(p, e.doc).value)
    else a
  }

  ghost function Advanced(p: Params, sock: int, a: Record, es: seq<Event>, i: nat, k: nat): Record
    requires i <= k <= |es|
    decreases k
  {
    if k == i then a else Advance(p, sock, Advanced(p, sock, a, es, i, k - 1), es[k - 1])
  }

  // ---- installing a trust -------------------------------------------------------------

  /** A signed-in registration or authentication on a free or, for a registration, on any socket. */
  ghost predicate Installs(p: Params, s: State, e: Event, sock: int, c: Credential) {
    && Accepts(p, e, sock)
    && e.answers.signIn.Granted?
    && match e.frame.request
       case RegisterRequest(id, _) => !Recognised(s, sock, id, e.answers.pid) && MadeCredential(p, e.answers.make) == Some(c)
       case AuthRequest(given) => sock !in s.online && given == c
       case _ => false
  }

  ghost function Installed(p: Params, e: Event): Record
    requires p.Valid() && e.Pdu? && e.answers.signIn.Granted?
  {
    if e.frame.request.RegisterRequest? then Record(true, [], [], [])
    else Record(false, ParseSchema(p, e.answers.signIn.doc), [], SignInConfig(p, e.answers.signIn.doc))
  }

  // ---- one step -------------------------------------------------------------------------

  /** The identity of a trust never changes. */
  predicate SameIdentity(a: Trust, b: Trust) {
    a.credential == b.credential && a.pid == b.pid && a.deviceId == b.deviceId && a.via == b.via
  }

  predicate Stays(s: State, r: State, sock: int) {
    Mapped(s, sock) && Mapped(r, sock) && r.online[sock] == s.online[sock]
  }

  ghost predicate Arrives(p: Params, s: State, e: Event, r: State, sock: int)
    requires p.Valid()
  {
    && Mapped(r, sock) && r.online[sock] == s.next
    && Installs(p, s, e, sock, TrustOf(r, sock).credential)
    && TrustOf(r, sock).via == e.via
    && RecordOf(TrustOf(r, sock)) == Installed(p, e)
    && (match e.frame.request
        case RegisterRequest(id, _) =>
          TrustOf(r, sock).deviceId == id && TrustOf(r, sock).pid == StoredPid(e.answers.pid)
        case _ => TrustOf(r, sock).deviceId == 0 && TrustOf(r, sock).pid == 0)
  }

  ghost predicate Kept(p: Params, s: State, e: Event, r: State, sock: int) {
    && Stays(s, r, sock)
    && SameIdentity(TrustOf(s, sock), TrustOf(r, sock))
    && RecordOf(TrustOf(r, sock)) == Advance(p, sock, RecordOf(TrustOf(s, sock)), e)
  }

  /** A socket that has a trust after the step kept it, or has just been given it. */
  ghost predicate SocketStep(p: Params, s: State, e: Event, r: State, sock: int)
    requires p.Valid()
  {
    && s.next <= r.next
    && (sock in r.online ==> Kept(p, s, e, r, sock) || Arrives(p, s, e, r, sock))
  }

  lemma Untouched(p: Params, s: State, e: Event, r: State, sock: int)
    requires Inv(s) && sock in s.online
    requires sock in r.online && r.online[sock] == s.online[sock]
    requires r.online[sock] in r.trusts && SameIdentity(TrustOf(s, sock), TrustOf(r, sock))
    requires RecordOf(TrustOf(r, sock)) == RecordOf(TrustOf(s, sock))
    requires !IsFragment(p, e, sock) && !IsConfigResponse(p, e, sock) && !IsPoll(p, e, sock)
    ensures Kept(p, s, e, r, sock)
  {}

  lemma SocketSteps(p: Params, s: State, e: Event, sock: int)
    requires p.Valid() && Inv(s) && Enabled(s, e)
    ensures SocketStep(p, s, e, Step(p, s, e).state, sock)
  {
    match e {
      case Pdu(k, via, frame, answers) => PduSteps(p, s, e, sock);
      case CloudPush(_, k, doc) => PushSteps(p, s, e, sock);
      case Disconnected(c, k, removed) => DisconnectSteps(p, s, e, sock);
      case Destroyed(c) => DestroySteps(p, s, e, sock);
      case WatchDropped(w) => DropSteps(p, s, e, sock);
    }
  }

  /** Map entries and references are taken away and everything else is left. */
  ghost predicate OnlyLoses(s: State, r: State) {
    && s.next == r.next
    && (forall k :: k in r.online ==> k in s.online && r.online[k] == s.online[k])
    && (forall t :: t in r.trusts ==>
          t in s.trusts && SameIdentity(s.trusts[t], r.trusts[t]) && RecordOf(r.trusts[t]) == RecordOf(s.trusts[t]))
  }

  lemma SettledLoses(s: State, c: nat, sock: int)
    requires sock in s.online ==> Mapped(s, sock)
    ensures OnlyLoses(s, Settled(s, c, sock))
  {}

  lemma ReleasedLoses(s: State, m: State, t: nat)
    requires t in m.trusts && OnlyLoses(s, m)
    ensures OnlyLoses(s, Released(m, t))
  {}

  lemma CallbackSteps(p: Params, s: State, e: Event, r: State, sock: int)
    requires p.Valid() && Inv(s) && (e.Disconnected? || e.Destroyed? || e.WatchDropped?)
    requires OnlyLoses(s, r) && (sock in r.online ==> r.online[sock] in r.trusts)
    ensures SocketStep(p, s, e, r, sock)
  {
    if sock in r.online { Untouched(p, s, e, r, sock); }
  }

  lemma DisconnectSteps(p: Params, s: State, e: Event, sock: int)
    requires p.Valid() && Inv(s) && e.Disconnected? && Enabled(s, e)
    ensures SocketStep(p, s, e, Disconnect(s, e.channel, e.sock, e.removed), sock)
  {
    DisconnectKeeps(s, e.channel, e.sock, e.removed);
    SettledLoses(s, e.channel, e.sock);
    CallbackSteps(p, s, e, Settled(s, e.channel, e.sock), sock);
  }

  lemma DestroySteps(p: Params, s: State, e: Event, sock: int)
    requires p.Valid() && Inv(s) && e.Destroyed? && Enabled(s, e)
    ensures SocketStep(p, s, e, DestroyChannel(s, e.channel), sock)
  {
    DestroyIs(s, e.channel);
    ReleasedLoses(s, ForgetChannel(s, e.channel), e.channel);
    CallbackSteps(p, s, e, Released(ForgetChannel(s, e.channel), e.channel), sock);
  }

  lemma DropSteps(p: Params, s: State, e: Event, sock: int)
    requires p.Valid() && Inv(s) && e.WatchDropped? && Enabled(s, e)
    ensures SocketStep(p, s, e, DropWatch(s, e.watch), sock)
  {
    DropWatchIs(s, e.watch);
    ReleasedLoses(s, ForgetWatch(s, e.watch), e.watch);
    CallbackSteps(p, s, e, Released(ForgetWatch(s, e.watch), e.watch), sock);
  }

  lemma PushSteps(p: Params, s: State, e: Event, sock: int)
    requires p.Valid() && Inv(s) && e.CloudPush?
    ensures SocketStep(p, s, e, Push(p, s, e.sock, e.doc).state, sock)
  {
    match ReceivedConfig(p, e.doc) {
      case None => Idle(p, s, e, sock);
      case Some(received) =>
        if e.sock !in s.online {
          Idle(p, s, e, sock);
        } else {
          RecordSteps(p, s, e, sock, TrustOf(s, e.sock).(config := received));
        }
    }
  }

  /** An event changes what the trust on its socket records. */
  lemma RecordSteps(p: Params, s: State, e: Event, sock: int, trust: Trust)
    requires p.Valid() && Inv(s) && (e.CloudPush? || e.Pdu?) && e.sock in s.online
    requires SameIdentity(TrustOf(s, e.sock), trust)
    requires RecordOf(trust) == Advance(p, e.sock, RecordOf(TrustOf(s, e.sock)), e)
    ensures SocketStep(p, s, e, SetTrust(s, s.online[e.sock], trust), sock)
  {
    var r := SetTrust(s, s.online[e.sock], trust);
    if sock == e.sock {
      assert Kept(p, s, e, r, sock);
    } else if sock in s.online {
      DistinctTrusts(s, sock, e.sock);
      Untouched(p, s, e, r, sock);
    }
  }

  /** Two sockets never share a trust. */
  lemma DistinctTrusts(s: State, a: int, b: int)
    requires Inv(s) && a in s.online && b in s.online && a != b
    ensures s.online[a] != s.online[b]
  {}

  lemma PduSteps(p: Params, s: State, e: Event, sock: int)
    requires p.Valid() && Inv(s) && e.Pdu?
    ensures SocketStep(p, s, e, Process(p, s, e.sock, e.via, e.frame, e.answers).state, sock)
  {
    if Rejected(p, e.frame) { Idle(p, s, e, sock); } else { HandleSteps(p, s, e, sock); }
  }

  lemma HandleSteps(p: Params, s: State, e: Event, sock: int)
    requires p.Valid() && Inv(s) && e.Pdu? && !Rejected(p, e.frame)
    ensures SocketStep(p, s, e, Handle(p, s, e.sock, e.via, e.frame, e.answers).state, sock)
  {
    match e.frame.request {
      case RegisterRequest(_, _) => RegisterSteps(p, s, e, sock);
      case UnregisterRequest => UnregisterSteps(p, s, e, sock);
      case AuthRequest(c) => AuthenticateSteps(p, s, e, sock);
      case SchemaFragment(_, _) => UploadSteps(p, s, e, sock);
      case ConfigResponse(id) => AnswerConfigSteps(p, s, e, sock);
      case _ => Idle(p, s, e, sock);
    }
  }

  lemma UnregisterSteps(p: Params, s: State, e: Event, sock: int)
    requires p.Valid() && Inv(s) && e.Pdu? && !Rejected(p, e.frame) && e.frame.request.UnregisterRequest?
    ensures SocketStep(p, s, e, Unregister(s, e.sock, e.via, e.answers.removed).state, sock)
  {
    var r := Unregister(s, e.sock, e.via, e.answers.removed).state;
    if e.sock in s.online { EntryRemoved(s, e.sock); }
    if sock in r.online { Untouched(p, s, e, r, sock); }
  }

  /** A socket other than the one a trust is created for. */
  lemma CreateElsewhere(p: Params, s: State, e: Event, sock: int, trust: Trust)
    requires p.Valid() && Inv(s) && e.Pdu? && sock != e.sock
    ensures SocketStep(p, s, e, Created(s, e.sock, trust), sock)
  {
    var r := Created(s, e.sock, trust);
    if sock in r.online {
      if e.sock in s.online { DistinctTrusts(s, sock, e.sock); }
      assert s.online[sock] < s.next;
      Untouched(p, s, e, r, sock);
    }
  }

  lemma CreateHere(p: Params, s: State, e: Event, c: Credential, trust: Trust)
    requires p.Valid() && Inv(s) && e.Pdu? && Installs(p, s, e, e.sock, c)
    requires trust.credential == c && trust.via == e.via
    requires RecordOf(trust) == Installed(p, e)
    requires trust.deviceId == (if e.frame.request.RegisterRequest? then e.frame.request.deviceId else 0)
    requires trust.pid == (if e.frame.request.RegisterRequest? then StoredPid(e.answers.pid) else 0)
    ensures Arrives(p, s, e, Created(s, e.sock, trust), e.sock)
  {}

  lemma CreateSteps(p: Params, s: State, e: Event, sock: int, c: Credential, trust: Trust)
    requires p.Valid() && Inv(s) && e.Pdu? && Installs(p, s, e, e.sock, c)
    requires trust.credential == c && trust.via == e.via
    requires RecordOf(trust) == Installed(p, e)
    requires trust.deviceId == (if e.frame.request.RegisterRequest? then e.frame.request.deviceId else 0)
    requires trust.pid == (if e.frame.request.RegisterRequest? then StoredPid(e.answers.pid) else 0)
    ensures SocketStep(p, s, e, TrustCreate(s, e.sock, trust), sock)
  {
    CreateIs(s, e.sock, trust);
    if sock == e.sock { CreateHere(p, s, e, c, trust); } else { CreateElsewhere(p, s, e, sock, trust); }
  }

  lemma Idle(p: Params, s: State, e: Event, sock: int)
    requires p.Valid() && Inv(s)
    requires sock in s.online ==> !IsFragment(p, e, sock) && !IsConfigResponse(p, e, sock) && !IsPoll(p, e, sock)
    ensures SocketStep(p, s, e, s, sock)
  {
    if sock in s.online { Untouched(p, s, e, s, sock); }
  }

  lemma RegisterSteps(p: Params, s: State, e: Event, sock: int)
    requires p.Valid() && Inv(s) && e.Pdu? && !Rejected(p, e.frame) && e.frame.request.RegisterRequest?
    ensures SocketStep(p, s, e, Register(p, s, e.sock, e.via, e.frame, e.answers).state, sock)
  {
    var r := Register(p, s, e.sock, e.via, e.frame, e.answers).state;
    var id := e.frame.request.deviceId;
    var make := MadeCredential(p, e.answers.make);
    if ValidRegistration(p, e.frame.request, e.frame.length) && !Recognised(s, e.sock, id, e.answers.pid)
       && make.Some? && e.answers.signIn.Granted? {
      var trust := Trust(1, StoredPid(e.answers.pid), id, true, make.value, e.via, [], [], [], None);
      assert r == TrustCreate(s, e.sock, trust);
      CreateSteps(p, s, e, sock, make.value, trust);
    } else {
      assert r == s;
      Idle(p, s, e, sock);
    }
  }

  lemma AuthenticateSteps(p: Params, s: State, e: Event, sock: int)
    requires p.Valid() && Inv(s) && e.Pdu? && !Rejected(p, e.frame) && e.frame.request.AuthRequest?
    ensures SocketStep(p, s, e, Authenticate(p, s, e.sock, e.via, e.frame.request.credential, e.answers.signIn).state, sock)
  {
    var c := e.frame.request.credential;
    var r := Authenticate(p, s, e.sock, e.via, c, e.answers.signIn).state;
    if e.sock !in s.online && e.answers.signIn.Granted? && ParseSchema(p, e.answers.signIn.doc) != [] {
      var doc := e.answers.signIn.doc;
      var trust := Trust(1, 0, 0, false, c, e.via, ParseSchema(p, doc), [], SignInConfig(p, doc), None);
      assert r == TrustCreate(s, e.sock, trust);
      CreateSteps(p, s, e, sock, c, trust);
    } else {
      assert r == s;
      Idle(p, s, e, sock);
    }
  }

  lemma UploadSteps(p: Params, s: State, e: Event, sock: int)
    requires p.Valid() && Inv(s) && e.Pdu? && !Rejected(p, e.frame) && e.frame.request.SchemaFragment?
    ensures SocketStep(p, s, e, UploadSchema(p, s, e.sock, e.via, e.frame.request, e.answers.schemaStored).state, sock)
  {
    if e.sock !in s.online {
      Idle(p, s, e, sock);
    } else {
      var trust := TrustOf(s, e.sock);
      var pending := AddPending(p, trust.pending, e.frame.request.schema);
      if !e.frame.request.end {
        RecordSteps(p, s, e, sock, trust.(rollback := false, pending := pending));
      } else if e.answers.schemaStored {
        RecordSteps(p, s, e, sock, trust.(rollback := false, schema := pending, pending := []));
      } else {
        RecordSteps(p, s, e, sock, trust.(rollback := false, pending := []));
      }
    }
  }

  lemma AnswerConfigSteps(p: Params, s: State, e: Event, sock: int)
    requires p.Valid() && Inv(s) && e.Pdu? && !Rejected(p, e.frame) && e.frame.request.ConfigResponse?
    ensures SocketStep(p, s, e, AnswerConfig(s, e.sock, e.frame.request.sensorId).state, sock)
  {
    if e.sock !in s.online {
      Idle(p, s, e, sock);
    } else {
      var trust := TrustOf(s, e.sock);
      RecordSteps(p, s, e, sock, trust.(config := Confirm(trust.config, e.frame.request.sensorId)));
    }
  }

  // ---- runs ---------------------------------------------------------------------------------

  lemma RunSteps(p: Params, es: seq<Event>, ss: seq<State>, k: nat, sock: int)
    requires IsRun(p, es, ss) && k < |es|
    ensures Inv(ss[k]) && Inv(ss[k + 1])
    ensures SocketStep(p, ss[k], es[k], ss[k + 1], sock)
  {
    Reachable(p, es, ss, k);
    NextKeeps(p, es, ss, k);
    assert StepAt(p, es, ss, k);
    SocketSteps(p, ss[k], es[k], sock);
  }

  /** What one step can do to the map entry of a socket. */
  ghost predicate Link(ss: seq<State>, k: nat, sock: int)
    requires k + 1 < |ss|
  {
    && ss[k].next <= ss[k + 1].next
    && (sock in ss[k].online ==> Mapped(ss[k], sock) && ss[k].online[sock] < ss[k].next)
    && (sock in ss[k + 1].online ==>
          Mapped(ss[k + 1], sock) && (Stays(ss[k], ss[k + 1], sock) || ss[k + 1].online[sock] == ss[k].next))
  }

  lemma Linked(p: Params, es: seq<Event>, ss: seq<State>, k: nat, sock: int)
    requires IsRun(p, es, ss) && k < |es|
    ensures Link(ss, k, sock)
  {
    RunSteps(p, es, ss, k, sock);
  }

  lemma Arrival(p: Params, es: seq<Event>, ss: seq<State>, k: nat, sock: int)
    requires IsRun(p, es, ss) && k < |es|
    requires sock in ss[k + 1].online && !Stays(ss[k], ss[k + 1], sock)
    ensures Arrives(p, ss[k], es[k], ss[k + 1], sock)
  {
    RunSteps(p, es, ss, k, sock);
  }

  lemma Keeping(p: Params, es: seq<Event>, ss: seq<State>, k: nat, sock: int)
    requires IsRun(p, es, ss) && k < |es| && Stays(ss[k], ss[k + 1], sock)
    ensures Kept(p, ss[k], es[k], ss[k + 1], sock)
  {
    RunSteps(p, es, ss, k, sock);
  }

  lemma {:induction false} NumbersGrow(p: Params, es: seq<Event>, ss: seq<State>, i: nat, k: nat)
    requires IsRun(p, es, ss) && i <= k <= |es|
    ensures ss[i].next <= ss[k].next
    decreases k
  {
    if i < k {
      NumbersGrow(p, es, ss, i, k - 1);
      Linked(p, es, ss, k - 1, 0);
    }
  }

  /** The socket had trust t from state i to state k. */
  ghost predicate Holds(ss: seq<State>, i: nat, k: nat, sock: int, t: nat)
    requires i <= k < |ss|
  {
    forall j :: i <= j <= k ==> Mapped(ss[j], sock) && ss[j].online[sock] == t
  }

  lemma MappedBelowNext(p: Params, es: seq<Event>, ss: seq<State>, k: nat, sock: int)
    requires IsRun(p, es, ss) && k <= |es| && sock in ss[k].online
    ensures Mapped(ss[k], sock) && ss[k].online[sock] < ss[k].next
  {
    Reachable(p, es, ss, k);
  }

  /** A trust that is at a socket at two moments was there all the time between: once
      unmapped, it never comes back. */
  lemma {:induction false} TenureHasNoGap(p: Params, es: seq<Event>, ss: seq<State>, i: nat, k: nat, sock: int)
    requires IsRun(p, es, ss) && i <= k <= |es|
    requires sock in ss[i].online && sock in ss[k].online && ss[i].online[sock] == ss[k].online[sock]
    ensures Holds(ss, i, k, sock, ss[k].online[sock])
    decreases k
  {
    MappedBelowNext(p, es, ss, i, sock);
    MappedBelowNext(p, es, ss, k, sock);
    if i < k {
      Linked(p, es, ss, k - 1, sock);
      NumbersGrow(p, es, ss, i, k - 1);
      TenureHasNoGap(p, es, ss, i, k - 1, sock);
    }
  }

  /** What a trust records is what the events on its socket make of what it recorded. */
  lemma {:induction false} RecordFollows(p: Params, es: seq<Event>, ss: seq<State>, i: nat, k: nat, sock: int, t: nat)
    requires IsRun(p, es, ss) && i <= k <= |es| && Holds(ss, i, k, sock, t)
    ensures SameIdentity(TrustOf(ss[i], sock), TrustOf(ss[k], sock))
    ensures RecordOf(TrustOf(ss[k], sock)) == Advanced(p, sock, RecordOf(TrustOf(ss[i], sock)), es, i, k)
    decreases k
  {
    if i < k {
      assert Holds(ss, i, k - 1, sock, t);
      RecordFollows(p, es, ss, i, k - 1, sock, t);
      Keeping(p, es, ss, k - 1, sock);
    }
  }

  /** A mapped trust was installed by one event on its socket and has been there since. */
  lemma {:induction false} WasInstalled(p: Params, es: seq<Event>, ss: seq<State>, k: nat, sock: int) returns (i: nat)
    requires IsRun(p, es, ss) && k <= |es| && sock in ss[k].online
    ensures i < k && Arrives(p, ss[i], es[i], ss[i + 1], sock)
    ensures Holds(ss, i + 1, k, sock, ss[k].online[sock])
  {
    Linked(p, es, ss, k - 1, sock);
    if Stays(ss[k - 1], ss[k], sock) {
      i := WasInstalled(p, es, ss, k - 1, sock);
    } else {
      i := k - 1;
      Arrival(p, es, ss, i, sock);
    }
  }

  /** A request that can install a trust, with the sign-in it needs. */
  ghost predicate IsInstallation(p: Params, e: Event, sock: int) {
    && Accepts(p, e, sock) && e.answers.signIn.Granted?
    && (e.frame.request.RegisterRequest? || e.frame.request.AuthRequest?)
  }

  /** Event i installed the trust that the socket has at k, and has had since. */
  ghost predicate Origin(p: Params, es: seq<Event>, ss: seq<State>, i: nat, k: nat, sock: int)
    requires |ss| == |es| + 1
  {
    && i < k <= |es| && sock in ss[k].online
    && IsInstallation(p, es[i], sock) && ss[i].next == ss[k].online[sock]
    && Holds(ss, i + 1, k, sock, ss[k].online[sock])
  }

  /** The trust at a socket: which event put it there, and what has become of its record
      through the events on that socket since. */
  lemma HistoryOf(p: Params, es: seq<Event>, ss: seq<State>, k: nat, sock: int) returns (i: nat)
    requires IsRun(p, es, ss) && k <= |es| && sock in ss[k].online
    ensures Origin(p, es, ss, i, k, sock)
    ensures RecordOf(TrustOf(ss[k], sock)) == Advanced(p, sock, Installed(p, es[i]), es, i + 1, k)
  {
    i := WasInstalled(p, es, ss, k, sock);
    RecordFollows(p, es, ss, i + 1, k, sock, ss[k].online[sock]);
  }

  /** There is only one such event. */
  lemma OriginIsUnique(p: Params, es: seq<Event>, ss: seq<State>, i: nat, j: nat, k: nat, sock: int)
    requires IsRun(p, es, ss) && Origin(p, es, ss, i, k, sock) && Origin(p, es, ss, j, k, sock)
    ensures i == j
  {
    if i < j {
      MappedBelowNext(p, es, ss, i + 1, sock);
      NumbersGrow(p, es, ss, i + 1, j);
    } else if j < i {
      MappedBelowNext(p, es, ss, j + 1, sock);
      NumbersGrow(p, es, ss, j + 1, i);
    }
  }

  lemma HistoryFrom(p: Params, es: seq<Event>, ss: seq<State>, i: nat, k: nat, sock: int)
    requires IsRun(p, es, ss) && Origin(p, es, ss, i, k, sock)
    ensures RecordOf(TrustOf(ss[k], sock)) == Advanced(p, sock, Installed(p, es[i]), es, i + 1, k)
  {
    var j := HistoryOf(p, es, ss, k, sock);
    OriginIsUnique(p, es, ss, i, j, k, sock);
  }
}
