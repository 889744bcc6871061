/** Whose credentials the gateway uses, when it undoes a registration, and why a repeated
    registration creates nothing new. */
module Credentials {
  import opened Json
  import opened Protocol
  import opened Sequences
  import opened Documents
  import opened Engine
  import opened Ownership
  import opened Tenure
  import SchemaHistory

  // ---- provenance ------------------------------------------------------------------------

  /** The credential a call acts with, for the calls made on behalf of a trusted node. */
  function ActsWith(a: Action): Option<Credential> {
    match a
    case RemoveNode(c) => Some(c)
    case PutSchema(c, _) => Some(c)
    case PutData(c, _, _) => Some(c)
    case Fetch(c) => Some(c)
    case PutList(c, _) => Some(c)
    case _ => None
  }

  ghost predicate ActsForMapped(s: State, call: Call) {
    ActsWith(call.action).Some? ==>
      Mapped(s, call.sock) && ActsWith(call.action).value == TrustOf(s, call.sock).credential
  }

  lemma DataActsForMapped(p: Params, s: State, sock: int, via: int, id: Byte, data: Views, answers: Answers, call: Call)
    requires call in ReportData(p, s, sock, via, id, data, answers).calls
          || call in AnswerData(p, s, sock, via, id, data, answers).calls
    ensures ActsForMapped(s, call) && call.sock == sock
  {}

  lemma SignInsActForNone(p: Params, s: State, e: Event, call: Call)
    requires p.Valid() && e.Pdu?
    requires (e.frame.request.RegisterRequest? && call in Register(p, s, e.sock, e.via, e.frame, e.answers).calls)
          || (e.frame.request.AuthRequest? &&
                call in Authenticate(p, s, e.sock, e.via, e.frame.request.credential, e.answers.signIn).calls)
    ensures ActsWith(call.action).None? && call.sock == e.sock
  {}

  lemma UploadActsForMapped(p: Params, s: State, e: Event, call: Call)
    requires e.Pdu? && e.frame.request.SchemaFragment?
    requires call in UploadSchema(p, s, e.sock, e.via, e.frame.request, e.answers.schemaStored).calls
    ensures ActsForMapped(s, call) && call.sock == e.sock
  {}

  lemma HandleActsForMapped(p: Params, s: State, e: Event, call: Call)
    requires p.Valid() && e.Pdu? && call in Handle(p, s, e.sock, e.via, e.frame, e.answers).calls
    ensures ActsForMapped(s, call) && call.sock == e.sock
  {
    match e.frame.request {
      case RegisterRequest(_, _) => SignInsActForNone(p, s, e, call);
      case AuthRequest(_) => SignInsActForNone(p, s, e, call);
      case SchemaFragment(_, _) => UploadActsForMapped(p, s, e, call);
      case DataReport(id, data) => DataActsForMapped(p, s, e.sock, e.via, id, data, e.answers, call);
      case DataResponse(id, data) => DataActsForMapped(p, s, e.sock, e.via, id, data, e.answers, call);
      case _ =>
    }
  }

  lemma StepActsForMapped(p: Params, s: State, e: Event, call: Call)
    requires p.Valid() && call in Step(p, s, e).calls
    ensures ActsForMapped(s, call)
  {
    match e {
      case Pdu(_, _, frame, _) =>
        if call in Handle(p, s, e.sock, e.via, e.frame, e.answers).calls { HandleActsForMapped(p, s, e, call); }
      case _ =>
    }
  }

  lemma InstallationSignsIn(p: Params, s: State, e: Event, r: State, sock: int)
    requires p.Valid() && Inv(s) && Arrives(p, s, e, r, sock) && r == Step(p, s, e).state
    ensures Call(sock, e.via, SignIn(TrustOf(r, sock).credential, true)) in Step(p, s, e).calls
  {
    var c := TrustOf(r, sock).credential;
    var h := Handle(p, s, sock, e.via, e.frame, e.answers);
    assert Step(p, s, e).calls == h.calls;
    assert h.state != s;
    assert Call(sock, e.via, SignIn(c, true)) in h.calls;
  }

  lemma {:induction false} CredentialIsFixed(p: Params, es: seq<Event>, ss: seq<State>, i: nat, k: nat, sock: int, t: nat, j: nat)
    requires IsRun(p, es, ss) && i <= j <= k <= |es| && Holds(ss, i, k, sock, t)
    ensures TrustOf(ss[j], sock).credential == TrustOf(ss[i], sock).credential
  {
    assert Holds(ss, i, j, sock, t);
    RecordFollows(p, es, ss, i, j, sock, t);
  }

  /** The credential of a mapped trust was signed in by the event that installed the trust. */
  lemma CredentialWasGranted(p: Params, es: seq<Event>, ss: seq<State>, k: nat, sock: int) returns (i: nat)
    requires IsRun(p, es, ss) && k <= |es| && sock in ss[k].online
    ensures Origin(p, es, ss, i, k, sock)
    ensures GrantedAt(p, es, ss, i, sock, TrustOf(ss[k], sock).credential)
  {
    i := WasInstalled(p, es, ss, k, sock);
    CredentialIsFixed(p, es, ss, i + 1, k, sock, ss[k].online[sock], k);
    SignedInAt(p, es, ss, i, sock);
  }

  /** Event i signed in with the credential, for the socket. */
  ghost predicate GrantedAt(p: Params, es: seq<Event>, ss: seq<State>, i: nat, sock: int, c: Credential)
    requires p.Valid() && i < |es| && |ss| == |es| + 1
  {
    es[i].Pdu? && Call(sock, es[i].via, SignIn(c, true)) in Step(p, ss[i], es[i]).calls
  }

  /** Every call made for a socket's node acts with the credential of the trust mapped there.
      That trust was installed by an earlier event on the same socket, which signed in with
      that very credential, and it has been mapped there without interruption since. */
  lemma Provenance(p: Params, es: seq<Event>, ss: seq<State>, k: nat, call: Call) returns (i: nat)
    requires IsRun(p, es, ss) && k < |es|
    requires call in Step(p, ss[k], es[k]).calls && ActsWith(call.action).Some?
    ensures Origin(p, es, ss, i, k, call.sock)
    ensures var c := ActsWith(call.action).value;
            TrustOf(ss[k], call.sock).credential == c && GrantedAt(p, es, ss, i, call.sock, c)
  {
    StepActsForMapped(p, ss[k], es[k], call);
    i := CredentialWasGranted(p, es, ss, k, call.sock);
  }

  lemma SignedInAt(p: Params, es: seq<Event>, ss: seq<State>, i: nat, sock: int)
    requires IsRun(p, es, ss) && i < |es| && Arrives(p, ss[i], es[i], ss[i + 1], sock)
    ensures GrantedAt(p, es, ss, i, sock, TrustOf(ss[i + 1], sock).credential)
  {
    Reachable(p, es, ss, i);
    NextIs(p, es, ss, i);
    InstallationSignsIn(p, ss[i], es[i], ss[i + 1], sock);
  }

  // ---- rollback --------------------------------------------------------------------------------

  /** A mapped trust is marked for rollback iff it came from a registration and no schema
      fragment has reached its socket since. */
  lemma RollbackExact(p: Params, es: seq<Event>, ss: seq<State>, k: nat, sock: int) returns (i: nat)
    requires IsRun(p, es, ss) && k <= |es| && sock in ss[k].online
    ensures Origin(p, es, ss, i, k, sock)
    ensures TrustOf(ss[k], sock).rollback <==>
            es[i].frame.request.RegisterRequest? && forall j :: i < j < k ==> !IsFragment(p, es[j], sock)
  {
    i := HistoryOf(p, es, ss, k, sock);
    SchemaHistory.FragmentClearsRollback(p, es, sock, Installed(p, es[i]), i + 1, k);
  }

  function IsRemoval(): Call -> bool { (c: Call) => c.action.RemoveNode? }

  /** Disconnecting removes the node from the cloud once if its trust is marked, and never
      otherwise; the socket ends unmapped whether or not the cloud obeyed. */
  lemma DisconnectRollsBack(p: Params, s: State, e: Event)
    requires p.Valid() && Inv(s) && e.Disconnected? && Enabled(s, e)
    ensures Keep(Step(p, s, e).calls, IsRemoval()) ==
            if e.sock in s.online && TrustOf(s, e.sock).rollback
            then [Call(e.sock, TrustOf(s, e.sock).via, RemoveNode(TrustOf(s, e.sock).credential))] else []
    ensures e.sock !in Step(p, s, e).state.online
  {
    DisconnectKeeps(s, e.channel, e.sock, e.removed);
    RemovalsIn(s, e.sock);
  }

  lemma RemovalsIn(s: State, sock: int)
    ensures Keep(TeardownCalls(s, sock), IsRemoval()) ==
            if Mapped(s, sock) && TrustOf(s, sock).rollback
            then [Call(sock, TrustOf(s, sock).via, RemoveNode(TrustOf(s, sock).credential))] else []
  {
    if Mapped(s, sock) {
      var trust, calls := TrustOf(s, sock), TeardownCalls(s, sock);
      if |calls| > 0 { KeepFromFront(calls, IsRemoval()); }
      if |calls| > 1 { KeepFromFront(calls[1..], IsRemoval()); }
    }
  }

  // ---- repeated registrations ---------------------------------------------------------------------

  /** A registration for the given device and peer that reaches the handler with a name. */
  predicate IsRegistration(p: Params, e: Event, sock: int, id: int, pid: int) {
    && Accepts(p, e, sock) && e.frame.request.RegisterRequest?
    && e.frame.request.deviceId == id && e.answers.pid == pid
    && ValidRegistration(p, e.frame.request, e.frame.length)
  }

  /** Traffic that leaves a registration in place: no unregistration the cloud accepts and no
      registration of another device or peer on the socket, and no disconnection of it. */
  predicate Preserves(p: Params, e: Event, sock: int, id: int, pid: int) {
    && !(Accepts(p, e, sock) && e.frame.request.UnregisterRequest? && e.answers.removed)
    && !(Accepts(p, e, sock) && e.frame.request.RegisterRequest? && !(e.frame.request.deviceId == id && e.answers.pid == pid))
    && !(e.Disconnected? && e.sock == sock)
  }

  /** After a registration, the same request is recognised exactly for a nonzero peer pid. */
  lemma RecognisedIffPidKnown(p: Params, s: State, e: Event, r: State, sock: int)
    requires p.Valid() && Arrives(p, s, e, r, sock) && e.frame.request.RegisterRequest?
    ensures Recognised(r, sock, e.frame.request.deviceId, e.answers.pid) <==> e.answers.pid != 0
  {}

  lemma InstalledAs(p: Params, es: seq<Event>, ss: seq<State>, i: nat, k: nat, sock: int)
    requires IsRun(p, es, ss) && Origin(p, es, ss, i, k, sock)
    ensures Arrives(p, ss[i], es[i], ss[i + 1], sock)
    ensures SameIdentity(TrustOf(ss[i + 1], sock), TrustOf(ss[k], sock))
  {
    var j := WasInstalled(p, es, ss, k, sock);
    OriginIsUnique(p, es, ss, i, j, k, sock);
    RecordFollows(p, es, ss, i + 1, k, sock, ss[k].online[sock]);
  }

  /** Over a whole run, which registrations are recognised: those of the device and peer that
      registered the trust on the socket, a pid of zero counting as the largest int; and on a
      trust that authenticated, those for device 0 from pid 0. */
  lemma RecognisedOverRun(p: Params, es: seq<Event>, ss: seq<State>, i: nat, k: nat, sock: int, id: int, pid: int)
    requires IsRun(p, es, ss) && Origin(p, es, ss, i, k, sock)
    ensures Recognised(ss[k], sock, id, pid) <==>
            if es[i].frame.request.RegisterRequest?
            then id == es[i].frame.request.deviceId && pid == (if es[i].answers.pid == 0 then 0x7fff_ffff else es[i].answers.pid)
            else id == 0 && pid == 0
  {
    InstalledAs(p, es, ss, i, k, sock);
  }

  /** While a registered trust has the socket, a registration from pid 0 is never recognised and
      asks the cloud for another device. */
  lemma PidZeroIsNeverRecognised(p: Params, es: seq<Event>, ss: seq<State>, i: nat, k: nat, sock: int, id: int)
    requires IsRun(p, es, ss) && k < |es| && Origin(p, es, ss, i, k, sock) && es[i].frame.request.RegisterRequest?
    requires IsRegistration(p, es[k], sock, id, 0)
    ensures !Recognised(ss[k], sock, id, 0)
    ensures exists call :: call in Step(p, ss[k], es[k]).calls && MakesFor(sock)(call)
  {
    RecognisedOverRun(p, es, ss, i, k, sock, id, 0);
    UnrecognisedMakes(p, ss[k], es[k], sock, id, 0);
  }

  lemma UnrecognisedMakes(p: Params, s: State, e: Event, sock: int, id: int, pid: int)
    requires p.Valid() && Mapped(s, sock) && IsRegistration(p, e, sock, id, pid) && !Recognised(s, sock, id, pid)
    ensures exists call :: call in Step(p, s, e).calls && MakesFor(sock)(call)
  {
    var calls := Register(p, s, sock, e.via, e.frame, e.answers).calls;
    assert Step(p, s, e).calls == calls;
    assert calls[0] in calls && MakesFor(sock)(calls[0]);
  }

  lemma PreservedPdu(p: Params, s: State, e: Event, sock: int, id: int, pid: int)
    requires p.Valid() && Inv(s) && e.Pdu? && !Rejected(p, e.frame)
    requires Recognised(s, sock, id, pid) && Preserves(p, e, sock, id, pid)
    ensures var r := Handle(p, s, e.sock, e.via, e.frame, e.answers).state;
            sock in r.online && r.online[sock] == s.online[sock]
  {
    match e.frame.request {
      case RegisterRequest(_, _) => PreservedRegister(p, s, e, sock, id, pid);
      case AuthRequest(c) => PreservedAuth(p, s, e, sock);
      case UnregisterRequest => assert e.sock != sock || !e.answers.removed;
      case _ =>
    }
  }

  lemma PreservedRegister(p: Params, s: State, e: Event, sock: int, id: int, pid: int)
    requires p.Valid() && Inv(s) && e.Pdu? && !Rejected(p, e.frame) && e.frame.request.RegisterRequest?
    requires Recognised(s, sock, id, pid) && Preserves(p, e, sock, id, pid)
    ensures var r := Register(p, s, e.sock, e.via, e.frame, e.answers).state;
            sock in r.online && r.online[sock] == s.online[sock]
  {
    var r := Register(p, s, e.sock, e.via, e.frame, e.answers).state;
    if r != s {
      var trust := Trust(1, StoredPid(e.answers.pid), e.frame.request.deviceId, true,
                         MadeCredential(p, e.answers.make).value, e.via, [], [], [], None);
      assert r == TrustCreate(s, e.sock, trust);
      CreateIs(s, e.sock, trust);
    }
  }

  lemma PreservedAuth(p: Params, s: State, e: Event, sock: int)
    requires p.Valid() && Inv(s) && e.Pdu? && e.frame.request.AuthRequest? && sock in s.online
    ensures var r := Authenticate(p, s, e.sock, e.via, e.frame.request.credential, e.answers.signIn).state;
            sock in r.online && r.online[sock] == s.online[sock]
  {
    var c := e.frame.request.credential;
    var r := Authenticate(p, s, e.sock, e.via, c, e.answers.signIn).state;
    if r != s {
      var doc := e.answers.signIn.doc;
      var trust := Trust(1, 0, 0, false, c, e.via, ParseSchema(p, doc), [], SignInConfig(p, doc), None);
      assert r == TrustCreate(s, e.sock, trust);
      CreateIs(s, e.sock, trust);
    }
  }

  /** The map entries a callback leaves. */
  lemma CallbackEntries(p: Params, s: State, e: Event)
    requires p.Valid() && Inv(s) && Enabled(s, e)
    requires e.Destroyed? || e.WatchDropped? || e.Disconnected?
    ensures Step(p, s, e).state.online == if e.Disconnected? then s.online - {e.sock} else s.online
  {
    match e {
      case Disconnected(c, sock, removed) => DisconnectEntries(s, c, sock, removed);
      case Destroyed(c) => ReleaseEntries(s, c);
      case WatchDropped(w) => ReleaseEntries(s, w);
    }
  }

  lemma DisconnectEntries(s: State, c: nat, sock: int, removed: bool)
    requires Inv(s) && c in s.channels && s.channels[c].fd == sock
    ensures Disconnect(s, c, sock, removed).online == s.online - {sock}
  {
    DisconnectKeeps(s, c, sock, removed);
  }

  lemma ReleaseEntries(s: State, n: nat)
    ensures DestroyChannel(s, n).online == s.online
    ensures DropWatch(s, n).online == s.online
  {}

  lemma PushEntries(p: Params, s: State, sock: int, doc: Json)
    ensures Push(p, s, sock, doc).state.online == s.online
  {}

  lemma PreservedProcess(p: Params, s: State, e: Event, sock: int, id: int, pid: int)
    requires p.Valid() && Inv(s) && e.Pdu?
    requires Recognised(s, sock, id, pid) && Preserves(p, e, sock, id, pid)
    ensures var r := Process(p, s, e.sock, e.via, e.frame, e.answers).state;
            sock in r.online && r.online[sock] == s.online[sock]
  {
    if !Rejected(p, e.frame) { PreservedPdu(p, s, e, sock, id, pid); }
  }

  lemma PreservedStep(p: Params, s: State, e: Event, sock: int, id: int, pid: int)
    requires p.Valid() && Inv(s) && Enabled(s, e)
    requires Recognised(s, sock, id, pid) && Preserves(p, e, sock, id, pid)
    ensures var r := Step(p, s, e).state; sock in r.online && r.online[sock] == s.online[sock]
  {
    match e {
      case Pdu(_, _, _, _) => PreservedProcess(p, s, e, sock, id, pid);
      case CloudPush(_, k, doc) => PushEntries(p, s, k, doc);
      case _ => CallbackEntries(p, s, e);
    }
  }

  lemma {:induction false} RegistrationStays(p: Params, es: seq<Event>, ss: seq<State>, i: nat, k: nat, sock: int, id: int, pid: int)
    requires IsRun(p, es, ss) && i <= k <= |es| && Recognised(ss[i], sock, id, pid)
    requires forall j :: i <= j < k ==> Preserves(p, es[j], sock, id, pid)
    ensures Holds(ss, i, k, sock, ss[i].online[sock]) && Recognised(ss[k], sock, id, pid)
    decreases k
  {
    if i < k {
      RegistrationStays(p, es, ss, i, k - 1, sock, id, pid);
      Reachable(p, es, ss, k - 1);
      StayedAt(p, es, ss, k - 1, sock, id, pid);
      RecordFollows(p, es, ss, i, k, sock, ss[i].online[sock]);
    }
  }

  lemma StayedAt(p: Params, es: seq<Event>, ss: seq<State>, k: nat, sock: int, id: int, pid: int)
    requires IsRun(p, es, ss) && k < |es| && Inv(ss[k])
    requires Recognised(ss[k], sock, id, pid) && Preserves(p, es[k], sock, id, pid)
    ensures Mapped(ss[k + 1], sock) && ss[k + 1].online[sock] == ss[k].online[sock]
  {
    NextIs(p, es, ss, k);
    PreservedStep(p, ss[k], es[k], sock, id, pid);
    MappedBelowNext(p, es, ss, k + 1, sock);
  }

  function MakesFor(sock: int): Call -> bool { (c: Call) => c.sock == sock && c.action.MakeNode? }

  ghost predicate MakesNone(p: Params, es: seq<Event>, ss: seq<State>, k: nat, sock: int)
    requires p.Valid() && k < |es| && |ss| == |es| + 1
  {
    Keep(Step(p, ss[k], es[k]).calls, MakesFor(sock)) == []
  }

  lemma PreservedMakesNothing(p: Params, s: State, e: Event, sock: int, id: int, pid: int)
    requires p.Valid() && Inv(s) && Recognised(s, sock, id, pid) && Preserves(p, e, sock, id, pid)
    ensures Keep(Step(p, s, e).calls, MakesFor(sock)) == []
  {
    var calls := Step(p, s, e).calls;
    forall c | c in calls ensures !MakesFor(sock)(c) { MakesNothing(p, s, e, sock, id, pid, c); }
    var kept := Keep(calls, MakesFor(sock));
    if kept != [] { KeepMembers(calls, MakesFor(sock), kept[0]); }
  }

  lemma MakesNothing(p: Params, s: State, e: Event, sock: int, id: int, pid: int, c: Call)
    requires p.Valid() && Inv(s) && Recognised(s, sock, id, pid) && Preserves(p, e, sock, id, pid)
    requires c in Step(p, s, e).calls
    ensures !MakesFor(sock)(c)
  {
    match e {
      case Pdu(_, _, _, _) => PduMakesNothing(p, s, e, sock, id, pid, c);
      case _ =>
    }
  }

  lemma PduMakesNothing(p: Params, s: State, e: Event, sock: int, id: int, pid: int, c: Call)
    requires p.Valid() && e.Pdu? && Recognised(s, sock, id, pid) && Preserves(p, e, sock, id, pid)
    requires c in Process(p, s, e.sock, e.via, e.frame, e.answers).calls
    ensures !MakesFor(sock)(c)
  {
    if !Rejected(p, e.frame) && c.action.MakeNode? {
      OnlyRegistrationsMake(p, s, e, c);
    }
  }

  /** A device is created only for a registration that is not recognised. */
  lemma OnlyRegistrationsMake(p: Params, s: State, e: Event, c: Call)
    requires p.Valid() && e.Pdu? && c in Handle(p, s, e.sock, e.via, e.frame, e.answers).calls && c.action.MakeNode?
    ensures c.sock == e.sock && e.frame.request.RegisterRequest?
    ensures !Recognised(s, e.sock, e.frame.request.deviceId, e.answers.pid)
  {
    HandleActsForMapped(p, s, e, c);
    match e.frame.request {
      case DataReport(id, data) => DataMakesNothing(p, s, e.sock, e.via, id, data, e.answers, c);
      case DataResponse(id, data) => DataMakesNothing(p, s, e.sock, e.via, id, data, e.answers, c);
      case _ =>
    }
  }

  lemma DataMakesNothing(p: Params, s: State, sock: int, via: int, id: Byte, data: Views, answers: Answers, call: Call)
    requires call in ReportData(p, s, sock, via, id, data, answers).calls
          || call in AnswerData(p, s, sock, via, id, data, answers).calls
    ensures !call.action.MakeNode?
  {}

  /** Repeating a successful registration, any number of times and among traffic that leaves
      it in place, answers the same credential without calling the cloud: one device is
      created in all. */
  lemma RegistrationIsIdempotent(p: Params, es: seq<Event>, ss: seq<State>, i: nat, k: nat, sock: int, id: int, pid: int)
    requires IsRun(p, es, ss) && i < k < |es| && pid != 0
    requires IsRegistration(p, es[i], sock, id, pid) && Arrives(p, ss[i], es[i], ss[i + 1], sock)
    requires forall j :: i < j < k ==> Preserves(p, es[j], sock, id, pid)
    requires IsRegistration(p, es[k], sock, id, pid)
    ensures var first, again := Step(p, ss[i], es[i]), Step(p, ss[k], es[k]);
      && again.calls == [] && again.state == ss[k]
      && again.reply == first.reply && again.octets == first.octets
      && first.reply == Some(Reply(Some(RegisterResp), Success, Some(TrustOf(ss[i + 1], sock).credential), p.credentialLen))
    ensures |Keep(Step(p, ss[i], es[i]).calls, MakesFor(sock))| == 1
    ensures forall j :: i < j <= k ==> MakesNone(p, es, ss, j, sock)
  {
    RecognisedIffPidKnown(p, ss[i], es[i], ss[i + 1], sock);
    StillRegistered(p, es, ss, i + 1, k, sock, id, pid);
    FirstReply(p, es, ss, i, sock, id, pid);
    RepeatReply(p, ss[k], es[k], sock, id, pid);
  }

  lemma StillRegistered(p: Params, es: seq<Event>, ss: seq<State>, i: nat, k: nat, sock: int, id: int, pid: int)
    requires IsRun(p, es, ss) && i <= k < |es| && Recognised(ss[i], sock, id, pid)
    requires forall j :: i <= j < k ==> Preserves(p, es[j], sock, id, pid)
    requires IsRegistration(p, es[k], sock, id, pid)
    ensures Recognised(ss[k], sock, id, pid) && TrustOf(ss[k], sock).credential == TrustOf(ss[i], sock).credential
    ensures forall j :: i <= j <= k ==> MakesNone(p, es, ss, j, sock)
  {
    RegistrationStays(p, es, ss, i, k, sock, id, pid);
    RecordFollows(p, es, ss, i, k, sock, ss[i].online[sock]);
    forall j | i <= j <= k ensures MakesNone(p, es, ss, j, sock) {
      NoMoreDevices(p, es, ss, i, j, sock, id, pid);
    }
  }

  lemma FirstReply(p: Params, es: seq<Event>, ss: seq<State>, i: nat, sock: int, id: int, pid: int)
    requires IsRun(p, es, ss) && i < |es| && IsRegistration(p, es[i], sock, id, pid)
    requires Arrives(p, ss[i], es[i], ss[i + 1], sock)
    ensures var c := TrustOf(ss[i + 1], sock).credential;
      && Step(p, ss[i], es[i]).reply == Some(Reply(Some(RegisterResp), Success, Some(c), p.credentialLen))
      && Step(p, ss[i], es[i]).octets == p.headerLen + p.credentialLen
      && |Keep(Step(p, ss[i], es[i]).calls, MakesFor(sock))| == 1
  {
    Reachable(p, es, ss, i);
    NextIs(p, es, ss, i);
    RegisterReply(p, ss[i], es[i], sock, TrustOf(ss[i + 1], sock).credential);
  }

  lemma RegisterReply(p: Params, s: State, e: Event, sock: int, c: Credential)
    requires p.Valid() && Inv(s) && Installs(p, s, e, sock, c) && e.frame.request.RegisterRequest?
    requires ValidRegistration(p, e.frame.request, e.frame.length)
    ensures Step(p, s, e).reply == Some(Reply(Some(RegisterResp), Success, Some(c), p.credentialLen))
    ensures Step(p, s, e).octets == p.headerLen + p.credentialLen
    ensures |Keep(Step(p, s, e).calls, MakesFor(sock))| == 1
  {
    var h := Register(p, s, sock, e.via, e.frame, e.answers);
    assert Handle(p, s, sock, e.via, e.frame, e.answers) == h;
    OneDevice(h.calls, sock);
  }

  lemma OneDevice(calls: seq<Call>, sock: int)
    requires |calls| == 3 && MakesFor(sock)(calls[0]) && !MakesFor(sock)(calls[1]) && !MakesFor(sock)(calls[2])
    ensures |Keep(calls, MakesFor(sock))| == 1
  {
    assert calls[..2][..1] == [calls[0]] && calls[..2][..1][..0] == [];
    KeepStep(calls, MakesFor(sock), 0);
    KeepStep(calls, MakesFor(sock), 1);
    KeepStep(calls, MakesFor(sock), 2);
    assert calls[..3] == calls;
  }

  lemma RepeatReply(p: Params, s: State, e: Event, sock: int, id: int, pid: int)
    requires p.Valid() && Recognised(s, sock, id, pid) && IsRegistration(p, e, sock, id, pid)
    ensures Step(p, s, e) ==
            Effect(s, [], p.headerLen + p.credentialLen,
                   Some(Reply(Some(RegisterResp), Success, Some(TrustOf(s, sock).credential), p.credentialLen)), [])
  {}

  /** An event that leaves the registration in place creates no device for its socket. */
  lemma NoMoreDevices(p: Params, es: seq<Event>, ss: seq<State>, i: nat, k: nat, sock: int, id: int, pid: int)
    requires IsRun(p, es, ss) && i <= k < |es| && Recognised(ss[i], sock, id, pid)
    requires forall j :: i <= j < k ==> Preserves(p, es[j], sock, id, pid)
    requires Preserves(p, es[k], sock, id, pid)
    ensures MakesNone(p, es, ss, k, sock)
  {
    RegistrationStays(p, es, ss, i, k, sock, id, pid);
    Reachable(p, es, ss, k);
    PreservedMakesNothing(p, ss[k], es[k], sock, id, pid);
  }
}
