/** When disconnecting a node gives everything back. */
module Reclamation {
  import opened Json
  import opened Protocol
  import opened Documents
  import opened Engine
  import opened Ownership

  /** A request that takes a trust off its socket: an unregistration the cloud accepts, or a
      new registration on a socket that already has a trust. */
  predicate Displaces(p: Params, s: State, e: Event) {
    && e.Pdu? && !Rejected(p, e.frame) && Mapped(s, e.sock)
    && match e.frame.request
       case UnregisterRequest => e.answers.removed
       case RegisterRequest(id, _) =>
         && ValidRegistration(p, e.frame.request, e.frame.length)
         && !Recognised(s, e.sock, id, e.answers.pid)
         && MadeCredential(p, e.answers.make).Some? && e.answers.signIn.Granted?
       case _ => false
  }

  /** The request takes trust t off its socket. */
  predicate DisplacesTrust(p: Params, s: State, e: Event, t: nat) {
    Displaces(p, s, e) && s.online[e.sock] == t
  }

  /** A watch that no disconnection will stop any more: its trust is not mapped. */
  predicate Adrift(s: State, t: nat) { t in s.watches && !Online(s, t) }

  // ---- how a watch comes adrift ------------------------------------------------------------

  /** One step from s to r: the watches adrift afterwards are those adrift before or of a trust
      displaced by the step, less the one the driver dropped. */
  ghost predicate DriftsAs(p: Params, s: State, e: Event, r: State, t: nat) {
    Adrift(r, t) <==> t in s.watches && e != WatchDropped(t) && (Adrift(s, t) || DisplacesTrust(p, s, e, t))
  }

  lemma DriftUnchanged(p: Params, s: State, e: Event, r: State, t: nat)
    requires r.online == s.online && r.channels == s.channels && r.watches == s.watches
    requires !e.WatchDropped? && !Displaces(p, s, e)
    ensures DriftsAs(p, s, e, r, t)
  {}

  lemma DriftCreate(p: Params, s: State, e: Event, trust: Trust, t: nat)
    requires Inv(s) && e.Pdu? && (e.sock in s.online ==> Displaces(p, s, e))
    ensures DriftsAs(p, s, e, Created(s, e.sock, trust), t)
  {
    var r := Created(s, e.sock, trust);
    if t == s.next {
      assert Online(r, t) && t !in s.watches;
    } else {
      assert t in r.channels <==> t in s.channels;
    }
  }

  lemma DriftRegister(p: Params, s: State, e: Event, t: nat)
    requires Inv(s) && e.Pdu? && e.frame.request.RegisterRequest? && !Rejected(p, e.frame)
    ensures DriftsAs(p, s, e, Register(p, s, e.sock, e.via, e.frame, e.answers).state, t)
  {
    var id, make := e.frame.request.deviceId, MadeCredential(p, e.answers.make);
    if ValidRegistration(p, e.frame.request, e.frame.length) && !Recognised(s, e.sock, id, e.answers.pid)
       && make.Some? && e.answers.signIn.Granted? {
      var trust := Trust(1, StoredPid(e.answers.pid), id, true, make.value, e.via, [], [], [], None);
      CreateIs(s, e.sock, trust);
      DriftCreate(p, s, e, trust, t);
    } else {
      DriftUnchanged(p, s, e, s, t);
    }
  }

  lemma DriftAuthenticate(p: Params, s: State, e: Event, t: nat)
    requires p.Valid() && Inv(s) && e.Pdu? && e.frame.request.AuthRequest?
    ensures DriftsAs(p, s, e, Authenticate(p, s, e.sock, e.via, e.frame.request.credential, e.answers.signIn).state, t)
  {
    var c, answer := e.frame.request.credential, e.answers.signIn;
    if e.sock !in s.online && answer.Granted? && ParseSchema(p, answer.doc) != [] {
      var trust := Trust(1, 0, 0, false, c, e.via, ParseSchema(p, answer.doc), [], SignInConfig(p, answer.doc), None);
      CreateIs(s, e.sock, trust);
      DriftCreate(p, s, e, trust, t);
    } else {
      DriftUnchanged(p, s, e, s, t);
    }
  }

  lemma DriftUnregister(p: Params, s: State, e: Event, t: nat)
    requires Inv(s) && e.Pdu? && e.frame.request.UnregisterRequest? && !Rejected(p, e.frame)
    ensures DriftsAs(p, s, e, Unregister(s, e.sock, e.via, e.answers.removed).state, t)
  {
    if e.sock in s.online && e.answers.removed {
      EntryRemoved(s, e.sock);
    } else {
      DriftUnchanged(p, s, e, s, t);
    }
  }

  lemma DriftHandle(p: Params, s: State, e: Event, t: nat)
    requires p.Valid() && Inv(s) && e.Pdu? && !Rejected(p, e.frame)
    ensures DriftsAs(p, s, e, Handle(p, s, e.sock, e.via, e.frame, e.answers).state, t)
  {
    match e.frame.request {
      case RegisterRequest(_, _) => DriftRegister(p, s, e, t);
      case UnregisterRequest => DriftUnregister(p, s, e, t);
      case AuthRequest(_) => DriftAuthenticate(p, s, e, t);
      case SchemaFragment(_, _) =>
        DriftUnchanged(p, s, e, UploadSchema(p, s, e.sock, e.via, e.frame.request, e.answers.schemaStored).state, t);
      case ConfigResponse(id) => DriftUnchanged(p, s, e, AnswerConfig(s, e.sock, id).state, t);
      case _ => DriftUnchanged(p, s, e, s, t);
    }
  }

  lemma DriftDisconnect(p: Params, s: State, e: Event, t: nat)
    requires Inv(s) && e.Disconnected? && Enabled(s, e)
    ensures DriftsAs(p, s, e, Disconnect(s, e.channel, e.sock, e.removed), t)
  {
    DisconnectKeepsAdrift(s, e.channel, e.sock, e.removed, t);
  }

  lemma DisconnectKeepsAdrift(s: State, c: nat, sock: int, removed: bool, t: nat)
    requires Inv(s) && c in s.channels && s.channels[c].fd == sock
    ensures Adrift(Disconnect(s, c, sock, removed), t) <==> Adrift(s, t)
  {
    DisconnectKeeps(s, c, sock, removed);
    SettledKeepsAdrift(s, c, sock, t);
  }

  lemma SettledKeepsAdrift(s: State, c: nat, sock: int, t: nat)
    requires Shape(s) && c in s.channels && s.channels[c].fd == sock
    ensures Adrift(Settled(s, c, sock), t) <==> Adrift(s, t)
  {
    var r := Settled(s, c, sock);
    if sock in s.online && s.online[sock] == t {
      assert t !in r.watches && Online(s, t);
    } else {
      assert Online(r, t) <==> Online(s, t);
    }
  }

  lemma DriftDestroy(p: Params, s: State, e: Event, t: nat)
    requires Inv(s) && e.Destroyed? && Enabled(s, e)
    ensures DriftsAs(p, s, e, DestroyChannel(s, e.channel), t)
  {
    DestroyIs(s, e.channel);
  }

  lemma DriftDrop(p: Params, s: State, e: Event, t: nat)
    requires Inv(s) && e.WatchDropped? && Enabled(s, e)
    ensures DriftsAs(p, s, e, DropWatch(s, e.watch), t)
  {
    DropWatchIs(s, e.watch);
  }

  lemma DriftStep(p: Params, s: State, e: Event, t: nat)
    requires p.Valid() && Inv(s) && Enabled(s, e)
    ensures DriftsAs(p, s, e, Step(p, s, e).state, t)
  {
    match e {
      case Pdu(_, _, frame, _) =>
        if Rejected(p, frame) { DriftUnchanged(p, s, e, s, t); } else { DriftHandle(p, s, e, t); }
      case CloudPush(_, sock, doc) => DriftUnchanged(p, s, e, Push(p, s, sock, doc).state, t);
      case Disconnected(_, _, _) => DriftDisconnect(p, s, e, t);
      case Destroyed(_) => DriftDestroy(p, s, e, t);
      case WatchDropped(_) => DriftDrop(p, s, e, t);
    }
  }

  // ---- runs ----------------------------------------------------------------------------------

  lemma DriftAt(p: Params, es: seq<Event>, ss: seq<State>, k: nat, t: nat)
    requires IsRun(p, es, ss) && k < |es|
    ensures DriftsAs(p, ss[k], es[k], ss[k + 1], t)
  {
    Reachable(p, es, ss, k);
    NextIs(p, es, ss, k);
    DriftStep(p, ss[k], es[k], t);
  }

  /** Event j displaced the watched trust t, and the driver has not dropped its watch since. */
  predicate StrandedAt(p: Params, es: seq<Event>, ss: seq<State>, k: nat, t: nat, j: nat)
    requires k <= |es| && |ss| == |es| + 1
  {
    && j < k && DisplacesTrust(p, ss[j], es[j], t) && t in ss[j].watches
    && forall n :: j <= n < k ==> es[n] != WatchDropped(t)
  }

  ghost predicate Stranded(p: Params, es: seq<Event>, ss: seq<State>, k: nat, t: nat)
    requires k <= |es| && |ss| == |es| + 1
  {
    exists j: nat :: StrandedAt(p, es, ss, k, t, j)
  }

  /** In every run a watch is adrift exactly when its trust was displaced while watched and the
      driver has not dropped the watch since. */
  lemma {:induction false} AdriftIffStranded(p: Params, es: seq<Event>, ss: seq<State>, k: nat, t: nat)
    requires IsRun(p, es, ss) && k <= |es|
    ensures Adrift(ss[k], t) <==> Stranded(p, es, ss, k, t)
  {
    if k > 0 {
      AdriftIffStranded(p, es, ss, k - 1, t);
      DriftAt(p, es, ss, k - 1, t);
      StrandedGrows(p, es, ss, k - 1, t);
      DisplacedIsOnline(p, es, ss, k - 1, t);
    }
  }

  lemma StrandedGrows(p: Params, es: seq<Event>, ss: seq<State>, k: nat, t: nat)
    requires k < |es| && |ss| == |es| + 1
    ensures Stranded(p, es, ss, k + 1, t) <==>
            && es[k] != WatchDropped(t)
            && (Stranded(p, es, ss, k, t) || (DisplacesTrust(p, ss[k], es[k], t) && t in ss[k].watches))
  {
    var next := k + 1;
    if es[k] != WatchDropped(t) {
      if j: nat :| StrandedAt(p, es, ss, k, t, j) { assert StrandedAt(p, es, ss, next, t, j); }
      if DisplacesTrust(p, ss[k], es[k], t) && t in ss[k].watches { assert StrandedAt(p, es, ss, next, t, k); }
    }
    if j: nat :| StrandedAt(p, es, ss, next, t, j) {
      if j < k { assert StrandedAt(p, es, ss, k, t, j); }
    }
  }

  /** A displaced trust was not adrift before. */
  lemma DisplacedIsOnline(p: Params, es: seq<Event>, ss: seq<State>, k: nat, t: nat)
    requires IsRun(p, es, ss) && k < |es|
    ensures DisplacesTrust(p, ss[k], es[k], t) ==> !Adrift(ss[k], t)
  {
    Reachable(p, es, ss, k);
  }

  // ---- the theorems ------------------------------------------------------------------------------

  /** Once a trust's channel is destroyed, it stays allocated exactly when a request displaced
      it while it was watched and the driver has not dropped the watch since; otherwise it has
      been freed exactly once. */
  lemma OutlivesChannelIffStranded(p: Params, es: seq<Event>, ss: seq<State>, k: nat, t: nat)
    requires IsRun(p, es, ss) && k <= |es| && t < ss[k].next && t !in ss[k].channels
    ensures t in ss[k].trusts <==> Stranded(p, es, ss, k, t)
    ensures ss[k].freed[t] == if Stranded(p, es, ss, k, t) then 0 else 1
  {
    AdriftIffStranded(p, es, ss, k, t);
    Reachable(p, es, ss, k);
    AllocatedIffWatched(ss[k], t);
  }

  lemma AllocatedIffWatched(s: State, t: nat)
    requires Inv(s) && t !in s.channels
    ensures t in s.trusts <==> Adrift(s, t)
  {
    if t in s.trusts { assert CountedAt(s, t); }
  }

  /** A watched trust that is displaced stays allocated until the driver drops its watch. */
  lemma StrandedIsKept(p: Params, es: seq<Event>, ss: seq<State>, k: nat, t: nat)
    requires IsRun(p, es, ss) && k <= |es| && Stranded(p, es, ss, k, t)
    ensures t in ss[k].trusts && t in ss[k].watches && ss[k].freed[t] == 0
  {
    AdriftIffStranded(p, es, ss, k, t);
    Reachable(p, es, ss, k);
  }

  /** No request among the first k events took t off its socket. */
  predicate Spared(p: Params, es: seq<Event>, ss: seq<State>, k: nat, t: nat)
    requires k <= |es| && |ss| == |es| + 1
  {
    forall j :: 0 <= j < k ==> !DisplacesTrust(p, ss[j], es[j], t)
  }

  /** A trust that no request displaced is allocated exactly while its node channel exists, and
      has been freed exactly once when it does not: whatever came of the rollback, whether or
      not the driver dropped the watch first, and whatever other nodes did. Its watch does not
      outlive the connection, and a disconnected channel is its last holder. */
  lemma SparedTrustIsReclaimed(p: Params, es: seq<Event>, ss: seq<State>, k: nat, t: nat)
    requires IsRun(p, es, ss) && k <= |es| && t < ss[k].next && Spared(p, es, ss, k, t)
    ensures t in ss[k].trusts <==> t in ss[k].channels
    ensures ss[k].freed[t] == if t in ss[k].channels then 0 else 1
    ensures t in ss[k].watches ==> Online(ss[k], t) && ss[k].channels[t].connected
    ensures t in ss[k].channels && !ss[k].channels[t].connected ==> Holders(ss[k], t) == 1
  {
    AdriftIffStranded(p, es, ss, k, t);
    Reachable(p, es, ss, k);
    if t !in ss[k].channels { AllocatedIffWatched(ss[k], t); }
    HoldersAreCounted(ss[k], t);
  }

  // ---- documents of a watch that came adrift ------------------------------------------------------

  /** A document reaches the trust mapped at its watch's socket, which is the watch's own trust
      exactly when no request displaced that trust while it was watched. */
  lemma DocumentFeedsOwnTrustIffNotStranded(p: Params, es: seq<Event>, ss: seq<State>, k: nat)
    requires IsRun(p, es, ss) && k < |es| && es[k].CloudPush? && es[k].sock in ss[k].online
    ensures es[k].watch in ss[k].watches
    ensures ss[k].online[es[k].sock] == ss[k].watches[es[k].watch].trust <==> !Stranded(p, es, ss, k, es[k].watch)
  {
    Reachable(p, es, ss, k);
    NextIs(p, es, ss, k);
    AdriftIffStranded(p, es, ss, k, es[k].watch);
  }

  /** A second registration leaves the first device's watch running on the same socket, and its
      next document becomes the configuration of the new trust. */
  lemma StaleWatchFeedsNewTrust(p: Params, s: State, sock: int, trust: Trust, doc: Json)
    requires Inv(s) && sock in s.online && s.online[sock] in s.watches
    ensures var t, r := s.online[sock], TrustCreate(s, sock, trust);
            && Adrift(r, t) && Enabled(r, CloudPush(t, sock, doc))
            && r.online[sock] == s.next != t
            && match ReceivedConfig(p, doc)
               case None => Push(p, r, sock, doc).state == r
               case Some(list) => Push(p, r, sock, doc).state.trusts[s.next].config == list
  {
    CreateKeeps(s, sock, trust);
    assert CountedAt(s, s.online[sock]);
  }

  /** In any reachable state, destroying a disconnected channel frees its trust exactly when
      the trust's watch is gone. */
  lemma DestroyFreesUnlessWatched(s: State, c: nat)
    requires Inv(s) && c in s.channels && !s.channels[c].connected
    ensures var r := DestroyChannel(s, c);
            && (c !in r.trusts <==> c !in s.watches)
            && r.freed[c] == (if c in s.watches then 0 else 1)
  {
    DestroyIs(s, c);
    ChannelForgotten(s, c);
  }

  /** A trust still mapped when a channel on its socket disconnects is left to its own
      channel: unmapped, unwatched, one reference, whatever the cloud said to the rollback. */
  lemma DisconnectLetsGo(s: State, c: nat, sock: int, removed: bool)
    requires Inv(s) && c in s.channels && s.channels[c] == Channel(sock, c, true) && sock in s.online
    ensures var t, r := s.online[sock], Disconnect(s, c, sock, removed);
            && Inv(r) && sock !in r.online
            && t in r.trusts && r.trusts[t].refs == 1 && t in r.channels && t !in r.watches
            && r.freed == s.freed
  {
    DisconnectKeeps(s, c, sock, removed);
  }

  /** What the guard excludes: after an accepted unregistration the disconnect handler finds
      no trust and leaves the watch running. The trust survives its channel, held by a watch
      whose node channel is gone, until the driver drops the watch. */
  lemma UnregisterLeavesWatch(s: State, sock: int, via: int, removed: bool)
    requires Inv(s) && sock in s.online && s.online[sock] in s.watches
    ensures var t := s.online[sock];
            var s1 := Unregister(s, sock, via, true).state;
            var s2 := Disconnect(s1, t, sock, removed);
            var s3 := DestroyChannel(s2, t);
            && Inv(s3) && t in s3.trusts && s3.trusts[t].refs == 1
            && t in s3.watches && s3.watches[t].channel !in s3.channels
            && t !in DropWatch(s3, t).trusts
  {
    var t := s.online[sock];
    EntryRemoved(s, sock);
    var s1 := Unregister(s, sock, via, true).state;
    DisconnectKeeps(s1, t, sock, removed);
    var s2 := Disconnect(s1, t, sock, removed);
    DestroyIs(s2, t);
    ChannelForgotten(s2, t);
    var s3 := DestroyChannel(s2, t);
    assert CountedAt(s3, t);
    DropWatchIs(s3, t);
    WatchForgotten(s3, t);
  }
}
