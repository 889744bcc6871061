/** Shared ownership of trusts: counts are exact in every reachable state, a trust is freed
    exactly when its last holder goes, and nothing touches it afterwards. */
module Ownership {
  import opened Counting
  import opened Json
  import opened Protocol
  import opened ConfigRules
  import opened Engine

  // ---- who holds a trust -----------------------------------------------------------

  ghost function EntriesOf(s: State, t: nat): set<int> { set k | k in s.online && s.online[k] == t }
  ghost function ChannelsOf(s: State, t: nat): set<nat> { set c | c in s.channels && s.channels[c].trust == t }
  ghost function WatchesOf(s: State, t: nat): set<nat> { set w | w in s.watches && s.watches[w].trust == t }

  ghost function Holders(s: State, t: nat): nat {
    |EntriesOf(s, t)| + |ChannelsOf(s, t)| + |WatchesOf(s, t)|
  }

  // ---- the invariant ------------------------------------------------------------------

  /** t is mapped, necessarily at the socket of its own channel. */
  predicate Online(s: State, t: nat) {
    t in s.channels && s.channels[t].fd in s.online && s.online[s.channels[t].fd] == t
  }

  function Count(s: State, t: nat): nat { One(Online(s, t)) + One(t in s.channels) + One(t in s.watches) }

  /** Each trust has at most one channel and one watch, made with it, and a mapped trust's
      own channel is still connected to the socket it is mapped at. */
  ghost predicate Shape(s: State) {
    && (forall c :: c in s.channels ==> s.channels[c].trust == c && c in s.trusts)
    && (forall w :: w in s.watches ==> s.watches[w] == Watch(w, w) && w in s.trusts)
    && (forall k :: k in s.online ==>
          && s.online[k] in s.trusts && s.online[k] in s.channels
          && s.channels[s.online[k]].fd == k && s.channels[s.online[k]].connected)
  }

  ghost predicate Numbered(s: State) {
    && (forall t :: t in s.trusts ==> t < s.next)
    && (forall t: nat :: s.freed[t] == One(t < s.next && t !in s.trusts))
  }

  ghost predicate Counted(s: State) {
    forall t :: t in s.trusts ==> CountedAt(s, t)
  }

  ghost predicate CountedAt(s: State, t: nat)
    requires t in s.trusts
  {
    && s.trusts[t].refs == Count(s, t) > 0
    && s.trusts[t].watch == (if t in s.watches then Some(t) else None)
  }

  ghost predicate Inv(s: State) {
    !s.fault && Shape(s) && Numbered(s) && Counted(s)
  }

  lemma HoldersAreCounted(s: State, t: nat)
    requires Shape(s)
    ensures Holders(s, t) == Count(s, t)
  {
    if Online(s, t) {
      assert forall k :: k in s.online && s.online[k] == t ==> k == s.channels[t].fd;
      assert EntriesOf(s, t) == {s.channels[t].fd};
    } else {
      assert forall k :: k in s.online ==> s.online[k] != t;
      assert EntriesOf(s, t) == {};
    }
    assert ChannelsOf(s, t) == if t in s.channels then {t} else {};
    assert WatchesOf(s, t) == if t in s.watches then {t} else {};
  }

  // ---- each step keeps it ---------------------------------------------------------------

  /** One holder of t has just been forgotten and its reference not yet given back. */
  ghost predicate OneTooMany(s: State, t: nat) {
    && !s.fault && Shape(s) && Numbered(s)
    && t in s.trusts
    && s.trusts[t].refs == Count(s, t) + 1
    && s.trusts[t].watch == (if t in s.watches then Some(t) else None)
    && forall u :: u in s.trusts && u != t ==> CountedAt(s, u)
  }

  /** The trust with one reference less. */
  function Lighter(s: State, t: nat): Trust
    requires t in s.trusts
  {
    s.trusts[t].(refs := s.trusts[t].refs - 1)
  }

  /** The state once the reference is given back: t is freed with its last holder. */
  ghost function Released(s: State, t: nat): State
    requires t in s.trusts
  {
    if Count(s, t) > 0 then s.(trusts := s.trusts[t := Lighter(s, t)])
    else s.(trusts := s.trusts - {t}, freed := s.freed + multiset{t})
  }

  lemma ReleaseIsUnref(s: State, t: nat)
    requires OneTooMany(s, t)
    ensures Unref(s, t) == Released(s, t)
  {}

  lemma ReleaseKeepsShape(s: State, t: nat)
    requires OneTooMany(s, t)
    ensures Shape(Released(s, t)) && Numbered(Released(s, t))
  {
    if Count(s, t) == 0 { assert t !in s.channels && t !in s.watches; }
  }

  lemma ReleaseKeepsCounts(s: State, t: nat)
    requires OneTooMany(s, t)
    ensures Counted(Released(s, t))
  {
    var r := Released(s, t);
    assert forall u :: Count(r, u) == Count(s, u);
    forall u | u in r.trusts ensures CountedAt(r, u) {
      if u != t { assert CountedAt(s, u); }
    }
  }

  lemma ReleaseKeeps(s: State, t: nat)
    requires OneTooMany(s, t)
    ensures Inv(Released(s, t))
  {
    ReleaseKeepsShape(s, t);
    ReleaseKeepsCounts(s, t);
  }

  ghost function ForgetEntry(s: State, sock: int): State { s.(online := s.online - {sock}) }
  ghost function ForgetChannel(s: State, c: nat): State { s.(channels := s.channels - {c}) }
  ghost function ForgetWatch(s: State, w: nat): State
    requires w in s.trusts
  {
    s.(watches := s.watches - {w}, trusts := s.trusts[w := s.trusts[w].(watch := None)])
  }

  lemma EntryForgotten(s: State, sock: int)
    requires Inv(s) && sock in s.online
    ensures OneTooMany(ForgetEntry(s, sock), s.online[sock])
    ensures Count(ForgetEntry(s, sock), s.online[sock]) > 0
  {
    var m := ForgetEntry(s, sock);
    assert forall u :: u != s.online[sock] ==> Count(m, u) == Count(s, u);
  }

  lemma ChannelForgotten(s: State, c: nat)
    requires Inv(s) && c in s.channels && !s.channels[c].connected
    ensures OneTooMany(ForgetChannel(s, c), c)
    ensures Count(ForgetChannel(s, c), c) == One(c in s.watches)
  {
    ForgetKeepsShape(s, c);
    ForgetKeepsCounts(s, c);
  }

  lemma ForgetKeepsShape(s: State, c: nat)
    requires Shape(s) && Numbered(s) && c in s.channels && !s.channels[c].connected
    ensures Shape(ForgetChannel(s, c)) && Numbered(ForgetChannel(s, c))
    ensures c in s.trusts && !Online(s, c)
  {}

  lemma ForgetKeepsCounts(s: State, c: nat)
    requires Counted(s) && c in s.channels && c in s.trusts && !Online(s, c)
    ensures forall u :: u in s.trusts && u != c ==> CountedAt(ForgetChannel(s, c), u)
    ensures Count(ForgetChannel(s, c), c) + 1 == Count(s, c) == 1 + One(c in s.watches)
  {
    var m := ForgetChannel(s, c);
    forall u | u in s.trusts && u != c ensures CountedAt(m, u) {
      assert CountedAt(s, u) && Count(m, u) == Count(s, u);
    }
  }

  lemma WatchForgotten(s: State, w: nat)
    requires Inv(s) && w in s.watches
    ensures OneTooMany(ForgetWatch(s, w), w)
    ensures Count(ForgetWatch(s, w), w) > 0 <==> w in s.channels
  {
    ForgetWatchShape(s, w);
    ForgetWatchCounts(s, w);
  }

  lemma ForgetWatchShape(s: State, w: nat)
    requires Shape(s) && Numbered(s) && w in s.watches
    ensures w in s.trusts && Shape(ForgetWatch(s, w)) && Numbered(ForgetWatch(s, w))
  {}

  lemma ForgetWatchCounts(s: State, w: nat)
    requires Counted(s) && w in s.watches && w in s.trusts
    ensures var m := ForgetWatch(s, w);
            && m.trusts[w].refs == Count(m, w) + 1 && m.trusts[w].watch == None
            && (Count(m, w) > 0 <==> w in s.channels)
            && forall u :: u in m.trusts && u != w ==> CountedAt(m, u)
  {
    var m := ForgetWatch(s, w);
    assert CountedAt(s, w) && Count(m, w) + 1 == Count(s, w);
    forall u | u in s.trusts && u != w ensures CountedAt(m, u) {
      assert CountedAt(s, u) && Count(m, u) == Count(s, u);
    }
  }

  lemma MapRemoveIs(s: State, sock: int)
    requires Inv(s) && sock in s.online
    ensures MapRemove(s, sock) == Released(ForgetEntry(s, sock), s.online[sock])
    ensures Inv(MapRemove(s, sock))
  {
    EntryForgotten(s, sock);
    ReleaseIsUnref(ForgetEntry(s, sock), s.online[sock]);
    ReleaseKeeps(ForgetEntry(s, sock), s.online[sock]);
  }

  /** Giving a reference back does not depend on the tables of channels and watches. */
  lemma UnrefCommutes(s: State, t: nat, channels: map<nat, Channel>, watches: map<nat, Watch>)
    ensures Unref(s, t).(channels := channels, watches := watches) ==
            Unref(s.(channels := channels, watches := watches), t)
  {}

  lemma DropWatchIs(s: State, w: nat)
    requires Inv(s) && w in s.watches
    ensures DropWatch(s, w) == Released(ForgetWatch(s, w), w)
    ensures Inv(DropWatch(s, w))
  {
    var m := SetTrust(s, w, s.trusts[w].(watch := None));
    WatchForgotten(s, w);
    assert DropWatch(s, w) == Unref(m, w).(channels := s.channels, watches := s.watches - {w});
    UnrefCommutes(m, w, s.channels, s.watches - {w});
    ReleaseIsUnref(ForgetWatch(s, w), w);
    ReleaseKeeps(ForgetWatch(s, w), w);
  }

  lemma DestroyIs(s: State, c: nat)
    requires Inv(s) && c in s.channels && !s.channels[c].connected
    ensures DestroyChannel(s, c) == Released(ForgetChannel(s, c), c)
    ensures Inv(DestroyChannel(s, c))
  {
    ChannelForgotten(s, c);
    UnrefCommutes(s, c, s.channels - {c}, s.watches);
    ReleaseIsUnref(ForgetChannel(s, c), c);
    ReleaseKeeps(ForgetChannel(s, c), c);
  }

  /** The trusts once a mapped one, if any, has lost its entry. */
  ghost function Displaced(s: State, sock: int): map<nat, Trust>
    requires sock in s.online ==> s.online[sock] in s.trusts
  {
    if sock in s.online then s.trusts[s.online[sock] := Lighter(s, s.online[sock])] else s.trusts
  }

  /** The state trust_create leaves: one trust, held by its entry, its channel and its watch. */
  ghost function Created(s: State, sock: int, trust: Trust): State
    requires sock in s.online ==> s.online[sock] in s.trusts
  {
    var t := s.next;
    s.(trusts := Displaced(s, sock)[t := trust.(refs := 3, watch := Some(t))], online := s.online[sock := t],
       channels := s.channels[t := Channel(sock, t, true)], watches := s.watches[t := Watch(t, t)], next := t + 1)
  }

  lemma ReplaceIs(s: State, sock: int, trust: Trust)
    requires Inv(s)
    ensures var t := s.next;
            MapReplace(NewTrust(s, trust), sock, t) ==
            s.(trusts := Displaced(s, sock)[t := trust.(refs := 1)], online := s.online[sock := t], next := t + 1)
  {
    if sock in s.online {
      var o := s.online[sock];
      assert CountedAt(s, o) && o < s.next;
      assert s.trusts[s.next := trust.(refs := 1)][o := Lighter(s, o)] == Displaced(s, sock)[s.next := trust.(refs := 1)];
      assert (s.online - {sock})[sock := s.next] == s.online[sock := s.next];
    }
  }

  /** The new trust once its channel and its watch hold it. */
  lemma OpenIs(r: State, t: nat, sock: int, base: map<nat, Trust>, trust: Trust)
    requires r.trusts == base[t := trust]
    ensures OpenWatch(OpenChannel(r, t, sock), t) ==
            r.(trusts := base[t := trust.(refs := trust.refs + 2, watch := Some(t))],
               channels := r.channels[t := Channel(sock, t, true)], watches := r.watches[t := Watch(t, t)])
  {
    var c := OpenChannel(r, t, sock);
    assert c == r.(trusts := base[t := trust.(refs := trust.refs + 1)], channels := r.channels[t := Channel(sock, t, true)]);
    assert Ref(c, t).trusts == base[t := trust.(refs := trust.refs + 2)];
  }

  lemma CreateIs(s: State, sock: int, trust: Trust)
    requires Inv(s)
    ensures TrustCreate(s, sock, trust) == Created(s, sock, trust)
  {
    ReplaceIs(s, sock, trust);
    OpenIs(MapReplace(NewTrust(s, trust), sock, s.next), s.next, sock, Displaced(s, sock), trust.(refs := 1));
  }

  lemma CreateShape(s: State, sock: int, trust: Trust)
    requires Shape(s) && Numbered(s)
    ensures Shape(Created(s, sock, trust))
  {}

  lemma CreateNumbers(s: State, sock: int, trust: Trust)
    requires Shape(s) && Numbered(s)
    ensures Numbered(Created(s, sock, trust))
  {}

  lemma CreateCounts(s: State, sock: int, trust: Trust)
    requires Inv(s)
    ensures Counted(Created(s, sock, trust))
  {
    var r, t := Created(s, sock, trust), s.next;
    assert Count(r, t) == 3;
    forall u | u in r.trusts && u != t ensures CountedAt(r, u) {
      assert CountedAt(s, u);
      if sock in s.online && s.online[sock] == u {
        assert s.channels[u].fd == sock;
      } else {
        assert Online(r, u) == Online(s, u);
      }
    }
  }

  lemma CreateKeeps(s: State, sock: int, trust: Trust)
    requires Inv(s)
    ensures TrustCreate(s, sock, trust) == Created(s, sock, trust)
    ensures Inv(TrustCreate(s, sock, trust))
  {
    CreateIs(s, sock, trust);
    CreateShape(s, sock, trust);
    CreateNumbers(s, sock, trust);
    CreateCounts(s, sock, trust);
  }

  /** Whatever the cloud answered, the trust is left to its channel alone. */
  ghost function TornDown(s: State, sock: int): State
    requires Mapped(s, sock)
  {
    var t := s.online[sock];
    s.(online := s.online - {sock}, watches := s.watches - {t},
       trusts := s.trusts[t := s.trusts[t].(refs := 1, watch := None)])
  }

  lemma EntryRemoved(s: State, sock: int)
    requires Inv(s) && sock in s.online
    ensures MapRemove(s, sock) == s.(online := s.online - {sock}, trusts := s.trusts[s.online[sock] := Lighter(s, s.online[sock])])
    ensures Inv(MapRemove(s, sock))
  {
    MapRemoveIs(s, sock);
    EntryForgotten(s, sock);
  }

  lemma WatchRemoved(s: State, w: nat)
    requires Inv(s) && w in s.watches && w in s.channels
    ensures DropWatch(s, w) == s.(watches := s.watches - {w}, trusts := s.trusts[w := Lighter(s, w).(watch := None)])
    ensures Inv(DropWatch(s, w))
  {
    DropWatchIs(s, w);
    WatchForgotten(s, w);
    ReleaseOfWatch(s, w);
  }

  lemma ReleaseOfWatch(s: State, w: nat)
    requires w in s.trusts && Count(ForgetWatch(s, w), w) > 0
    ensures Released(ForgetWatch(s, w), w) ==
            s.(watches := s.watches - {w}, trusts := s.trusts[w := Lighter(s, w).(watch := None)])
  {
    assert s.trusts[w := s.trusts[w].(watch := None)][w := Lighter(s, w).(watch := None)]
        == s.trusts[w := Lighter(s, w).(watch := None)];
  }

  lemma TeardownIs(s: State, sock: int, removed: bool)
    requires Inv(s) && sock in s.online
    ensures Teardown(s, sock, removed) == TornDown(s, sock)
    ensures Inv(TornDown(s, sock))
  {
    var t := s.online[sock];
    assert CountedAt(s, t) && Count(s, t) == 2 + One(t in s.watches);
    EntryRemoved(s, sock);
    if TrustOf(s, sock).rollback && removed {
      var s1 := MapRemove(s, sock);
      if t in s.watches {
        WatchRemoved(s1, t);
        WatchThenNothing(s, s1, sock);
      } else {
        assert s.watches - {t} == s.watches;
      }
    } else if t in s.watches {
      WatchRemoved(s, t);
      EntryRemoved(DropWatch(s, t), sock);
      WatchThenEntry(s, sock);
    } else {
      assert s.watches - {t} == s.watches;
    }
  }

  lemma WatchThenNothing(s: State, s1: State, sock: int)
    requires Inv(s) && sock in s.online && s.online[sock] in s.watches
    requires s1 == s.(online := s.online - {sock}, trusts := s.trusts[s.online[sock] := Lighter(s, s.online[sock])])
    ensures s1.(watches := s.watches - {s.online[sock]},
                trusts := s1.trusts[s.online[sock] := Lighter(s1, s.online[sock]).(watch := None)]) == TornDown(s, sock)
  {
    assert CountedAt(s, s.online[sock]);
    assert s1.trusts[s.online[sock] := Lighter(s1, s.online[sock]).(watch := None)] == TornDown(s, sock).trusts;
  }

  lemma WatchThenEntry(s: State, sock: int)
    requires Inv(s) && sock in s.online && s.online[sock] in s.watches
    ensures var t := s.online[sock];
            var d := s.(watches := s.watches - {t}, trusts := s.trusts[t := Lighter(s, t).(watch := None)]);
            d.(online := d.online - {sock}, trusts := d.trusts[t := Lighter(d, t)]) == TornDown(s, sock)
  {
    var t := s.online[sock];
    assert CountedAt(s, t);
    var d := s.trusts[t := Lighter(s, t).(watch := None)];
    assert d[t := d[t].(refs := d[t].refs - 1)] == TornDown(s, sock).trusts;
  }

  /** The state a channel's disconnect handler leaves. */
  ghost function Settled(s: State, c: nat, sock: int): State
    requires sock in s.online ==> Mapped(s, sock)
  {
    var r := if sock in s.online then TornDown(s, sock) else s;
    r.(channels := s.channels[c := Channel(sock, c, false)])
  }

  lemma DisconnectKeeps(s: State, c: nat, sock: int, removed: bool)
    requires Inv(s) && c in s.channels && s.channels[c].fd == sock
    ensures Disconnect(s, c, sock, removed) == Settled(s, c, sock)
    ensures Inv(Settled(s, c, sock))
  {
    if sock in s.online { TeardownIs(s, sock, removed); }
    MarkKeeps(Teardown(s, sock, removed), c, sock);
  }

  lemma MarkKeeps(r: State, c: nat, sock: int)
    requires Inv(r) && c in r.channels && r.channels[c].fd == sock && sock !in r.online
    ensures Inv(r.(channels := r.channels[c := Channel(sock, c, false)]))
  {
    var m := r.(channels := r.channels[c := Channel(sock, c, false)]);
    assert forall u :: Count(m, u) == Count(r, u);
    assert forall u :: u in r.trusts ==> CountedAt(r, u);
  }

  /** Changing what a trust records, but not how it is held. */
  lemma RecordKeeps(s: State, t: nat, trust: Trust)
    requires Inv(s) && t in s.trusts && trust.refs == s.trusts[t].refs && trust.watch == s.trusts[t].watch
    ensures Inv(SetTrust(s, t, trust))
  {
    var r := SetTrust(s, t, trust);
    assert forall u :: Count(r, u) == Count(s, u);
    assert forall u :: u in s.trusts ==> CountedAt(s, u);
  }

  lemma HandleKeeps(p: Params, s: State, sock: int, via: int, frame: Frame, answers: Answers)
    requires p.Valid() && Inv(s)
    ensures Inv(Handle(p, s, sock, via, frame, answers).state)
  {
    match frame.request {
      case RegisterRequest(_, _) => RegisterKeeps(p, s, sock, via, frame, answers);
      case UnregisterRequest => if sock in s.online { EntryRemoved(s, sock); }
      case AuthRequest(c) => AuthenticateKeeps(p, s, sock, via, c, answers.signIn);
      case SchemaFragment(_, _) => UploadKeeps(p, s, sock, via, frame.request, answers.schemaStored);
      case ConfigResponse(id) => AnswerConfigKeeps(s, sock, id);
      case _ =>
    }
  }

  lemma RegisterKeeps(p: Params, s: State, sock: int, via: int, frame: Frame, answers: Answers)
    requires Inv(s) && frame.request.RegisterRequest?
    ensures Inv(Register(p, s, sock, via, frame, answers).state)
  {
    forall trust ensures Inv(TrustCreate(s, sock, trust)) { CreateKeeps(s, sock, trust); }
  }

  lemma AuthenticateKeeps(p: Params, s: State, sock: int, via: int, c: Credential, answer: SignInAnswer)
    requires p.Valid() && Inv(s)
    ensures Inv(Authenticate(p, s, sock, via, c, answer).state)
  {
    forall trust ensures Inv(TrustCreate(s, sock, trust)) { CreateKeeps(s, sock, trust); }
  }

  lemma UploadKeeps(p: Params, s: State, sock: int, via: int, fragment: Request, stored: bool)
    requires Inv(s) && fragment.SchemaFragment?
    ensures Inv(UploadSchema(p, s, sock, via, fragment, stored).state)
  {
    if sock in s.online {
      var t, trust := s.online[sock], TrustOf(s, sock);
      var pending := AddPending(p, trust.pending, fragment.schema);
      RecordKeeps(s, t, trust.(rollback := false, pending := pending));
      RecordKeeps(s, t, trust.(rollback := false, schema := pending, pending := []));
      RecordKeeps(s, t, trust.(rollback := false, pending := []));
    }
  }

  lemma AnswerConfigKeeps(s: State, sock: int, id: Byte)
    requires Inv(s)
    ensures Inv(AnswerConfig(s, sock, id).state)
  {
    if sock in s.online {
      var trust := TrustOf(s, sock);
      RecordKeeps(s, s.online[sock], trust.(config := Confirm(trust.config, id)));
    }
  }

  lemma PushKeeps(p: Params, s: State, sock: int, doc: Json)
    requires Inv(s)
    ensures Inv(Push(p, s, sock, doc).state)
  {
    if sock in s.online {
      match ReceivedConfig(p, doc) {
        case None =>
        case Some(received) => RecordKeeps(s, s.online[sock], TrustOf(s, sock).(config := received));
      }
    }
  }

  lemma StepKeeps(p: Params, s: State, e: Event)
    requires p.Valid() && Inv(s) && Enabled(s, e)
    ensures Inv(Step(p, s, e).state)
  {
    match e {
      case Pdu(sock, via, frame, answers) => HandleKeeps(p, s, sock, via, frame, answers);
      case CloudPush(_, sock, doc) => PushKeeps(p, s, sock, doc);
      case Disconnected(c, sock, removed) => DisconnectKeeps(s, c, sock, removed);
      case Destroyed(c) => DestroyIs(s, c);
      case WatchDropped(w) => DropWatchIs(s, w);
    }
  }

  lemma StartIsSound()
    ensures Inv(Start)
  {}

  lemma NextKeeps(p: Params, es: seq<Event>, ss: seq<State>, k: nat)
    requires IsRun(p, es, ss) && k < |es| && Inv(ss[k])
    ensures Enabled(ss[k], es[k]) && Inv(ss[k + 1])
  {
    assert StepAt(p, es, ss, k);
    StepKeeps(p, ss[k], es[k]);
  }

  lemma NextIs(p: Params, es: seq<Event>, ss: seq<State>, k: nat)
    requires IsRun(p, es, ss) && k < |es|
    ensures Enabled(ss[k], es[k]) && ss[k + 1] == Step(p, ss[k], es[k]).state
  {
    assert StepAt(p, es, ss, k);
  }

  lemma {:induction false} Reachable(p: Params, es: seq<Event>, ss: seq<State>, k: nat)
    requires IsRun(p, es, ss) && k <= |es|
    ensures Inv(ss[k])
  {
    if k > 0 {
      Reachable(p, es, ss, k - 1);
      NextKeeps(p, es, ss, k - 1);
    }
  }

  // ---- the theorems ------------------------------------------------------------------------

  /** In every reachable state a trust's count is the number of map entries, node channels
      and device watches that hold it; it is allocated exactly while that number is not zero,
      was freed once if it is zero, and no step ever touched a trust that was not allocated. */
  lemma CountsAreExact(p: Params, es: seq<Event>, ss: seq<State>, k: nat, t: nat)
    requires IsRun(p, es, ss) && k <= |es|
    ensures var s := ss[k];
            && !s.fault
            && (t in s.trusts ==> s.trusts[t].refs == Holders(s, t))
            && (t in s.trusts <==> Holders(s, t) > 0)
            && s.freed[t] == (if t < s.next && Holders(s, t) == 0 then 1 else 0)
  {
    var s := ss[k];
    Reachable(p, es, ss, k);
    HoldersAreCounted(s, t);
    if t in s.trusts { assert CountedAt(s, t); }
  }
}
