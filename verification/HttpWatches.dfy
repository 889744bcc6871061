/** Device watches of the http driver: each is a timer found by number, and a channel whose
    destruction removes the timer and so runs the watch's destroy callback. */
module HttpWatches {
  import opened Counting
  import opened Json

  const ID_RANGE: nat := 0x1_0000_0000

  /** A watch, its timer and its channel share a number. timeouts finds a timer by its id,
      channels gives the id each channel removes; ran counts destroy callbacks. */
  datatype State = State(timers: set<nat>, timeouts: map<nat, nat>, channels: map<nat, nat>,
                         ran: multiset<nat>, nextId: nat, next: nat)

  const Start := State({}, map[], map[], multiset{}, 1, 0)

  datatype Event =
    | Async
    | ChannelDestroyed(channel: nat)
    | Poll(timer: nat)

  function NextId(id: nat): nat { (id + 1) % ID_RANGE }

  /** http_async: an id already in the table is taken over. */
  function Watch(s: State): State {
    s.(timers := s.timers + {s.next}, timeouts := s.timeouts[s.nextId := s.next],
       channels := s.channels[s.next := s.nextId], nextId := NextId(s.nextId), next := s.next + 1)
  }

  /** remove_timeout, down to the destroy callback. */
  function RemoveTimeout(s: State, id: nat): State {
    if id !in s.timeouts then s
    else
      var w := s.timeouts[id];
      s.(timeouts := s.timeouts - {id}, timers := s.timers - {w}, ran := s.ran + multiset{w})
  }

  function DestroyChannel(s: State, channel: nat): State {
    if channel !in s.channels then s
    else RemoveTimeout(s.(channels := s.channels - {channel}), s.channels[channel])
  }

  function Step(s: State, e: Event): State {
    match e
    case Async => Watch(s)
    case ChannelDestroyed(channel) => DestroyChannel(s, channel)
    case Poll(_) => s
  }

  /** A channel is destroyed once, by async_stop or by the library; a timer fires while it
      exists. */
  predicate Enabled(s: State, e: Event) {
    match e
    case Async => true
    case ChannelDestroyed(channel) => channel in s.channels
    case Poll(timer) => timer in s.timers
  }

  ghost predicate StepAt(es: seq<Event>, ss: seq<State>, k: nat)
    requires k < |es| && |ss| == |es| + 1
  {
    Enabled(ss[k], es[k]) && ss[k + 1] == Step(ss[k], es[k])
  }

  ghost predicate IsRun(es: seq<Event>, ss: seq<State>) {
    && |ss| == |es| + 1 && ss[0] == Start
    && forall k :: 0 <= k < |es| ==> StepAt(es, ss, k)
  }

  /** Some watch among the first k events took over the id of another that was still open. */
  ghost predicate Clashed(es: seq<Event>, ss: seq<State>, k: nat)
    requires k <= |es| && |ss| == |es| + 1
  {
    exists j :: 0 <= j < k && ClashAt(es, ss, j)
  }

  ghost predicate ClashAt(es: seq<Event>, ss: seq<State>, j: nat)
    requires j < |es| && |ss| == |es| + 1
  {
    es[j] == Async && ss[j].nextId in ss[j].timeouts
  }

  // ---- what every run keeps ----------------------------------------------------------------

  function IdOf(w: nat): nat { (1 + w) % ID_RANGE }

  /** Holds in every run: a timer's callback has not run, and a timer that is gone had its
      callback run once. */
  ghost predicate Inv(s: State) {
    && (forall w :: w in s.timers ==> w < s.next)
    && (forall w :: w in s.channels ==> w < s.next)
    && (forall id :: id in s.timeouts ==> s.timeouts[id] in s.timers)
    && (forall a, b :: a in s.timeouts && b in s.timeouts && s.timeouts[a] == s.timeouts[b] ==> a == b)
    && (forall w: nat :: s.ran[w] == One(w < s.next && w !in s.timers))
    && s.nextId == IdOf(s.next)
  }

  /** Holds until ids clash: timers, table and channels correspond. */
  ghost predicate Paired(s: State) {
    && (forall w :: w in s.timers <==> w in s.channels)
    && (forall w :: w in s.channels ==> s.channels[w] == IdOf(w) && IdOf(w) in s.timeouts && s.timeouts[IdOf(w)] == w)
    && (forall id :: id in s.timeouts ==> IdOf(s.timeouts[id]) == id)
  }

  lemma StepKeeps(s: State, e: Event)
    requires Inv(s) && Enabled(s, e)
    ensures Inv(Step(s, e))
  {
    NextIdIs(s.next);
  }

  lemma NextIdIs(w: nat)
    ensures NextId(IdOf(w)) == IdOf(w + 1)
  {}

  lemma WatchPairs(s: State)
    requires Inv(s) && Paired(s) && s.nextId !in s.timeouts
    ensures Paired(Watch(s))
  {}

  lemma DestroyPairs(s: State, channel: nat)
    requires Paired(s) && channel in s.channels
    ensures Paired(DestroyChannel(s, channel))
  {
    assert s.timeouts[s.channels[channel]] == channel;
  }

  lemma StepPairs(s: State, e: Event)
    requires Inv(s) && Paired(s) && Enabled(s, e)
    requires e == Async ==> s.nextId !in s.timeouts
    ensures Paired(Step(s, e))
  {
    match e {
      case Async => WatchPairs(s);
      case ChannelDestroyed(channel) => DestroyPairs(s, channel);
      case Poll(_) =>
    }
  }

  lemma {:induction false} Reachable(es: seq<Event>, ss: seq<State>, k: nat)
    requires IsRun(es, ss) && k <= |es|
    ensures Inv(ss[k])
    ensures !Clashed(es, ss, k) ==> Paired(ss[k])
  {
    if k > 0 {
      Reachable(es, ss, k - 1);
      assert StepAt(es, ss, k - 1);
      StepKeeps(ss[k - 1], es[k - 1]);
      if !Clashed(es, ss, k) {
        assert !ClashAt(es, ss, k - 1);
        assert forall j :: 0 <= j < k - 1 ==> !ClashAt(es, ss, j);
        StepPairs(ss[k - 1], es[k - 1]);
      }
    }
  }

  // ---- the theorems ----------------------------------------------------------------------------

  /** While no id was taken over, a watch's destroy callback has run exactly once if its
      channel is destroyed, and not at all if it is not; the watch is polled only before. */
  lemma CallbackRunsOnce(es: seq<Event>, ss: seq<State>, k: nat, w: nat)
    requires IsRun(es, ss) && k <= |es| && !Clashed(es, ss, k)
    ensures ss[k].ran[w] == One(w < ss[k].next && w !in ss[k].channels)
    ensures Enabled(ss[k], Poll(w)) <==> w in ss[k].channels
  {
    Reachable(es, ss, k);
  }

  /** What each event of a run does: a new watch gets a channel of its own; destroying a channel
      takes it away and, while no id was taken over, runs that watch's destroy callback and no
      other; a poll changes nothing. */
  lemma EventOutcome(es: seq<Event>, ss: seq<State>, k: nat)
    requires IsRun(es, ss) && k < |es|
    ensures var s, r := ss[k], ss[k + 1];
      match es[k]
      case Async => r.next == s.next + 1 && s.next !in s.channels && r.channels.Keys == s.channels.Keys + {s.next} && r.ran == s.ran
      case ChannelDestroyed(channel) =>
        && channel in s.channels && r.channels == s.channels - {channel} && r.next == s.next
        && (!Clashed(es, ss, k) ==> r.ran == s.ran + multiset{channel})
      case Poll(_) => r == s
  {
    Reachable(es, ss, k);
    assert StepAt(es, ss, k);
  }

  /** In any run a watch is polled only before its destroy callback, which runs at most once. */
  lemma NeverPolledAfterwards(es: seq<Event>, ss: seq<State>, k: nat, w: nat)
    requires IsRun(es, ss) && k <= |es|
    ensures ss[k].ran[w] <= 1
    ensures Enabled(ss[k], Poll(w)) ==> ss[k].ran[w] == 0
  {
    Reachable(es, ss, k);
  }

  /** A timer that no id leads to any more. */
  ghost predicate Lost(s: State, w: nat) {
    w in s.timers && forall id :: id in s.timeouts ==> s.timeouts[id] != w
  }

  lemma {:induction false} LostForGood(es: seq<Event>, ss: seq<State>, j: nat, k: nat, w: nat)
    requires IsRun(es, ss) && j <= k <= |es| && Lost(ss[j], w)
    ensures Lost(ss[k], w)
  {
    if j < k {
      LostForGood(es, ss, j, k - 1, w);
      Reachable(es, ss, k - 1);
      assert StepAt(es, ss, k - 1);
    }
  }

  /** The watch whose id was taken over never hears that it was destroyed. */
  lemma ClashLosesOne(es: seq<Event>, ss: seq<State>, j: nat, k: nat)
    requires IsRun(es, ss) && j < k <= |es| && ClashAt(es, ss, j)
    ensures var w := ss[j].timeouts[ss[j].nextId];
            w < ss[k].next && ss[k].ran[w] == 0
  {
    var w := ss[j].timeouts[ss[j].nextId];
    Reachable(es, ss, j);
    assert StepAt(es, ss, j);
    assert Lost(ss[j + 1], w);
    LostForGood(es, ss, j + 1, k, w);
    Reachable(es, ss, k);
  }

  /** Once every channel is destroyed, every watch's destroy callback has run exactly once if
      and only if no watch ever took over an id that was in use. */
  lemma AllToldIffNoClash(es: seq<Event>, ss: seq<State>, k: nat)
    requires IsRun(es, ss) && k <= |es| && ss[k].channels == map[]
    ensures (forall w: nat :: w < ss[k].next ==> ss[k].ran[w] == 1) <==> !Clashed(es, ss, k)
  {
    if Clashed(es, ss, k) {
      var j :| 0 <= j < k && ClashAt(es, ss, j);
      ClashLosesOne(es, ss, j, k);
    } else {
      forall w: nat | w < ss[k].next ensures ss[k].ran[w] == 1 { CallbackRunsOnce(es, ss, k, w); }
    }
  }

  /** Ids cannot clash before they wrap around. */
  lemma {:induction false} FewWatchesNeverClash(es: seq<Event>, ss: seq<State>, k: nat)
    requires IsRun(es, ss) && k <= |es| && ss[k].next <= 0x1_0000_0000
    ensures !Clashed(es, ss, k)
  {
    if k > 0 {
      assert StepAt(es, ss, k - 1);
      FewWatchesNeverClash(es, ss, k - 1);
      Reachable(es, ss, k - 1);
      var s := ss[k - 1];
      if ClashAt(es, ss, k - 1) { NoWrap(s.timeouts[s.nextId], s.next); }
      assert forall j :: 0 <= j < k - 1 ==> !ClashAt(es, ss, j);
    }
  }

  lemma NoWrap(w: nat, next: nat)
    requires w < next < ID_RANGE
    ensures IdOf(w) != IdOf(next)
  {}

  /** The state after n watches and nothing else. */
  function OnlyWatches(n: nat): State {
    if n == 0 then Start else Watch(OnlyWatches(n - 1))
  }

  lemma {:induction false} OnlyWatchesOpen(n: nat)
    ensures OnlyWatches(n).next == n && forall w: nat :: w < n ==> w in OnlyWatches(n).channels
  {
    if n > 0 { OnlyWatchesOpen(n - 1); }
  }

  lemma WatchesAreARun(n: nat) returns (es: seq<Event>, ss: seq<State>)
    ensures |es| == n && |ss| == n + 1 && IsRun(es, ss)
    ensures forall k :: 0 <= k < n ==> es[k] == Async
    ensures forall k :: 0 <= k <= n ==> ss[k] == OnlyWatches(k)
  {
    es, ss := seq(n, k => Async), seq(n + 1, k requires 0 <= k => OnlyWatches(k));
    forall k | 0 <= k < n ensures StepAt(es, ss, k) { assert ss[k + 1] == OnlyWatches(k + 1) == Watch(ss[k]); }
  }

  /** Ids do clash: once as many watches are open as there are ids, the next one takes over the
      id of the first. */
  lemma ClashHappens() returns (es: seq<Event>, ss: seq<State>)
    ensures IsRun(es, ss) && |es| == 0x1_0000_0001
    ensures ClashAt(es, ss, 0x1_0000_0000) && ss[0x1_0000_0000].timeouts[ss[0x1_0000_0000].nextId] == 0
    ensures ss[0x1_0000_0001].ran[0] == 0
  {
    es, ss := WatchesAreARun(ID_RANGE + 1);
    OnlyWatchesOpen(ID_RANGE);
    FewWatchesNeverClash(es, ss, ID_RANGE);
    Reachable(es, ss, ID_RANGE);
    assert 0 in ss[ID_RANGE].channels && IdOf(0) == IdOf(ID_RANGE) == 1;
    ClashLosesOne(es, ss, ID_RANGE, ID_RANGE + 1);
  }

  // ---- the driver --------------------------------------------------------------------------------

  class Driver {
    var timers: set<nat>
    var timeouts: map<nat, nat>
    var channels: map<nat, nat>
    var nextTimeoutId: nat
    var next: nat
    ghost var ran: multiset<nat>

    ghost function Model(): State
      reads this
    {
      State(timers, timeouts, channels, ran, nextTimeoutId, next)
    }

    constructor ()
      ensures Model() == Start
    {
      timers, timeouts, channels, nextTimeoutId, next, ran := {}, map[], map[], 1, 0, multiset{};
    }

    method CreateTimeout(timer: nat) returns (id: nat)
      modifies `timers, `timeouts, `nextTimeoutId
      ensures id == old(nextTimeoutId) && nextTimeoutId == NextId(id)
      ensures timers == old(timers) + {timer} && timeouts == old(timeouts)[id := timer]
    {
      id := nextTimeoutId;
      nextTimeoutId := NextId(nextTimeoutId);
      timers := timers + {timer};
      timeouts := timeouts[id := timer];
    }

    method HttpAsync() returns (watch: nat)
      modifies this
      ensures watch == old(next) && Model() == Watch(old(Model()))
    {
      watch := next;
      var id := CreateTimeout(watch);
      channels := channels[watch := id];
      next := next + 1;
    }

    method OnProtoPollDestroyed(timer: nat)
      modifies `ran
      ensures ran == old(ran) + multiset{timer}
    {
      ran := ran + multiset{timer};
    }

    method OnProtoDestroyed(id: nat)
      modifies `timers, `timeouts, `ran
      ensures Model() == RemoveTimeout(old(Model()), id)
    {
      if id in timeouts {
        var timer := timeouts[id];
        timeouts := timeouts - {id};
        timers := timers - {timer};
        OnProtoPollDestroyed(timer);
      }
    }

    /** l_io_destroy of the watch's channel; its data is the timer's id. */
    method HttpAsyncStop(watch: nat)
      requires watch in channels
      modifies this
      ensures Model() == DestroyChannel(old(Model()), watch)
    {
      var id := channels[watch];
      channels := channels - {watch};
      OnProtoDestroyed(id);
    }

    /** One turn of the loop, and the watch whose document is asked for when a timer fires. */
    method Serve(e: Event) returns (polled: Option<nat>)
      requires Enabled(Model(), e)
      modifies this
      ensures Model() == Step(old(Model()), e)
      ensures polled == if e.Poll? then Some(e.timer) else None
    {
      polled := None;
      match e {
        case Async => var watch := HttpAsync();
        case ChannelDestroyed(channel) => HttpAsyncStop(channel);
        case Poll(timer) => polled := Some(timer);
      }
    }

    /** In any run the driver passes through its states, and polls the watches whose timers fire. */
    method Run(es: seq<Event>, ghost ss: seq<State>) returns (polls: seq<Option<nat>>)
      requires IsRun(es, ss) && Model() == Start
      modifies this
      ensures Model() == ss[|es|]
      ensures |polls| == |es| && forall k :: 0 <= k < |es| ==> polls[k] == if es[k].Poll? then Some(es[k].timer) else None
    {
      polls := [];
      for k := 0 to |es|
        invariant Model() == ss[k]
        invariant |polls| == k && forall j :: 0 <= j < k ==> polls[j] == if es[j].Poll? then Some(es[j].timer) else None
      {
        assert StepAt(es, ss, k);
        var polled := Serve(es[k]);
        polls := polls + [polled];
      }
    }
  }
}
