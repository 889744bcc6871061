/** How the websocket driver finds the websocket of a descriptor: the table gives an index, and
    the index is a position in a queue from which nothing is ever removed. */
module WebSockets {
  import opened Json

  /** conn_index, wsis and, by descriptor, the index kept in the session data. */
  datatype State = State(connIndex: nat, wsis: seq<int>, wstable: map<int, nat>)

  const Start := State(0, [], map[])

  datatype Event =
    | Connect(ws: int, fd: int, established: bool)
    | Close(fd: int)

  function At(queue: seq<int>, index: nat): Option<int> { if index < |queue| then Some(queue[index]) else None }

  /** ws_connect: the index is taken before the outcome is known, and a connection that is not
      established reaches neither the queue nor the table. */
  function Opened(s: State, ws: int, fd: int, established: bool): State {
    var r := s.(connIndex := s.connIndex + 1);
    if established then r.(wsis := s.wsis + [ws], wstable := s.wstable[fd := s.connIndex]) else r
  }

  function Closed(s: State, fd: int): State { s.(wstable := s.wstable - {fd}) }

  function Lookup(s: State, fd: int): Option<int> {
    if fd in s.wstable then At(s.wsis, s.wstable[fd]) else None
  }

  function Step(s: State, e: Event): State {
    match e
    case Connect(ws, fd, established) => Opened(s, ws, fd, established)
    case Close(fd) => Closed(s, fd)
  }

  /** What the caller of a connect is given, and which websocket a close signals. */
  function Answer(s: State, e: Event): Option<int> {
    match e
    case Connect(_, fd, established) => if established then Some(fd) else None
    case Close(fd) => Lookup(s, fd)
  }

  function After(es: seq<Event>): State {
    if |es| == 0 then Start else Step(After(es[..|es| - 1]), es[|es| - 1])
  }

  // ---- what the history says -------------------------------------------------------------

  predicate Succeeds(e: Event) { e.Connect? && e.established }

  predicate Fails(e: Event) { e.Connect? && !e.established }

  function Successes(es: seq<Event>): nat {
    if |es| == 0 then 0 else Successes(es[..|es| - 1]) + (if Succeeds(es[|es| - 1]) then 1 else 0)
  }

  function Failures(es: seq<Event>): nat {
    if |es| == 0 then 0 else Failures(es[..|es| - 1]) + (if Fails(es[|es| - 1]) then 1 else 0)
  }

  /** Event j connected fd, and fd was neither connected again nor closed since. */
  predicate Opener(es: seq<Event>, j: nat, fd: int) {
    && j < |es| && Succeeds(es[j]) && es[j].fd == fd
    && forall i :: j < i < |es| ==> !((Succeeds(es[i]) || es[i].Close?) && es[i].fd == fd)
  }

  lemma {:induction false} Counts(es: seq<Event>)
    ensures After(es).connIndex == Successes(es) + Failures(es)
    ensures |After(es).wsis| == Successes(es)
  {
    if |es| > 0 { Counts(es[..|es| - 1]); }
  }

  /** The queue only grows, and each established websocket stays at its position. */
  lemma {:induction false} QueuedAt(es: seq<Event>, j: nat)
    requires j < |es| && Succeeds(es[j])
    ensures Successes(es[..j]) < |After(es).wsis| && After(es).wsis[Successes(es[..j])] == es[j].ws
  {
    var init := es[..|es| - 1];
    Counts(init);
    if j == |es| - 1 {
      assert es[..j] == init;
    } else {
      QueuedAt(init, j);
      assert init[..j] == es[..j];
    }
  }

  lemma {:induction false} SomeOpener(es: seq<Event>, fd: int)
    ensures fd in After(es).wstable <==> exists j: nat :: Opener(es, j, fd)
  {
    if |es| > 0 {
      var init, last, n := es[..|es| - 1], es[|es| - 1], |es| - 1;
      SomeOpener(init, fd);
      if Succeeds(last) && last.fd == fd {
        assert Opener(es, n, fd);
      } else {
        forall j: nat ensures Opener(es, j, fd) <==> Opener(init, j, fd) && !(last.Close? && last.fd == fd) {
          if Opener(es, j, fd) { assert j != n && forall i :: j < i < n ==> init[i] == es[i]; }
        }
      }
    } else {
      assert forall j: nat :: !Opener(es, j, fd);
    }
  }

  // ---- the theorems --------------------------------------------------------------------------

  /** An entry's index is the position of its websocket in the queue plus the number of
      connections that failed before it. */
  lemma {:induction false} IndexIsPositionPlusFailures(es: seq<Event>, j: nat, fd: int)
    requires Opener(es, j, fd)
    ensures var s := After(es);
            var position := Successes(es[..j]);
            && fd in s.wstable && s.wstable[fd] == position + Failures(es[..j])
            && At(s.wsis, position) == Some(es[j].ws)
  {
    QueuedAt(es, j);
    var init := es[..|es| - 1];
    if j == |es| - 1 {
      Counts(init);
    } else {
      assert forall i :: j < i < |init| ==> init[i] == es[i];
      IndexIsPositionPlusFailures(init, j, fd);
      assert init[..j] == es[..j];
    }
  }

  /** The websockets of established connections are different objects. */
  predicate DistinctWebsockets(es: seq<Event>) {
    forall i, j :: 0 <= i < j < |es| && Succeeds(es[i]) && Succeeds(es[j]) ==> es[i].ws != es[j].ws
  }

  lemma {:induction false} QueueIsDistinct(es: seq<Event>)
    requires DistinctWebsockets(es)
    ensures forall a, b :: 0 <= a < b < |After(es).wsis| ==> After(es).wsis[a] != After(es).wsis[b]
  {
    if |es| > 0 {
      var init, last := es[..|es| - 1], es[|es| - 1];
      QueueIsDistinct(init);
      if Succeeds(last) {
        forall a | 0 <= a < |After(init).wsis| ensures After(init).wsis[a] != last.ws {
          var i := FromEvent(init, a);
          assert es[i] == init[i];
        }
      }
    }
  }

  /** Every websocket in the queue was put there by an established connection. */
  lemma {:induction false} FromEvent(es: seq<Event>, a: nat) returns (i: nat)
    requires a < |After(es).wsis|
    ensures i < |es| && Succeeds(es[i]) && es[i].ws == After(es).wsis[a]
  {
    var init := es[..|es| - 1];
    if a < |After(init).wsis| { i := FromEvent(init, a); } else { i := |es| - 1; }
  }

  /** A descriptor finds its own websocket exactly when no connection had failed before it was
      opened. */
  lemma OwnWebsocketIffNoFailure(es: seq<Event>, j: nat, fd: int)
    requires Opener(es, j, fd) && DistinctWebsockets(es)
    ensures Lookup(After(es), fd) == Some(es[j].ws) <==> Failures(es[..j]) == 0
  {
    IndexIsPositionPlusFailures(es, j, fd);
    QueueIsDistinct(es);
  }

  /** Without failures every descriptor in the table finds its own websocket, and the next
      index is the length of the queue. */
  lemma WithoutFailuresAllIsWell(es: seq<Event>)
    requires Failures(es) == 0
    ensures After(es).connIndex == |After(es).wsis|
    ensures forall fd :: fd in After(es).wstable ==>
              exists j: nat :: Opener(es, j, fd) && Lookup(After(es), fd) == Some(es[j].ws)
  {
    Counts(es);
    forall fd | fd in After(es).wstable
      ensures exists j: nat :: Opener(es, j, fd) && Lookup(After(es), fd) == Some(es[j].ws)
    {
      SomeOpener(es, fd);
      var j: nat :| Opener(es, j, fd);
      FailuresGrow(es, j);
      IndexIsPositionPlusFailures(es, j, fd);
      assert Lookup(After(es), fd) == Some(es[j].ws);
    }
  }

  lemma {:induction false} FailuresGrow(es: seq<Event>, j: nat)
    requires j <= |es|
    ensures Failures(es[..j]) <= Failures(es)
  {
    if j < |es| {
      FailuresGrow(es[..|es| - 1], j);
      assert es[..|es| - 1][..j] == es[..j];
    } else {
      assert es[..j] == es;
    }
  }

  /** What a descriptor finds, once it finds something, does not change while its entry is in
      the table: closing others leaves their websockets in the queue. */
  lemma {:induction false} LookupIsStable(es: seq<Event>, more: seq<Event>, fd: int)
    requires Lookup(After(es), fd).Some?
    requires forall i :: 0 <= i < |more| ==> !((Succeeds(more[i]) || more[i].Close?) && more[i].fd == fd)
    ensures Lookup(After(es + more), fd) == Lookup(After(es), fd)
  {
    if |more| == 0 {
      assert es + more == es;
    } else {
      var init := more[..|more| - 1];
      LookupIsStable(es, init, fd);
      assert (es + more)[..|es + more| - 1] == es + init;
      assert (es + more)[|es + more| - 1] == more[|more| - 1];
    }
  }

  // ---- the driver --------------------------------------------------------------------------------

  class Driver {
    var connIndex: nat
    var wsis: seq<int>
    var wstable: map<int, nat>

    ghost function Model(): State
      reads this
    {
      State(connIndex, wsis, wstable)
    }

    constructor ()
      ensures Model() == Start
    {
      connIndex, wsis, wstable := 0, [], map[];
    }

    /** Walks to the entry at the index, or off the end. */
    static method QueueAt(queue: seq<int>, index: nat) returns (ws: Option<int>)
      ensures ws == At(queue, index)
    {
      var i, current := 0, 0;
      while current < |queue| && i < index
        invariant 0 <= i == current <= |queue| && i <= index
      {
        current := current + 1;
        i := i + 1;
      }
      return if current < |queue| then Some(queue[current]) else None;
    }

    /** Only a search: the entry stays, so that no index ever shifts. */
    static method QueueRemove(queue: seq<int>, ws: Option<int>) returns (found: bool)
      ensures found <==> ws.Some? && ws.value in queue
    {
      if ws.None? { return false; }
      var i := 0;
      while i < |queue| && queue[i] != ws.value
        invariant 0 <= i <= |queue| && ws.value !in queue[..i]
      {
        i := i + 1;
      }
      found := i < |queue|;
    }

    /** The outcome, the websocket and its descriptor are the library's answers. */
    method WsConnect(ws: int, fd: int, established: bool) returns (sock: Option<int>)
      modifies this
      ensures Model() == Opened(old(Model()), ws, fd, established)
      ensures sock == if established then Some(fd) else None
    {
      var index := connIndex;
      connIndex := connIndex + 1;
      if !established { return None; }
      wsis := wsis + [ws];
      wstable := wstable[fd := index];
      return Some(fd);
    }

    /** ws_close: the websocket that is told to finish. */
    method WsClose(fd: int) returns (signalled: Option<int>)
      modifies this
      ensures Model() == Closed(old(Model()), fd)
      ensures signalled == Lookup(old(Model()), fd)
    {
      if fd !in wstable {
        assert wstable - {fd} == wstable;
        return None;
      }
      signalled := QueueAt(wsis, wstable[fd]);
      var found := QueueRemove(wsis, signalled);
      wstable := wstable - {fd};
    }

    /** What the driver answers: the descriptor of a new connection, or the websocket it told to
        finish. */
    method Serve(e: Event) returns (output: Option<int>)
      modifies this
      ensures Model() == Step(old(Model()), e) && output == Answer(old(Model()), e)
    {
      match e {
        case Connect(ws, fd, established) => output := WsConnect(ws, fd, established);
        case Close(fd) => output := WsClose(fd);
      }
    }

    /** Any run of connects and closes leaves the driver in the state of that history, having
        answered each event as the history before it says. */
    method Run(es: seq<Event>) returns (outputs: seq<Option<int>>)
      requires Model() == Start
      modifies this
      ensures Model() == After(es)
      ensures |outputs| == |es| && forall k :: 0 <= k < |es| ==> outputs[k] == Answer(After(es[..k]), es[k])
    {
      outputs := [];
      for k := 0 to |es|
        invariant Model() == After(es[..k])
        invariant |outputs| == k && forall j :: 0 <= j < k ==> outputs[j] == Answer(After(es[..j]), es[j])
      {
        var output := Serve(es[k]);
        outputs := outputs + [output];
        assert es[..k + 1][..k] == es[..k];
      }
      assert es[..|es|] == es;
    }
  }
}
