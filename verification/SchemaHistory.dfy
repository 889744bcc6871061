/** Schema upload over whole runs: an atomic commit of the last accepted batch. */
module SchemaHistory {
  import opened Json
  import opened Protocol
  import opened Sequences
  import opened Engine
  import opened Ownership
  import opened Tenure

  // ---- first-wins deduplication ------------------------------------------------------

  /** The fragments whose sensor no earlier fragment names, in order. */
  ghost function FirstWins(f: seq<Schema>): seq<Schema> {
    if |f| == 0 then []
    else
      var init, last := f[..|f| - 1], f[|f| - 1];
      FirstWins(init) + (if HasSensor(init, last.sensorId) then [] else [last])
  }

  lemma {:induction false} FirstWinsSensors(f: seq<Schema>, id: Byte)
    ensures HasSensor(FirstWins(f), id) <==> HasSensor(f, id)
  {
    if |f| > 0 {
      var init, last := f[..|f| - 1], f[|f| - 1];
      FirstWinsSensors(init, id);
      HasSensorAppend(init, last, id);
      assert f == init + [last];
      var kept := FirstWins(init);
      if !HasSensor(init, last.sensorId) {
        HasSensorAppend(kept, last, id);
      } else {
        assert FirstWins(f) == kept;
      }
    }
  }

  lemma HasSensorAppend(f: seq<Schema>, x: Schema, id: Byte)
    ensures HasSensor(f + [x], id) <==> HasSensor(f, id) || x.sensorId == id
  {
    if i :| 0 <= i < |f| && f[i].sensorId == id { assert (f + [x])[i].sensorId == id; }
    if x.sensorId == id { assert (f + [x])[|f|].sensorId == id; }
  }

  predicate Distinct(f: seq<Schema>) {
    forall i, j :: 0 <= i < j < |f| ==> f[i].sensorId != f[j].sensorId
  }

  lemma {:induction false} FirstWinsDistinct(f: seq<Schema>)
    ensures Distinct(FirstWins(f))
  {
    if |f| > 0 {
      var init, last := f[..|f| - 1], f[|f| - 1];
      FirstWinsDistinct(init);
      FirstWinsSensors(init, last.sensorId);
    }
  }

  lemma {:induction false} FirstWinsEntries(f: seq<Schema>, x: Schema)
    requires x in FirstWins(f)
    ensures FirstIsEntry(f, x)
  {
    var init, last := f[..|f| - 1], f[|f| - 1];
    if x in FirstWins(init) {
      FirstWinsEntries(init, x);
      FirstIs(f, ForSchema(x.sensorId), First(init, ForSchema(x.sensorId)));
    } else {
      FirstIs(f, ForSchema(x.sensorId), |f| - 1);
    }
  }

  /** Where a sensor is first named. */
  function FirstNaming(f: seq<Schema>, x: Schema): nat { First(f, ForSchema(x.sensorId)) }

  lemma {:induction false} FirstWinsInOrder(f: seq<Schema>, i: nat, j: nat)
    requires i < j < |FirstWins(f)|
    ensures FirstNaming(f, FirstWins(f)[i]) < FirstNaming(f, FirstWins(f)[j])
  {
    var init, kept := f[..|f| - 1], FirstWins(f[..|f| - 1]);
    FirstWinsEntries(init, kept[i]);
    SameFirst(f, kept[i]);
    if j < |kept| {
      FirstWinsInOrder(init, i, j);
      FirstWinsEntries(init, kept[j]);
      SameFirst(f, kept[j]);
    } else {
      FirstIs(f, ForSchema(FirstWins(f)[j].sensorId), |f| - 1);
    }
  }

  /** A later fragment does not move the first one for a sensor. */
  lemma SameFirst(f: seq<Schema>, x: Schema)
    requires |f| > 0 && FirstNaming(f[..|f| - 1], x) < |f| - 1
    ensures FirstNaming(f, x) == FirstNaming(f[..|f| - 1], x)
  {
    FirstIs(f, ForSchema(x.sensorId), FirstNaming(f[..|f| - 1], x));
  }

  /** Exactly the sensors that some fragment names, each with the first fragment that named it,
      in the order of these fragments, and so no sensor twice. */
  lemma FirstWinsMeans(f: seq<Schema>)
    ensures forall id :: HasSensor(FirstWins(f), id) <==> HasSensor(f, id)
    ensures forall x :: x in FirstWins(f) ==> FirstIsEntry(f, x)
    ensures forall i, j :: 0 <= i < j < |FirstWins(f)| ==> FirstNaming(f, FirstWins(f)[i]) < FirstNaming(f, FirstWins(f)[j])
    ensures Distinct(FirstWins(f))
  {
    FirstWinsDistinct(f);
    forall id ensures HasSensor(FirstWins(f), id) <==> HasSensor(f, id) { FirstWinsSensors(f, id); }
    forall x | x in FirstWins(f) ensures FirstIsEntry(f, x) { FirstWinsEntries(f, x); }
    forall i, j | 0 <= i < j < |FirstWins(f)|
      ensures FirstNaming(f, FirstWins(f)[i]) < FirstNaming(f, FirstWins(f)[j])
    {
      FirstWinsInOrder(f, i, j);
    }
  }

  predicate FirstIsEntry(f: seq<Schema>, x: Schema) { FirstNaming(f, x) < |f| && f[FirstNaming(f, x)] == x }

  lemma AddPendingAdds(p: Params, f: seq<Schema>, x: Schema)
    requires p.queueOnAdd
    ensures AddPending(p, FirstWins(f), x) == FirstWins(f + [x])
  {
    FirstWinsSensors(f, x.sensorId);
    assert (f + [x])[..|f|] == f;
  }

  // ---- what the events say -----------------------------------------------------------

  predicate IsEnd(p: Params, e: Event, sock: int) { IsFragment(p, e, sock) && e.frame.request.end }

  predicate IsCommit(p: Params, e: Event, sock: int) { IsEnd(p, e, sock) && e.answers.schemaStored }

  /** The schemas sent on a socket by the events i to k, in order. */
  function FragmentsIn(p: Params, es: seq<Event>, sock: int, i: nat, k: nat): seq<Schema>
    requires k <= |es|
    decreases k
  {
    if k <= i then []
    else FragmentsIn(p, es, sock, i, k - 1)
         + (if IsFragment(p, es[k - 1], sock) then [es[k - 1].frame.request.schema] else [])
  }

  /** Where the batch that is open before event k began: after the last END, or at i. */
  function BatchStart(p: Params, es: seq<Event>, sock: int, i: nat, k: nat): (b: nat)
    requires i <= k <= |es|
    ensures i <= b <= k
    ensures forall m :: b <= m < k ==> !IsEnd(p, es[m], sock)
    ensures b > i ==> IsEnd(p, es[b - 1], sock)
    decreases k
  {
    if k == i then i else if IsEnd(p, es[k - 1], sock) then k else BatchStart(p, es, sock, i, k - 1)
  }

  function OpenBatch(p: Params, es: seq<Event>, sock: int, i: nat, k: nat): seq<Schema>
    requires i <= k <= |es|
  {
    FragmentsIn(p, es, sock, BatchStart(p, es, sock, i, k), k)
  }

  /** The last END among events i to k that the cloud accepted. */
  function LastCommit(p: Params, es: seq<Event>, sock: int, i: nat, k: nat): (r: Option<nat>)
    requires i <= k <= |es|
    ensures r.Some? ==> i <= r.value < k && IsCommit(p, es[r.value], sock)
    ensures forall m :: (if r.Some? then r.value + 1 else i) <= m < k ==> !IsCommit(p, es[m], sock)
    decreases k
  {
    if k == i then None
    else if IsCommit(p, es[k - 1], sock) then Some(k - 1)
    else LastCommit(p, es, sock, i, k - 1)
  }

  /** The schema the gateway must answer for: the first-wins deduplication of the batch that
      the last accepted END closed, END included, or the initial schema. */
  ghost function Visible(p: Params, es: seq<Event>, sock: int, i: nat, k: nat, initial: seq<Schema>): seq<Schema>
    requires i <= k <= |es|
  {
    match LastCommit(p, es, sock, i, k)
    case None => initial
    case Some(j) => FirstWins(FragmentsIn(p, es, sock, BatchStart(p, es, sock, i, j), j + 1))
  }

  // ---- the engine agrees ----------------------------------------------------------------

  lemma EmptyBatch(p: Params, es: seq<Event>, sock: int, i: nat, k: nat)
    requires i <= k <= |es| && (k == i || IsEnd(p, es[k - 1], sock))
    ensures OpenBatch(p, es, sock, i, k) == []
  {}

  lemma {:induction false} SchemaFollows(p: Params, es: seq<Event>, sock: int, a: Record, i: nat, k: nat)
    requires p.queueOnAdd && i <= k <= |es| && a.pending == []
    ensures Advanced(p, sock, a, es, i, k).schema == Visible(p, es, sock, i, k, a.schema)
    ensures Advanced(p, sock, a, es, i, k).pending == FirstWins(OpenBatch(p, es, sock, i, k))
    decreases k
  {
    if k > i {
      SchemaFollows(p, es, sock, a, i, k - 1);
      if IsFragment(p, es[k - 1], sock) {
        FragmentFollows(p, es, sock, Advanced(p, sock, a, es, i, k - 1), i, k, a.schema);
      } else {
        OthersFollow(p, es, sock, Advanced(p, sock, a, es, i, k - 1), i, k, a.schema);
      }
    }
  }

  lemma OthersFollow(p: Params, es: seq<Event>, sock: int, now: Record, i: nat, k: nat, initial: seq<Schema>)
    requires i < k <= |es| && !IsFragment(p, es[k - 1], sock)
    requires now.schema == Visible(p, es, sock, i, k - 1, initial)
    requires now.pending == FirstWins(OpenBatch(p, es, sock, i, k - 1))
    ensures Advance(p, sock, now, es[k - 1]).schema == Visible(p, es, sock, i, k, initial)
    ensures Advance(p, sock, now, es[k - 1]).pending == FirstWins(OpenBatch(p, es, sock, i, k))
  {
    FragmentsSkip(p, es, sock, BatchStart(p, es, sock, i, k - 1), k);
  }

  lemma FragmentFollows(p: Params, es: seq<Event>, sock: int, now: Record, i: nat, k: nat, initial: seq<Schema>)
    requires p.queueOnAdd && i < k <= |es| && IsFragment(p, es[k - 1], sock)
    requires now.schema == Visible(p, es, sock, i, k - 1, initial)
    requires now.pending == FirstWins(OpenBatch(p, es, sock, i, k - 1))
    ensures Advance(p, sock, now, es[k - 1]).schema == Visible(p, es, sock, i, k, initial)
    ensures Advance(p, sock, now, es[k - 1]).pending == FirstWins(OpenBatch(p, es, sock, i, k))
  {
    var b := BatchStart(p, es, sock, i, k - 1);
    var open, x := FragmentsIn(p, es, sock, b, k - 1), es[k - 1].frame.request.schema;
    AddPendingAdds(p, open, x);
    assert FragmentsIn(p, es, sock, b, k) == open + [x];
    if IsEnd(p, es[k - 1], sock) { EmptyBatch(p, es, sock, i, k); }
  }

  lemma FragmentsSkip(p: Params, es: seq<Event>, sock: int, b: nat, k: nat)
    requires 0 < k <= |es| && b < k && !IsFragment(p, es[k - 1], sock)
    ensures FragmentsIn(p, es, sock, b, k) == FragmentsIn(p, es, sock, b, k - 1)
  {}

  /** As the source stands, with a pending list that is never allocated, an accepted END
      leaves no schema at all. */
  lemma {:induction false} WithoutQueueNothingIsKept(p: Params, es: seq<Event>, sock: int, a: Record, i: nat, k: nat)
    requires !p.queueOnAdd && i <= k <= |es| && a.pending == []
    ensures Advanced(p, sock, a, es, i, k).pending == []
    ensures Advanced(p, sock, a, es, i, k).schema ==
            if LastCommit(p, es, sock, i, k).Some? then [] else a.schema
    decreases k
  {
    if k > i { WithoutQueueNothingIsKept(p, es, sock, a, i, k - 1); }
  }

  lemma CommittedIsNotEmpty(p: Params, es: seq<Event>, sock: int, i: nat, k: nat, initial: seq<Schema>)
    requires i <= k <= |es| && LastCommit(p, es, sock, i, k).Some?
    ensures Visible(p, es, sock, i, k, initial) != []
  {
    var j := LastCommit(p, es, sock, i, k).value;
    var f := FragmentsIn(p, es, sock, BatchStart(p, es, sock, i, j), j + 1);
    assert f[|f| - 1] == es[j].frame.request.schema;
    assert HasSensor(f, f[|f| - 1].sensorId);
    FirstWinsSensors(f, f[|f| - 1].sensorId);
  }

  /** In every reachable state, the schema of a mapped trust is the one its socket committed
      since the trust was installed, exactly when the pending list is created on demand or
      nothing was committed. */
  lemma SchemaCommit(p: Params, es: seq<Event>, ss: seq<State>, k: nat, sock: int) returns (i: nat)
    requires IsRun(p, es, ss) && k <= |es| && sock in ss[k].online
    ensures Origin(p, es, ss, i, k, sock)
    ensures TrustOf(ss[k], sock).schema == Visible(p, es, sock, i + 1, k, Installed(p, es[i]).schema)
            <==> p.queueOnAdd || LastCommit(p, es, sock, i + 1, k).None?
    ensures p.queueOnAdd ==> TrustOf(ss[k], sock).pending == FirstWins(OpenBatch(p, es, sock, i + 1, k))
    ensures Distinct(TrustOf(ss[k], sock).pending)
  {
    i := HistoryOf(p, es, ss, k, sock);
    RecordCommit(p, es, sock, Installed(p, es[i]), i + 1, k);
  }

  lemma RecordCommit(p: Params, es: seq<Event>, sock: int, a: Record, i: nat, k: nat)
    requires i <= k <= |es| && a.pending == []
    ensures var now := Advanced(p, sock, a, es, i, k);
      && (now.schema == Visible(p, es, sock, i, k, a.schema) <==> p.queueOnAdd || LastCommit(p, es, sock, i, k).None?)
      && (p.queueOnAdd ==> now.pending == FirstWins(OpenBatch(p, es, sock, i, k)))
      && Distinct(now.pending)
  {
    if p.queueOnAdd {
      SchemaFollows(p, es, sock, a, i, k);
      FirstWinsDistinct(OpenBatch(p, es, sock, i, k));
    } else {
      WithoutQueueNothingIsKept(p, es, sock, a, i, k);
      if LastCommit(p, es, sock, i, k).Some? { CommittedIsNotEmpty(p, es, sock, i, k, a.schema); }
    }
  }

  // ---- retransmission -----------------------------------------------------------------------

  lemma {:induction false} SentIsPending(p: Params, es: seq<Event>, sock: int, b: nat, k: nat, j: nat)
    requires b <= j < k <= |es| && IsFragment(p, es[j], sock)
    ensures HasSensor(FragmentsIn(p, es, sock, b, k), es[j].frame.request.schema.sensorId)
    decreases k
  {
    var id := es[j].frame.request.schema.sensorId;
    var before := FragmentsIn(p, es, sock, b, k - 1);
    if j < k - 1 {
      SentIsPending(p, es, sock, b, k - 1, j);
      if IsFragment(p, es[k - 1], sock) {
        HasSensorAppend(before, es[k - 1].frame.request.schema, id);
      } else {
        FragmentsSkip(p, es, sock, b, k);
      }
    } else {
      HasSensorAppend(before, es[j].frame.request.schema, id);
    }
  }

  lemma {:induction false} FragmentClearsRollback(p: Params, es: seq<Event>, sock: int, a: Record, i: nat, k: nat)
    requires i <= k <= |es|
    ensures Advanced(p, sock, a, es, i, k).rollback <==>
            a.rollback && forall j :: i <= j < k ==> !IsFragment(p, es[j], sock)
    decreases k
  {
    if k > i { FragmentClearsRollback(p, es, sock, a, i, k - 1); }
  }

  lemma RecordIgnoresRepeat(p: Params, es: seq<Event>, sock: int, a: Record, i: nat, k: nat, j: nat, again: Event)
    requires i <= k <= |es| && a.pending == []
    requires BatchStart(p, es, sock, i, k) <= j < k && IsFragment(p, es[j], sock)
    requires IsFragment(p, again, sock) && !IsEnd(p, again, sock)
    requires again.frame.request.schema.sensorId == es[j].frame.request.schema.sensorId
    ensures var now := Advanced(p, sock, a, es, i, k); Advance(p, sock, now, again) == now && !now.rollback
  {
    FragmentClearsRollback(p, es, sock, a, i, k);
    if p.queueOnAdd {
      SchemaFollows(p, es, sock, a, i, k);
      SentIsPending(p, es, sock, BatchStart(p, es, sock, i, k), k, j);
      FirstWinsSensors(OpenBatch(p, es, sock, i, k), again.frame.request.schema.sensorId);
    }
  }

  lemma TrustIgnoresRepeat(p: Params, es: seq<Event>, ss: seq<State>, i: nat, k: nat, sock: int, j: nat, again: Event)
    requires IsRun(p, es, ss) && Origin(p, es, ss, i, k, sock)
    requires BatchStart(p, es, sock, i + 1, k) <= j < k && IsFragment(p, es[j], sock)
    requires IsFragment(p, again, sock) && !IsEnd(p, again, sock)
    requires again.frame.request.schema.sensorId == es[j].frame.request.schema.sensorId
    ensures Mapped(ss[k], sock)
    ensures Advance(p, sock, RecordOf(TrustOf(ss[k], sock)), again) == RecordOf(TrustOf(ss[k], sock))
  {
    HistoryFrom(p, es, ss, i, k, sock);
    RecordIgnoresRepeat(p, es, sock, Installed(p, es[i]), i + 1, k, j, again);
  }

  /** A fragment that changes nothing in the record changes nothing at all. */
  lemma IdleFragment(p: Params, s: State, e: Event, sock: int)
    requires p.Valid() && Mapped(s, sock) && IsFragment(p, e, sock) && !IsEnd(p, e, sock)
    requires Advance(p, sock, RecordOf(TrustOf(s, sock)), e) == RecordOf(TrustOf(s, sock))
    ensures Step(p, s, e) ==
            Effect(s, [], p.headerLen + RESULT_LEN, Some(Reply(Some(SchemaResp), Success, None, RESULT_LEN)), [])
  {
    var trust := TrustOf(s, sock);
    assert s.trusts[s.online[sock] := trust] == s.trusts;
    assert UploadSchema(p, s, sock, e.via, e.frame.request, e.answers.schemaStored) == Handled(s, Success, None, []);
  }

  /** Sending again a fragment of the open batch, other than its END, succeeds and changes
      nothing: no state, and no call to the cloud. */
  lemma RetransmissionHasNoEffect(p: Params, es: seq<Event>, ss: seq<State>, i: nat, k: nat, sock: int, j: nat, again: Event)
    requires IsRun(p, es, ss) && Origin(p, es, ss, i, k, sock)
    requires BatchStart(p, es, sock, i + 1, k) <= j < k && IsFragment(p, es[j], sock)
    requires IsFragment(p, again, sock) && !IsEnd(p, again, sock)
    requires again.frame.request.schema.sensorId == es[j].frame.request.schema.sensorId
    ensures Step(p, ss[k], again) ==
            Effect(ss[k], [], p.headerLen + RESULT_LEN, Some(Reply(Some(SchemaResp), Success, None, RESULT_LEN)), [])
  {
    TrustIgnoresRepeat(p, es, ss, i, k, sock, j, again);
    IdleFragment(p, ss[k], again, sock);
  }

  /** A refused END drops the pending fragments of the node's trust. The schema, like everything
      else, stays. */
  lemma RefusedEndIsInvisible(p: Params, es: seq<Event>, ss: seq<State>, k: nat, sock: int)
    requires IsRun(p, es, ss) && k < |es| && sock in ss[k].online
    requires IsEnd(p, es[k], sock) && !es[k].answers.schemaStored
    ensures Mapped(ss[k], sock) && Mapped(ss[k + 1], sock)
    ensures TrustOf(ss[k + 1], sock) == TrustOf(ss[k], sock).(rollback := false, pending := [])
    ensures ss[k + 1] == SetTrust(ss[k], ss[k].online[sock], TrustOf(ss[k + 1], sock))
    ensures Step(p, ss[k], es[k]).reply == Some(Reply(Some(SchemaEndResp), CloudFailure, None, RESULT_LEN))
  {
    Reachable(p, es, ss, k);
    NextIs(p, es, ss, k);
    RefusedEnd(p, ss[k], es[k], sock);
  }

  lemma RefusedEnd(p: Params, s: State, e: Event, sock: int)
    requires p.Valid() && Inv(s) && sock in s.online && IsEnd(p, e, sock) && !e.answers.schemaStored
    ensures Step(p, s, e).state == SetTrust(s, s.online[sock], TrustOf(s, sock).(rollback := false, pending := []))
    ensures Step(p, s, e).reply == Some(Reply(Some(SchemaEndResp), CloudFailure, None, RESULT_LEN))
  {}
}
