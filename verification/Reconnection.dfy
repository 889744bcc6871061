/** A schema across a reconnection: what a node committed is what a later sign-in gives back,
    from a cloud that keeps the last schema it accepted for each device. */
module Reconnection {
  import opened Json
  import opened Protocol
  import opened Documents
  import opened Engine
  import opened Ownership
  import opened Tenure
  import opened SchemaHistory

  // ---- signing in with a printed schema ---------------------------------------------------

  /** A schema as the node means it: names compared up to their terminator. */
  predicate SameSchemas(a: seq<Schema>, b: seq<Schema>) {
    && |a| == |b|
    && forall i :: 0 <= i < |a| ==>
         && a[i].sensorId == b[i].sensorId && a[i].valueType == b[i].valueType
         && a[i].unit == b[i].unit && a[i].typeId == b[i].typeId
         && CString(a[i].name) == CString(b[i].name)
  }

  ghost predicate ValidNames(p: Params, list: seq<Schema>) {
    forall i :: 0 <= i < |list| ==> ValidName(p, list[i].name)
  }

  /** Authenticating against a document that carries the list last printed restores it. */
  lemma AuthRestores(p: Params, s: State, sock: int, via: int, c: Credential, doc: Json, list: seq<Schema>)
    requires p.Valid() && Inv(s) && sock !in s.online
    requires list != [] && ValidNames(p, list)
    requires Get(doc, "schema") == Get(PrintSchema(list), "schema")
    ensures var h := Authenticate(p, s, sock, via, c, Granted(doc));
            && h.result == Success
            && Mapped(h.state, sock) && TrustOf(h.state, sock).credential == c
            && SameSchemas(TrustOf(h.state, sock).schema, list)
  {
    SchemaRoundTrip(p, list);
    assert ParseSchema(p, doc) == ParseSchema(p, PrintSchema(list));
    var trust := Trust(1, 0, 0, false, c, via, ParseSchema(p, doc), [], SignInConfig(p, doc), None);
    CreateIs(s, sock, trust);
  }

  lemma UploadPuts(p: Params, s: State, e: Event, sock: int)
    requires p.Valid() && Mapped(s, sock) && IsCommit(p, e, sock)
    ensures var r := Step(p, s, e);
            && Mapped(r.state, sock)
            && r.calls == [Call(sock, e.via, PutSchema(TrustOf(s, sock).credential, PrintSchema(TrustOf(r.state, sock).schema)))]
            && (p.queueOnAdd ==> TrustOf(r.state, sock).schema != [])
  {}

  /** Authenticating against a document without sensors is refused and changes nothing. */
  lemma AuthFindsNone(p: Params, s: State, sock: int, via: int, c: Credential, doc: Json)
    requires p.Valid() && sock !in s.online && Get(doc, "schema") == Get(PrintSchema([]), "schema")
    ensures var h := Authenticate(p, s, sock, via, c, Granted(doc)); h.result == SchemaEmpty && h.state == s
  {
    SchemaRoundTrip(p, []);
    assert ParseSchema(p, doc) == ParseSchema(p, PrintSchema([]));
  }

  lemma AuthStep(p: Params, es: seq<Event>, ss: seq<State>, k: nat, sock: int)
    requires IsRun(p, es, ss) && k < |es| && Accepts(p, es[k], sock) && es[k].frame.request.AuthRequest?
    ensures var h := Authenticate(p, ss[k], sock, es[k].via, es[k].frame.request.credential, es[k].answers.signIn);
            ss[k + 1] == h.state && RepliesAt(p, es, ss, k, h.result)
  {
    Reachable(p, es, ss, k);
    NextIs(p, es, ss, k);
  }

  /** The reply to the authentication request k. */
  ghost predicate RepliesAt(p: Params, es: seq<Event>, ss: seq<State>, k: nat, result: Result)
    requires p.Valid() && k < |es| && |ss| == |es| + 1
  {
    Step(p, ss[k], es[k]).reply == Some(Reply(Some(AuthResp), result, None, RESULT_LEN))
  }

  // ---- a cloud that keeps schemas -----------------------------------------------------------

  /** The schema the cloud keeps for a device after some calls of the gateway. */
  function KeptAfter(c: Credential, accepted: bool, before: Option<Json>, calls: seq<Call>): Option<Json> {
    if |calls| == 0 then before
    else
      match calls[|calls| - 1].action
      case PutSchema(d, doc) =>
        if accepted && d == c then Get(doc, "schema") else KeptAfter(c, accepted, before, calls[..|calls| - 1])
      case _ => KeptAfter(c, accepted, before, calls[..|calls| - 1])
  }

  /** A sign-in with the credential that the cloud grants. */
  predicate SignsInWith(p: Params, e: Event, c: Credential) {
    && e.Pdu? && !Rejected(p, e.frame) && e.frame.request == AuthRequest(c) && e.answers.signIn.Granted?
  }

  /** A granted sign-in is given the schema the cloud keeps, and schemas of the gateway that
      the cloud accepts are all that changes it. */
  ghost predicate KeepsSchemaFrom(p: Params, es: seq<Event>, ss: seq<State>, c: Credential, kept: seq<Option<Json>>, k: nat)
    requires p.Valid() && k < |es| && |ss| == |kept| == |es| + 1
  {
    && (SignsInWith(p, es[k], c) ==> Get(es[k].answers.signIn.doc, "schema") == kept[k])
    && kept[k + 1] == KeptAfter(c, es[k].Pdu? && es[k].answers.schemaStored, kept[k], Step(p, ss[k], es[k]).calls)
  }

  ghost predicate KeepsSchema(p: Params, es: seq<Event>, ss: seq<State>, c: Credential, kept: seq<Option<Json>>)
    requires p.Valid()
  {
    && |ss| == |kept| == |es| + 1
    && forall k :: 0 <= k < |es| ==> KeepsSchemaFrom(p, es, ss, c, kept, k)
  }

  /** The event commits a schema for the device. */
  predicate CommitsUnder(p: Params, s: State, e: Event, c: Credential) {
    e.Pdu? && Mapped(s, e.sock) && IsCommit(p, e, e.sock) && TrustOf(s, e.sock).credential == c
  }

  lemma UploadsAreFragments(p: Params, s: State, e: Event, call: Call)
    requires p.Valid() && call in Step(p, s, e).calls && call.action.PutSchema?
    ensures e.Pdu? && Mapped(s, e.sock) && IsEnd(p, e, e.sock) && call.action.credential == TrustOf(s, e.sock).credential
  {
    assert e.Pdu? && call in Process(p, s, e.sock, e.via, e.frame, e.answers).calls;
    ProcessUploads(p, s, e, call);
  }

  lemma ProcessUploads(p: Params, s: State, e: Event, call: Call)
    requires p.Valid() && e.Pdu? && call in Process(p, s, e.sock, e.via, e.frame, e.answers).calls && call.action.PutSchema?
    ensures Mapped(s, e.sock) && IsEnd(p, e, e.sock) && call.action.credential == TrustOf(s, e.sock).credential
  {
    match e.frame.request {
      case DataReport(id, data) => DataUploadsNone(p, s, e.sock, e.via, id, data, e.answers, call);
      case DataResponse(id, data) => DataUploadsNone(p, s, e.sock, e.via, id, data, e.answers, call);
      case _ =>
    }
  }

  lemma DataUploadsNone(p: Params, s: State, sock: int, via: int, id: Byte, data: Views, answers: Answers, call: Call)
    requires call.action.PutSchema?
    ensures call !in ReportData(p, s, sock, via, id, data, answers).calls
    ensures call !in AnswerData(p, s, sock, via, id, data, answers).calls
  {}

  lemma {:induction false} NothingAccepted(c: Credential, accepted: bool, before: Option<Json>, calls: seq<Call>)
    requires forall call :: call in calls && call.action.PutSchema? ==> !accepted || call.action.credential != c
    ensures KeptAfter(c, accepted, before, calls) == before
  {
    if |calls| > 0 {
      assert calls[|calls| - 1] in calls && forall call :: call in calls[..|calls| - 1] ==> call in calls;
      NothingAccepted(c, accepted, before, calls[..|calls| - 1]);
    }
  }

  /** An event that commits no schema for the device leaves what the cloud keeps for it. */
  lemma OthersKeepSchema(p: Params, s: State, e: Event, c: Credential, before: Option<Json>)
    requires p.Valid() && !CommitsUnder(p, s, e, c)
    ensures KeptAfter(c, e.Pdu? && e.answers.schemaStored, before, Step(p, s, e).calls) == before
  {
    var accepted, calls := e.Pdu? && e.answers.schemaStored, Step(p, s, e).calls;
    forall call | call in calls && call.action.PutSchema? ensures !accepted || call.action.credential != c {
      UploadsAreFragments(p, s, e, call);
    }
    NothingAccepted(c, accepted, before, calls);
  }

  lemma {:induction false} KeptStays(p: Params, es: seq<Event>, ss: seq<State>, c: Credential, kept: seq<Option<Json>>, m: nat, k: nat)
    requires IsRun(p, es, ss) && KeepsSchema(p, es, ss, c, kept) && m <= k <= |es|
    requires forall n :: m <= n < k ==> !CommitsUnder(p, ss[n], es[n], c)
    ensures kept[k] == kept[m]
    decreases k
  {
    if m < k {
      KeptStays(p, es, ss, c, kept, m, k - 1);
      assert KeepsSchemaFrom(p, es, ss, c, kept, k - 1);
      OthersKeepSchema(p, ss[k - 1], es[k - 1], c, kept[k - 1]);
    }
  }

  /** After a commit the cloud keeps the image of the schema the trust then has. */
  lemma CommitIsKept(p: Params, es: seq<Event>, ss: seq<State>, c: Credential, kept: seq<Option<Json>>, m: nat, sock: int)
    requires IsRun(p, es, ss) && KeepsSchema(p, es, ss, c, kept) && m < |es|
    requires Mapped(ss[m], sock) && TrustOf(ss[m], sock).credential == c && IsCommit(p, es[m], sock)
    ensures Mapped(ss[m + 1], sock) && kept[m + 1] == Get(PrintSchema(TrustOf(ss[m + 1], sock).schema), "schema")
    ensures p.queueOnAdd ==> TrustOf(ss[m + 1], sock).schema != []
  {
    NextIs(p, es, ss, m);
    assert KeepsSchemaFrom(p, es, ss, c, kept, m);
    UploadPuts(p, ss[m], es[m], sock);
  }

  lemma {:induction false} SchemaStays(p: Params, es: seq<Event>, sock: int, a: Record, i: nat, k: nat)
    requires i <= k <= |es| && forall m :: i <= m < k ==> !IsCommit(p, es[m], sock)
    ensures Advanced(p, sock, a, es, i, k).schema == a.schema
    decreases k
  {
    if i < k { SchemaStays(p, es, sock, a, i, k - 1); }
  }

  // ---- the theorem ------------------------------------------------------------------------------

  /** A trust that has committed: what it has is what it had at its last commit, and the cloud
      was given the image of that. It is empty exactly when the pending list is never created. */
  lemma SchemaOfLastCommit(p: Params, es: seq<Event>, ss: seq<State>, c: Credential, kept: seq<Option<Json>>,
                           i: nat, d: nat, sock: int) returns (m: nat)
    requires IsRun(p, es, ss) && KeepsSchema(p, es, ss, c, kept)
    requires Origin(p, es, ss, i, d, sock) && TrustOf(ss[d], sock).credential == c
    requires LastCommit(p, es, sock, i + 1, d).Some?
    ensures m == LastCommit(p, es, sock, i + 1, d).value
    ensures kept[m + 1] == Get(PrintSchema(TrustOf(ss[d], sock).schema), "schema")
    ensures p.queueOnAdd <==> TrustOf(ss[d], sock).schema != []
  {
    m := LastCommit(p, es, sock, i + 1, d).value;
    var t := ss[d].online[sock];
    assert Holds(ss, m, d, sock, t) && Holds(ss, m + 1, d, sock, t);
    RecordFollows(p, es, ss, m, d, sock, t);
    CommitIsKept(p, es, ss, c, kept, m, sock);
    RecordFollows(p, es, ss, m + 1, d, sock, t);
    SchemaStays(p, es, sock, RecordOf(TrustOf(ss[m + 1], sock)), m + 1, d);
    if !p.queueOnAdd {
      HistoryFrom(p, es, ss, i, d, sock);
      WithoutQueueNothingIsKept(p, es, sock, Installed(p, es[i]), i + 1, d);
    }
  }

  /** The trust has committed before d, and no commit for the device follows its last one up to k. */
  predicate CommitsLast(p: Params, es: seq<Event>, ss: seq<State>, c: Credential, i: nat, d: nat, sock: int, k: nat)
    requires i < d <= k <= |es| && |ss| == |es| + 1
  {
    && LastCommit(p, es, sock, i + 1, d).Some?
    && forall n :: LastCommit(p, es, sock, i + 1, d).value < n < k ==> !CommitsUnder(p, ss[n], es[n], c)
  }

  lemma GivenAtSignIn(p: Params, es: seq<Event>, ss: seq<State>, c: Credential, kept: seq<Option<Json>>,
                      i: nat, d: nat, sock: int, k: nat)
    requires IsRun(p, es, ss) && KeepsSchema(p, es, ss, c, kept)
    requires Origin(p, es, ss, i, d, sock) && TrustOf(ss[d], sock).credential == c
    requires d <= k < |es| && CommitsLast(p, es, ss, c, i, d, sock, k) && SignsInWith(p, es[k], c)
    ensures Get(es[k].answers.signIn.doc, "schema") == Get(PrintSchema(TrustOf(ss[d], sock).schema), "schema")
    ensures p.queueOnAdd <==> TrustOf(ss[d], sock).schema != []
  {
    var m := SchemaOfLastCommit(p, es, ss, c, kept, i, d, sock);
    KeptStays(p, es, ss, c, kept, m + 1, k);
    assert KeepsSchemaFrom(p, es, ss, c, kept, k);
  }

  /** End to end, against a cloud that keeps what it last accepted: take the schema that the
      trust of a node had at some moment d after committing, and any later sign-in with its
      credential on a free socket, with no other commit for the device in between. The node
      has the same schema again and is told so; only without a pending list, when nothing was
      ever kept, it is told that it has none. */
  lemma SchemaSurvivesReconnection(p: Params, es: seq<Event>, ss: seq<State>, c: Credential, kept: seq<Option<Json>>,
                                   i: nat, d: nat, sock: int, k: nat, other: int)
    requires IsRun(p, es, ss) && KeepsSchema(p, es, ss, c, kept)
    requires Origin(p, es, ss, i, d, sock) && TrustOf(ss[d], sock).credential == c
    requires ValidNames(p, TrustOf(ss[d], sock).schema)
    requires d <= k < |es| && CommitsLast(p, es, ss, c, i, d, sock, k)
    requires SignsInWith(p, es[k], c) && es[k].sock == other && other !in ss[k].online
    ensures if p.queueOnAdd then
              && RepliesAt(p, es, ss, k, Success)
              && Mapped(ss[k + 1], other) && TrustOf(ss[k + 1], other).credential == c
              && SameSchemas(TrustOf(ss[k + 1], other).schema, TrustOf(ss[d], sock).schema)
            else
              RepliesAt(p, es, ss, k, SchemaEmpty) && ss[k + 1] == ss[k]
  {
    GivenAtSignIn(p, es, ss, c, kept, i, d, sock, k);
    SignInRestores(p, es, ss, k, other, c, TrustOf(ss[d], sock).schema);
  }

  lemma SignInRestores(p: Params, es: seq<Event>, ss: seq<State>, k: nat, sock: int, c: Credential, list: seq<Schema>)
    requires IsRun(p, es, ss) && k < |es| && SignsInWith(p, es[k], c) && es[k].sock == sock && sock !in ss[k].online
    requires Get(es[k].answers.signIn.doc, "schema") == Get(PrintSchema(list), "schema") && ValidNames(p, list)
    ensures if list != [] then
              && RepliesAt(p, es, ss, k, Success)
              && Mapped(ss[k + 1], sock) && TrustOf(ss[k + 1], sock).credential == c
              && SameSchemas(TrustOf(ss[k + 1], sock).schema, list)
            else
              RepliesAt(p, es, ss, k, SchemaEmpty) && ss[k + 1] == ss[k]
  {
    Reachable(p, es, ss, k);
    AuthStep(p, es, ss, k, sock);
    if list != [] {
      AuthRestores(p, ss[k], sock, es[k].via, c, es[k].answers.signIn.doc, list);
    } else {
      AuthFindsNone(p, ss[k], sock, es[k].via, c, es[k].answers.signIn.doc);
    }
  }
}
