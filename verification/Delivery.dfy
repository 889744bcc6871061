/** Which configurations a node is sent, said of the JSON arrays of the cloud's documents. */
module Delivery {
  import opened Json
  import opened Protocol
  import opened Sequences
  import opened Documents
  import opened ConfigRules
  import opened Readings
  import opened Engine
  import opened Ownership
  import opened Tenure
  import opened ConfigHistory

  // ---- the entries behind a list -----------------------------------------------------------

  /** The entries of a document's array, when all of them can be read and are accepted. */
  ghost function Entries(p: Params, doc: Json): seq<Json> {
    match GetArray(doc, "config")
    case None => []
    case Some(items) => if EntriesAccepted(p, items) then items else []
  }

  ghost predicate EntriesAccepted(p: Params, items: seq<Json>) {
    forall n :: 0 <= n < |items| ==> EntryAccepted(p, items[n])
  }

  ghost predicate EntryAccepted(p: Params, j: Json) {
    ParseConfigEntry(p, j).Some? && ConfigAccepted(p, ParseConfigEntry(p, j).value)
  }

  /** The list was read from these entries, one by one. */
  ghost predicate ReadFrom(p: Params, list: seq<Config>, items: seq<Json>) {
    |list| == |items| && forall n :: 0 <= n < |items| ==> ParseConfigEntry(p, items[n]) == Some(list[n])
  }

  lemma ListIsRead(p: Params, items: seq<Json>)
    ensures ParseAll(items, ConfigEntry(p)).Some? ==> ReadFrom(p, ParseAll(items, ConfigEntry(p)).value, items)
    ensures EntriesAccepted(p, items) <==>
            ParseAll(items, ConfigEntry(p)).Some? && AllAccepted(p, ParseAll(items, ConfigEntry(p)).value)
  {
    if ParseAll(items, ConfigEntry(p)).Some? {
      var list := ParseAll(items, ConfigEntry(p)).value;
      forall n | 0 <= n < |items| ensures ParseConfigEntry(p, items[n]) == Some(list[n]) {
        assert ConfigEntry(p)(items[n]) == ParseConfigEntry(p, items[n]);
      }
      if AllAccepted(p, list) {
        forall n | 0 <= n < |items| ensures EntryAccepted(p, items[n]) { assert ConfigAccepted(p, list[n]); }
      }
      if EntriesAccepted(p, items) {
        forall n | 0 <= n < |list| ensures ConfigAccepted(p, list[n]) { assert EntryAccepted(p, items[n]); }
      }
    } else if EntriesAccepted(p, items) {
      forall n | 0 <= n < |items| ensures ConfigEntry(p)(items[n]).Some? { assert EntryAccepted(p, items[n]); }
      assert false;
    }
  }

  lemma ReceivedIsRead(p: Params, doc: Json)
    ensures ReceivedConfig(p, doc).Some? ==> ReadFrom(p, ReceivedConfig(p, doc).value, Entries(p, doc))
    ensures ReadFrom(p, SignInConfig(p, doc), Entries(p, doc))
  {
    if GetArray(doc, "config").Some? { ListIsRead(p, GetArray(doc, "config").value); }
  }

  /** A document is turned down exactly when every entry of its array can be read and some entry
      is not accepted. */
  lemma TurnedDown(p: Params, doc: Json)
    requires p.Valid()
    ensures ReceivedConfig(p, doc).None? <==>
            && GetArray(doc, "config").Some?
            && (forall n :: 0 <= n < |GetArray(doc, "config").value| ==> IsConfigEntry(GetArray(doc, "config").value[n]))
            && !EntriesAccepted(p, GetArray(doc, "config").value)
  {
    if GetArray(doc, "config").Some? {
      var items := GetArray(doc, "config").value;
      ListIsRead(p, items);
      forall n | 0 <= n < |items| ensures ConfigEntry(p)(items[n]).Some? <==> IsConfigEntry(items[n]) {
        ConfigEntryRead(p, items[n]);
      }
    }
  }

  /** The entries of the last accepted list before event k, or those of the sign-in. */
  ghost function LastEntries(p: Params, es: seq<Event>, sock: int, i: nat, k: nat): seq<Json>
    requires i < k <= |es|
  {
    match LastPoll(p, es, sock, i + 1, k)
    case Some(j) => Entries(p, es[j].doc)
    case None =>
      if es[i].Pdu? && es[i].frame.request.AuthRequest? && es[i].answers.signIn.Granted?
      then Entries(p, es[i].answers.signIn.doc) else []
  }

  lemma LastIsRead(p: Params, es: seq<Event>, sock: int, i: nat, k: nat)
    requires p.Valid() && i < k <= |es| && IsInstallation(p, es[i], sock)
    ensures ReadFrom(p, LastAccepted(p, es, sock, i + 1, k, Installed(p, es[i]).config), LastEntries(p, es, sock, i, k))
  {
    match LastPoll(p, es, sock, i + 1, k) {
      case Some(j) => ReceivedIsRead(p, es[j].doc);
      case None => ReceivedIsRead(p, es[i].answers.signIn.doc);
    }
  }

  // ---- what the node has --------------------------------------------------------------------------

  function Same(j: Json): Json -> bool { (x: Json) => x == j }

  /** The first equal entry of the last array is the first for its sensor, which was
      acknowledged. */
  predicate NodeHas(last: seq<Json>, acks: set<Byte>, j: Json) {
    var q := First(last, Same(j));
    q < |last| && SensorOf(j) in acks && forall x :: 0 <= x < q ==> SensorOf(last[x]) != SensorOf(j)
  }

  function Due(last: seq<Json>, acks: set<Byte>): Json -> bool { (j: Json) => !NodeHas(last, acks, j) }

  lemma FirstSame(p: Params, list: seq<Config>, last: seq<Json>, j: Json)
    requires p.Valid() && ReadFrom(p, list, last)
    ensures First(list, SameHash(j)) == First(last, Same(j))
  {
    forall n | 0 <= n < |last| ensures SameHash(j)(list[n]) == Same(j)(last[n]) { ConfigEntryRead(p, last[n]); }
    FirstIs(last, Same(j), First(list, SameHash(j)));
  }

  lemma HasIsAlreadyHas(p: Params, list: seq<Config>, last: seq<Json>, acks: set<Byte>, j: Json)
    requires p.Valid() && ReadFrom(p, list, last) && ParseConfigEntry(p, j).Some?
    ensures AlreadyHas(list, acks, ParseConfigEntry(p, j).value) <==> NodeHas(last, acks, j)
  {
    ConfigEntryRead(p, j);
    FirstSame(p, list, last, j);
    forall n | 0 <= n < |last| ensures list[n].sensorId == SensorOf(last[n]) { ConfigEntryRead(p, last[n]); }
  }

  /** Filtering the list that was read is reading the filtered entries. */
  lemma {:induction false} KeepIsRead(p: Params, list: seq<Config>, items: seq<Json>, f: Config -> bool, g: Json -> bool)
    requires ReadFrom(p, list, items) && forall n :: 0 <= n < |items| ==> f(list[n]) == g(items[n])
    ensures ReadFrom(p, Keep(list, f), Keep(items, g))
  {
    if |items| > 0 { KeepIsRead(p, list[..|list| - 1], items[..|items| - 1], f, g); }
  }

  lemma NeededIsDue(p: Params, list: seq<Config>, last: seq<Json>, acks: set<Byte>, received: seq<Config>, items: seq<Json>)
    requires p.Valid() && ReadFrom(p, list, last) && ReadFrom(p, received, items)
    ensures ReadFrom(p, Keep(received, Needed(list, acks)), Keep(items, Due(last, acks)))
  {
    forall n | 0 <= n < |items| ensures Needed(list, acks)(received[n]) == Due(last, acks)(items[n]) {
      HasIsAlreadyHas(p, list, last, acks, items[n]);
    }
    KeepIsRead(p, received, items, Needed(list, acks), Due(last, acks));
  }

  // ---- what the node is sent -----------------------------------------------------------------------

  /** The message carries the entry: its sensor, flags and time, and its limits as written. */
  ghost predicate Carries(p: Params, j: Json, m: Message)
    requires p.Valid()
  {
    && IsConfigEntry(j) && m.ConfigMessage?
    && m.header == Header(SetConfig, p.sensorIdLen + p.configValuesLen)
    && m.sensorId == SensorOf(j) && m.eventFlags == FlagsOf(p, j) && m.timeSec == TimeOf(p, j)
    && IsValueUnder(j, "lower_limit", m.lower) && IsValueUnder(j, "upper_limit", m.upper)
  }

  ghost predicate CarriesAll(p: Params, items: seq<Json>, messages: seq<Message>)
    requires p.Valid()
  {
    |messages| == |items| && forall n :: 0 <= n < |items| ==> Carries(p, items[n], messages[n])
  }

  lemma MessagesCarry(p: Params, list: seq<Config>, items: seq<Json>)
    requires p.Valid() && ReadFrom(p, list, items)
    ensures CarriesAll(p, items, ConfigMessages(p, list))
  {
    forall n | 0 <= n < |items| ensures Carries(p, items[n], ConfigMessages(p, list)[n]) { ConfigEntryRead(p, items[n]); }
  }

  lemma PollCarries(p: Params, s: State, sock: int, doc: Json, list: seq<Config>, last: seq<Json>, acks: set<Byte>)
    returns (configs: seq<Message>)
    requires p.Valid() && Mapped(s, sock) && ReceivedConfig(p, doc).Some?
    requires TrustOf(s, sock).config == Acknowledged(list, acks) && ReadFrom(p, list, last)
    ensures Sends(p, s, sock, doc, Keep(Entries(p, doc), Due(last, acks)), configs)
  {
    var received := ReceivedConfig(p, doc).value;
    PollSends(p, s, sock, doc, list, acks);
    ReceivedIsRead(p, doc);
    NeededIsDue(p, list, last, acks, received, Entries(p, doc));
    configs := ConfigMessages(p, Keep(received, Needed(list, acks)));
    MessagesCarry(p, Keep(received, Needed(list, acks)), Keep(Entries(p, doc), Due(last, acks)));
  }

  /** The document makes the gateway send these messages for these entries, and then the other
      two lists. */
  ghost predicate Sends(p: Params, s: State, sock: int, doc: Json, items: seq<Json>, configs: seq<Message>)
    requires p.Valid()
  {
    && CarriesAll(p, items, configs)
    && Push(p, s, sock, doc).pushed == configs + (SetDataMessages(p, doc) + GetDataMessages(p, doc))
  }

  // ---- the theorems ------------------------------------------------------------------------------------

  /** At any moment of a run, an accepted document that arrives makes the gateway send, in order
      and field by field, exactly the entries of its array that the node does not have: those but
      the ones whose first equal entry in the last accepted array is the first for its sensor and
      was acknowledged since. */
  lemma DueEntriesAreSent(p: Params, es: seq<Event>, ss: seq<State>, k: nat, sock: int, doc: Json)
    returns (i: nat, configs: seq<Message>)
    requires IsRun(p, es, ss) && k <= |es| && sock in ss[k].online && ReceivedConfig(p, doc).Some?
    ensures Origin(p, es, ss, i, k, sock)
    ensures Sends(p, ss[k], sock, doc,
                  Keep(Entries(p, doc), Due(LastEntries(p, es, sock, i, k), AcksSince(p, es, sock, i + 1, k))), configs)
  {
    i := StoredConfig(p, es, ss, k, sock);
    LastIsRead(p, es, sock, i, k);
    configs := PollCarries(p, ss[k], sock, doc, LastAccepted(p, es, sock, i + 1, k, Installed(p, es[i]).config),
                           LastEntries(p, es, sock, i, k), AcksSince(p, es, sock, i + 1, k));
  }

  /** An entry that differs from every entry of the last accepted array is sent, and so is the
      first equal one of a sensor that was not acknowledged. */
  lemma ChangedEntryIsSent(p: Params, es: seq<Event>, ss: seq<State>, k: nat, sock: int, doc: Json, j: Json) returns (i: nat)
    requires IsRun(p, es, ss) && k <= |es| && sock in ss[k].online && ReceivedConfig(p, doc).Some?
    requires j in Entries(p, doc)
    ensures Origin(p, es, ss, i, k, sock)
    ensures j !in LastEntries(p, es, sock, i, k) || SensorOf(j) !in AcksSince(p, es, sock, i + 1, k) ==>
            IsSent(p, ss[k], sock, doc, j)
  {
    var configs;
    i, configs := DueEntriesAreSent(p, es, ss, k, sock, doc);
    var last, acks := LastEntries(p, es, sock, i, k), AcksSince(p, es, sock, i + 1, k);
    if j !in last || SensorOf(j) !in acks { DueIsSent(p, ss[k], sock, doc, last, acks, configs, j); }
  }

  ghost predicate IsSent(p: Params, s: State, sock: int, doc: Json, j: Json)
    requires p.Valid()
  {
    exists m :: m in Push(p, s, sock, doc).pushed && Carries(p, j, m)
  }

  lemma DueIsSent(p: Params, s: State, sock: int, doc: Json, last: seq<Json>, acks: set<Byte>, configs: seq<Message>, j: Json)
    requires p.Valid() && j in Entries(p, doc) && (j !in last || SensorOf(j) !in acks)
    requires Sends(p, s, sock, doc, Keep(Entries(p, doc), Due(last, acks)), configs)
    ensures IsSent(p, s, sock, doc, j)
  {
    var due := Keep(Entries(p, doc), Due(last, acks));
    assert Due(last, acks)(j);
    KeepMembers(Entries(p, doc), Due(last, acks), j);
    var n :| 0 <= n < |due| && due[n] == j;
    assert Carries(p, j, configs[n]) && configs[n] in configs;
  }
}
