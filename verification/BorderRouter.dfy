/** The IPv4 border router: a table of peers, each with a unix socket of its own towards the
    gateway, and an event source for each of these sockets. */
module BorderRouter {
  import opened Json

  /** A socket address: the text of its IP address is the key of the table. */
  datatype Address = Address(ip: string, port: nat)

  datatype Watch = Watch(id: nat, sock: int, cliSock: int, addr: Address)

  /** What an event source is given: the peer and the unix socket it listens to. */
  datatype Source = Source(ip: string, sock: int)

  datatype State = State(table: map<string, Watch>, sources: map<nat, Source>, next: nat)

  const Start := State(map[], map[], 0)

  /** A datagram, the socket it came through and, should the peer be new, the outcome of
      unix_connect; data on a unix socket; the end of a unix socket. */
  datatype Event =
    | Datagram(from: Option<Address>, cliSock: int, connected: Option<int>)
    | Downlink(source: nat, readable: bool)
    | HungUp(source: nat)

  datatype Output = Nothing | Written(sock: int) | Sent(cliSock: int, to: Address)

  datatype Effect = Effect(state: State, output: Output)

  /** The address is not looked at when recvfrom fails: it stays zero. */
  const ZERO := Address("0.0.0.0", 0)

  function SourceOf(e: Event): Address
    requires e.Datagram?
  {
    match e.from case Some(a) => a case None => ZERO
  }

  function SetAddress(s: State, a: Address): State
    requires a.ip in s.table
  {
    s.(table := s.table[a.ip := s.table[a.ip].(addr := a)])
  }

  function AddPeer(s: State, a: Address, cliSock: int, sock: int): State {
    s.(table := s.table[a.ip := Watch(s.next, sock, cliSock, ZERO)],
       sources := s.sources[s.next := Source(a.ip, sock)], next := s.next + 1)
  }

  /** read_inet4_cb. */
  function Read(s: State, a: Address, cliSock: int, connected: Option<int>): Effect {
    if a.ip in s.table then Effect(SetAddress(s, a), Written(s.table[a.ip].sock))
    else match connected
      case None => Effect(s, Nothing)
      case Some(sock) => Effect(SetAddress(AddPeer(s, a, cliSock, sock), a), Written(sock))
  }

  /** downlink4_cb on data. */
  function Forward(s: State, source: nat, readable: bool): Output {
    if !readable || source !in s.sources || s.sources[source].ip !in s.table then Nothing
    else
      var watch := s.table[s.sources[source].ip];
      Sent(watch.cliSock, watch.addr)
  }

  /** The source goes, and downlink4_destroy takes its peer off the table. */
  function HangUp(s: State, source: nat): State {
    if source !in s.sources then s
    else s.(table := s.table - {s.sources[source].ip}, sources := s.sources - {source})
  }

  function Step(s: State, e: Event): Effect {
    match e
    case Datagram(_, cliSock, connected) => Read(s, SourceOf(e), cliSock, connected)
    case Downlink(source, readable) => Effect(s, Forward(s, source, readable))
    case HungUp(source) => Effect(HangUp(s, source), Nothing)
  }

  /** A new unix socket is none of the open ones, and sources fire while they exist. */
  predicate Enabled(s: State, e: Event) {
    match e
    case Datagram(_, _, connected) => connected.Some? ==> forall k :: k in s.sources ==> s.sources[k].sock != connected.value
    case Downlink(source, _) => source in s.sources
    case HungUp(source) => source in s.sources
  }

  ghost predicate StepAt(es: seq<Event>, ss: seq<State>, k: nat)
    requires k < |es| && |ss| == |es| + 1
  {
    Enabled(ss[k], es[k]) && ss[k + 1] == Step(ss[k], es[k]).state
  }

  ghost predicate IsRun(es: seq<Event>, ss: seq<State>) {
    && |ss| == |es| + 1 && ss[0] == Start
    && forall k :: 0 <= k < |es| ==> StepAt(es, ss, k)
  }

  // ---- the invariant ---------------------------------------------------------------------------

  /** The table and the sources are each other's inverse, and no two sources share a socket. */
  ghost predicate Inverse(s: State) {
    && (forall ip :: ip in s.table ==>
          && s.table[ip].id in s.sources
          && s.sources[s.table[ip].id] == Source(ip, s.table[ip].sock)
          && s.table[ip].addr.ip == ip)
    && (forall k :: k in s.sources ==> s.sources[k].ip in s.table && s.table[s.sources[k].ip].id == k && k < s.next)
    && (forall a, b :: a in s.sources && b in s.sources && s.sources[a].sock == s.sources[b].sock ==> a == b)
  }

  lemma ReadKeeps(s: State, e: Event)
    requires Inverse(s) && Enabled(s, e) && e.Datagram?
    ensures Inverse(Step(s, e).state)
  {}

  lemma HangUpKeeps(s: State, source: nat)
    requires Inverse(s) && source in s.sources
    ensures Inverse(HangUp(s, source))
  {}

  lemma StepKeeps(s: State, e: Event)
    requires Inverse(s) && Enabled(s, e)
    ensures Inverse(Step(s, e).state)
  {
    match e {
      case Datagram(_, _, _) => ReadKeeps(s, e);
      case Downlink(_, _) =>
      case HungUp(source) => HangUpKeeps(s, source);
    }
  }

  // ---- the theorems ------------------------------------------------------------------------------

  /** In every reachable state there is one unix socket for each peer and one peer for each
      unix socket. */
  lemma {:induction false} TableAndSourcesAreInverse(es: seq<Event>, ss: seq<State>, k: nat)
    requires IsRun(es, ss) && k <= |es|
    ensures Inverse(ss[k])
    ensures forall ip, other :: ip in ss[k].table && other in ss[k].table && ss[k].table[ip].sock == ss[k].table[other].sock ==> ip == other
  {
    if k > 0 {
      TableAndSourcesAreInverse(es, ss, k - 1);
      assert StepAt(es, ss, k - 1);
      StepKeeps(ss[k - 1], es[k - 1]);
    }
    SocketsDiffer(ss[k]);
  }

  lemma SocketsDiffer(s: State)
    requires Inverse(s)
    ensures forall ip, other :: ip in s.table && other in s.table && s.table[ip].sock == s.table[other].sock ==> ip == other
  {}

  /** The socket of the peer hangs up. */
  predicate LosesSocket(s: State, e: Event, ip: string) {
    e.HungUp? && e.source in s.sources && s.sources[e.source].ip == ip
  }

  /** The socket of a peer stays the same until that socket hangs up. */
  lemma {:induction false} SocketStays(es: seq<Event>, ss: seq<State>, j: nat, k: nat, ip: string)
    requires IsRun(es, ss) && j <= k <= |es| && ip in ss[j].table
    requires forall i :: j <= i < k ==> !LosesSocket(ss[i], es[i], ip)
    ensures ip in ss[k].table && ss[k].table[ip].sock == ss[j].table[ip].sock
  {
    if j < k {
      SocketStays(es, ss, j, k - 1, ip);
      assert StepAt(es, ss, k - 1);
    }
  }

  /** Everything a peer sends between two hang-ups of its socket is written to one socket. */
  lemma UplinkUsesOneSocket(es: seq<Event>, ss: seq<State>, j: nat, k: nat)
    requires IsRun(es, ss) && j < k < |es| && es[j].Datagram? && es[k].Datagram?
    requires SourceOf(es[j]).ip == SourceOf(es[k]).ip
    requires Step(ss[j], es[j]).output.Written?
    requires forall i :: j < i < k ==> !LosesSocket(ss[i], es[i], SourceOf(es[j]).ip)
    ensures Step(ss[k], es[k]).output == Step(ss[j], es[j]).output
  {
    assert StepAt(es, ss, j);
    SocketStays(es, ss, j + 1, k, SourceOf(es[j]).ip);
  }

  /** The source address of the last datagram of a peer. */
  function LastFrom(es: seq<Event>, ip: string): Option<Address> {
    if |es| == 0 then None
    else
      var e := es[|es| - 1];
      if e.Datagram? && SourceOf(e).ip == ip then Some(SourceOf(e)) else LastFrom(es[..|es| - 1], ip)
  }

  lemma {:induction false} AddressIsLatest(es: seq<Event>, ss: seq<State>, k: nat, ip: string)
    requires IsRun(es, ss) && k <= |es| && ip in ss[k].table
    ensures LastFrom(es[..k], ip) == Some(ss[k].table[ip].addr)
  {
    if k > 0 {
      assert StepAt(es, ss, k - 1);
      assert es[..k][..k - 1] == es[..k - 1];
      var e := es[k - 1];
      if !(e.Datagram? && SourceOf(e).ip == ip) {
        AddressIsLatest(es, ss, k - 1, ip);
      }
    }
  }

  /** A peer on the table was put there by one of its datagrams, with the socket opened then and
      the socket that datagram came through, and has not lost its socket since. */
  lemma {:induction false} PeerOrigin(es: seq<Event>, ss: seq<State>, k: nat, ip: string) returns (i: nat)
    requires IsRun(es, ss) && k <= |es| && ip in ss[k].table
    ensures i < k && es[i].Datagram? && SourceOf(es[i]).ip == ip && ip !in ss[i].table
    ensures es[i].connected == Some(ss[k].table[ip].sock) && es[i].cliSock == ss[k].table[ip].cliSock
    ensures forall n :: i <= n < k ==> !LosesSocket(ss[n], es[n], ip)
  {
    assert StepAt(es, ss, k - 1);
    if ip in ss[k - 1].table {
      i := PeerOrigin(es, ss, k - 1, ip);
    } else {
      i := k - 1;
    }
  }

  /** What comes back on a unix socket goes to the most recent address of the very peer whose
      datagrams are written to that socket, through the socket by which the datagram that opened
      it had come. */
  lemma DownlinkFindsThePeer(es: seq<Event>, ss: seq<State>, k: nat, source: nat) returns (i: nat)
    requires IsRun(es, ss) && k <= |es| && Enabled(ss[k], Downlink(source, true))
    ensures var ip := ss[k].sources[source].ip;
            var output := Step(ss[k], Downlink(source, true)).output;
            && ip in ss[k].table && output.Sent?
            && LastFrom(es[..k], ip) == Some(output.to)
            && i < k && es[i].Datagram? && SourceOf(es[i]).ip == ip && ip !in ss[i].table
            && output.cliSock == es[i].cliSock && es[i].connected == Some(ss[k].sources[source].sock)
            && (forall n :: i <= n < k ==> !LosesSocket(ss[n], es[n], ip))
            && forall e: Event :: e.Datagram? && SourceOf(e).ip == ip ==>
                 Step(ss[k], e).output == Written(ss[k].sources[source].sock)
  {
    TableAndSourcesAreInverse(es, ss, k);
    AddressIsLatest(es, ss, k, ss[k].sources[source].ip);
    i := PeerOrigin(es, ss, k, ss[k].sources[source].ip);
  }

  /** What each event of a run does to the peers: a datagram of a new peer gives it the socket
      that was opened and is written there, or is lost when none could be; a datagram of a known
      peer changes no socket; data changes nothing, and is lost when it cannot be read; a hang-up
      takes away its source and its peer and no other. */
  lemma EventOutcome(es: seq<Event>, ss: seq<State>, k: nat)
    requires IsRun(es, ss) && k < |es|
    ensures var s, r, output := ss[k], ss[k + 1], Step(ss[k], es[k]).output;
      match es[k]
      case Datagram(from, cliSock, connected) =>
        var a := match from case Some(sender) => sender case None => Address("0.0.0.0", 0);
        if a.ip in s.table then
          && r.sources == s.sources && r.table.Keys == s.table.Keys && output == Written(s.table[a.ip].sock)
        else if connected.None? then r == s && output == Nothing
        else
          && r.sources == s.sources[s.next := Source(a.ip, connected.value)]
          && r.table.Keys == s.table.Keys + {a.ip} && output == Written(connected.value)
      case Downlink(_, readable) => r == s && (!readable ==> output == Nothing)
      case HungUp(source) =>
        && source in s.sources && output == Nothing
        && r.sources == s.sources - {source} && r.table == s.table - {s.sources[source].ip}
  {
    TableAndSourcesAreInverse(es, ss, k);
    assert StepAt(es, ss, k);
  }

  // ---- the router ------------------------------------------------------------------------------------

  class Watch4 {
    var id: nat
    var sock: int
    var cliSock: int
    var addr: Address

    ghost function Value(): Watch
      reads this
    {
      Watch(id, sock, cliSock, addr)
    }

    constructor (id: nat, sock: int, cliSock: int)
      ensures Value() == Watch(id, sock, cliSock, ZERO)
    {
      this.id, this.sock, this.cliSock, this.addr := id, sock, cliSock, ZERO;
    }
  }

  class Router {
    var hash: map<string, Watch4>
    var sources: map<nat, Source>
    var next: nat

    /** No two peers share a watch. */
    ghost predicate Separate()
      reads `hash
    {
      forall a, b :: a in hash && b in hash && hash[a] == hash[b] ==> a == b
    }

    ghost function Table(): map<string, Watch>
      reads `hash, hash.Values
    {
      map ip | ip in hash :: hash[ip].Value()
    }

    ghost function Model(): State
      reads this, hash.Values
    {
      State(Table(), sources, next)
    }

    ghost predicate Valid()
      reads this, hash.Values
    {
      Separate() && Inverse(Model())
    }

    constructor ()
      ensures Valid() && Model() == Start
    {
      hash, sources, next := map[], map[], 0;
    }

    method SetAddr(a: Address)
      requires Separate() && a.ip in hash
      modifies hash[a.ip]
      ensures Model() == SetAddress(old(Model()), a)
    {
      var watch := hash[a.ip];
      watch.addr := a;
      assert Table() == old(Table())[a.ip := watch.Value()];
    }

    method NewPeer(a: Address, cliSock: int, sock: int)
      requires Separate()
      modifies this
      ensures Separate() && a.ip in hash && fresh(hash[a.ip])
      ensures hash.Values <= old(hash.Values) + {hash[a.ip]}
      ensures Model() == AddPeer(old(Model()), a, cliSock, sock)
    {
      var watch := new Watch4(next, sock, cliSock);
      sources, next := sources[next := Source(a.ip, sock)], next + 1;
      hash := hash[a.ip := watch];
      assert Table() == old(Table())[a.ip := watch.Value()];
    }

    method ReadInet4(from: Option<Address>, cliSock: int, connected: Option<int>) returns (output: Output)
      requires Separate()
      modifies this, hash.Values
      ensures Separate() && fresh(hash.Values - old(hash.Values))
      ensures Effect(Model(), output) == Read(old(Model()), SourceOf(Datagram(from, cliSock, connected)), cliSock, connected)
    {
      var a := match from case Some(sender) => sender case None => ZERO;
      var sock;
      if a.ip in hash {
        sock := hash[a.ip].sock;
      } else {
        match connected {
          case None => return Nothing;
          case Some(made) =>
            sock := made;
            NewPeer(a, cliSock, sock);
        }
      }
      SetAddr(a);
      return Written(sock);
    }

    method Downlink4(source: nat, readable: bool) returns (output: Output)
      requires source in sources
      ensures output == Forward(Model(), source, readable)
    {
      if !readable || sources[source].ip !in hash { return Nothing; }
      var watch := hash[sources[source].ip];
      return Sent(watch.cliSock, watch.addr);
    }

    method Downlink4Destroy(source: nat)
      requires Separate() && source in sources
      modifies `hash, `sources
      ensures Separate() && hash.Values <= old(hash.Values)
      ensures Model() == HangUp(old(Model()), source)
    {
      hash := hash - {sources[source].ip};
      sources := sources - {source};
      assert Table() == old(Table()) - {old(sources[source].ip)};
    }

    /** One turn of the main loop. */
    method Serve(e: Event) returns (output: Output)
      requires Valid() && Enabled(Model(), e)
      modifies this, hash.Values
      ensures Valid() && fresh(hash.Values - old(hash.Values))
      ensures Effect(Model(), output) == Step(old(Model()), e)
    {
      StepKeeps(Model(), e);
      output := Nothing;
      match e {
        case Datagram(from, cliSock, connected) => output := ReadInet4(from, cliSock, connected);
        case Downlink(source, readable) => output := Downlink4(source, readable);
        case HungUp(source) => Downlink4Destroy(source);
      }
    }

    /** The main loop. In any run the objects stand for its states one after the other, and
        what is written and sent is what the steps say. */
    method Run(es: seq<Event>, ghost ss: seq<State>) returns (outputs: seq<Output>)
      requires Valid() && IsRun(es, ss) && Model() == Start
      modifies this, hash.Values
      ensures Valid() && Model() == ss[|es|]
      ensures |outputs| == |es| && forall k :: 0 <= k < |es| ==> outputs[k] == Step(ss[k], es[k]).output
    {
      outputs := [];
      for k := 0 to |es|
        invariant Valid() && fresh(hash.Values - old(hash.Values)) && Model() == ss[k]
        invariant |outputs| == k && forall j :: 0 <= j < k ==> outputs[j] == Step(ss[j], es[j]).output
      {
        assert StepAt(es, ss, k);
        var output := Serve(es[k]);
        outputs := outputs + [output];
      }
    }
  }
}
