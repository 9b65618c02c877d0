/**
 The resolver's state as a value: the table of live queries, the four queues,
 the TCP connection, and the invariant every step keeps.
 A query is named by its handle (the C pointer); handles are never reused.
 */
module ResolverState {
  import opened Common
  import opened Timeval

  const UDPMAXRETRIES := 15
  const UDPRETRYMS := 2000
  const TCPWAITMS := 30000
  const TCPCONNMS := 14000
  const TCPIDLEMS := 30000

  type Handle = nat

  datatype Phase = ToSend | TcpWait | ChildWait | Done

  datatype Tcp = Disconnected | Connecting | Connected | Broken

  datatype Status = StOk | StNoMemory | StTimeout | StAllServFail | StNxDomain | StTooLong | StOther(code: nat)

  /** struct adns__query. joined is a history value: how many connection
      attempts had been made and given up when the query entered tcpw. */
  datatype Query = Query(
    phase: Phase, parent: Option<Handle>, children: seq<Handle>,
    allocs: nat, interim: nat, preserved: nat, nrrs: nat,
    id: int, retries: nat, udpnext: nat, udpsent: set<nat>,
    searchPos: nat, searchAbs: int, search: bool, owner: bool,
    timeout: Timeval, status: Status, joined: nat)

  datatype Config = Config(nservers: nat, nsearch: nat)

  /** The shared TCP connection. attempts is the history of connection
      attempts, each the index of the server tried. */
  datatype Net = Net(
    tcp: Tcp, socketOpen: bool, server: nat,
    sendUsed: nat, recvUsed: nat, recvSkip: nat,
    timeout: Timeval, attempts: seq<nat>)
  {
    predicate Open() { tcp == Connecting || tcp == Connected }
  }

  /** struct adns__state. */
  datatype State = State(
    cfg: Config, queries: map<Handle, Query>,
    udpw: seq<Handle>, tcpw: seq<Handle>, childw: seq<Handle>, output: seq<Handle>,
    net: Net, next: Handle)

  // ---- The invariant ----

  ghost predicate RangesOk(cfg: Config, q: Query) {
    && q.udpnext < cfg.nservers
    && (forall i :: i in q.udpsent ==> i < cfg.nservers)
    && q.searchPos <= cfg.nsearch
    && Normal(q.timeout)
  }

  /** What each queue asks of its members. */
  ghost predicate PhaseOk(cfg: Config, q: Query) {
    && (q.phase == Done <==> q.id < 0)
    && match q.phase {
         case ToSend => q.retries <= UDPMAXRETRIES && q.udpsent != {} && q.children == []
         case TcpWait => q.retries <= cfg.nservers + 1 && q.children == []
         case ChildWait => q.children != []
         case Done => q.children == [] && q.parent.None? && q.allocs == 0
       }
  }

  ghost predicate Attached(s: State, x: Handle)
    requires x in s.queries
  {
    var p := s.queries[x].parent;
    p.Some? ==> p.value in s.queries && x in s.queries[p.value].children
  }

  ghost predicate KidsOk(s: State, x: Handle)
    requires x in s.queries
  {
    && NoDup(s.queries[x].children)
    && forall c :: c in s.queries[x].children ==>
         c in s.queries && s.queries[c].parent == Some(x) && s.queries[c].phase != Done
  }

  ghost predicate QueueIs(s: State, busy: set<Handle>, q: seq<Handle>, ph: Phase) {
    && NoDup(q)
    && forall x :: x in q <==> x in s.queries && x !in busy && s.queries[x].phase == ph
  }

  ghost predicate QueuesOk(s: State, busy: set<Handle>) {
    && QueueIs(s, busy, s.udpw, ToSend)
    && QueueIs(s, busy, s.tcpw, TcpWait)
    && QueueIs(s, busy, s.childw, ChildWait)
    && QueueIs(s, busy, s.output, Done)
  }

  ghost predicate QueriesOk(s: State, busy: set<Handle>) {
    forall x :: x in s.queries ==>
      && x < s.next
      && RangesOk(s.cfg, s.queries[x])
      && KidsOk(s, x)
      && (s.queries[x].parent.Some? ==> s.queries[x].parent.value < x)
      && (x !in busy ==> PhaseOk(s.cfg, s.queries[x]) && Attached(s, x))
  }

  ghost predicate NetOk(cfg: Config, n: Net) {
    && n.server < cfg.nservers
    && (n.Open() <==> n.socketOpen)
    && (n.tcp != Connected ==> n.sendUsed == n.recvUsed == n.recvSkip == 0)
    && n.recvSkip <= n.recvUsed
    && Normal(n.timeout)
    && (n.Open() ==> |n.attempts| > 0 && n.attempts[|n.attempts| - 1] == n.server)
    && forall i :: 0 <= i < |n.attempts| ==> n.attempts[i] < cfg.nservers
  }

  /** Attempt i was made to the server after that of attempt i - 1. */
  ghost predicate FollowsOn(attempts: seq<nat>, nservers: nat, i: nat)
    requires 0 < i < |attempts| && nservers > 0
  {
    attempts[i] == (attempts[i-1] + 1) % nservers
  }

  /** The attempts made from index j on go round the servers one by one, and so
      will the next one. */
  ghost predicate GoesRound(nservers: nat, n: Net, j: nat)
    requires nservers > 0
  {
    && (forall i :: j < i < |n.attempts| ==> FollowsOn(n.attempts, nservers, i))
    && (!n.Open() && j < |n.attempts| ==> n.server == (n.attempts[|n.attempts|-1] + 1) % nservers)
  }

  /** How many retries a query on tcpw may have while the connection is in this
      state. unsent: the query has not been handed to the open connection yet. */
  function RetryLimit(cfg: Config, tcp: Tcp, unsent: bool): nat {
    match tcp {
      case Disconnected => cfg.nservers
      case Connecting => cfg.nservers
      case Connected => if unsent then cfg.nservers else cfg.nservers + 1
      case Broken => cfg.nservers + 1
    }
  }

  /** Retries never outrun the connection attempts the query has witnessed. */
  ghost predicate RetryOk(cfg: Config, n: Net, retries: nat, joined: nat, unsent: bool)
    requires cfg.nservers > 0
  {
    && retries <= RetryLimit(cfg, n.tcp, unsent)
    && joined <= |n.attempts|
    && (n.Open() ==> joined < |n.attempts|)
    && GoesRound(cfg.nservers, n, joined)
    && retries + (if n.tcp == Connecting || (n.tcp == Connected && unsent) then 1 else 0)
       <= |n.attempts| - joined
  }

  ghost predicate RetriesOk(s: State) {
    s.cfg.nservers > 0 &&
    forall x :: x in s.tcpw ==>
      x in s.queries && RetryOk(s.cfg, s.net, s.queries[x].retries, s.queries[x].joined, false)
  }

  /** The invariant, with the queries of busy taken off their queues for processing. */
  ghost predicate Inv(s: State, busy: set<Handle>) {
    NetOk(s.cfg, s.net) && QueuesOk(s, busy) && QueriesOk(s, busy) && RetriesOk(s)
  }

  // ---- The consistency check the library runs on itself ----

  ghost predicate CheckQuery(s: State, x: Handle)
    requires x in s.queries
  {
    var q := s.queries[x];
    && q.udpnext < s.cfg.nservers
    && (forall i :: i in q.udpsent ==> i < s.cfg.nservers)
    && q.searchPos <= s.cfg.nsearch
    && (q.parent.Some? ==> q.parent.value in s.queries && x in s.queries[q.parent.value].children)
  }

  ghost predicate CheckGlobal(s: State) {
    var n := s.net;
    && n.server < s.cfg.nservers
    && match n.tcp {
         case Connecting => n.socketOpen && n.sendUsed == 0 && n.recvUsed == 0 && n.recvSkip == 0
         case Disconnected => !n.socketOpen && n.sendUsed == 0 && n.recvUsed == 0 && n.recvSkip == 0
         case Broken => !n.socketOpen && n.sendUsed == 0 && n.recvUsed == 0 && n.recvSkip == 0
         case Connected => n.socketOpen && n.recvSkip <= n.recvUsed
       }
  }

  ghost predicate CheckQueueUdpw(s: State) {
    && NoDup(s.udpw)
    && forall x :: x in s.udpw ==> (
         && x in s.queries && CheckQuery(s, x)
         && var q := s.queries[x];
            q.phase == ToSend && q.retries <= UDPMAXRETRIES && q.udpsent != {} && q.children == [])
  }

  ghost predicate CheckQueueTcpw(s: State) {
    && NoDup(s.tcpw)
    && forall x :: x in s.tcpw ==> (
         && x in s.queries && CheckQuery(s, x)
         && var q := s.queries[x];
            q.phase == TcpWait && q.children == [] && q.retries <= s.cfg.nservers + 1)
  }

  ghost predicate CheckQueueChildw(s: State) {
    && NoDup(s.childw)
    && forall x :: x in s.childw ==> (
         && x in s.queries && CheckQuery(s, x)
         && var q := s.queries[x];
            q.phase == ChildWait && q.children != [] && NoDup(q.children) &&
            forall c :: c in q.children ==> c in s.queries && s.queries[c].parent == Some(x) && s.queries[c].phase != Done)
  }

  ghost predicate CheckQueueOutput(s: State) {
    && NoDup(s.output)
    && forall x :: x in s.output ==> (
         && x in s.queries && CheckQuery(s, x)
         && var q := s.queries[x];
            q.phase == Done && q.children == [] && q.parent.None? && q.allocs == 0)
  }

  /** adns__consistency(ads,0,...) */
  ghost predicate Consistency(s: State) {
    CheckGlobal(s) && CheckQueueUdpw(s) && CheckQueueTcpw(s) && CheckQueueChildw(s) && CheckQueueOutput(s)
  }

  function QueueOf(s: State, ph: Phase): seq<Handle> {
    match ph {
      case ToSend => s.udpw
      case TcpWait => s.tcpw
      case ChildWait => s.childw
      case Done => s.output
    }
  }

  /** adns__consistency(ads,qu,...): qu is on the queue of its state, too. */
  ghost predicate ConsistencyFor(s: State, x: Handle) {
    Consistency(s) && x in s.queries && x in QueueOf(s, s.queries[x].phase)
  }

  /** The invariant implies the whole run-time check, also while queries are being
      processed, and places every query that is not on the queue of its phase. */
  lemma InvImpliesConsistency(s: State, busy: set<Handle>)
    requires Inv(s, busy)
    ensures Consistency(s)
    ensures forall x :: x in s.queries && x !in busy ==> ConsistencyFor(s, x)
  {
  }

  lemma EveryQueryOnItsQueue(s: State)
    requires Inv(s, {})
    ensures forall x, ph :: x in s.queries ==> (x in QueueOf(s, ph) <==> s.queries[x].phase == ph)
    ensures forall x, ph :: x in QueueOf(s, ph) ==> x in s.queries
  {
  }

  /** A query waiting for children has a descendant waiting for the network. */
  ghost predicate Under(s: State, h: Handle, x: Handle)
    decreases h
  {
    h == x || (h in s.queries && s.queries[h].parent.Some? && s.queries[h].parent.value < h
               && Under(s, s.queries[h].parent.value, x))
  }

  lemma {:induction false} UnderTransitive(s: State, a: Handle, b: Handle, c: Handle)
    requires Under(s, a, b) && Under(s, b, c)
    ensures Under(s, a, c)
    decreases a
  {
    if a != b { UnderTransitive(s, s.queries[a].parent.value, b, c); }
  }

  lemma {:induction false} WaitingParentHasNetworkDescendant(s: State, x: Handle) returns (d: Handle)
    requires Inv(s, {})
    requires x in s.childw
    ensures Under(s, d, x)
    ensures d in s.udpw || d in s.tcpw
    decreases s.next - x
  {
    var c := s.queries[x].children[0];
    assert c in s.queries[x].children;
    assert Under(s, x, x);
    assert Under(s, c, x);
    if c in s.childw {
      d := WaitingParentHasNetworkDescendant(s, c);
      UnderTransitive(s, d, c, x);
    } else {
      d := c;
    }
  }

  /** So nothing on udpw, tcpw and output means nothing outstanding at all. */
  lemma QuiescentMeansEmpty(s: State)
    requires Inv(s, {})
    ensures s.udpw == [] && s.tcpw == [] && s.output == [] <==> s.queries == map[]
  {
    if s.udpw == [] && s.tcpw == [] && s.output == [] {
      forall x ensures x !in s.queries {
        if x in s.queries {
          assert x in s.childw;
          var d := WaitingParentHasNetworkDescendant(s, x);
          assert false;
        }
      }
    } else {
      var q := if s.udpw != [] then s.udpw else if s.tcpw != [] then s.tcpw else s.output;
      assert q[0] in s.queries;
    }
  }
}
