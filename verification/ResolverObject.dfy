/**
 The resolver as the library runs it: one object whose fields the operations
 update in place. Each method does to the fields what the corresponding step
 does to the state.
 */
module ResolverObject {
  import opened Common
  import opened Timeval
  import opened ResolverState
  import opened ResolverEnv
  import opened ResolverSteps
  import opened ResolverTcp
  import opened ResolverFlow
  import opened ResolverDone
  import opened ResolverEvents
  import opened ResolverCancel

  /** What one call of adns_cancel relies on. */
  lemma CancelInOrder(s: State, busy: set<Handle>, x: Handle)
    requires Inv(s, busy) && x in s.queries && x !in busy
    requires s.queries[x].parent.Some? ==> s.queries[x].parent.value in busy
    ensures x < s.next && ConsistencyFor(s, x)
    ensures Inv(Loosened(s, x), busy + {x}) && x in Loosened(s, x).queries && Loosened(s, x).next == s.next
    ensures Freed(CancelKids(Loosened(s, x), x), x) == CancelTree(s, x)
    ensures Inv(CancelTree(s, x), busy) && Consistency(CancelTree(s, x))
  {
    InvShape(s, busy);
    BelowNext(s, busy, x);
    LoosenedKeepsInv(s, busy, x);
    CancelComposes(s, busy, x);
    CancelTreeKeepsInv(s, busy, x);
    hide Inv, CancelKids, Tree, Without, Loosened, QueuesOk, QueriesOk, Consistency, ConsistencyFor;
    InvImpliesConsistency(s, busy);
    InvImpliesConsistency(CancelTree(s, x), busy);
  }

  class Resolver {
    const cfg: Config
    var queries: map<Handle, Query>
    var udpw: seq<Handle>
    var tcpw: seq<Handle>
    var childw: seq<Handle>
    var output: seq<Handle>
    var tcpstate: Tcp
    var socketOpen: bool
    var tcpserver: nat
    var sendUsed: nat
    var recvUsed: nat
    var recvSkip: nat
    var tcptimeout: Timeval
    var attempts: seq<nat>
    var next: Handle

    ghost function View(): State
      reads this
    {
      State(cfg, queries, udpw, tcpw, childw, output,
            Net(tcpstate, socketOpen, tcpserver, sendUsed, recvUsed, recvSkip, tcptimeout, attempts), next)
    }

    constructor (cfg: Config)
      requires cfg.nservers > 0
      ensures this.cfg == cfg && Inv(View(), {}) && queries == map[]
    {
      this.cfg := cfg;
      queries, udpw, tcpw, childw, output := map[], [], [], [], [];
      tcpstate, socketOpen, tcpserver := Disconnected, false, 0;
      sendUsed, recvUsed, recvSkip := 0, 0, 0;
      tcptimeout, attempts, next := ZERO, [], 0;
    }

    // ---- The TCP connection ----

    method CloseTcp()
      modifies this
      ensures View() == old(View()).(net := TcpClose(old(View()).net))
    {
      socketOpen := false;
      recvUsed, recvSkip, sendUsed := 0, 0, 0;
    }

    method CountRetries()
      requires NoDup(tcpw) && forall x :: x in tcpw ==> x in queries
      modifies `queries
      ensures queries.Keys == old(queries).Keys
      ensures forall x :: x in queries ==>
        queries[x] == if x in tcpw then old(queries)[x].(retries := old(queries)[x].retries + 1) else old(queries)[x]
    {
      for i := 0 to |tcpw|
        invariant queries.Keys == old(queries).Keys
        invariant forall x :: x in queries ==>
          queries[x] == if x in tcpw[..i] then old(queries)[x].(retries := old(queries)[x].retries + 1) else old(queries)[x]
      {
        var x := tcpw[i];
        assert x in tcpw && x !in tcpw[..i];
        queries := queries[x := queries[x].(retries := queries[x].retries + 1)];
      }
      assert tcpw[..|tcpw|] == tcpw;
    }

    method BreakTcp()
      requires cfg.nservers > 0
      requires NoDup(tcpw) && forall x :: x in tcpw ==> x in queries
      modifies this
      ensures View() == TcpBreak(old(View()))
    {
      var serv := tcpserver;
      if tcpstate == Connecting { CountRetries(); }
      assert queries == TcpBreak(old(View())).queries;
      CloseTcp();
      tcpstate := Broken;
      tcpserver := (serv + 1) % cfg.nservers;
    }

    method HandOver(x: Handle, env: Env)
      requires cfg.nservers > 0 && x in queries
      requires NoDup(tcpw) && forall y :: y in tcpw ==> y in queries
      modifies this
      ensures View() == HandToTcp(old(View()), x, env)
    {
      if tcpstate != Connected { return; }
      var w := env.write(x, |attempts|);
      if w == NoRoom { return; }
      queries := queries[x := queries[x].(retries := queries[x].retries + 1)];
      tcptimeout := ZERO;
      if w == Failed {
        assert View() == MarkSent(old(View()), x, 0);
        BreakTcp();
      } else {
        sendUsed := sendUsed + w.left;
      }
    }

    method TcpConnected(env: Env)
      requires cfg.nservers > 0
      requires NoDup(tcpw) && forall y :: y in tcpw ==> y in queries
      modifies this
      ensures View() == TcpUp(old(View()), env)
    {
      tcpstate := Connected;
      ghost var s0 := View();
      var i := 0;
      while i < |tcpw| && tcpstate == Connected
        invariant cfg == s0.cfg && tcpw == s0.tcpw && i <= |tcpw|
        invariant forall y :: y in tcpw ==> y in queries
        invariant SendAll(View(), i, env) == SendAll(s0, 0, env)
      {
        HandOver(tcpw[i], env);
        i := i + 1;
      }
    }

    method OpenSocket()
      modifies this
      ensures View() == OpenAttempt(old(View()))
    {
      attempts := attempts + [tcpserver];
      socketOpen := true;
      tcpstate := Connecting;
    }

    method ConnectTcp(env: Env)
      requires cfg.nservers > 0 && Normal(env.now)
      requires NoDup(tcpw) && forall y :: y in tcpw ==> y in queries
      modifies this
      ensures View() == TryConnect(old(View()), 0, env)
    {
      hide TcpBreak, TcpUp, OpenAttempt;
      ghost var s0 := View();
      var tries := 0;
      while tries < cfg.nservers
        invariant cfg == s0.cfg && tcpw == s0.tcpw && tries <= cfg.nservers
        invariant forall y :: y in tcpw ==> y in queries
        invariant TryConnect(View(), tries, env) == TryConnect(s0, 0, env)
      {
        if tcpstate != Disconnected { return; }
        var answer := env.connect(|attempts|);
        if answer == NoSocket { return; }
        OpenSocket();
        if answer == Success { TcpConnected(env); return; }
        if answer == InProgress {
          tcptimeout := TimevalAdd(env.now, TCPCONNMS);
          return;
        }
        BreakTcp();
        tcpstate := Disconnected;
        tries := tries + 1;
      }
    }

    // ---- Cancelling ----

    /** LIST_UNLINK from the queue of x's phase. */
    method UnlinkQuery(x: Handle)
      requires x in queries
      modifies this
      ensures View() == Unlink(old(View()), x)
    {
      match queries[x].phase {
        case ToSend => udpw := Remove(udpw, {x});
        case TcpWait => tcpw := Remove(tcpw, {x});
        case ChildWait => childw := Remove(childw, {x});
        case Done => output := Remove(output, {x});
      }
    }

    /** LIST_LINK_TAIL to the queue of x's phase. */
    method LinkQuery(x: Handle)
      requires x in queries
      modifies this
      ensures View() == LinkTail(old(View()), x)
    {
      match queries[x].phase {
        case ToSend => udpw := udpw + [x];
        case TcpWait => tcpw := tcpw + [x];
        case ChildWait => childw := childw + [x];
        case Done => output := output + [x];
      }
    }

    method Loosen(x: Handle)
      requires x in queries
      modifies this
      ensures View() == Loosened(old(View()), x)
    {
      var q := queries[x];
      if q.parent.Some? && q.parent.value in queries {
        var p := q.parent.value;
        queries := queries[p := queries[p].(children := Remove(queries[p].children, {x}))];
      }
      assert View() == LeftParent(old(View()), x);
      UnlinkQuery(x);
    }

    method Forget(x: Handle)
      modifies this
      ensures View() == Freed(old(View()), x)
    {
      queries := map h | h in queries && h != x :: queries[h];
    }

    /** adns_cancel: x, which is on its queue, goes with all its descendants. The
        library's check of itself passes on entry and on return, in every call. */
    method Cancel(x: Handle, ghost busy: set<Handle>)
      requires Inv(View(), busy)
      requires x in queries && x !in busy
      requires queries[x].parent.Some? ==> queries[x].parent.value in busy
      requires forall y :: y in busy ==> y <= x
      modifies this
      ensures View() == CancelTree(old(View()), x)
      ensures ConsistencyFor(old(View()), x)
      ensures Inv(View(), busy) && Consistency(View())
      decreases next - x, 1
    {
      ghost var s := View();
      CancelInOrder(s, busy, x);
      hide Inv, CancelKids, CancelTree, Loosened, Freed, Consistency, ConsistencyFor;
      Loosen(x);
      CancelChildren(x, busy + {x});
      Forget(x);
    }

    /** cancel_children */
    method CancelChildren(x: Handle, ghost busy: set<Handle>)
      requires Inv(View(), busy)
      requires x in queries && x in busy
      requires forall y :: y in busy ==> y <= x
      modifies this
      ensures View() == CancelKids(old(View()), x)
      decreases next - x, 0
    {
      ghost var s := View();
      var kids := queries[x].children;
      InvShape(s, busy);
      WithoutNothing(s);
      AllTrees(s, busy, x);
      hide Inv, QueuesOk, QueriesOk, Without, Tree, KidsOk, Consistency, ConsistencyFor;
      for i := 0 to |kids|
        invariant View() == Without(s, TreesOf(s, kids, i))
      {
        ghost var U := TreesOf(s, kids, i);
        ChildOnItsOwn(s, busy, x, i);
        Cancel(kids[i], busy);
        WithoutTwice(s, U, Tree(s, kids[i]));
      }
    }

    // ---- Sending ----

    method SendBySocket(x: Handle, how: SendBy, env: Env)
      requires cfg.nservers > 0 && x in queries && Normal(env.now)
      requires NoDup(tcpw) && x !in tcpw && forall y :: y in tcpw ==> y in queries
      requires View().net.Open() ==> |attempts| > 0
      modifies this
      ensures View() == SentBy(old(View()), x, how, env)
    {
      var q := queries[x];
      match how
      case ByUdp(server, nextServer) =>
        queries := queries[x := UdpRecord(cfg, q, server, nextServer, env.now)];
        LinkQuery(x);
      case ByTcp =>
        var open := tcpstate == Connecting || tcpstate == Connected;
        queries := queries[x := q.(phase := TcpWait, retries := 0, timeout := TimevalAdd(env.now, TCPWAITMS),
                                   joined := if open then |attempts| - 1 else |attempts|)];
        LinkQuery(x);
        assert View() == OnTcpw(old(View()), x, env);
        hide OnTcpw, LinkTail;
        HandOver(x, env);
        ConnectTcp(env);
    }

    method Allocate(q: Query) returns (x: Handle)
      modifies this
      ensures x == old(next) && View() == AddQuery(old(View()), q)
    {
      x := next;
      queries := queries[x := q];
      next := next + 1;
    }

    method NewQuery(how: SendBy, env: Env) returns (c: Handle)
      requires QueuesOk(View(), {}) || exists p :: QueuesOk(View(), {p})
      requires NetOk(cfg, View().net) && (forall y :: y in queries ==> y < next) && Normal(env.now)
      modifies this
      ensures c == old(next) && View() == SubmitFresh(old(View()), how, env)
    {
      c := Allocate(VirginQuery(next, false, false));
      assert c !in tcpw;
      hide QueuesOk, SentBy;
      SendBySocket(c, how, env);
    }

    method LinkChild(p: Handle, c: Handle)
      requires p in queries && c in queries && p != c
      modifies this
      ensures View() == Adopt(old(View()), p, c)
    {
      queries := queries[c := queries[c].(parent := Some(p))][p := queries[p].(children := queries[p].children + [c])];
    }

    /** adns__internal_submit, and linking the new query to its parent. */
    method NewChild(p: Handle, how: SendBy, env: Env)
      requires Inv(View(), {p}) && p in queries && EnvOk(env)
      modifies this
      ensures View() == SubmitChild(old(View()), p, how, env)
    {
      ghost var s := View();
      SubmitFreshKeepsInv(s, p, how, env);
      assert p < next;
      var c := NewQuery(how, env);
      hide SubmitFresh, Inv, QueuesOk;
      LinkChild(p, c);
    }

    method NewChildren(p: Handle, kids: seq<SendBy>, env: Env)
      requires Inv(View(), {p}) && p in queries && Attached(View(), p) && EnvOk(env)
      modifies this
      ensures View() == SubmitAll(old(View()), p, kids, env)
    {
      ghost var s := View();
      var i := 0;
      while i < |kids|
        invariant i <= |kids|
        invariant Inv(View(), {p}) && p in queries && Attached(View(), p)
        invariant SubmitAll(View(), p, kids[i..], env) == SubmitAll(s, p, kids, env)
      {
        ghost var s1 := View();
        SubmitChildKeepsInv(s1, p, kids[i], env);
        SubmitAllStep(s1, p, kids[i..], env);
        assert kids[i..][0] == kids[i] && kids[i..][1..] == kids[i+1..];
        hide SubmitChild, SubmitAll, Inv, Attached;
        NewChild(p, kids[i], env);
        i := i + 1;
      }
    }

    // ---- Finishing ----

    /** adns__reset_preserved, and the error status. */
    method ResetQuery(x: Handle, st: Status)
      requires Inv(View(), {x}) && x in queries
      modifies this
      ensures View() == Reset(old(View()), x, st)
    {
      ghost var s := View();
      var q := queries[x];
      CancelKidsAtRoot(s, x);
      hide CancelKids;
      CancelChildren(x, {x});
      queries := queries[x := Zap(q, st)];
    }

    method PutOutput(x: Handle, env: Env)
      requires x in queries
      modifies this
      ensures View() == ToOutput(old(View()), x, env.fault(x))
    {
      queries := queries[x := Finalised(queries[x], env.fault(x))];
      output := output + [x];
    }

    method DetachChild(x: Handle, p: Handle)
      requires x in queries && p in queries && x != p
      modifies this
      ensures View() == Detach(old(View()), x, p)
    {
      var kids := Remove(queries[p].children, {x});
      var q := queries[p];
      queries := map h | h in queries && h != x :: queries[h];
      queries := queries[p := q.(children := kids)];
      childw := Remove(childw, {p});
    }

    /** adns__query_done */
    method Finish(x: Handle, env: Env)
      requires Inv(View(), {x}) && x in queries && Attached(View(), x) && queries[x].phase != Done && EnvOk(env)
      modifies this
      ensures View() == QueryDone(old(View()), x, env)
      decreases x, if Refused(queries[x], env.fault(x)) then 1 else 0
    {
      hide Inv, Attached, CancelKids, Reset, Detach, ToOutput, Completed, QueryDone, QueuesOk, QueriesOk, Zap, EnvOk;
      ghost var s := View();
      InvShape(s, {x});
      var refused, parent := Refused(queries[x], env.fault(x)), queries[x].parent;
      hide Refused;
      if refused {
        DoneWhenRefused(s, x, env);
        CancelChildren(x, {x});
        ResetQuery(x, StNoMemory);
        Finish(x, env);
      } else if parent.None? {
        DoneAtRoot(s, x, env);
        CancelChildren(x, {x});
        PutOutput(x, env);
      } else {
        DoneBelowParent(s, x, env);
        CancelChildren(x, {x});
        DetachChild(x, parent.value);
        Callback(parent.value, env.verdict(parent.value, x), env);
      }
    }

    /** The completion callback of a child of p. */
    method Callback(p: Handle, v: Verdict, env: Env)
      requires Inv(View(), {p}) && p in queries && Attached(View(), p) && EnvOk(env)
      requires queries[p].phase == ChildWait && queries[p].id >= 0
      modifies this
      ensures View() == Completed(old(View()), p, v, env)
      decreases p, 2
    {
      ghost var s := View();
      CompletedUnfolds(s, p, v, env);
      hide *;
      match v
      case Finish => Finish(p, env);
      case Abort(st) =>
        ResetKeepsInv(s, p, st, env.now);
        ResetQuery(p, st);
        Finish(p, env);
      case Continue(kids) =>
        SubmitAllKeepsInv(s, p, kids, env);
        NewChildren(p, kids, env);
        if queries[p].children == [] {
          Finish(p, env);
        } else {
          LinkQuery(p);
        }
    }

    /** adns__query_fail */
    method Fail(x: Handle, st: Status, env: Env)
      requires Inv(View(), {x}) && x in queries && Attached(View(), x) && queries[x].phase != Done && EnvOk(env)
      modifies this
      ensures View() == QueryFail(old(View()), x, st, env)
    {
      ghost var s := View();
      ResetKeepsInv(s, x, st, env.now);
      assert QueryFail(s, x, st, env) == QueryDone(Reset(s, x, st), x, env);
      hide *;
      ResetQuery(x, st);
      Finish(x, env);
    }

    // ---- The caller's operations, and replies ----

    /** adns__query_send. aborted: its assertion fails and the process ends. */
    method Send(x: Handle, how: SendBy, env: Env) returns (aborted: bool)
      requires Held(View(), x) && queries[x].id >= 0 && EnvOk(env)
      modifies this
      ensures var r := QuerySend(old(View()), x, how, env); View() == r.s && aborted == r.Aborted?
    {
      HeldPhase(View(), x);
      hide Inv, Attached, SentBy, QueryFail, Follows, Held;
      if queries[x].phase != ToSend { return true; }
      aborted := false;
      if how.ByUdp? && queries[x].retries >= UDPMAXRETRIES {
        Fail(x, StTimeout, env);
      } else {
        NetInOrder(View(), x);
        SendBySocket(x, how, env);
      }
    }

    /** query_simple, for the name the search has come to. */
    method SimpleQuery(x: Handle, name: Candidate, env: Env) returns (aborted: bool)
      requires Held(View(), x) && EnvOk(env)
      modifies this
      ensures var r := QuerySimple(old(View()), x, name, env); View() == r.s && aborted == r.Aborted?
      decreases NamesLeft(queries[x], cfg.nsearch), 2
    {
      hide Inv, Attached, QueryFail, QuerySend, QuerySimple, SearchNext, Held, NextName;
      HeldPhase(View(), x);
      QuerySimpleUnfolds(View(), x, name, env);
      aborted := false;
      match env.message(x, name)
      case NoMemory => Fail(x, StNoMemory, env);
      case Unbuilt(st) =>
        if st == StTooLong && queries[x].search {
          aborted := NextSearch(x, env);
        } else {
          Fail(x, st, env);
        }
      case Built(id) =>
        queries := queries[x := queries[x].(id := id)];
        aborted := Send(x, env.how(x), env);
    }

    /** adns__search_next */
    method NextSearch(x: Handle, env: Env) returns (aborted: bool)
      requires Held(View(), x) && EnvOk(env)
      modifies this
      ensures var r := SearchNext(old(View()), x, env); View() == r.s && aborted == r.Aborted?
      decreases NamesLeft(queries[x], cfg.nsearch), 1
    {
      hide Inv, Attached, QueryFail, Follows;
      ghost var s := View();
      HeldRanges(s, x);
      var q := queries[x];
      var name: Candidate;
      if q.searchAbs < 0 {
        name := Absolute;
        q := q.(searchAbs := 1);
      } else if q.searchPos >= cfg.nsearch {
        if q.searchAbs != 0 { Fail(x, StNxDomain, env); return false; }
        name := Absolute;
        q := q.(searchAbs := 1);
      } else {
        name := Entry(q.searchPos);
        q := q.(searchPos := q.searchPos + 1);
      }
      assert NextName(s.queries[x], cfg.nsearch) == (Some(name), q);
      StillHeld(s, x, q, env.now);
      queries := queries[x := q];
      aborted := SimpleQuery(x, name, env);
    }

    /** adns_submit */
    method SubmitQuery(req: Request, owner: bool, env: Env) returns (x: Handle)
      requires Inv(View(), {}) && EnvOk(env)
      modifies this
      ensures x == old(next) && View() == Submit(old(View()), req, owner, env)
    {
      ghost var s := View();
      AddQueryKeepsInv(s, {}, CallerQuery(req, owner));
      assert {} + {s.next} == {s.next};
      assert Held(AddQuery(s, CallerQuery(req, owner)), s.next);
      hide Inv, Attached, QueryFail, SearchNext, QuerySimple, Follows, Held;
      x := Allocate(CallerQuery(req, owner));
      match req
      case Invalid(st) => Fail(x, st, env);
      case Search(_) => var _ := NextSearch(x, env);
      case Plain => var _ := SimpleQuery(x, Absolute, env);
    }

    method AwaitChildren(x: Handle, env: Env)
      requires Inv(View(), {x}) && x in queries && Attached(View(), x) && EnvOk(env)
      requires queries[x].phase != Done && queries[x].id >= 0 && RangesOk(cfg, queries[x])
      modifies this
      ensures View() == WaitOrDone(old(View()), x, env)
    {
      hide Inv, Attached, Follows, QueryDone;
      if queries[x].children == [] {
        Finish(x, env);
      } else {
        queries := queries[x := queries[x].(phase := ChildWait)];
        LinkQuery(x);
      }
    }

    method StartAgain(x: Handle, kids: seq<SendBy>, how: SendBy, env: Env)
      requires Inv(View(), {x}) && x in queries && Attached(View(), x) && EnvOk(env)
      requires queries[x].phase != Done && queries[x].id >= 0 && RangesOk(cfg, queries[x])
      modifies this
      ensures View() == RestartQuery(old(View()), x, kids, how, env)
    {
      hide Inv, Attached, Follows, QuerySend, SubmitAll, Reset, Ready, Zap;
      ghost var s := View();
      var st := queries[x].status;
      SubmitAllKeepsInv(s, x, kids, env);
      NewChildren(x, kids, env);
      ghost var s1 := View();
      ResetKeepsInv(s1, x, st, env.now);
      ZapRanges(s1.queries[x], st, cfg);
      ResetQuery(x, st);
      ghost var s2 := View();
      var q := Restarted(queries[x], env.now);
      assert !Later(env.now, env.now);
      Reworked(s2, x, q, env.now);
      queries := queries[x := q];
      NowReady(View(), x);
      NowHeld(View(), x);
      var aborted := Send(x, how, env);
    }

    /** A reply to x, which is off its queue. */
    method HandleReply(x: Handle, reply: Reply, env: Env) returns (aborted: bool)
      requires Held(View(), x) && EnvOk(env) && queries[x].id >= 0
      modifies this
      ensures var r := Processed(old(View()), x, reply, env); View() == r.s && aborted == r.Aborted?
    {
      hide Inv, Attached, Follows, QueryDone, QueryFail, SubmitAll, WaitOrDone, SearchNext, RestartQuery, Ready, Held, EnvOk;
      HeldPhase(View(), x);
      HeldRanges(View(), x);
      ghost var s := View();
      aborted := false;
      match reply
      case Answered(st, nrrs, allocs, interim) =>
        Reworked(s, x, Filled(queries[x], st, nrrs, allocs, interim), env.now);
        queries := queries[x := Filled(queries[x], st, nrrs, allocs, interim)];
        Finish(x, env);
      case Rejected(st) => Fail(x, st, env);
      case NeedsChildren(kids) =>
        SubmitAllKeepsInv(s, x, kids, env);
        NewChildren(x, kids, env);
        AwaitChildren(x, env);
      case NextNameWanted => aborted := NextSearch(x, env);
      case Restart(kids, how) => StartAgain(x, kids, how, env);
    }

    /** A reply to x has been received and understood. */
    method TakeReply(x: Handle, reply: Reply, env: Env) returns (aborted: bool)
      requires Inv(View(), {}) && EnvOk(env) && x in queries && (x in udpw || x in tcpw)
      modifies this
      ensures var r := ProcessReply(old(View()), x, reply, env); View() == r.s && aborted == r.Aborted?
    {
      ghost var s := View();
      TakenOffHeld(s, x, env.now);
      hide Inv, Attached, Follows, Processed, Unlink, Held;
      UnlinkQuery(x);
      aborted := HandleReply(x, reply, env);
    }

    /** adns_cancel of a query the caller submitted. */
    method CancelQuery(x: Handle)
      requires Inv(View(), {}) && x in queries && queries[x].parent.None?
      modifies this
      ensures View() == CancelTree(old(View()), x) && Inv(View(), {}) && x !in queries
    {
      CancelKeepsInv(View(), x);
      hide Inv, QueuesOk, QueriesOk, CancelTree, Consistency, ConsistencyFor;
      Cancel(x, {});
    }

    /** The caller takes the finished query x away. */
    method Give(x: Handle)
      modifies this
      ensures View() == HandBack(old(View()), x)
    {
      output := Remove(output, {x});
      queries := map h | h in queries && h != x :: queries[h];
    }

    /** adns__internal_check */
    method Check(want: Option<Handle>) returns (res: CheckResult)
      requires Inv(View(), {}) && (want.Some? ==> want.value in queries)
      modifies this
      ensures (res, View()) == InternalCheck(old(View()), want)
      ensures Inv(View(), {})
      ensures res == NoneOutstanding <==> old(queries) == map[]
    {
      ghost var s := View();
      CheckIsExact(s, want);
      CheckShape(s);
      hide Inv, HandBack;
      var x: Handle;
      if want.None? {
        if output == [] {
          if udpw != [] || tcpw != [] { return Again; }
          return NoneOutstanding;
        }
        x := output[0];
      } else {
        x := want.value;
        if queries[x].id >= 0 { return Again; }
      }
      res := Got(x, queries[x].status);
      Give(x);
    }
  }
}
