/**
 The loop over the TCP connection that runs when timeouts may be acted on: it fails
 spent queries, connects, gives up attempts and closes an idle connection, until
 there is nothing to do.
 */
module ResolverLoop {
  import opened Common
  import opened Timeval
  import opened ResolverState
  import opened ResolverEnv
  import opened ResolverSteps
  import opened ResolverTcp
  import opened ResolverFlow
  import opened ResolverDone
  import opened ResolverLoss
  import opened ResolverEvents
  import opened ResolverBroken
  import opened ResolverObject
  import opened ResolverPurge

  // ---- The connection's part ----

  /** Steps that only touch the connection and the retries follow too. */
  lemma RetriesFollow(s: State, r: State, now: Timeval)
    requires Inv(s, {}) && OnlyRetries(s, r)
    ensures Follows(s, r, now)
  {
    hide QueuesOk, NetOk, RetriesOk, PhaseOk, KidsOk;
  }

  /** What the connection still wants done at time now. */
  predicate TcpSettled(tcp: Tcp, idle: bool, timeout: Timeval, now: Timeval) {
    match tcp
    case Broken => false
    case Disconnected => idle
    case Connecting => !Later(now, timeout)
    case Connected => !idle || (timeout.sec != 0 && !Later(now, timeout))
  }

  lemma NetOnlyKeepsQueries(s: State, r: State)
    requires QueriesOk(s, {}) && r == s.(net := r.net)
    ensures QueriesOk(r, {})
  {
    SameTableKeepsQueries(s, r, {}, {});
  }

  /** A connection that is down, after its spent queries have been failed. */
  lemma BackToDisconnected(s: State)
    requires Inv(s, {}) && s.net.tcp == Broken && SpentOnTcpw(s) == {}
    ensures Inv(s.(net := s.net.(tcp := Disconnected)), {})
    ensures OnlyRetries(s, s.(net := s.net.(tcp := Disconnected)))
  {
    var r := s.(net := s.net.(tcp := Disconnected));
    forall x | x in s.tcpw
      ensures x in r.queries && RetryOk(r.cfg, r.net, r.queries[x].retries, r.queries[x].joined, false)
    {
      assert x !in SpentOnTcpw(s);
      assert RetryOk(s.cfg, s.net, s.queries[x].retries, s.queries[x].joined, false);
    }
    hide QueriesOk;
    OnlyRetriesKeepsQueues(s, r, {});
    NetOnlyKeepsQueries(s, r);
  }

  lemma {:induction false} SendAllAttempts(s: State, i: nat, env: Env)
    requires s.cfg.nservers > 0 && forall x :: x in s.tcpw ==> x in s.queries
    ensures SendAll(s, i, env).net.attempts == s.net.attempts
    ensures s.net.tcp == Connected ==> SendAll(s, i, env).net.tcp == Connected || SendAll(s, i, env).net.tcp == Broken
    decreases |s.tcpw| - i
  {
    if i < |s.tcpw| && s.net.tcp == Connected {
      SendAllAttempts(HandToTcp(s, s.tcpw[i], env), i + 1, env);
    }
  }

  /** One attempt is made, and it is either in progress or has come through. */
  lemma OneAttempt(s: State, env: Env)
    requires Inv(s, {}) && EnvOk(env) && s.net.tcp == Disconnected && env.connect(|s.net.attempts|) != NoSocket
    ensures var r := TryConnect(s, 0, env);
            && Inv(r, {}) && OnlyRetries(s, r) && |r.net.attempts| == |s.net.attempts| + 1
            && (env.connect(|s.net.attempts|) == InProgress ==>
                  r.net.tcp == Connecting && !Later(env.now, r.net.timeout))
            && r.net.tcp != Disconnected
  {
    UnrefusedKeepsInv(s, {}, env);
    NotLaterThanNow(env.now, TCPCONNMS);
    var s1 := OpenAttempt(s);
    InvTcpw(s);
    if env.connect(|s.net.attempts|) == Success {
      SendAllAttempts(s1.(net := s1.net.(tcp := Connected)), 0, env);
    }
    hide Inv, OnlyRetries, SendAll;
  }

  lemma CloseIdleKeepsInv(s: State)
    requires Inv(s, {}) && s.net.tcp == Connected && s.tcpw == []
    ensures var r := s.(net := TcpClose(s.net).(tcp := Disconnected));
            Inv(r, {}) && OnlyRetries(s, r)
  {
    var r := s.(net := TcpClose(s.net).(tcp := Disconnected));
    hide QueriesOk;
    OnlyRetriesKeepsQueues(s, r, {});
    NetOnlyKeepsQueries(s, r);
  }

  lemma IdleTimerKeepsInv(s: State, t: Timeval)
    requires Inv(s, {}) && Normal(t)
    ensures var r := s.(net := s.net.(timeout := t)); Inv(r, {}) && OnlyRetries(s, r)
  {
    var r := s.(net := s.net.(timeout := t));
    assert RetriesOk(r) by {
      forall x | x in s.tcpw
        ensures x in r.queries && RetryOk(r.cfg, r.net, r.queries[x].retries, r.queries[x].joined, false)
      {
        assert RetryOk(s.cfg, s.net, s.queries[x].retries, s.queries[x].joined, false);
      }
    }
    hide QueriesOk;
    OnlyRetriesKeepsQueues(s, r, {});
    NetOnlyKeepsQueries(s, r);
  }

  ghost function Rank(tcp: Tcp, timeout: Timeval, now: Timeval): nat {
    match tcp
    case Connecting => if Later(now, timeout) then 3 else 0
    case Broken => 2
    case Disconnected => 1
    case Connected => 0
  }

  /** The state once the idle timer has been started, if it has to be. */
  function IdleStarted(s: State, now: Timeval): State
    requires Normal(now)
  {
    if s.net.tcp == Connected && s.tcpw == [] && s.net.timeout.sec == 0
    then s.(net := s.net.(timeout := TimevalAdd(now, TCPIDLEMS)))
    else s
  }

  lemma IdleStartedKeeps(s: State, now: Timeval)
    requires Inv(s, {}) && Normal(now)
    ensures Inv(IdleStarted(s, now), {}) && OnlyRetries(s, IdleStarted(s, now))
    ensures IdleStarted(s, now) == s.(net := s.net.(timeout := IdleStarted(s, now).net.timeout))
    ensures s.net.tcp != Connected ==> IdleStarted(s, now) == s
    ensures s.net.tcp == Connected && s.tcpw == [] ==>
              var t := IdleStarted(s, now).net.timeout; (s.net.timeout.sec != 0 ==> t == s.net.timeout) && (s.net.timeout.sec == 0 ==> t == TimevalAdd(now, TCPIDLEMS))
  {
    IdleTimerKeepsInv(s, TimevalAdd(now, TCPIDLEMS));
    IdleTimerKeepsInv(s, s.net.timeout);
    assert s.(net := s.net.(timeout := s.net.timeout)) == s;
    hide Inv, OnlyRetries;
  }

  method StartIdleTimer(r: Resolver, now: Timeval)
    requires Inv(r.View(), {}) && Normal(now) && r.tcpstate == Connected && r.tcpw == []
    modifies r
    ensures r.View() == IdleStarted(old(r.View()), now)
    ensures Inv(r.View(), {}) && OnlyRetries(old(r.View()), r.View())
  {
    ghost var s := r.View();
    IdleTimerKeepsInv(s, TimevalAdd(now, TCPIDLEMS));
    IdleTimerKeepsInv(s, s.net.timeout);
    assert s.(net := s.net.(timeout := s.net.timeout)) == s;
    hide Inv, OnlyRetries;
    if r.tcptimeout.sec == 0 {
      r.tcptimeout := TimevalAdd(now, TCPIDLEMS);
    }
  }

  /** The idle connection closed. */
  function ClosedIdle(s: State): State {
    s.(net := TcpClose(s.net).(tcp := Disconnected))
  }

  lemma BreakConnecting(s: State)
    requires Inv(s, {}) && s.net.tcp == Connecting
    ensures Inv(TcpBreak(s), {}) && OnlyRetries(s, TcpBreak(s))
    ensures TcpBreak(s).net.tcp == Broken && TcpBreak(s).net.attempts == s.net.attempts
  {
    InvFromEnd(s, {}, |s.tcpw|);
    BreakKeepsInv(s, {}, |s.tcpw|);
  }

  // ---- One turn ----

  /** How tcp_events ends: it returns, the purge has lost its place, or there is no socket to
      be had and it goes on asking. */
  datatype Ending = Settled | PlaceLost | Spinning

  /** A turn of the loop goes on or is the last. */
  datatype Course = On(s: State) | Over(s: State, how: Ending)

  lemma InvFollowed(s: State, c: Course, now: Timeval)
    requires Inv(s, {}) && (c.s == s || (Inv(c.s, {}) && OnlyRetries(s, c.s)))
    ensures Inv(c.s, {}) && Follows(s, c.s, now)
  {
    FollowsSelf(s, now);
    if c.s != s { RetriesFollow(s, c.s, now); }
    hide Inv, Follows, OnlyRetries;
  }

  /** The rest of a turn, from a connection that is down. */
  ghost function TurnDown(s: State, env: Env): (c: Course)
    requires Inv(s, {}) && EnvOk(env) && s.net.tcp == Disconnected
    ensures Inv(c.s, {}) && Follows(s, c.s, env.now)
  {
    InvTcpw(s);
    UnrefusedKeepsInv(s, {}, env);
    hide Inv, Follows, OnlyRetries, TryConnect;
    var c := if s.tcpw == [] then Over(s, Settled) else On(TryConnect(s, 0, env));
    InvFollowed(s, c, env.now);
    c
  }

  /** One turn of the loop of tcp_events when it may act. */
  ghost function Turn(s: State, env: Env): (c: Course)
    requires Inv(s, {}) && EnvOk(env)
    ensures Inv(c.s, {}) && Follows(s, c.s, env.now)
  {
    hide Inv, Follows, OnlyRetries, Purge, TcpBreak, IdleStarted, TcpClose, SpentOnTcpw, TurnDown, Later;
    if s.net.tcp == Broken then
      WalkStarts(s);
      var (s1, lost) := Purge(s, 0, env);
      if lost then Over(s1, PlaceLost)
      else
        BackToDisconnected(s1);
        var s2 := s1.(net := s1.net.(tcp := Disconnected));
        RetriesFollow(s1, s2, env.now);
        var c := TurnDown(s2, env);
        FollowsTransitive(s, s1, s2, env.now);
        FollowsTransitive(s, s2, c.s, env.now);
        c
    else if s.net.tcp == Disconnected then TurnDown(s, env)
    else if s.net.tcp == Connected && s.tcpw != [] then
      FollowsSelf(s, env.now);
      Over(s, Settled)
    else
      IdleStartedKeeps(s, env.now);
      var s1 := IdleStarted(s, env.now);
      RetriesFollow(s, s1, env.now);
      if !Later(env.now, s1.net.timeout) then Over(s1, Settled)
      else if s.net.tcp == Connecting then
        InvTcpw(s1);
        BreakConnecting(s1);
        RetriesFollow(s1, TcpBreak(s1), env.now);
        FollowsTransitive(s, s1, TcpBreak(s1), env.now);
        On(TcpBreak(s1))
      else
        CloseIdleKeepsInv(s1);
        RetriesFollow(s1, ClosedIdle(s1), env.now);
        FollowsTransitive(s, s1, ClosedIdle(s1), env.now);
        Over(ClosedIdle(s1), Settled)
  }

  // ---- What wears the loop out ----

  /** From attempt calm on connect does not succeed on the spot. */
  ghost predicate Calm(env: Env, calm: nat) {
    forall i :: i >= calm ==> env.connect(i) != Success
  }

  /** No callback asks for more children. */
  ghost predicate Childless(env: Env) {
    forall p, x :: env.verdict(p, x).Continue? ==> env.verdict(p, x).kids == []
  }

  /** Connections do not come through and break for ever: either they stop coming through,
      or every one that breaks has used up a retry and no query comes to take its place. */
  ghost predicate WearsOut(env: Env, calm: nat) { Calm(env, calm) || Childless(env) }

  lemma StepsAddNone(s: State, x: Handle, p: Handle, st: Status, fault: MemFault)
    requires x in s.queries && p in s.queries
    ensures CancelKids(s, x).next == s.next && Reset(s, x, st).next == s.next && ToOutput(s, x, fault).next == s.next
    ensures LinkTail(s, x).next == s.next && (x != p ==> Detach(s, x, p).next == s.next)
  {
    hide KidTree, Zap, Finalised;
  }

  lemma {:induction false} DoneAddsNone(s: State, x: Handle, env: Env)
    requires Inv(s, {x}) && x in s.queries && Attached(s, x) && s.queries[x].phase != Done && EnvOk(env) && Childless(env)
    ensures QueryDone(s, x, env).next == s.next
    decreases x, if Refused(s.queries[x], env.fault(x)) then 1 else 0
  {
    hide Inv, Attached, CancelKids, Reset, Detach, ToOutput, Completed, QueryDone, LinkTail;
    StepsAddNone(s, x, x, StNoMemory, NoFault);
    var s1 := CancelKids(s, x);
    if Refused(s.queries[x], env.fault(x)) {
      DoneWhenRefused(s, x, env);
      StepsAddNone(s1, x, x, StNoMemory, NoFault);
      DoneAddsNone(Reset(s1, x, StNoMemory), x, env);
    } else if s.queries[x].parent.None? {
      DoneAtRoot(s, x, env);
      StepsAddNone(s1, x, x, StNoMemory, env.fault(x));
    } else {
      DoneBelowParent(s, x, env);
      var p := s.queries[x].parent.value;
      StepsAddNone(s1, x, p, StNoMemory, NoFault);
      CompletedAddsNone(Detach(s1, x, p), p, x, env);
    }
  }

  lemma {:induction false} CompletedAddsNone(s: State, p: Handle, x: Handle, env: Env)
    requires Inv(s, {p}) && p in s.queries && Attached(s, p) && EnvOk(env) && Childless(env)
    requires s.queries[p].phase == ChildWait && s.queries[p].id >= 0
    ensures Completed(s, p, env.verdict(p, x), env).next == s.next
    decreases p, 2
  {
    hide Inv, Attached, CancelKids, Reset, Completed, QueryDone, LinkTail;
    var v := env.verdict(p, x);
    CompletedUnfolds(s, p, v, env);
    match v
    case Finish => DoneAddsNone(s, p, env);
    case Abort(st) =>
      StepsAddNone(s, p, p, st, NoFault);
      DoneAddsNone(Reset(s, p, st), p, env);
    case Continue(kids) =>
      assert SubmitAll(s, p, kids, env) == s;
      StepsAddNone(s, p, p, StNoMemory, NoFault);
      if s.queries[p].children == [] { DoneAddsNone(s, p, env); }
  }

  lemma UnlinkAddsNone(s: State, x: Handle)
    requires x in s.queries
    ensures Unlink(s, x).next == s.next
  {
  }

  lemma DroppedAddsNone(s: State, x: Handle, env: Env)
    requires Inv(s, {}) && x in s.tcpw && s.net.tcp == Broken && EnvOk(env) && Childless(env)
    ensures Dropped(s, x, env).next == s.next
  {
    hide *;
    DroppedUnfolds(s, x, env);
    var s1 := Unlink(s, x);
    UnlinkAddsNone(s, x);
    StepsAddNone(s1, x, x, StAllServFail, NoFault);
    DoneAddsNone(Reset(s1, x, StAllServFail), x, env);
  }

  // ---- The retries that are left ----

  function Left(s: State, x: Handle): nat {
    if x in s.queries && s.queries[x].retries <= s.cfg.nservers then s.cfg.nservers + 1 - s.queries[x].retries else 0
  }

  /** The retries left to the queries of q. */
  function Budget(s: State, q: seq<Handle>): nat {
    if q == [] then 0 else Left(s, q[0]) + Budget(s, q[1..])
  }

  lemma {:induction false} BudgetRemove(s: State, q: seq<Handle>, D: set<Handle>)
    ensures Budget(s, Remove(q, D)) <= Budget(s, q)
  {
    if q != [] {
      BudgetRemove(s, q[1..], D);
      if q[0] !in D { assert Remove(q, D)[1..] == Remove(q[1..], D); }
    }
  }

  lemma {:induction false} BudgetLess(s: State, r: State, q: seq<Handle>)
    requires forall x :: x in q ==> Left(r, x) <= Left(s, x)
    ensures Budget(r, q) <= Budget(s, q)
    ensures (exists x :: x in q && Left(r, x) < Left(s, x)) ==> Budget(r, q) < Budget(s, q)
  {
    if q != [] {
      BudgetLess(s, r, q[1..]);
    }
  }

  lemma NewAtEnd(q: seq<Handle>, e: seq<Handle>, next: Handle)
    requires e != [] && forall y :: y in e ==> y >= next
    ensures exists y :: y in q + e && y >= next
  {
    assert e[0] in e && (q + e)[|q|] == e[0];
    assert (q + e)[|q|] in q + e;
  }

  lemma BrokenTakes(s: State, r: State)
    requires BrokenKeeps(s, r) && r.next == s.next && forall y :: y in r.tcpw ==> y < r.next
    ensures r.cfg == s.cfg && exists D :: r.tcpw == Remove(s.tcpw, D)
    ensures forall y :: y in r.tcpw ==> y in r.queries && y in s.queries && r.queries[y].retries == s.queries[y].retries
  {
    var D, e :| Extends(s.tcpw, r.tcpw, D, e, s.next);
    if e != [] { NewAtEnd(Remove(s.tcpw, D), e, s.next); }
    assert r.tcpw == Remove(s.tcpw, D);
  }

  lemma UnlinkTakes(s: State, x: Handle)
    requires x in s.queries && s.queries[x].phase == TcpWait
    ensures var r := Unlink(s, x); r.next == s.next && r.cfg == s.cfg && r.queries == s.queries && r.tcpw == Remove(s.tcpw, {x})
  {
  }

  lemma DroppedKeeps(s: State, x: Handle, env: Env)
    requires Inv(s, {}) && x in s.tcpw && s.net.tcp == Broken && EnvOk(env)
    ensures x in s.queries && s.queries[x].phase == TcpWait && Inv(Dropped(s, x, env), {})
    ensures BrokenKeeps(Unlink(s, x), Dropped(s, x, env))
  {
    InvTcpw(s);
    NetworkPhase(s, x);
    hide *;
  }

  lemma TakenBudget(s: State, s1: State, r: State, D: set<Handle>)
    requires s1.cfg == s.cfg && s1.queries == s.queries && s1.tcpw == Remove(s.tcpw, D)
    requires r.cfg == s1.cfg && exists E :: r.tcpw == Remove(s1.tcpw, E)
    requires forall y :: y in r.tcpw ==> y in r.queries && y in s1.queries && r.queries[y].retries == s1.queries[y].retries
    ensures Budget(r, r.tcpw) <= Budget(s, s.tcpw)
  {
    var E :| r.tcpw == Remove(s1.tcpw, E);
    BudgetLess(s, r, r.tcpw);
    hide Budget, Left;
    RemoveTwice(s.tcpw, D, E);
    BudgetRemove(s, s.tcpw, D + E);
  }

  /** Some queries fewer, and none more. */
  lemma DroppedBudget(s: State, x: Handle, env: Env)
    requires Inv(s, {}) && x in s.tcpw && s.net.tcp == Broken && EnvOk(env) && Childless(env)
    ensures var r := Dropped(s, x, env); Budget(r, r.tcpw) <= Budget(s, s.tcpw)
  {
    hide *;
    DroppedKeeps(s, x, env);
    DroppedAddsNone(s, x, env);
    var s1, r := Unlink(s, x), Dropped(s, x, env);
    UnlinkTakes(s, x);
    InvTcpw(r);
    BrokenTakes(s1, r);
    TakenBudget(s, s1, r, {x});
  }

  lemma {:induction false} PurgeBudget(s: State, i: nat, env: Env)
    requires Inv(s, {}) && s.net.tcp == Broken && EnvOk(env) && WalkedTo(s, i) && Childless(env)
    ensures var r := Purge(s, i, env).0; Budget(r, r.tcpw) <= Budget(s, s.tcpw)
    decreases SpentOnTcpw(s), |s.tcpw| - i
  {
    PurgeElsewhere(s, i, env);
    hide Inv, Follows, Dropped, BrokenKeeps, Purge, Spent, Childless, LosesNext, SpentOnTcpw, WalkedTo, Budget;
    if i < |s.tcpw| && !Spent(s.cfg, s.queries[s.tcpw[i]]) {
      PurgeBudget(s, i + 1, env);
    } else if i < |s.tcpw| {
      PurgeAtSpent(s, i, env);
      DroppedBudget(s, s.tcpw[i], env);
      var r := Dropped(s, s.tcpw[i], env);
      if i + 1 < |s.tcpw| && s.tcpw[i + 1] in r.tcpw {
        PurgeBudget(r, IndexIn(r.tcpw, s.tcpw[i + 1]), env);
      }
    }
  }

  lemma CountedBudget(s: State, r: State, k: nat, H: set<Handle>)
    requires Counted(s, r, k, H)
    ensures Budget(r, r.tcpw) <= Budget(s, s.tcpw)
    ensures (exists x :: x in H && x in s.tcpw && x in s.queries && s.queries[x].retries <= s.cfg.nservers) ==>
              Budget(r, r.tcpw) < Budget(s, s.tcpw)
  {
    assert r.tcpw == s.tcpw && r.cfg == s.cfg;
    BudgetLess(s, r, s.tcpw);
    hide Budget;
    if x :| x in H && x in s.tcpw && x in s.queries && s.queries[x].retries <= s.cfg.nservers {
      assert Left(r, x) < Left(s, x);
    }
  }

  lemma {:induction false} BreaksByOne(s: State, i: nat, env: Env)
    requires s.cfg.nservers > 0 && s.net.tcp == Connected && i <= |s.tcpw| && forall x :: x in s.tcpw ==> x in s.queries
    requires SendAll(s, i, env).net.tcp == Broken
    ensures HandedOver(s.tcpw[i..], env, |s.net.attempts|) != {}
    decreases |s.tcpw| - i
  {
    if i < |s.tcpw| {
      var s1 := HandToTcp(s, s.tcpw[i], env);
      assert s.tcpw[i..][0] == s.tcpw[i] && s.tcpw[i..][1..] == s.tcpw[i + 1..];
      if s1.net.tcp == Connected { BreaksByOne(s1, i + 1, env); }
    }
  }

  /** What a turn that goes on uses up. */
  ghost function Fuel(s: State, env: Env, calm: nat): nat {
    if Calm(env, calm) then (if |s.net.attempts| < calm then calm - |s.net.attempts| else 0)
    else Budget(s, s.tcpw)
  }

  lemma UpBreaks(s: State, env: Env)
    requires s.cfg.nservers > 0 && forall x :: x in s.tcpw ==> x in s.queries
    requires TcpUp(OpenAttempt(s), env).net.tcp == Broken
    ensures HandedOver(s.tcpw, env, |s.net.attempts| + 1) != {}
  {
    BreaksByOne(OpenAttempt(s).(net := OpenAttempt(s).net.(tcp := Connected)), 0, env);
    assert s.tcpw[0..] == s.tcpw;
  }

  /** An attempt that comes through counts a retry for those handed over, and for one at
      least if it breaks at once. */
  lemma UpBudget(s: State, env: Env)
    requires Inv(s, {}) && s.net.tcp == Disconnected
    ensures s.cfg.nservers > 0 && forall x :: x in s.tcpw ==> x in s.queries
    ensures var r := TcpUp(OpenAttempt(s), env);
            Budget(r, r.tcpw) <= Budget(s, s.tcpw) && (r.net.tcp == Broken ==> Budget(r, r.tcpw) < Budget(s, s.tcpw))
  {
    hide Inv, Counted, TcpUp, OpenAttempt, Budget;
    TcpwIsWaiting(s, {});
    UpCounts(s, env);
    var H, r := HandedOver(s.tcpw, env, |s.net.attempts| + 1), TcpUp(OpenAttempt(s), env);
    CountedBudget(s, r, 0, H);
    if r.net.tcp == Broken {
      UpBreaks(s, env);
      var x :| x in H;
    }
  }

  lemma UpFuel(s: State, env: Env, calm: nat)
    requires Inv(s, {}) && WearsOut(env, calm) && s.net.tcp == Disconnected && env.connect(|s.net.attempts|) == Success
    ensures s.cfg.nservers > 0 && forall x :: x in s.tcpw ==> x in s.queries
    ensures var r := TcpUp(OpenAttempt(s), env);
            && (r.net.tcp == Broken || r.net.tcp == Connected) && |r.net.attempts| == |s.net.attempts| + 1
            && Fuel(r, env, calm) <= Fuel(s, env, calm) && (r.net.tcp == Broken ==> Fuel(r, env, calm) < Fuel(s, env, calm))
  {
    UpBudget(s, env);
    SendAllAttempts(OpenAttempt(s).(net := OpenAttempt(s).net.(tcp := Connected)), 0, env);
    hide Inv, Budget, SendAll;
  }

  lemma WaitingFuel(s: State, env: Env, calm: nat)
    requires Normal(env.now)
    ensures var s1 := OpenAttempt(s);
            var r := s1.(net := s1.net.(timeout := TimevalAdd(env.now, TCPCONNMS)));
            && |r.net.attempts| == |s.net.attempts| + 1 && !Later(env.now, r.net.timeout)
            && Fuel(r, env, calm) <= Fuel(s, env, calm)
  {
    NotLaterThanNow(env.now, TCPCONNMS);
    var s1 := OpenAttempt(s);
    var r := s1.(net := s1.net.(timeout := TimevalAdd(env.now, TCPCONNMS)));
    hide Normal, Later;
    BudgetLess(s, r, s.tcpw);
  }

  /** A turn from a connection that is down makes one attempt, which comes through, is in
      progress, breaks, or has no socket. */
  lemma DownProgress(s: State, env: Env, calm: nat)
    requires Inv(s, {}) && EnvOk(env) && WearsOut(env, calm) && s.net.tcp == Disconnected
    ensures s.cfg.nservers > 0 && forall x :: x in s.tcpw ==> x in s.queries
    ensures var r := TryConnect(s, 0, env);
            && (r.net.tcp == Disconnected <==> env.connect(|s.net.attempts|) == NoSocket)
            && (r.net.tcp == Disconnected ==> r == s)
            && (r.net.tcp != Disconnected ==> |r.net.attempts| == |s.net.attempts| + 1)
            && (r.net.tcp == Connecting ==> !Later(env.now, r.net.timeout))
            && Fuel(r, env, calm) <= Fuel(s, env, calm) && (r.net.tcp == Broken ==> Fuel(r, env, calm) < Fuel(s, env, calm))
  {
    TcpwIsWaiting(s, {});
    WaitingFuel(s, env, calm);
    hide Inv, Fuel, TcpUp, WearsOut, Later;
    if env.connect(|s.net.attempts|) == Success { UpFuel(s, env, calm); }
  }

  lemma SameFuel(s: State, r: State, env: Env, calm: nat)
    requires r.queries == s.queries && r.cfg == s.cfg && r.tcpw == s.tcpw && r.net.attempts == s.net.attempts
    ensures Fuel(r, env, calm) == Fuel(s, env, calm)
  {
    BudgetLess(s, r, s.tcpw);
    BudgetLess(r, s, s.tcpw);
  }

  lemma PurgeFuel(s: State, env: Env, calm: nat)
    requires Inv(s, {}) && EnvOk(env) && WearsOut(env, calm) && s.net.tcp == Broken && WalkedTo(s, 0)
    ensures Fuel(Purge(s, 0, env).0, env, calm) <= Fuel(s, env, calm)
  {
    hide Inv, Follows, Purge, Budget, Calm, Childless, WalkedTo;
    if !Calm(env, calm) { PurgeBudget(s, 0, env); }
  }

  lemma BreakFuel(s: State, env: Env, calm: nat)
    requires Inv(s, {}) && s.net.tcp == Connecting
    ensures s.cfg.nservers > 0 && Fuel(TcpBreak(s), env, calm) <= Fuel(s, env, calm)
  {
    TcpwIsWaiting(s, {});
    assert Counted(s, TcpBreak(s), 1, {});
    hide Inv, Counted, Budget, Calm;
    CountedBudget(s, TcpBreak(s), 1, {});
  }

  /** A turn that goes on, and not in place, brings the end nearer. */
  lemma TurnProgress(s: State, env: Env, calm: nat)
    requires Inv(s, {}) && EnvOk(env) && WearsOut(env, calm)
    requires Turn(s, env).On? && Turn(s, env).s.net.tcp != Disconnected
    ensures var r := Turn(s, env).s;
            Fuel(r, env, calm) <= Fuel(s, env, calm)
            && (Fuel(r, env, calm) < Fuel(s, env, calm)
                || Rank(r.net.tcp, r.net.timeout, env.now) < Rank(s.net.tcp, s.net.timeout, env.now))
  {
    hide Inv, Follows, OnlyRetries, Purge, TcpBreak, TcpClose, SpentOnTcpw, TryConnect, WearsOut, Calm, Childless, Later;
    InvTcpw(s);
    if s.net.tcp == Broken {
      WalkStarts(s);
      PurgeFuel(s, env, calm);
      var s1 := Purge(s, 0, env).0;
      BackToDisconnected(s1);
      var s2 := s1.(net := s1.net.(tcp := Disconnected));
      SameFuel(s1, s2, env, calm);
      DownProgress(s2, env, calm);
    } else if s.net.tcp == Disconnected {
      DownProgress(s, env, calm);
    } else {
      IdleStartedKeeps(s, env.now);
      BreakConnecting(s);
      BreakFuel(s, env, calm);
    }
  }

  // ---- The whole loop ----

  /** All that tcp_events does when it may act, and how it ends. */
  ghost function TcpActed(s: State, env: Env, calm: nat): (r: (State, Ending))
    requires Inv(s, {}) && EnvOk(env) && WearsOut(env, calm)
    ensures Inv(r.0, {}) && Follows(s, r.0, env.now)
    decreases Fuel(s, env, calm), Rank(s.net.tcp, s.net.timeout, env.now)
  {
    hide Inv, Follows, Turn, WearsOut, Fuel, Rank;
    var c := Turn(s, env);
    if c.Over? then (c.s, c.how)
    else if c.s.net.tcp == Disconnected then (c.s, Spinning)
    else
      TurnProgress(s, env, calm);
      var e := TcpActed(c.s, env, calm);
      FollowsTransitive(s, c.s, e.0, env.now);
      e
  }

  /** n turns, or as many as there are. */
  ghost function Turns(s: State, env: Env, n: nat): (c: Course)
    requires Inv(s, {}) && EnvOk(env)
    ensures Inv(c.s, {})
    decreases n
  {
    hide Inv, Follows, Turn;
    if n == 0 then On(s)
    else
      var c := Turn(s, env);
      if c.Over? then c else Turns(c.s, env, n - 1)
  }

  /** No socket to be had, and somebody waiting. */
  predicate NoWayOut(s: State, env: Env) {
    s.net.tcp == Disconnected && s.tcpw != [] && env.connect(|s.net.attempts|) == NoSocket
  }

  lemma {:induction false} SpinsForEver(s: State, env: Env, n: nat)
    requires Inv(s, {}) && EnvOk(env) && NoWayOut(s, env)
    ensures Turns(s, env, n) == On(s)
    decreases n
  {
    TcpwIsWaiting(s, {});
    assert Turn(s, env) == On(s) by { assert TryConnect(s, 0, env) == s; }
    hide Inv, Turn;
    if n > 0 { SpinsForEver(s, env, n - 1); }
  }

  lemma NoneWithoutSocket(s: State, env: Env)
    requires Inv(s, {}) && EnvOk(env) && s.net.tcp == Disconnected
    ensures s.cfg.nservers > 0 && forall x :: x in s.tcpw ==> x in s.queries
    ensures TryConnect(s, 0, env).net.tcp == Disconnected ==> env.connect(|s.net.attempts|) == NoSocket && TryConnect(s, 0, env) == s
  {
    TcpwIsWaiting(s, {});
    if env.connect(|s.net.attempts|) == NoSocket {
      assert TryConnect(s, 0, env) == s;
    } else {
      OneAttempt(s, env);
    }
    hide Inv, OnlyRetries, SendAll;
  }

  /** A turn that goes on with the connection down had no socket. */
  lemma DownAgain(s: State, env: Env)
    requires Inv(s, {}) && EnvOk(env) && Turn(s, env).On? && Turn(s, env).s.net.tcp == Disconnected
    ensures NoWayOut(Turn(s, env).s, env)
  {
    hide Inv, Follows, OnlyRetries, Purge, TcpClose, SpentOnTcpw, TryConnect, Later;
    InvTcpw(s);
    if s.net.tcp == Broken {
      WalkStarts(s);
      var s1 := Purge(s, 0, env).0;
      BackToDisconnected(s1);
      NoneWithoutSocket(s1.(net := s1.net.(tcp := Disconnected)), env);
    } else if s.net.tcp == Disconnected {
      NoneWithoutSocket(s, env);
    } else {
      IdleStartedKeeps(s, env.now);
      BreakConnecting(s);
    }
  }

  /** No number of turns is enough. */
  ghost predicate GoesOn(s: State, env: Env)
    requires Inv(s, {}) && EnvOk(env)
  {
    forall n: nat :: Turns(s, env, n).On?
  }

  lemma OverAfter(s: State, env: Env, n: nat)
    requires Inv(s, {}) && EnvOk(env) && Turns(s, env, n).Over?
    ensures !GoesOn(s, env)
  {
    hide Inv;
  }

  lemma NeverSpun(s: State, env: Env)
    requires Inv(s, {}) && EnvOk(env) && Turn(s, env).Over?
    ensures Turn(s, env).how != Spinning
  {
    hide Inv, Follows, OnlyRetries, Purge, TcpBreak, TcpClose, SpentOnTcpw, TryConnect, Later, IdleStarted;
  }

  /** The loop turns for ever exactly if it comes to a state in which it cannot get a
      socket; otherwise it ends as TcpActed says. */
  lemma {:induction false} LoopEndsExactly(s: State, env: Env, calm: nat)
    requires Inv(s, {}) && EnvOk(env) && WearsOut(env, calm)
    ensures var (r, how) := TcpActed(s, env, calm);
            && (how == Spinning <==> GoesOn(s, env))
            && (how == Spinning ==> NoWayOut(r, env))
            && (how != Spinning ==> exists n: nat :: Turns(s, env, n) == Over(r, how))
    decreases Fuel(s, env, calm), Rank(s.net.tcp, s.net.timeout, env.now)
  {
    hide Inv, Follows, Turn, WearsOut, Fuel, Rank, NoWayOut;
    var (r, how) := TcpActed(s, env, calm);
    match Turn(s, env)
    case Over(r1, how1) =>
      assert Turns(s, env, 1) == Over(r1, how1);
      OverAfter(s, env, 1);
      NeverSpun(s, env);
    case On(s1) =>
      if s1.net.tcp == Disconnected {
        DownAgain(s, env);
        forall n: nat ensures Turns(s, env, n).On? { if n > 0 { SpinsForEver(s1, env, n - 1); } }
      } else {
        TurnProgress(s, env, calm);
        LoopEndsExactly(s1, env, calm);
        if how == Spinning {
          forall n: nat ensures Turns(s, env, n).On? { if n > 0 { assert Turns(s1, env, n - 1).On?; } }
        } else {
          var n: nat :| Turns(s1, env, n) == Over(r, how);
          assert Turns(s, env, n + 1) == Over(r, how);
          OverAfter(s, env, n + 1);
        }
      }
  }

  /** So it ends for every answer of connect but the want of a socket. */
  lemma EndsWithSockets(s: State, env: Env, calm: nat)
    requires Inv(s, {}) && EnvOk(env) && WearsOut(env, calm) && forall i :: env.connect(i) != NoSocket
    ensures TcpActed(s, env, calm).1 != Spinning
    ensures exists n: nat :: Turns(s, env, n) == Over(TcpActed(s, env, calm).0, TcpActed(s, env, calm).1)
  {
    LoopEndsExactly(s, env, calm);
    hide Inv, WearsOut, Turns, TcpActed;
  }

  lemma TurnSettles(s: State, env: Env)
    requires Inv(s, {}) && EnvOk(env)
    ensures var c := Turn(s, env);
            && (c == Over(c.s, Settled) ==> TcpSettled(c.s.net.tcp, c.s.tcpw == [], c.s.net.timeout, env.now))
            && (TcpSettled(s.net.tcp, s.tcpw == [], s.net.timeout, env.now) ==> c == Over(s, Settled))
  {
    hide Inv, Follows, OnlyRetries, Purge, TcpBreak, TcpClose, SpentOnTcpw, TryConnect, Later, WalkedTo, IdleStarted, TimevalAdd;
    TcpwIsWaiting(s, {});
    IdleStartedKeeps(s, env.now);
    NotLaterThanNow(env.now, TCPIDLEMS);
  }

  /** The loop leaves nothing it still wants done now, and does nothing if there is nothing. */
  lemma {:induction false} LoopSettles(s: State, env: Env, calm: nat)
    requires Inv(s, {}) && EnvOk(env) && WearsOut(env, calm)
    ensures var (r, how) := TcpActed(s, env, calm);
            && (how == Settled ==> TcpSettled(r.net.tcp, r.tcpw == [], r.net.timeout, env.now))
            && (TcpSettled(s.net.tcp, s.tcpw == [], s.net.timeout, env.now) ==> how == Settled && r == s)
    decreases Fuel(s, env, calm), Rank(s.net.tcp, s.net.timeout, env.now)
  {
    TurnSettles(s, env);
    hide Inv, Follows, Turn, WearsOut, Fuel, Rank, TcpSettled;
    if Turn(s, env).On? && Turn(s, env).s.net.tcp != Disconnected {
      TurnProgress(s, env, calm);
      LoopSettles(Turn(s, env).s, env, calm);
    }
  }

  lemma ActedUnfolds(s: State, env: Env, calm: nat)
    requires Inv(s, {}) && EnvOk(env) && WearsOut(env, calm)
    ensures var c := Turn(s, env);
            TcpActed(s, env, calm) ==
              if c.Over? then (c.s, c.how)
              else if c.s.net.tcp == Disconnected then (c.s, Spinning)
              else TcpActed(c.s, env, calm)
  {
    hide Inv, Follows, WearsOut, Turn, Fuel, Rank;
  }

  /** One turn of the loop. */
  method OneTurn(r: Resolver, env: Env) returns (over: bool, how: Ending)
    requires Inv(r.View(), {}) && EnvOk(env)
    modifies r
    ensures if over then Turn(old(r.View()), env) == Over(r.View(), how) else Turn(old(r.View()), env) == On(r.View())
    ensures Inv(r.View(), {})
  {
    hide Inv, Follows, OnlyRetries, Purge, TryConnect, TcpBreak;
    InvTcpw(r.View());
    how := Settled;
    if r.tcpstate == Broken {
      var dangling := DropSpent(r, env);
      if dangling { return true, PlaceLost; }
      BackToDisconnected(r.View());
      r.tcpstate := Disconnected;
    }
    if r.tcpstate == Disconnected {
      if r.tcpw == [] { return true, Settled; }
      InvTcpw(r.View());
      r.ConnectTcp(env);
      return false, Settled;
    }
    if r.tcpstate == Connected {
      if r.tcpw != [] { return true, Settled; }
      StartIdleTimer(r, env.now);
    }
    if !Later(env.now, r.tcptimeout) { return true, Settled; }
    if r.tcpstate == Connecting {
      BreakConnecting(r.View());
      InvTcpw(r.View());
      r.BreakTcp();
      return false, Settled;
    }
    r.CloseTcp();
    r.tcpstate := Disconnected;
    return true, Settled;
  }

  /** tcp_events(act=1). Spinning: the loop would go on for ever without a socket; the
      model ends it there and says so. */
  method TcpEvents(r: Resolver, env: Env, ghost calm: nat) returns (how: Ending)
    requires Inv(r.View(), {}) && EnvOk(env) && WearsOut(env, calm)
    modifies r
    ensures (r.View(), how) == TcpActed(old(r.View()), env, calm)
  {
    hide Inv, Follows, WearsOut, TcpActed, Turn, Fuel, Rank;
    ghost var s0 := r.View();
    while true
      invariant Inv(r.View(), {}) && TcpActed(r.View(), env, calm) == TcpActed(s0, env, calm)
      decreases Fuel(r.View(), env, calm), Rank(r.tcpstate, r.tcptimeout, env.now)
    {
      ghost var s := r.View();
      ActedUnfolds(s, env, calm);
      var over;
      over, how := OneTurn(r, env);
      if over { return; }
      if r.tcpstate == Disconnected { return Spinning; }
      TurnProgress(s, env, calm);
    }
  }

  // ---- A loop that does not wear out ----

  /** Every connection comes through and breaks at the first write, and every callback
      asks for another child. */
  ghost predicate Endless(env: Env) {
    && (forall i :: env.connect(i) == Success) && (forall x, a :: env.write(x, a) == Failed)
    && (forall p, x :: env.verdict(p, x) == Continue([ByTcp])) && (forall x :: env.fault(x) == NoFault)
  }

  ghost predicate ChildWaits(s: State) {
    exists x :: x in s.tcpw && x in s.queries && s.queries[x].parent.Some?
  }

  lemma FreshWaits(s: State, env: Env)
    requires s.net.tcp == Broken && s.cfg.nservers > 0 && Normal(env.now)
    requires forall y :: y in s.tcpw ==> y in s.queries
    ensures SubmitFresh(s, ByTcp, env).tcpw == s.tcpw + [s.next]
  {
  }

  lemma AdoptedWaits(s: State, p: Handle, c: Handle)
    requires p in s.queries && c in s.queries && p != c && c in s.tcpw
    ensures ChildWaits(Adopt(s, p, c))
  {
    assert c in Adopt(s, p, c).tcpw && Adopt(s, p, c).queries[c].parent == Some(p);
  }

  lemma NewChildWaits(s: State, p: Handle, env: Env)
    requires Inv(s, {p}) && p in s.queries && EnvOk(env) && s.net.tcp == Broken && Attached(s, p)
    ensures s.cfg.nservers > 0 && p < s.next && forall y :: y in s.tcpw ==> y in s.queries
    ensures SubmitAll(s, p, [ByTcp], env) == SubmitChild(s, p, ByTcp, env)
    ensures var r := SubmitChild(s, p, ByTcp, env);
            ChildWaits(r) && p in r.queries && r.queries[p].children != [] && r.queries[p].phase == s.queries[p].phase
  {
    hide Inv, Attached, SubmitFresh, Adopt, ChildWaits, Follows, SendsOnly;
    TcpwIsOld(s, p);
    SubmitChildKeepsInv(s, p, ByTcp, env);
    SubmitFreshKeepsInv(s, p, ByTcp, env);
    SubmitAllStep(s, p, [ByTcp], env);
    FreshWaits(s, env);
    var s1 := SubmitFresh(s, ByTcp, env);
    assert s1.tcpw[|s.tcpw|] == s.next && s.next in s1.tcpw;
    AdoptedWaits(s1, p, s.next);
  }

  lemma DetachNet(s: State, x: Handle, p: Handle)
    requires x in s.queries && p in s.queries && x != p
    ensures Detach(s, x, p).net == s.net
  {
  }

  lemma WaitsLinked(s: State, p: Handle)
    requires ChildWaits(s) && p in s.queries
    ensures ChildWaits(LinkTail(s, p))
  {
    var x :| x in s.tcpw && x in s.queries && s.queries[x].parent.Some?;
    assert x in LinkTail(s, p).tcpw;
  }

  /** A child that ends is replaced by another. */
  lemma ReplacedInDone(s: State, x: Handle, env: Env)
    requires Inv(s, {x}) && x in s.queries && Attached(s, x) && s.queries[x].phase != Done && EnvOk(env) && Endless(env)
    requires s.queries[x].parent.Some? && s.net.tcp == Broken
    ensures ChildWaits(QueryDone(s, x, env))
  {
    hide Inv, Attached, CancelKids, Reset, Detach, ToOutput, Completed, QueryDone, SubmitAll, SubmitChild, ChildWaits, LinkTail, RetriesStay, Extends, NoDup;
    var p := s.queries[x].parent.value;
    DoneBelowParent(s, x, env);
    CancelKidsWhileBroken(s, x);
    var s1 := CancelKids(s, x);
    var s2 := Detach(s1, x, p);
    assert s2.net == s1.net by { DetachNet(s1, x, p); }
    CompletedUnfolds(s2, p, Continue([ByTcp]), env);
    TcpwIsOld(s2, p);
    NewChildWaits(s2, p, env);
    WaitsLinked(SubmitChild(s2, p, ByTcp, env), p);
  }

  lemma ResetParent(s: State, x: Handle, st: Status)
    requires x in s.queries
    ensures Reset(s, x, st).queries[x].parent == s.queries[x].parent && Reset(s, x, st).net == s.net
  {
    hide KidTree;
  }

  lemma DroppedWaits(s: State, x: Handle, env: Env)
    requires Inv(s, {}) && x in s.tcpw && s.net.tcp == Broken && EnvOk(env) && Endless(env) && ChildWaits(s)
    ensures ChildWaits(Dropped(s, x, env))
  {
    InvTcpw(s);
    var c :| c in s.tcpw && c in s.queries && s.queries[c].parent.Some?;
    if c != x {
      hide Inv, Dropped, Lost, Fate, Extends;
      assert Content(env);
      ContentLosesNone(s, x, env, c);
      DroppedStays(s, x, env, c);
      InvTcpw(Dropped(s, x, env));
      assert c in Dropped(s, x, env).tcpw && c in Dropped(s, x, env).queries;
    } else {
      hide *;
      DroppedUnfolds(s, x, env);
      UnlinkKeepsTable(s, x);
      UnlinkKeepsNet(s, x);
      ResetWhileBroken(Unlink(s, x), x, StAllServFail);
      ResetParent(Unlink(s, x), x, StAllServFail);
      ReplacedInDone(Reset(Unlink(s, x), x, StAllServFail), x, env);
    }
  }

  lemma {:induction false} PurgeWaits(s: State, i: nat, env: Env)
    requires Inv(s, {}) && s.net.tcp == Broken && EnvOk(env) && WalkedTo(s, i) && Endless(env) && ChildWaits(s)
    ensures ChildWaits(Purge(s, i, env).0)
    decreases SpentOnTcpw(s), |s.tcpw| - i
  {
    PurgeElsewhere(s, i, env);
    hide Inv, Follows, Dropped, BrokenKeeps, Purge, Spent, Endless, LosesNext, SpentOnTcpw, WalkedTo, ChildWaits;
    if i < |s.tcpw| && !Spent(s.cfg, s.queries[s.tcpw[i]]) {
      PurgeWaits(s, i + 1, env);
    } else if i < |s.tcpw| {
      PurgeAtSpent(s, i, env);
      DroppedWaits(s, s.tcpw[i], env);
      var r := Dropped(s, s.tcpw[i], env);
      if i + 1 < |s.tcpw| && s.tcpw[i + 1] in r.tcpw { PurgeWaits(r, IndexIn(r.tcpw, s.tcpw[i + 1]), env); }
    }
  }

  lemma UpAndBroken(s: State, env: Env)
    requires s.cfg.nservers > 0 && s.tcpw != [] && forall x :: x in s.tcpw ==> x in s.queries
    requires Endless(env)
    ensures TcpUp(OpenAttempt(s), env).net.tcp == Broken
  {
    var up := OpenAttempt(s).(net := OpenAttempt(s).net.(tcp := Connected));
    var s1 := HandToTcp(up, up.tcpw[0], env);
    assert s1.net.tcp == Broken && s1.tcpw == s.tcpw;
    assert SendAll(up, 0, env) == SendAll(s1, 1, env) == s1;
  }

  lemma WaitsCounted(s: State, r: State, k: nat, H: set<Handle>)
    requires Counted(s, r, k, H) && ChildWaits(s)
    ensures ChildWaits(r)
  {
    var c :| c in s.tcpw && c in s.queries && s.queries[c].parent.Some?;
    assert c in r.tcpw && c in r.queries && r.queries[c].parent == s.queries[c].parent;
  }

  lemma ComesThrough(s: State, env: Env)
    requires Endless(env) && ChildWaits(s)
    ensures s.tcpw != [] && env.connect(|s.net.attempts|) == Success
  {
  }

  lemma SuccessIsUp(s: State, env: Env)
    requires s.cfg.nservers > 0 && Normal(env.now) && s.net.tcp == Disconnected && env.connect(|s.net.attempts|) == Success
    requires forall x :: x in s.tcpw ==> x in s.queries
    ensures TryConnect(s, 0, env) == TcpUp(OpenAttempt(s), env)
  {
    hide TcpUp;
  }

  lemma AttemptWaits(s: State, env: Env)
    requires Inv(s, {}) && s.net.tcp == Disconnected && Endless(env) && Normal(env.now) && ChildWaits(s)
    ensures s.cfg.nservers > 0 && forall x :: x in s.tcpw ==> x in s.queries
    ensures var r := TryConnect(s, 0, env); r.net.tcp == Broken && ChildWaits(r)
  {
    ComesThrough(s, env);
    hide Inv, Counted, HandedOver, TcpUp, OpenAttempt, ChildWaits, Endless, NoDup, TryConnect, Normal;
    TcpwIsWaiting(s, {});
    SuccessIsUp(s, env);
    UpCounts(s, env);
    UpAndBroken(s, env);
    WaitsCounted(s, TcpUp(OpenAttempt(s), env), 0, HandedOver(s.tcpw, env, |s.net.attempts| + 1));
  }

  lemma TurnsOn(s: State, env: Env)
    requires Inv(s, {}) && EnvOk(env) && Endless(env) && s.net.tcp == Broken && ChildWaits(s)
    ensures var c := Turn(s, env); c.On? && c.s.net.tcp == Broken && ChildWaits(c.s)
  {
    InvTcpw(s);
    WalkStarts(s);
    assert Content(env);
    ContentNeverLost(s, 0, env);
    PurgeWaits(s, 0, env);
    var s1 := Purge(s, 0, env).0;
    BackToDisconnected(s1);
    var s2 := s1.(net := s1.net.(tcp := Disconnected));
    hide Inv, Follows, OnlyRetries, Purge, TryConnect, Endless, Content, SpentOnTcpw, WalkedTo;
    assert ChildWaits(s2);
    AttemptWaits(s2, env);
  }

  /** Then a broken connection with a child waiting for it keeps the loop going for ever. */
  lemma {:induction false} NeverWearsOut(s: State, env: Env, n: nat)
    requires Inv(s, {}) && EnvOk(env) && Endless(env) && s.net.tcp == Broken && ChildWaits(s)
    ensures Turns(s, env, n).On?
    decreases n
  {
    hide Inv, Turn, Endless, ChildWaits, Follows, EnvOk;
    TurnsOn(s, env);
    if n > 0 { NeverWearsOut(Turn(s, env).s, env, n - 1); }
  }

  /** A query waiting, with no socket to be had. */
  lemma NoSocketNoEnd(env: Env)
    requires EnvOk(env) && env.connect(2) == NoSocket
    ensures Inv(TwoTimedOut(), {}) && GoesOn(TwoTimedOut(), env)
  {
    TwoTimedOutInv();
    var s := TwoTimedOut();
    assert NoWayOut(s, env);
    hide Inv, Turns, EnvOk, NoWayOut;
    forall n: nat ensures Turns(s, env, n).On? { SpinsForEver(s, env, n); }
  }

  lemma TwoChildrenWait()
    ensures ChildWaits(TwoChildren()) && TwoChildren().net.tcp == Broken
  {
    var t := TwoChildren();
    assert t.tcpw[0] == 1 && t.queries[1].parent.Some?;
    assert 1 in t.tcpw;
  }

  /** Two children waiting, with callbacks that ask for more. */
  lemma EndlessNoEnd(env: Env)
    requires EnvOk(env) && Endless(env)
    ensures Inv(TwoChildren(), {}) && GoesOn(TwoChildren(), env)
  {
    hide Inv, Turns, Endless, ChildWaits, EnvOk, TwoChildren;
    TwoChildrenInv();
    TwoChildrenWait();
    forall n: nat ensures Turns(TwoChildren(), env, n).On? { NeverWearsOut(TwoChildren(), env, n); }
  }
}
