/**
 The two timeout passes: the one that acts on what is overdue, and the one that
 only reports how long nothing will be.
 */
module ResolverTimeouts {
  import opened Common
  import opened Timeval
  import opened ResolverState
  import opened ResolverEnv
  import opened ResolverSteps
  import opened ResolverTcp
  import opened ResolverFlow
  import opened ResolverDone
  import opened ResolverEvents
  import opened ResolverObject
  import opened ResolverPurge
  import opened ResolverLoop

  // ---- Acting ----

  ghost function Overdue(s: State, ph: Phase, now: Timeval): set<Handle> {
    set x | x in s.queries && s.queries[x].phase == ph && Later(now, s.queries[x].timeout)
  }

  /** A step that follows adds nothing to what is overdue. */
  lemma FollowsAddsNoOverdue(s: State, r: State, ph: Phase, now: Timeval)
    requires Follows(s, r, now) && (ph == ToSend || ph == TcpWait)
    ensures Overdue(r, ph, now) <= Overdue(s, ph, now)
  {
  }

  /** x, overdue and taken off its queue, is dealt with by sending or failing it. */
  ghost function Expired(s: State, x: Handle, env: Env): (r: State)
    requires Inv(s, {}) && x in s.queries && (x in s.udpw || x in s.tcpw) && EnvOk(env)
    ensures Inv(r, {}) && Follows(s, r, env.now)
    ensures x in r.queries && r.queries[x].phase != Done ==> !Later(env.now, r.queries[x].timeout)
  {
    TakenOff(s, x, env.now);
    UnlinkKeepsTable(s, x);
    NetworkPhase(s, x);
    hide Inv, Attached, Follows, Unlink;
    var s1 := Unlink(s, x);
    if s.queries[x].phase != ToSend then
      var r := QueryFail(s1, x, StTimeout, env);
      FollowsTransitive(s, s1, r, env.now);
      r
    else
      NowHeld(s1, x);
      var r := QuerySend(s1, x, env.how(x), env).s;
      FollowsTransitive(s, s1, r, env.now);
      r
  }

  method Expire(r: Resolver, x: Handle, env: Env)
    requires Inv(r.View(), {}) && (x in r.udpw || x in r.tcpw) && x in r.queries && EnvOk(env)
    modifies r
    ensures r.View() == Expired(old(r.View()), x, env)
  {
    ghost var s := r.View();
    TakenOff(s, x, env.now);
    UnlinkKeepsTable(s, x);
    NetworkPhase(s, x);
    hide Inv, Attached, Follows, Unlink, QuerySend, QueryFail;
    r.UnlinkQuery(x);
    if r.queries[x].phase != ToSend {
      r.Fail(x, StTimeout, env);
    } else {
      NowHeld(r.View(), x);
      var aborted := r.Send(x, env.how(x), env);
    }
  }

  lemma ExpiredIsProgress(s: State, x: Handle, ph: Phase, env: Env)
    requires Inv(s, {}) && x in s.queries && x in QueueOf(s, ph) && (ph == ToSend || ph == TcpWait) && EnvOk(env)
    requires Later(env.now, s.queries[x].timeout)
    ensures x in s.udpw || x in s.tcpw
    ensures Overdue(Expired(s, x, env), ph, env.now) < Overdue(s, ph, env.now)
  {
    EveryQueryOnItsQueue(s);
    hide Inv, Follows;
    var r := Expired(s, x, env);
    FollowsAddsNoOverdue(s, r, ph, env.now);
    assert x in Overdue(s, ph, env.now);
    assert x !in Overdue(r, ph, env.now);
  }

  lemma OnQueue(s: State, ph: Phase, x: Handle)
    requires Inv(s, {})
    ensures x in QueueOf(s, ph) <==> x in s.queries && s.queries[x].phase == ph
    ensures QueueOf(s, ToSend) == s.udpw && QueueOf(s, TcpWait) == s.tcpw
  {
    EveryQueryOnItsQueue(s);
  }

  /** The first i entries of the queue are not overdue. */
  ghost predicate SeenTo(s: State, ph: Phase, i: nat, now: Timeval) {
    && i <= |QueueOf(s, ph)|
    && forall k :: 0 <= k < i ==> QueueOf(s, ph)[k] in s.queries && !Later(now, s.queries[QueueOf(s, ph)[k]].timeout)
  }

  lemma NoneOverdue(s: State, ph: Phase, now: Timeval)
    requires Inv(s, {}) && (ph == ToSend || ph == TcpWait) && SeenTo(s, ph, |QueueOf(s, ph)|, now)
    ensures Overdue(s, ph, now) == {}
  {
    forall x ensures x !in Overdue(s, ph, now) { OnQueue(s, ph, x); }
  }

  /** Every overdue entry dealt with, from the i'th on and from the head again after each. */
  ghost function AllExpired(s: State, ph: Phase, i: nat, env: Env): (r: State)
    requires Inv(s, {}) && (ph == ToSend || ph == TcpWait) && EnvOk(env) && SeenTo(s, ph, i, env.now)
    ensures Inv(r, {}) && Follows(s, r, env.now)
    ensures Overdue(r, ph, env.now) == {}
    ensures Overdue(s, ph, env.now) == {} ==> r == s
    decreases Overdue(s, ph, env.now), |QueueOf(s, ph)| - i
  {
    hide Inv, Follows, QueueOf, Overdue, Expired;
    if i == |QueueOf(s, ph)| then
      FollowsSelf(s, env.now);
      NoneOverdue(s, ph, env.now);
      s
    else
      var x := QueueOf(s, ph)[i];
      OnQueue(s, ph, x);
      if !Later(env.now, s.queries[x].timeout) then AllExpired(s, ph, i + 1, env)
      else
        ExpiredIsProgress(s, x, ph, env);
        var s1 := Expired(s, x, env);
        var r := AllExpired(s1, ph, 0, env);
        FollowsTransitive(s, s1, r, env.now);
        r
  }

  /** Where the loop is. */
  lemma ExpiryPlace(s: State, ph: Phase, i: nat, env: Env)
    requires Inv(s, {}) && (ph == ToSend || ph == TcpWait) && EnvOk(env) && SeenTo(s, ph, i, env.now)
    ensures i <= |QueueOf(s, ph)| && QueueOf(s, ph) == if ph == ToSend then s.udpw else s.tcpw
    ensures i == |QueueOf(s, ph)| ==> AllExpired(s, ph, i, env) == s
    ensures i < |QueueOf(s, ph)| ==> var x := QueueOf(s, ph)[i]; x in s.queries && (x in s.udpw || x in s.tcpw)
  {
    hide Inv, Follows, Overdue, Expired;
    if i < |QueueOf(s, ph)| { OnQueue(s, ph, QueueOf(s, ph)[i]); }
  }

  /** One turn of the loop, at an entry that is not overdue, and at one that is. */
  lemma ExpiryNext(s: State, ph: Phase, i: nat, x: Handle, env: Env)
    requires Inv(s, {}) && (ph == ToSend || ph == TcpWait) && EnvOk(env) && SeenTo(s, ph, i, env.now)
    requires i < |QueueOf(s, ph)| && x == QueueOf(s, ph)[i] && x in s.queries && !Later(env.now, s.queries[x].timeout)
    ensures SeenTo(s, ph, i + 1, env.now) && AllExpired(s, ph, i, env) == AllExpired(s, ph, i + 1, env)
  {
    hide Inv, Follows, Overdue, Expired;
  }

  lemma ExpiryActs(s: State, ph: Phase, i: nat, x: Handle, env: Env)
    requires Inv(s, {}) && (ph == ToSend || ph == TcpWait) && EnvOk(env) && SeenTo(s, ph, i, env.now)
    requires i < |QueueOf(s, ph)| && x == QueueOf(s, ph)[i] && x in s.queries && (x in s.udpw || x in s.tcpw)
    requires Later(env.now, s.queries[x].timeout)
    ensures var r := Expired(s, x, env);
            && Inv(r, {}) && SeenTo(r, ph, 0, env.now) && Overdue(r, ph, env.now) < Overdue(s, ph, env.now)
            && AllExpired(s, ph, i, env) == AllExpired(r, ph, 0, env)
  {
    hide Inv, Follows, Overdue, Expired;
    ExpiredIsProgress(s, x, ph, env);
  }

  /** One entry is looked at, and dealt with if it is overdue; j is where to go on. */
  method Visit(r: Resolver, ph: Phase, i: nat, x: Handle, env: Env) returns (j: nat)
    requires Inv(r.View(), {}) && (ph == ToSend || ph == TcpWait) && EnvOk(env) && SeenTo(r.View(), ph, i, env.now)
    requires i < |QueueOf(r.View(), ph)| && x == QueueOf(r.View(), ph)[i]
    modifies r
    ensures Inv(r.View(), {}) && SeenTo(r.View(), ph, j, env.now) && j <= |QueueOf(r.View(), ph)|
    ensures AllExpired(r.View(), ph, j, env) == AllExpired(old(r.View()), ph, i, env)
    ensures Overdue(r.View(), ph, env.now) < Overdue(old(r.View()), ph, env.now) || (r.View() == old(r.View()) && j == i + 1)
  {
    hide Inv, Follows, Overdue, AllExpired, SeenTo, QueueOf, Expired, Later;
    ExpiryPlace(r.View(), ph, i, env);
    if !Later(env.now, r.queries[x].timeout) {
      ExpiryNext(r.View(), ph, i, x, env);
      j := i + 1;
    } else {
      ExpiryActs(r.View(), ph, i, x, env);
      Expire(r, x, env);
      j := 0;
    }
  }

  lemma QueueIsOf(s: State, ph: Phase)
    requires ph == ToSend || ph == TcpWait
    ensures QueueOf(s, ph) == if ph == ToSend then s.udpw else s.tcpw
  {
  }

  /** timeouts_queue(act=1): deals with the overdue entries of one queue,
      starting again from its head after each, until there is none. */
  method ExpireQueue(r: Resolver, ph: Phase, env: Env)
    requires Inv(r.View(), {}) && (ph == ToSend || ph == TcpWait) && EnvOk(env)
    modifies r
    ensures r.View() == AllExpired(old(r.View()), ph, 0, env)
    ensures Inv(r.View(), {}) && Follows(old(r.View()), r.View(), env.now)
    ensures Overdue(r.View(), ph, env.now) == {}
  {
    ghost var s0 := r.View();
    assert SeenTo(s0, ph, 0, env.now);
    hide Inv, Follows, Overdue, AllExpired, SeenTo, QueueOf;
    ExpiryPlace(s0, ph, 0, env);
    var i: nat := 0;
    var queue := if ph == ToSend then r.udpw else r.tcpw;
    while i < |queue|
      invariant Inv(r.View(), {}) && queue == QueueOf(r.View(), ph)
      invariant SeenTo(r.View(), ph, i, env.now) && i <= |queue|
      invariant AllExpired(r.View(), ph, i, env) == AllExpired(s0, ph, 0, env)
      decreases Overdue(r.View(), ph, env.now), |queue| - i
    {
      i := Visit(r, ph, i, queue[i], env);
      queue := if ph == ToSend then r.udpw else r.tcpw;
      QueueIsOf(r.View(), ph);
    }
    ExpiryPlace(r.View(), ph, i, env);
    assert r.View() == AllExpired(s0, ph, 0, env);
  }

  // ---- The whole pass ----

  /** The acting pass finds nothing to do at time t. */
  ghost predicate Quiet(s: State, t: Timeval) {
    && (forall x :: x in s.udpw || x in s.tcpw ==> x in s.queries && !Later(t, s.queries[x].timeout))
    && TcpSettled(s.net.tcp, s.tcpw == [], s.net.timeout, t)
  }

  lemma QuietMeansNoneOverdue(s: State, t: Timeval)
    requires Inv(s, {}) && Quiet(s, t)
    ensures Overdue(s, ToSend, t) == {} && Overdue(s, TcpWait, t) == {}
  {
    EveryQueryOnItsQueue(s);
    hide Inv;
    forall x | x in s.queries && (s.queries[x].phase == ToSend || s.queries[x].phase == TcpWait)
      ensures !Later(t, s.queries[x].timeout)
    {
      assert x in QueueOf(s, s.queries[x].phase);
    }
  }

  /** The whole acting pass: both queues, then the connection. */
  ghost function ActingPass(s: State, env: Env, calm: nat): (r: (State, Ending))
    requires Inv(s, {}) && EnvOk(env) && WearsOut(env, calm)
  {
    TcpActed(AllExpired(AllExpired(s, ToSend, 0, env), TcpWait, 0, env), env, calm)
  }

  /** Afterwards no query is overdue and the connection is as far as it can be taken,
      unless the purge lost its place or there was no socket; and if there is nothing to
      do nothing is done. */
  lemma ActingPassKeeps(s: State, env: Env, calm: nat)
    requires Inv(s, {}) && EnvOk(env) && WearsOut(env, calm)
    ensures var r := ActingPass(s, env, calm);
            && Inv(r.0, {}) && Follows(s, r.0, env.now)
            && Overdue(r.0, ToSend, env.now) == {} && Overdue(r.0, TcpWait, env.now) == {}
            && (r.1 == Settled ==> TcpSettled(r.0.net.tcp, r.0.tcpw == [], r.0.net.timeout, env.now))
            && (Quiet(s, env.now) ==> r == (s, Settled))
  {
    hide Inv, Follows, Overdue, AllExpired, TcpActed, WearsOut;
    var s1 := AllExpired(s, ToSend, 0, env);
    var s2 := AllExpired(s1, TcpWait, 0, env);
    var s3 := TcpActed(s2, env, calm).0;
    LoopSettles(s2, env, calm);
    FollowsTransitive(s, s1, s2, env.now);
    FollowsTransitive(s, s2, s3, env.now);
    FollowsAddsNoOverdue(s1, s3, ToSend, env.now) by { FollowsTransitive(s1, s2, s3, env.now); }
    FollowsAddsNoOverdue(s2, s3, TcpWait, env.now);
    if Quiet(s, env.now) { QuietMeansNoneOverdue(s, env.now); }
  }

  /** adns__timeouts(act=1), as adns_processtimeouts runs it. */
  method ProcessTimeouts(r: Resolver, env: Env, ghost calm: nat) returns (how: Ending)
    requires Inv(r.View(), {}) && EnvOk(env) && WearsOut(env, calm)
    modifies r
    ensures (r.View(), how) == ActingPass(old(r.View()), env, calm)
    ensures Inv(r.View(), {}) && Follows(old(r.View()), r.View(), env.now)
    ensures Overdue(r.View(), ToSend, env.now) == {} && Overdue(r.View(), TcpWait, env.now) == {}
    ensures how == Settled ==> TcpSettled(r.tcpstate, r.tcpw == [], r.tcptimeout, env.now)
    ensures Quiet(old(r.View()), env.now) ==> how == Settled && r.View() == old(r.View())
  {
    hide Inv, Follows, Overdue, AllExpired, TcpActed, WearsOut;
    ActingPassKeeps(r.View(), env, calm);
    ExpireQueue(r, ToSend, env);
    ExpireQueue(r, TcpWait, env);
    how := TcpEvents(r, env, calm);
  }

  // ---- When the pass stops short ----

  ghost predicate StoppedAt(s: State, r: State, t: State, j: nat, env: Env) {
    Follows(s, t, env.now) && EnvOk(env) && LosesAt(t, j, env) && r == Dropped(t, t.tcpw[j], env)
  }

  /** Somewhere in the pass a purge came to a spent query whose end freed the entry
      after it, and that is where the pass stopped. */
  ghost predicate LostPlace(s: State, r: State, env: Env) {
    exists t, j: nat :: StoppedAt(s, r, t, j, env)
  }

  lemma PurgeStops(s: State, env: Env)
    requires Inv(s, {}) && s.net.tcp == Broken && EnvOk(env) && WalkedTo(s, 0) && Purge(s, 0, env).1
    ensures LostPlace(s, Purge(s, 0, env).0, env)
  {
    hide Inv, Follows, Purge, Dropped, LosesNext, WalkedTo, Spent, ComesTo;
    var t, j := PurgeLost(s, 0, env);
    assert StoppedAt(s, Purge(s, 0, env).0, t, j, env);
  }

  lemma LostLater(s: State, s1: State, r: State, env: Env)
    requires Follows(s, s1, env.now) && LostPlace(s1, r, env)
    ensures LostPlace(s, r, env)
  {
    hide Inv, Follows, WalkedTo, Spent, LosesNext, Dropped;
    var t, j :| StoppedAt(s1, r, t, j, env);
    FollowsTransitive(s, s1, t, env.now);
    assert StoppedAt(s, r, t, j, env);
  }

  /** A turn that lost its place. */
  lemma TurnStops(s: State, env: Env)
    requires Inv(s, {}) && EnvOk(env) && Turn(s, env).Over? && Turn(s, env).how == PlaceLost
    ensures LostPlace(s, Turn(s, env).s, env) && !Content(env)
  {
    hide Inv, Follows, OnlyRetries, Purge, TcpBreak, IdleStarted, TcpClose, SpentOnTcpw, LostPlace, WalkedTo, Content, TryConnect, Later;
    InvTcpw(s);
    WalkStarts(s);
    PurgeStops(s, env);
    if Content(env) { ContentNeverLost(s, 0, env); }
  }

  /** The loop stops where the purge lost its place, or where no socket is to be had. */
  lemma {:induction false} TcpActedStops(s: State, env: Env, calm: nat)
    requires Inv(s, {}) && EnvOk(env) && WearsOut(env, calm)
    ensures var (r, how) := TcpActed(s, env, calm);
            && (how == PlaceLost ==> LostPlace(s, r, env) && !Content(env))
            && (how == Spinning ==> NoWayOut(r, env))
    decreases Fuel(s, env, calm), Rank(s.net.tcp, s.net.timeout, env.now)
  {
    hide Inv, Follows, Turn, WearsOut, Fuel, Rank, LostPlace, Content, NoWayOut;
    ActedUnfolds(s, env, calm);
    var c := Turn(s, env);
    if c.Over? {
      NeverSpun(s, env);
      if c.how == PlaceLost { TurnStops(s, env); }
    } else if c.s.net.tcp == Disconnected {
      DownAgain(s, env);
    } else {
      TurnProgress(s, env, calm);
      TcpActedStops(c.s, env, calm);
      if TcpActed(s, env, calm).1 == PlaceLost { LostLater(s, c.s, TcpActed(s, env, calm).0, env); }
    }
  }

  /** A pass that stops short does so for one of these reasons; with callbacks that end no
      parent with children left it never loses its place. */
  lemma ActingPassStops(s: State, env: Env, calm: nat)
    requires Inv(s, {}) && EnvOk(env) && WearsOut(env, calm)
    ensures var (r, how) := ActingPass(s, env, calm);
            && (how == PlaceLost ==> LostPlace(s, r, env) && !Content(env))
            && (how == Spinning ==> NoWayOut(r, env))
  {
    hide Inv, Follows, Overdue, AllExpired, TcpActed, LostPlace, Content, NoWayOut, WearsOut;
    var s1 := AllExpired(s, ToSend, 0, env);
    var s2 := AllExpired(s1, TcpWait, 0, env);
    FollowsTransitive(s, s1, s2, env.now);
    TcpActedStops(s2, env, calm);
    if ActingPass(s, env, calm).1 == PlaceLost { LostLater(s, s2, TcpActed(s2, env, calm).0, env); }
  }

  // ---- Reporting ----

  /** How long until the deadline, or none if it has passed, in microseconds. */
  function WaitFor(now: Timeval, deadline: Timeval): nat {
    if Micros(deadline) > Micros(now) then Micros(deadline) - Micros(now) else 0
  }

  /** inter_maxtoabs's subtraction: two seconds are taken off and put back as
      microseconds so that the division is of a positive number. */
  function Remaining(now: Timeval, deadline: Timeval): (r: Timeval)
    requires Normal(now) && Normal(deadline)
    ensures Normal(r) && Micros(r) == WaitFor(now, deadline)
  {
    var sec := deadline.sec - (now.sec + 2);
    var usec := deadline.usec - (now.usec - 2000000);
    var quot := usec / 1000000;
    if sec + quot < 0 then ZERO else Timeval(sec + quot, usec - quot * 1000000)
  }

  /** t is the least of the waits W, in microseconds, and there is no t if W is empty. */
  ghost predicate LeastOf(t: Option<Timeval>, W: set<int>) {
    match t
    case None => W == {}
    case Some(v) => Normal(v) && Micros(v) in W && forall w :: w in W ==> Micros(v) <= w
  }

  /** inter_maxto */
  function NoLaterThan(cur: Option<Timeval>, t: Timeval): Option<Timeval> {
    if cur.None? || Later(cur.value, t) then Some(t) else cur
  }

  lemma OneMoreWait(cur: Option<Timeval>, W: set<int>, t: Timeval)
    requires LeastOf(cur, W) && Normal(t)
    ensures LeastOf(NoLaterThan(cur, t), W + {Micros(t)})
  {
    if cur.Some? { LaterIsMicros(cur.value, t); }
    hide Micros, Later, Normal;
  }

  /** The waits for the deadlines of the queries of q. */
  ghost function Waits(s: State, q: seq<Handle>, now: Timeval): set<int>
    requires forall x :: x in q ==> x in s.queries
  {
    set x | x in q :: WaitFor(now, s.queries[x].timeout)
  }

  lemma WaitsGrow(s: State, q: seq<Handle>, now: Timeval, i: nat)
    requires i < |q| && forall x :: x in q ==> x in s.queries
    ensures Waits(s, q[..i+1], now) == Waits(s, q[..i], now) + {WaitFor(now, s.queries[q[i]].timeout)}
  {
    assert q[..i+1] == q[..i] + [q[i]];
    hide WaitFor;
  }

  lemma NoWaits(s: State, q: seq<Handle>, now: Timeval)
    requires forall x :: x in q ==> x in s.queries
    ensures Waits(s, q[..0], now) == {}
  {
  }

  lemma ZeroMicros()
    ensures Micros(ZERO) == 0
  {
  }

  lemma LeastIs(v: Timeval, m: int, W: set<int>)
    requires Normal(v) && Micros(v) == m && m in W && forall w :: w in W ==> m <= w
    ensures LeastOf(Some(v), W)
  {
    hide Micros;
  }

  lemma ZeroAmong(W: set<int>)
    requires forall w :: w in W ==> w >= 0
    ensures LeastOf(Some(ZERO), W + {0})
  {
    hide Micros;
    ZeroMicros();
    LeastIs(ZERO, 0, W + {0});
  }

  lemma WaitsArePositive(s: State, q: seq<Handle>, now: Timeval)
    requires forall x :: x in q ==> x in s.queries
    ensures forall w :: w in Waits(s, q, now) ==> w >= 0
  {
    hide WaitFor;
  }

  /** inter_immed's answer is the least wait when something is overdue. */
  lemma ZeroIsLeast(s: State, q: seq<Handle>, now: Timeval, i: nat, W: set<int>)
    requires i < |q| && forall x :: x in q ==> x in s.queries
    requires Normal(now) && Normal(s.queries[q[i]].timeout) && Later(now, s.queries[q[i]].timeout)
    requires forall w :: w in W ==> w >= 0
    ensures LeastOf(Some(ZERO), W + Waits(s, q, now))
  {
    LaterIsMicros(now, s.queries[q[i]].timeout);
    assert WaitFor(now, s.queries[q[i]].timeout) == 0;
    assert q[i] in q;
    hide WaitFor, Micros, Normal, Later;
    WaitsArePositive(s, q, now);
    assert W + Waits(s, q, now) == W + Waits(s, q, now) + {0};
    ZeroAmong(W + Waits(s, q, now));
  }

  /** timeouts_queue(act=0): looks at one queue and changes nothing. W holds the
      waits already counted. */
  method ReportQueue(r: Resolver, queue: seq<Handle>, now: Timeval, cur: Option<Timeval>, ghost W: set<int>)
    returns (t: Option<Timeval>)
    requires Normal(now) && LeastOf(cur, W) && forall w :: w in W ==> w >= 0
    requires forall x :: x in queue ==> x in r.queries && Normal(r.queries[x].timeout)
    ensures LeastOf(t, W + Waits(r.View(), queue, now))
  {
    hide LeastOf, Waits, Normal, Micros;
    ghost var s := r.View();
    t := cur;
    NoWaits(s, queue, now);
    assert W + Waits(s, queue[..0], now) == W;
    for i := 0 to |queue|
      invariant LeastOf(t, W + Waits(s, queue[..i], now))
    {
      var d := r.queries[queue[i]].timeout;
      assert queue[i] in queue;
      WaitsGrow(s, queue, now, i);
      if !Later(now, d) {
        var rem := Remaining(now, d);
        OneMoreWait(t, W + Waits(s, queue[..i], now), rem);
        assert W + Waits(s, queue[..i], now) + {WaitFor(now, d)} == W + Waits(s, queue[..i+1], now);
        t := NoLaterThan(t, rem);
      } else {
        ZeroIsLeast(s, queue, now, i, W);
        return Some(ZERO);
      }
    }
    assert queue[..|queue|] == queue;
  }

  /** What the connection adds to the waits: none, none at all, or the time to its
      own deadline. */
  ghost function TcpWaits(s: State, now: Timeval): set<int> {
    match s.net.tcp
    case Broken => {0}
    case Disconnected => if s.tcpw == [] then {} else {0}
    case Connecting => {WaitFor(now, s.net.timeout)}
    case Connected => if s.tcpw == [] then {WaitFor(now, s.net.timeout)} else {}
  }

  lemma NetNormal(s: State)
    requires Inv(s, {})
    ensures Normal(s.net.timeout)
    ensures forall x :: x in s.udpw || x in s.tcpw ==> x in s.queries && Normal(s.queries[x].timeout)
  {
    assert forall x :: x in s.queries ==> RangesOk(s.cfg, s.queries[x]);
  }

  /** tcp_events(act=0). It may start the idle timer. */
  method ReportTcp(r: Resolver, now: Timeval, cur: Option<Timeval>, ghost W: set<int>) returns (t: Option<Timeval>)
    requires Inv(r.View(), {}) && Normal(now) && LeastOf(cur, W) && forall w :: w in W ==> w >= 0
    modifies r
    ensures r.View() == IdleStarted(old(r.View()), now) && Inv(r.View(), {})
    ensures LeastOf(t, W + TcpWaits(r.View(), now))
  {
    hide Inv, LeastOf, Micros, Normal;
    t := cur;
    NetNormal(r.View());
    if r.tcpstate == Broken || (r.tcpstate == Disconnected && r.tcpw != []) {
      ZeroAmong(W);
      return Some(ZERO);
    }
    if r.tcpstate == Disconnected || (r.tcpstate == Connected && r.tcpw != []) {
      assert W + {} == W;
      return;
    }
    if r.tcpstate == Connected { StartIdleTimer(r, now); }
    NetNormal(r.View());
    var rem := Remaining(now, r.tcptimeout);
    OneMoreWait(t, W, rem);
    t := NoLaterThan(t, rem);
  }

  /** All the waits there are. */
  ghost function AllWaits(s: State, now: Timeval): set<int>
    requires forall x :: x in s.udpw || x in s.tcpw ==> x in s.queries
  {
    Waits(s, s.udpw, now) + Waits(s, s.tcpw, now) + TcpWaits(s, now)
  }

  ghost function LimitWait(limit: Option<Timeval>): set<int> {
    if limit.None? then {} else {Micros(limit.value)}
  }

  lemma LimitFirst(limit: Option<Timeval>)
    requires limit.Some? ==> Normal(limit.value) && limit.value.sec >= 0
    ensures LeastOf(limit, LimitWait(limit)) && forall w :: w in LimitWait(limit) ==> w >= 0
  {
  }

  lemma IdleTimerOnly(s: State, now: Timeval)
    requires Normal(now)
    ensures IdleStarted(s, now) == s.(net := IdleStarted(s, now).net)
  {
  }

  lemma SameWaits(s: State, r: State, now: Timeval)
    requires r == s.(net := r.net) && forall x :: x in s.udpw || x in s.tcpw ==> x in s.queries
    ensures Waits(r, r.udpw, now) == Waits(s, s.udpw, now) && Waits(r, r.tcpw, now) == Waits(s, s.tcpw, now)
  {
    hide WaitFor;
  }

  /** adns_firsttimeout: exactly the least of the caller's limit and every wait. */
  method FirstTimeout(r: Resolver, now: Timeval, limit: Option<Timeval>) returns (t: Option<Timeval>)
    requires Inv(r.View(), {}) && Normal(now)
    requires limit.Some? ==> Normal(limit.value) && limit.value.sec >= 0
    modifies r
    ensures r.View() == IdleStarted(old(r.View()), now) && Inv(r.View(), {})
    ensures forall x :: x in r.udpw || x in r.tcpw ==> x in r.queries
    ensures LeastOf(t, LimitWait(limit) + AllWaits(r.View(), now))
  {
    hide Inv, LeastOf, Waits, TcpWaits, LimitWait, IdleStarted, Micros;
    ghost var s := r.View();
    NetNormal(s);
    ghost var W0 := LimitWait(limit);
    LimitFirst(limit);
    ghost var W1 := W0 + Waits(s, s.udpw, now);
    ghost var W2 := W1 + Waits(s, s.tcpw, now);
    WaitsArePositive(s, s.udpw, now);
    WaitsArePositive(s, s.tcpw, now);
    t := ReportQueue(r, r.udpw, now, limit, W0);
    t := ReportQueue(r, r.tcpw, now, t, W1);
    t := ReportTcp(r, now, t, W2);
    NetNormal(r.View());
    IdleTimerOnly(s, now);
    SameWaits(s, r.View(), now);
    assert W2 + TcpWaits(r.View(), now) == LimitWait(limit) + AllWaits(r.View(), now);
  }

  // ---- The time for poll ----

  /** The whole milliseconds poll is asked to wait. */
  function PollMillis(t: Timeval): (ms: int)
    requires Normal(t)
    ensures Micros(t) <= 1000 * ms < Micros(t) + 1000
  {
    (t.usec + 999) / 1000 + t.sec * 1000
  }

  function FromMillis(ms: nat): (t: Timeval)
    ensures Normal(t) && Micros(t) == 1000 * ms && t.sec >= 0
  {
    Timeval(ms / 1000, (ms % 1000) * 1000)
  }

  lemma AllWaitsPositive(s: State, now: Timeval)
    requires forall x :: x in s.udpw || x in s.tcpw ==> x in s.queries
    ensures forall w :: w in AllWaits(s, now) ==> w >= 0
  {
    WaitsArePositive(s, s.udpw, now);
    WaitsArePositive(s, s.tcpw, now);
    hide Waits, WaitFor;
  }

  /** adns_beforepoll on its timeout: -1 is for ever; otherwise the least wait,
      rounded up by less than a millisecond and never beyond the caller's own. */
  method BeforePoll(r: Resolver, now: Timeval, timeout: int) returns (ms: int)
    requires Inv(r.View(), {}) && Normal(now) && timeout >= -1
    modifies r
    ensures r.View() == IdleStarted(old(r.View()), now) && Inv(r.View(), {})
    ensures forall x :: x in r.udpw || x in r.tcpw ==> x in r.queries
    ensures var W := (if timeout == -1 then {} else {1000 * timeout}) + AllWaits(r.View(), now);
            && (ms == -1 <==> W == {})
            && (W != {} ==> exists w :: w in W && w <= 1000 * ms < w + 1000 && forall u :: u in W ==> w <= u)
    ensures timeout >= 0 ==> 0 <= ms <= timeout
  {
    hide Inv, AllWaits, Waits, TcpWaits, IdleStarted;
    var limit := if timeout == -1 then None else Some(FromMillis(timeout));
    var t := FirstTimeout(r, now, limit);
    AllWaitsPositive(r.View(), now);
    if t.None? { return -1; }
    hide Micros, Normal;
    ms := PollMillis(t.value);
  }

  // ---- The two passes agree ----

  lemma WaitIsRoom(now: Timeval, t: Timeval, d: Timeval)
    requires Normal(now) && Normal(t) && Normal(d)
    ensures Micros(now) + WaitFor(now, d) >= Micros(t) && WaitFor(now, d) > 0 ==> !Later(t, d)
    ensures Micros(t) > Micros(now) + WaitFor(now, d) ==> Later(t, d)
  {
    LaterIsMicros(t, d);
  }

  /** If the time reported (s is the state the report leaves) is not nought, then up
      to that time the acting pass has nothing to do. */
  lemma NothingBeforeReportedTime(s0: State, s: State, now: Timeval, limit: Option<Timeval>, v: Timeval, t: Timeval)
    requires Inv(s, {}) && Normal(now) && Normal(t) && now.sec >= 0 && s == IdleStarted(s0, now)
    requires forall x :: x in s.udpw || x in s.tcpw ==> x in s.queries
    requires LeastOf(Some(v), LimitWait(limit) + AllWaits(s, now))
    requires 0 < Micros(v) && Micros(now) <= Micros(t) <= Micros(now) + Micros(v)
    ensures Quiet(s, t)
  {
    NetNormal(s);
    hide Inv, Normal, WaitFor, Later, Micros;
    forall x | x in s.udpw || x in s.tcpw ensures !Later(t, s.queries[x].timeout) {
      var w := WaitFor(now, s.queries[x].timeout);
      assert w in Waits(s, s.udpw, now) || w in Waits(s, s.tcpw, now);
      assert w in LimitWait(limit) + AllWaits(s, now);
      WaitIsRoom(now, t, s.queries[x].timeout);
    }
    assert forall w :: w in TcpWaits(s, now) ==> w in LimitWait(limit) + AllWaits(s, now);
    WaitIsRoom(now, t, s.net.timeout);
    assert 0 !in TcpWaits(s, now);
    if s.net.tcp == Connecting || (s.net.tcp == Connected && s.tcpw == []) {
      assert WaitFor(now, s.net.timeout) in TcpWaits(s, now);
    }
  }

  /** And just after it, unless it was the caller's limit, there is something to do. */
  lemma SomethingAfterReportedTime(s: State, now: Timeval, limit: Option<Timeval>, v: Timeval, t: Timeval)
    requires Inv(s, {}) && Normal(now) && Normal(t)
    requires forall x :: x in s.udpw || x in s.tcpw ==> x in s.queries
    requires LeastOf(Some(v), LimitWait(limit) + AllWaits(s, now))
    requires limit.Some? ==> Micros(v) < Micros(limit.value)
    requires Micros(t) > Micros(now) + Micros(v)
    ensures !Quiet(s, t)
  {
    NetNormal(s);
    var w := Micros(v);
    assert w in AllWaits(s, now);
    hide Inv, Normal, WaitFor, Later, Micros;
    if w in Waits(s, s.udpw, now) || w in Waits(s, s.tcpw, now) {
      var x :| (x in s.udpw || x in s.tcpw) && w == WaitFor(now, s.queries[x].timeout);
      WaitIsRoom(now, t, s.queries[x].timeout);
    } else {
      WaitIsRoom(now, t, s.net.timeout);
    }
  }
}
