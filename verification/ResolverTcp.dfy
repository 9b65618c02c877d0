/**
 The shared TCP connection: breaking it, connecting it, and handing the waiting
 queries to it. Counts retries and connection attempts.
 */
module ResolverTcp {
  import opened Common
  import opened Timeval
  import opened ResolverState
  import opened ResolverEnv

  /** tcp_close */
  function TcpClose(n: Net): Net {
    n.(socketOpen := false, recvUsed := 0, recvSkip := 0, sendUsed := 0)
  }

  /** adns__tcp_broken: a broken attempt, but not a broken connection, counts as
      a retry for every query on tcpw; the next attempt goes to the next server. */
  function TcpBreak(s: State): (r: State)
    requires s.cfg.nservers > 0
    ensures r.cfg == s.cfg && r.tcpw == s.tcpw && r.queries.Keys == s.queries.Keys && r.net.tcp == Broken
  {
    s.(queries := map h | h in s.queries ::
                    if s.net.tcp == Connecting && h in s.tcpw
                    then s.queries[h].(retries := s.queries[h].retries + 1)
                    else s.queries[h],
       net := TcpClose(s.net).(tcp := Broken, server := (s.net.server + 1) % s.cfg.nservers))
  }

  function MarkSent(s: State, x: Handle, bytes: nat): State
    requires x in s.queries
  {
    var q := s.queries[x];
    s.(queries := s.queries[x := q.(retries := q.retries + 1)],
       net := s.net.(timeout := ZERO, sendUsed := s.net.sendUsed + bytes))
  }

  /** adns__querysend_tcp: nothing unless the connection is up and there is memory for
      the query; otherwise a retry is counted, the idle timer cleared and the query
      sent or buffered, or the connection breaks. */
  function HandToTcp(s: State, x: Handle, env: Env): State
    requires s.cfg.nservers > 0 && x in s.queries
  {
    if s.net.tcp != Connected then s else
    match env.write(x, |s.net.attempts|)
    case NoRoom => s
    case Written(left) => MarkSent(s, x, left)
    case Failed => TcpBreak(MarkSent(s, x, 0))
  }

  /** The loop of tcp_connected, from the i'th query of tcpw on. */
  function SendAll(s: State, i: nat, env: Env): State
    requires s.cfg.nservers > 0
    requires forall x :: x in s.tcpw ==> x in s.queries
    decreases |s.tcpw| - i
  {
    if i < |s.tcpw| && s.net.tcp == Connected then SendAll(HandToTcp(s, s.tcpw[i], env), i + 1, env) else s
  }

  /** tcp_connected */
  function TcpUp(s: State, env: Env): State
    requires s.cfg.nservers > 0
    requires forall x :: x in s.tcpw ==> x in s.queries
  {
    SendAll(s.(net := s.net.(tcp := Connected)), 0, env)
  }

  /** A socket to the current server, connecting. */
  function OpenAttempt(s: State): (r: State)
    ensures r.cfg == s.cfg && r.tcpw == s.tcpw && r.queries == s.queries && r.net.tcp == Connecting
  {
    s.(net := s.net.(tcp := Connecting, socketOpen := true, attempts := s.net.attempts + [s.net.server]))
  }

  /** An attempt that connect refuses at once. */
  function RefusedOnce(s: State): (r: State)
    requires s.cfg.nservers > 0
    ensures r.cfg == s.cfg && r.tcpw == s.tcpw && r.queries.Keys == s.queries.Keys && r.net.tcp == Disconnected
    ensures |r.net.attempts| == |s.net.attempts| + 1
  {
    var s1 := TcpBreak(OpenAttempt(s));
    s1.(net := s1.net.(tcp := Disconnected))
  }

  /** adns__tcp_tryconnect, with tries attempts already made in this call. */
  function TryConnect(s: State, tries: nat, env: Env): State
    requires s.cfg.nservers > 0 && Normal(env.now)
    requires forall x :: x in s.tcpw ==> x in s.queries
    decreases s.cfg.nservers - tries
  {
    if tries >= s.cfg.nservers || s.net.tcp != Disconnected then s else
    var s1 := OpenAttempt(s);
    match env.connect(|s.net.attempts|)
    case NoSocket => s
    case Success => TcpUp(s1, env)
    case InProgress => s1.(net := s1.net.(timeout := TimevalAdd(env.now, TCPCONNMS)))
    case ImmediateFail => TryConnect(RefusedOnce(s), tries + 1, env)
  }

  // ---- Each keeps the invariant ----

  /** The retry account while the queries from place i of tcpw on are unsent. */
  ghost predicate RetriesOkFrom(s: State, i: nat) {
    s.cfg.nservers > 0 &&
    forall k :: 0 <= k < |s.tcpw| ==>
      s.tcpw[k] in s.queries &&
      RetryOk(s.cfg, s.net, s.queries[s.tcpw[k]].retries, s.queries[s.tcpw[k]].joined, k >= i)
  }

  ghost predicate InvFrom(s: State, busy: set<Handle>, i: nat) {
    NetOk(s.cfg, s.net) && QueuesOk(s, busy) && QueriesOk(s, busy) && RetriesOkFrom(s, i)
  }

  lemma InvFromEnd(s: State, busy: set<Handle>, i: nat)
    requires i >= |s.tcpw|
    ensures Inv(s, busy) <==> InvFrom(s, busy, i)
  {
  }

  /** r is s but for the connection and the retries of the queries on tcpw. */
  ghost predicate OnlyRetries(s: State, r: State) {
    && r == s.(queries := r.queries, net := r.net)
    && r.queries.Keys == s.queries.Keys
    && s.net.attempts <= r.net.attempts
    && forall x :: x in s.queries ==>
         && r.queries[x] == s.queries[x].(retries := r.queries[x].retries)
         && (x in s.tcpw || r.queries[x].retries == s.queries[x].retries)
  }

  lemma OnlyRetriesKeepsQueues(s: State, r: State, busy: set<Handle>)
    requires QueuesOk(s, busy) && OnlyRetries(s, r)
    ensures QueuesOk(r, busy)
  {
    assert forall x :: x in s.queries ==> r.queries[x].phase == s.queries[x].phase;
  }

  lemma OnlyRetriesKeepsQueries(s: State, r: State, busy: set<Handle>)
    requires QueriesOk(s, busy) && OnlyRetries(s, r)
    requires forall x :: x in r.tcpw && x in r.queries ==>
               r.queries[x].phase == TcpWait && r.queries[x].retries <= s.cfg.nservers + 1
    ensures QueriesOk(r, busy)
  {
    forall x | x in r.queries
      ensures x < r.next && RangesOk(r.cfg, r.queries[x]) && KidsOk(r, x)
      ensures x !in busy ==> PhaseOk(r.cfg, r.queries[x]) && Attached(r, x)
    {
      assert KidsOk(s, x) && (x !in busy ==> PhaseOk(s.cfg, s.queries[x]) && Attached(s, x));
    }
  }

  lemma OnlyRetriesKeepsInv(s: State, r: State, busy: set<Handle>, i: nat)
    requires QueuesOk(s, busy) && QueriesOk(s, busy) && OnlyRetries(s, r)
    requires NetOk(r.cfg, r.net) && RetriesOkFrom(r, i)
    ensures InvFrom(r, busy, i)
  {
    OnlyRetriesKeepsQueues(s, r, busy);
    forall x | x in r.tcpw && x in r.queries
      ensures r.queries[x].phase == TcpWait && r.queries[x].retries <= s.cfg.nservers + 1
    {
      var k :| 0 <= k < |r.tcpw| && r.tcpw[k] == x;
      assert RetryOk(r.cfg, r.net, r.queries[r.tcpw[k]].retries, r.queries[r.tcpw[k]].joined, k >= i);
    }
    OnlyRetriesKeepsQueries(s, r, busy);
  }

  lemma BreakKeepsRetry(cfg: Config, n: Net, retries: nat, joined: nat, unsent: bool, later: bool)
    requires NetOk(cfg, n) && n.Open()
    requires RetryOk(cfg, n, retries, joined, unsent)
    ensures var m := TcpClose(n).(tcp := Broken, server := (n.server + 1) % cfg.nservers);
            RetryOk(cfg, m, if n.tcp == Connecting then retries + 1 else retries, joined, later)
  {
  }

  lemma BreakKeepsInv(s: State, busy: set<Handle>, i: nat)
    requires InvFrom(s, busy, i) && s.net.Open()
    ensures Inv(TcpBreak(s), busy) && OnlyRetries(s, TcpBreak(s))
  {
    var r := TcpBreak(s);
    assert RetriesOkFrom(r, |r.tcpw|) by {
      forall k | 0 <= k < |s.tcpw|
        ensures s.tcpw[k] in r.queries
        ensures RetryOk(r.cfg, r.net, r.queries[s.tcpw[k]].retries, r.queries[s.tcpw[k]].joined, k >= |s.tcpw|)
      {
        BreakKeepsRetry(s.cfg, s.net, s.queries[s.tcpw[k]].retries, s.queries[s.tcpw[k]].joined, k >= i, k >= |s.tcpw|);
      }
    }
    OnlyRetriesKeepsInv(s, r, busy, |r.tcpw|);
    InvFromEnd(r, busy, |r.tcpw|);
  }

  lemma MarkKeepsRetries(s: State, i: nat, bytes: nat)
    requires RetriesOkFrom(s, i) && s.net.tcp == Connected
    requires NoDup(s.tcpw) && i < |s.tcpw|
    ensures RetriesOkFrom(MarkSent(s, s.tcpw[i], bytes), i + 1)
  {
    var x := s.tcpw[i];
    var r := MarkSent(s, x, bytes);
    forall k | 0 <= k < |s.tcpw|
      ensures s.tcpw[k] in r.queries
      ensures RetryOk(r.cfg, r.net, r.queries[s.tcpw[k]].retries, r.queries[s.tcpw[k]].joined, k >= i + 1)
    {
      assert RetryOk(s.cfg, s.net, s.queries[s.tcpw[k]].retries, s.queries[s.tcpw[k]].joined, k >= i);
      assert k != i ==> s.tcpw[k] != x;
    }
  }

  lemma MarkKeepsInv(s: State, busy: set<Handle>, i: nat, bytes: nat)
    requires InvFrom(s, busy, i) && s.net.tcp == Connected
    requires i < |s.tcpw|
    ensures var r := MarkSent(s, s.tcpw[i], bytes);
            InvFrom(r, busy, i + 1) && OnlyRetries(s, r)
  {
    MarkKeepsRetries(s, i, bytes);
    OnlyRetriesKeepsInv(s, MarkSent(s, s.tcpw[i], bytes), busy, i + 1);
  }

  lemma OnlyRetriesTransitive(a: State, b: State, c: State)
    requires OnlyRetries(a, b) && OnlyRetries(b, c)
    ensures OnlyRetries(a, c)
  {
  }

  /** While the connection is not up the sent mark does not matter. */
  lemma InvAnyFrom(s: State, busy: set<Handle>, i: nat)
    requires s.net.tcp != Connected
    ensures Inv(s, busy) <==> InvFrom(s, busy, i)
  {
    assert RetriesOk(s) <==> RetriesOkFrom(s, i) by {
      forall r: nat, j: nat, a: bool, b: bool | s.cfg.nservers > 0
        ensures RetryOk(s.cfg, s.net, r, j, a) <==> RetryOk(s.cfg, s.net, r, j, b) {}
      if RetriesOkFrom(s, i) {
        forall x | x in s.tcpw
          ensures x in s.queries && RetryOk(s.cfg, s.net, s.queries[x].retries, s.queries[x].joined, false)
        {
          var k :| 0 <= k < |s.tcpw| && s.tcpw[k] == x;
        }
      }
    }
  }

  /** A query there is no memory for counts as handed over, without a retry. */
  lemma PassOverKeepsInv(s: State, busy: set<Handle>, i: nat)
    requires InvFrom(s, busy, i) && s.net.tcp == Connected
    ensures InvFrom(s, busy, i + 1) && OnlyRetries(s, s)
  {
    forall k | 0 <= k < |s.tcpw|
      ensures RetryOk(s.cfg, s.net, s.queries[s.tcpw[k]].retries, s.queries[s.tcpw[k]].joined, k >= i + 1)
    {
      assert RetryOk(s.cfg, s.net, s.queries[s.tcpw[k]].retries, s.queries[s.tcpw[k]].joined, k >= i);
    }
    hide QueuesOk, QueriesOk;
  }

  /** Handing over the next unsent query. */
  lemma HandKeepsInv(s: State, busy: set<Handle>, i: nat, env: Env)
    requires InvFrom(s, busy, i) && s.net.tcp == Connected
    requires i < |s.tcpw|
    ensures var r := HandToTcp(s, s.tcpw[i], env);
            InvFrom(r, busy, i + 1) && OnlyRetries(s, r)
  {
    match env.write(s.tcpw[i], |s.net.attempts|)
    case NoRoom => PassOverKeepsInv(s, busy, i);
    case Written(left) => MarkKeepsInv(s, busy, i, left);
    case Failed =>
      var s1 := MarkSent(s, s.tcpw[i], 0);
      MarkKeepsInv(s, busy, i, 0);
      BreakKeepsInv(s1, busy, i + 1);
      InvAnyFrom(TcpBreak(s1), busy, i + 1);
      OnlyRetriesTransitive(s, s1, TcpBreak(s1));
  }

  lemma InvFromTcpw(s: State, busy: set<Handle>, i: nat)
    requires InvFrom(s, busy, i)
    ensures s.cfg.nservers > 0 && forall x :: x in s.tcpw ==> x in s.queries
  {
  }

  lemma SendAllUnfolds(s: State, busy: set<Handle>, i: nat, env: Env)
    requires InvFrom(s, busy, i) && i < |s.tcpw| && s.net.tcp == Connected
    ensures s.tcpw[i] in s.queries
    ensures var s1 := HandToTcp(s, s.tcpw[i], env);
            && s1.tcpw == s.tcpw && (forall x :: x in s1.tcpw ==> x in s1.queries)
            && SendAll(s, i, env) == SendAll(s1, i + 1, env)
  {
  }

  lemma SendAllEnds(s: State, busy: set<Handle>, i: nat, env: Env)
    requires InvFrom(s, busy, i) && !(i < |s.tcpw| && s.net.tcp == Connected)
    ensures SendAll(s, i, env) == s && Inv(s, busy) && OnlyRetries(s, s)
  {
    hide QueuesOk, QueriesOk, NetOk, RetryOk;
    if s.net.tcp == Connected { InvFromEnd(s, busy, i); } else { InvAnyFrom(s, busy, i); }
  }

  lemma {:induction false} SendAllKeepsInv(s: State, busy: set<Handle>, i: nat, env: Env)
    requires InvFrom(s, busy, i)
    ensures Inv(SendAll(s, i, env), busy) && OnlyRetries(s, SendAll(s, i, env))
    decreases |s.tcpw| - i
  {
    hide *;
    InvFromTcpw(s, busy, i);
    if i < |s.tcpw| && s.net.tcp == Connected {
      HandKeepsInv(s, busy, i, env);
      SendAllUnfolds(s, busy, i, env);
      var s1 := HandToTcp(s, s.tcpw[i], env);
      SendAllKeepsInv(s1, busy, i + 1, env);
      OnlyRetriesTransitive(s, s1, SendAll(s1, i + 1, env));
    } else {
      SendAllEnds(s, busy, i, env);
    }
  }

  lemma TcpUpKeepsInv(s: State, busy: set<Handle>, env: Env)
    requires Inv(s, busy) && s.net.tcp == Connecting
    ensures Inv(TcpUp(s, env), busy) && OnlyRetries(s, TcpUp(s, env))
  {
    var s1 := s.(net := s.net.(tcp := Connected));
    assert RetriesOkFrom(s1, 0) by {
      forall k | 0 <= k < |s.tcpw|
        ensures s.tcpw[k] in s.queries
        ensures RetryOk(s1.cfg, s1.net, s1.queries[s.tcpw[k]].retries, s1.queries[s.tcpw[k]].joined, true)
      {
        assert RetryOk(s.cfg, s.net, s.queries[s.tcpw[k]].retries, s.queries[s.tcpw[k]].joined, false);
      }
    }
    OnlyRetriesKeepsInv(s, s1, busy, 0);
    SendAllKeepsInv(s1, busy, 0, env);
  }

  lemma AttemptGoesRound(nservers: nat, n: Net, j: nat)
    requires nservers > 0 && !n.Open() && GoesRound(nservers, n, j)
    ensures GoesRound(nservers, n.(tcp := Connecting, socketOpen := true, attempts := n.attempts + [n.server]), j)
  {
    var m := n.(tcp := Connecting, socketOpen := true, attempts := n.attempts + [n.server]);
    forall i | j < i < |m.attempts| ensures FollowsOn(m.attempts, nservers, i) {
      if i < |n.attempts| { assert FollowsOn(n.attempts, nservers, i); }
    }
  }

  lemma AttemptKeepsRetry(cfg: Config, n: Net, retries: nat, joined: nat)
    requires NetOk(cfg, n) && n.tcp == Disconnected
    requires RetryOk(cfg, n, retries, joined, false)
    ensures RetryOk(cfg, n.(tcp := Connecting, socketOpen := true, attempts := n.attempts + [n.server]), retries, joined, false)
  {
    AttemptGoesRound(cfg.nservers, n, joined);
    hide GoesRound, NetOk;
  }

  lemma AttemptKeepsInv(s: State, busy: set<Handle>)
    requires Inv(s, busy) && s.net.tcp == Disconnected
    ensures Inv(OpenAttempt(s), busy) && OnlyRetries(s, OpenAttempt(s))
  {
    var r := OpenAttempt(s);
    forall k | 0 <= k < |s.tcpw|
      ensures s.tcpw[k] in r.queries
      ensures RetryOk(r.cfg, r.net, r.queries[s.tcpw[k]].retries, r.queries[s.tcpw[k]].joined, k >= |s.tcpw|)
    {
      AttemptKeepsRetry(s.cfg, s.net, s.queries[s.tcpw[k]].retries, s.queries[s.tcpw[k]].joined);
    }
    OnlyRetriesKeepsInv(s, r, busy, |r.tcpw|);
    InvFromEnd(r, busy, |r.tcpw|);
  }

  // ---- Every server has been tried ----

  lemma MulSign(d: int, n: int)
    requires n >= 0
    ensures d >= 1 ==> d * n >= n
    ensures d <= -1 ==> d * n <= -n
  {
    if d >= 1 { assert (d - 1) * n >= 0; }
    if d <= -1 { assert (-1 - d) * n >= 0; }
  }

  lemma ModUnique(a: nat, n: nat, q: nat, m: nat)
    requires n > 0 && a == q * n + m && m < n
    ensures a % n == m
  {
    var d := a / n - q;
    assert a == (a / n) * n + a % n;
    assert d * n == m - a % n;
    MulSign(d, n);
  }

  lemma ModStep(a: nat, n: nat)
    requires n > 0
    ensures (a % n + 1) % n == (a + 1) % n
  {
    var q, m := a / n, a % n;
    assert a == q * n + m;
    if m + 1 < n {
      ModUnique(a + 1, n, q, m + 1);
    } else {
      assert a + 1 == (q + 1) * n + 0;
      ModUnique(a + 1, n, q + 1, 0);
      ModUnique(n, n, 1, 0);
    }
  }

  lemma {:induction false} GoingRound(attempts: seq<nat>, n: nat, j: nat, i: nat)
    requires n > 0 && j + i < |attempts| && attempts[j] < n
    requires forall k :: j < k < |attempts| ==> FollowsOn(attempts, n, k)
    ensures attempts[j + i] == (attempts[j] + i) % n
    decreases i
  {
    if i > 0 {
      GoingRound(attempts, n, j, i - 1);
      assert FollowsOn(attempts, n, j + i);
      ModStep(attempts[j] + i - 1, n);
    }
  }

  /** A query that has run out of servers has seen a connection attempt to each
      of them since it joined tcpw. */
  lemma AllServersTried(s: State, x: Handle, server: nat)
    requires NetOk(s.cfg, s.net) && RetriesOk(s) && x in s.tcpw
    requires s.queries[x].retries > s.cfg.nservers
    requires server < s.cfg.nservers
    ensures s.queries[x].joined <= |s.net.attempts|
    ensures server in s.net.attempts[s.queries[x].joined..]
  {
    var j, n := s.queries[x].joined, s.cfg.nservers;
    assert RetryOk(s.cfg, s.net, s.queries[x].retries, j, false);
    var first := s.net.attempts[j];
    var i := if server >= first then server - first else server + n - first;
    GoingRound(s.net.attempts, n, j, i);
    ModUnique(first + i, n, if server >= first then 0 else 1, server);
    assert s.net.attempts[j..][i] == server;
  }

  /** The bounds the retries keep, state by state. */
  lemma RetryBounds(s: State, x: Handle)
    requires RetriesOk(s) && x in s.tcpw
    ensures s.queries[x].retries <= s.cfg.nservers + 1
    ensures s.net.tcp != Broken && s.net.tcp != Connected ==> s.queries[x].retries <= s.cfg.nservers
  {
    assert RetryOk(s.cfg, s.net, s.queries[x].retries, s.queries[x].joined, false);
  }

  // ---- Connections refused on the spot ----

  /** tries attempts in a row that connect refuses at once. */
  function RefusedAtOnce(s: State, tries: nat): State
    requires s.cfg.nservers > 0
    decreases tries
  {
    if tries == 0 then s else RefusedAtOnce(RefusedOnce(s), tries - 1)
  }

  /** How many of the attempts from number a on connect refuses in a row, most at the most. */
  function Refusals(env: Env, a: nat, most: nat): (k: nat)
    ensures k <= most && (k < most ==> env.connect(a + k) != ImmediateFail)
    ensures k == 0 <==> most == 0 || env.connect(a) != ImmediateFail
    decreases most
  {
    if most == 0 || env.connect(a) != ImmediateFail then 0 else 1 + Refusals(env, a + 1, most - 1)
  }

  /** r is s with k more retries for every query on tcpw, and one more for those of H. */
  ghost predicate Counted(s: State, r: State, k: nat, H: set<Handle>) {
    && r == s.(queries := r.queries, net := r.net) && r.queries.Keys == s.queries.Keys
    && s.net.attempts <= r.net.attempts
    && forall x :: x in s.queries ==>
         r.queries[x] == if x in s.tcpw then s.queries[x].(retries := s.queries[x].retries + k + (if x in H then 1 else 0))
                         else s.queries[x]
  }

  lemma {:induction false} RefusalsCount(s: State, tries: nat)
    requires s.cfg.nservers > 0 && s.net.tcp == Disconnected
    ensures var r := RefusedAtOnce(s, tries);
            Counted(s, r, tries, {}) && r.net.tcp == Disconnected && |r.net.attempts| == |s.net.attempts| + tries
    decreases tries
  {
    if tries > 0 {
      RefusalsCount(RefusedOnce(s), tries - 1);
    }
  }

  /** adns__tcp_tryconnect goes straight from one refused attempt to the next, and then
      does what the first answer that is no refusal says. */
  lemma {:induction false} AfterRefusals(s: State, tries: nat, env: Env)
    requires s.cfg.nservers > 0 && Normal(env.now) && s.net.tcp == Disconnected && tries <= s.cfg.nservers
    requires forall x :: x in s.tcpw ==> x in s.queries
    ensures var k := Refusals(env, |s.net.attempts|, s.cfg.nservers - tries);
            var r := RefusedAtOnce(s, k);
            && r.cfg == s.cfg && (forall x :: x in r.tcpw ==> x in r.queries)
            && TryConnect(s, tries, env) == TryConnect(r, tries + k, env)
    decreases s.cfg.nservers - tries
  {
    hide TcpUp, RefusedOnce, OpenAttempt;
    if tries < s.cfg.nservers && env.connect(|s.net.attempts|) == ImmediateFail {
      AfterRefusals(RefusedOnce(s), tries + 1, env);
    }
  }

  /** The queries of q that a retry is counted for when they are handed over in turn
      to a connection that came up with attempt a. */
  function HandedOver(q: seq<Handle>, env: Env, a: nat): (H: set<Handle>)
    ensures forall x :: x in H ==> x in q
  {
    if q == [] then {}
    else match env.write(q[0], a)
      case NoRoom => HandedOver(q[1..], env, a)
      case Written(_) => {q[0]} + HandedOver(q[1..], env, a)
      case Failed => {q[0]}
  }

  lemma HandCounts(s: State, x: Handle, env: Env)
    requires s.cfg.nservers > 0 && s.net.tcp == Connected && x in s.tcpw && x in s.queries
    ensures var r := HandToTcp(s, x, env);
            && Counted(s, r, 0, if env.write(x, |s.net.attempts|) == NoRoom then {} else {x})
            && r.net.attempts == s.net.attempts
            && r.net.tcp == if env.write(x, |s.net.attempts|) == Failed then Broken else Connected
  {
  }

  lemma CountedBoth(a: State, b: State, c: State, k: nat, H1: set<Handle>, H2: set<Handle>)
    requires Counted(a, b, k, H1) && Counted(b, c, 0, H2) && H1 !! H2
    ensures Counted(a, c, k, H1 + H2)
  {
  }

  lemma CountedFirst(a: State, b: State, c: State, k: nat, H: set<Handle>)
    requires Counted(a, b, k, {}) && Counted(b, c, 0, H)
    ensures Counted(a, c, k, H)
  {
  }

  lemma CountedSame(s: State, r: State, k: nat, H: set<Handle>)
    requires Counted(s, r, k, H)
    ensures r.cfg == s.cfg && r.tcpw == s.tcpw && r.queries.Keys == s.queries.Keys
  {
  }

  lemma {:induction false} SendAllCounts(s: State, i: nat, env: Env)
    requires s.cfg.nservers > 0 && s.net.tcp == Connected && NoDup(s.tcpw) && i <= |s.tcpw|
    requires forall x :: x in s.tcpw ==> x in s.queries
    ensures Counted(s, SendAll(s, i, env), 0, HandedOver(s.tcpw[i..], env, |s.net.attempts|))
    decreases |s.tcpw| - i
  {
    if i < |s.tcpw| {
      var q := s.tcpw[i..];
      var s1 := HandToTcp(s, s.tcpw[i], env);
      HandCounts(s, s.tcpw[i], env);
      assert q[0] == s.tcpw[i] && q[1..] == s.tcpw[i + 1..];
      assert s.tcpw[i] !in s.tcpw[i + 1..];
      hide HandToTcp, NoDup;
      if s1.net.tcp == Connected {
        SendAllCounts(s1, i + 1, env);
        CountedBoth(s, s1, SendAll(s1, i + 1, env), 0, if env.write(q[0], |s.net.attempts|) == NoRoom then {} else {q[0]},
                    HandedOver(q[1..], env, |s.net.attempts|));
      } else {
        assert SendAll(s1, i + 1, env) == s1;
      }
    }
  }

  /** The queries handed over by a call that is refused k times and then comes through. */
  function HandedAfter(s: State, k: nat, env: Env): set<Handle> {
    var a := |s.net.attempts| + k;
    if k < s.cfg.nservers && env.connect(a) == Success then HandedOver(s.tcpw, env, a + 1) else {}
  }

  lemma UpCounts(s: State, env: Env)
    requires s.cfg.nservers > 0 && NoDup(s.tcpw) && forall x :: x in s.tcpw ==> x in s.queries
    ensures Counted(s, TcpUp(OpenAttempt(s), env), 0, HandedOver(s.tcpw, env, |s.net.attempts| + 1))
  {
    var up := OpenAttempt(s).(net := OpenAttempt(s).net.(tcp := Connected));
    SendAllCounts(up, 0, env);
    assert s.tcpw[0..] == s.tcpw;
    hide SendAll, NoDup, HandedOver;
    CountedFirst(s, up, SendAll(up, 0, env), 0, HandedOver(s.tcpw, env, |s.net.attempts| + 1));
  }

  /** The last attempt of a call, if there is one. */
  lemma LastAttemptCounts(s: State, tries: nat, env: Env)
    requires s.cfg.nservers > 0 && Normal(env.now) && s.net.tcp == Disconnected && NoDup(s.tcpw)
    requires forall x :: x in s.tcpw ==> x in s.queries
    requires tries < s.cfg.nservers ==> env.connect(|s.net.attempts|) != ImmediateFail
    ensures Counted(s, TryConnect(s, tries, env), 0,
                    if tries < s.cfg.nservers && env.connect(|s.net.attempts|) == Success
                    then HandedOver(s.tcpw, env, |s.net.attempts| + 1) else {})
  {
    hide SendAll, NoDup, HandedOver, TcpUp;
    UpCounts(s, env);
  }

  /** The retries that one call of adns__tcp_tryconnect counts, whatever connect answers. */
  lemma TryConnectCounts(s: State, env: Env)
    requires s.cfg.nservers > 0 && Normal(env.now) && s.net.tcp == Disconnected && NoDup(s.tcpw)
    requires forall x :: x in s.tcpw ==> x in s.queries
    ensures var k := Refusals(env, |s.net.attempts|, s.cfg.nservers);
            Counted(s, TryConnect(s, 0, env), k, HandedAfter(s, k, env))
  {
    hide RefusedAtOnce, NoDup, HandedOver, TryConnect, Counted, Refusals;
    var k := Refusals(env, |s.net.attempts|, s.cfg.nservers);
    var r := RefusedAtOnce(s, k);
    RefusalsCount(s, k);
    AfterRefusals(s, 0, env);
    CountedSame(s, r, k, {});
    LastAttemptCounts(r, k, env);
    CountedFirst(s, r, TryConnect(r, k, env), k, HandedAfter(s, k, env));
  }

  lemma CheckAfterCounting(s: State, r: State, k: nat, H: set<Handle>)
    requires Inv(s, {}) && Counted(s, r, k, H)
    ensures CheckQueueTcpw(r) <==>
            forall x :: x in s.tcpw ==> s.queries[x].retries + k + (if x in H then 1 else 0) <= s.cfg.nservers + 1
  {
    forall x | x in s.tcpw
      ensures x in s.queries && CheckQuery(r, x) && r.queries[x].phase == TcpWait && r.queries[x].children == []
    {
      assert KidsOk(s, x) && Attached(s, x) && PhaseOk(s.cfg, s.queries[x]) && x !in {};
      var p := s.queries[x].parent;
      if p.Some? { assert p.value !in s.tcpw by { assert PhaseOk(s.cfg, s.queries[p.value]); } }
    }
  }

  /** Nothing fails the queries whose retries are used up between one refused attempt and
      the next. So the check on tcpw survives the call exactly if for every waiting query
      the retries so far, the refusals in a row and the hand-over, if it comes to that,
      stay within nservers + 1. */
  lemma TryConnectKeepsCheckExactly(s: State, env: Env)
    requires Inv(s, {}) && Normal(env.now) && s.net.tcp == Disconnected
    ensures var k := Refusals(env, |s.net.attempts|, s.cfg.nservers);
            CheckQueueTcpw(TryConnect(s, 0, env)) <==>
              forall x :: x in s.tcpw ==>
                s.queries[x].retries + k + (if x in HandedAfter(s, k, env) then 1 else 0) <= s.cfg.nservers + 1
  {
    var k := Refusals(env, |s.net.attempts|, s.cfg.nservers);
    TryConnectCounts(s, env);
    CheckAfterCounting(s, TryConnect(s, 0, env), k, HandedAfter(s, k, env));
  }

  lemma TcpwIsWaiting(s: State, busy: set<Handle>)
    requires Inv(s, busy)
    ensures s.cfg.nservers > 0 && NoDup(s.tcpw) && forall x :: x in s.tcpw ==> x in s.queries
    ensures s.net.tcp == Disconnected ==> forall x :: x in s.tcpw ==> s.queries[x].retries <= s.cfg.nservers
  {
  }

  lemma DownKeepsInv(s: State, busy: set<Handle>)
    requires Inv(s, busy) && s.net.tcp == Broken && forall x :: x in s.tcpw ==> s.queries[x].retries <= s.cfg.nservers
    ensures var r := s.(net := s.net.(tcp := Disconnected)); Inv(r, busy) && OnlyRetries(s, r)
  {
    var r := s.(net := s.net.(tcp := Disconnected));
    forall k | 0 <= k < |s.tcpw|
      ensures s.tcpw[k] in r.queries
      ensures RetryOk(r.cfg, r.net, r.queries[s.tcpw[k]].retries, r.queries[s.tcpw[k]].joined, k >= |s.tcpw|)
    {
      assert RetryOk(s.cfg, s.net, s.queries[s.tcpw[k]].retries, s.queries[s.tcpw[k]].joined, false);
    }
    OnlyRetriesKeepsInv(s, r, busy, |r.tcpw|);
    InvFromEnd(r, busy, |r.tcpw|);
  }

  lemma RefusedOnceKeepsInv(s: State, busy: set<Handle>)
    requires Inv(s, busy) && s.net.tcp == Disconnected && forall x :: x in s.tcpw ==> s.queries[x].retries + 1 <= s.cfg.nservers
    ensures Inv(RefusedOnce(s), busy) && OnlyRetries(s, RefusedOnce(s))
  {
    TcpwIsWaiting(s, busy);
    hide QueuesOk, QueriesOk, NetOk, RetriesOk, OnlyRetries;
    AttemptKeepsInv(s, busy);
    var s1 := OpenAttempt(s);
    InvFromEnd(s1, busy, |s1.tcpw|);
    BreakKeepsInv(s1, busy, |s1.tcpw|);
    var s2 := TcpBreak(s1);
    DownKeepsInv(s2, busy);
    OnlyRetriesTransitive(s, s1, s2);
    OnlyRetriesTransitive(s, s2, RefusedOnce(s));
  }

  lemma {:induction false} RefusalsKeepInv(s: State, busy: set<Handle>, k: nat)
    requires Inv(s, busy) && s.net.tcp == Disconnected && forall x :: x in s.tcpw ==> s.queries[x].retries + k <= s.cfg.nservers
    ensures s.cfg.nservers > 0 && Inv(RefusedAtOnce(s, k), busy) && OnlyRetries(s, RefusedAtOnce(s, k))
    decreases k
  {
    TcpwIsWaiting(s, busy);
    if k > 0 {
      hide Inv, RefusedOnce, OnlyRetries;
      RefusalsCount(s, 1);
      RefusedOnceKeepsInv(s, busy);
      RefusalsKeepInv(RefusedOnce(s), busy, k - 1);
      OnlyRetriesTransitive(s, RefusedOnce(s), RefusedAtOnce(s, k));
    } else {
      hide Inv;
    }
  }

  lemma SameOnlyRetries(s: State)
    ensures OnlyRetries(s, s)
  {
  }

  lemma WaitingKeepsInv(s: State, busy: set<Handle>, env: Env)
    requires Inv(s, busy) && s.net.tcp == Connecting && Normal(env.now)
    ensures var r := s.(net := s.net.(timeout := TimevalAdd(env.now, TCPCONNMS))); Inv(r, busy) && OnlyRetries(s, r)
  {
    OnlyRetriesKeepsInv(s, s.(net := s.net.(timeout := TimevalAdd(env.now, TCPCONNMS))), busy, |s.tcpw|);
  }

  lemma LastAttemptKeepsInv(s: State, busy: set<Handle>, tries: nat, env: Env)
    requires Inv(s, busy) && Normal(env.now) && s.net.tcp == Disconnected
    requires tries < s.cfg.nservers ==> env.connect(|s.net.attempts|) != ImmediateFail
    requires s.cfg.nservers > 0 && forall x :: x in s.tcpw ==> x in s.queries
    ensures Inv(TryConnect(s, tries, env), busy) && OnlyRetries(s, TryConnect(s, tries, env))
  {
    hide Inv, OnlyRetries, TcpUp;
    var s1 := OpenAttempt(s);
    AttemptKeepsInv(s, busy);
    SameOnlyRetries(s);
    if tries < s.cfg.nservers && env.connect(|s.net.attempts|) == Success {
      TcpUpKeepsInv(s1, busy, env);
      OnlyRetriesTransitive(s, s1, TcpUp(s1, env));
    } else if tries < s.cfg.nservers && env.connect(|s.net.attempts|) == InProgress {
      WaitingKeepsInv(s1, busy, env);
      OnlyRetriesTransitive(s, s1, s1.(net := s1.net.(timeout := TimevalAdd(env.now, TCPCONNMS))));
    }
  }

  /** One call keeps the invariant if every waiting query has retries left for its refusals. */
  lemma TryConnectKeepsInv(s: State, busy: set<Handle>, env: Env)
    requires Inv(s, busy) && Normal(env.now)
    requires s.net.tcp == Disconnected ==> forall x :: x in s.tcpw ==>
               s.queries[x].retries + Refusals(env, |s.net.attempts|, s.cfg.nservers) <= s.cfg.nservers
    ensures s.cfg.nservers > 0 && forall x :: x in s.tcpw ==> x in s.queries
    ensures Inv(TryConnect(s, 0, env), busy) && OnlyRetries(s, TryConnect(s, 0, env))
  {
    hide Inv, RefusedAtOnce, OnlyRetries, Refusals, Counted, TcpUp, RefusedOnce;
    TcpwIsWaiting(s, busy);
    SameOnlyRetries(s);
    if s.net.tcp == Disconnected {
      var k := Refusals(env, |s.net.attempts|, s.cfg.nservers);
      RefusalsCount(s, k);
      AfterRefusals(s, 0, env);
      RefusalsKeepInv(s, busy, k);
      var r := RefusedAtOnce(s, k);
      hide TryConnect;
      LastAttemptKeepsInv(r, busy, k, env);
      OnlyRetriesTransitive(s, r, TryConnect(r, k, env));
    }
  }

  lemma UnrefusedKeepsInv(s: State, busy: set<Handle>, env: Env)
    requires Inv(s, busy) && EnvOk(env)
    ensures Inv(TryConnect(s, 0, env), busy) && OnlyRetries(s, TryConnect(s, 0, env))
  {
    TcpwIsWaiting(s, busy);
    hide Inv, TryConnect;
    TryConnectKeepsInv(s, busy, env);
  }

  /** Three servers, and a query that has seen two of them time out. */
  function TwoTimedOut(): State {
    var q := Query(TcpWait, None, [], 0, 0, 0, 0, 0, 2, 0, {}, 0, 0, false, false, ZERO, StOk, 0);
    State(Config(3, 0), map[0 := q], [], [0], [], [], Net(Disconnected, false, 2, 0, 0, 0, ZERO, [0, 1]), 1)
  }

  lemma TwoTimedOutInv()
    ensures Inv(TwoTimedOut(), {})
  {
    var s := TwoTimedOut();
    assert s.tcpw[0] == 0;
    assert FollowsOn(s.net.attempts, 3, 1);
  }

  lemma {:induction false} AllRefused(env: Env, a: nat, most: nat)
    requires forall i :: env.connect(i) == ImmediateFail
    ensures Refusals(env, a, most) == most
    decreases most
  {
    if most > 0 { AllRefused(env, a + 1, most - 1); }
  }

  /** One call whose three attempts are all refused then leaves five retries, one more
      than the check allows. */
  lemma RefusalsBreakCheck(env: Env)
    requires Normal(env.now) && forall i :: env.connect(i) == ImmediateFail
    ensures Inv(TwoTimedOut(), {}) && CheckQueueTcpw(TwoTimedOut())
    ensures !CheckQueueTcpw(TryConnect(TwoTimedOut(), 0, env))
  {
    var s := TwoTimedOut();
    TwoTimedOutInv();
    InvImpliesConsistency(s, {});
    AllRefused(env, 2, 3);
    TryConnectKeepsCheckExactly(s, env);
    assert s.tcpw[0] in s.tcpw;
  }
}
