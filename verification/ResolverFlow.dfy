/**
 The life of a query: sending it, giving it children, and finishing it, which
 climbs from child to parent through the completion callbacks.
 */
module ResolverFlow {
  import opened Common
  import opened Timeval
  import opened ResolverState
  import opened ResolverEnv
  import opened ResolverSteps
  import opened ResolverTcp

  // ---- New queries and their parents ----

  /** query_alloc's record, with the id it will leave adns__mkquery with. */
  function VirginQuery(id: int, search: bool, owner: bool): Query {
    Query(ToSend, None, [], 0, 0, 0, 0, id, 0, 0, {}, 0, 0, search, owner, ZERO, StOk, 0)
  }

  function AddQuery(s: State, q: Query): State {
    s.(queries := s.queries[s.next := q], next := s.next + 1)
  }

  lemma AddQueryKeepsInv(s: State, busy: set<Handle>, q: Query)
    requires Inv(s, busy) && RangesOk(s.cfg, q) && q.parent.None? && q.children == []
    ensures Inv(AddQuery(s, q), busy + {s.next}) && Attached(AddQuery(s, q), s.next)
  {
    var r := AddQuery(s, q);
    forall y | y in r.queries
      ensures RangesOk(r.cfg, r.queries[y]) && KidsOk(r, y)
      ensures y !in busy + {s.next} ==> PhaseOk(r.cfg, r.queries[y]) && Attached(r, y)
    {
      if y != s.next {
        assert KidsOk(s, y);
        assert y !in busy ==> Attached(s, y);
      }
    }
  }

  /** The new child c joins the end of p's children. */
  function Adopt(s: State, p: Handle, c: Handle): State
    requires p in s.queries && c in s.queries && p != c
  {
    s.(queries := s.queries[c := s.queries[c].(parent := Some(p))]
                           [p := s.queries[p].(children := s.queries[p].children + [c])])
  }

  lemma AdoptKeepsQuery(s: State, busy: set<Handle>, p: Handle, c: Handle, y: Handle)
    requires QueriesOk(s, busy) && p in s.queries && c in s.queries && p < c && y in s.queries
    requires p in busy && s.queries[c].parent.None? && s.queries[c].phase != Done
    ensures var r := Adopt(s, p, c);
            && RangesOk(r.cfg, r.queries[y]) && KidsOk(r, y)
            && (y !in busy ==> PhaseOk(r.cfg, r.queries[y]) && Attached(r, y))
  {
    assert KidsOk(s, y);
    assert c !in s.queries[y].children;
    assert y !in busy ==> Attached(s, y);
  }

  lemma AdoptKeepsQueries(s: State, busy: set<Handle>, p: Handle, c: Handle)
    requires QueriesOk(s, busy) && p in s.queries && c in s.queries && p < c
    requires p in busy && s.queries[c].parent.None? && s.queries[c].phase != Done
    ensures QueriesOk(Adopt(s, p, c), busy)
  {
    forall y | y in s.queries
      ensures var r := Adopt(s, p, c);
              && RangesOk(r.cfg, r.queries[y]) && KidsOk(r, y)
              && (y !in busy ==> PhaseOk(r.cfg, r.queries[y]) && Attached(r, y))
    {
      AdoptKeepsQuery(s, busy, p, c, y);
    }
  }

  lemma AdoptKeepsInv(s: State, busy: set<Handle>, p: Handle, c: Handle)
    requires Inv(s, busy) && p in s.queries && c in s.queries && p < c
    requires p in busy && s.queries[c].parent.None? && s.queries[c].phase != Done
    ensures Inv(Adopt(s, p, c), busy)
    ensures Attached(s, p) ==> Attached(Adopt(s, p, c), p)
  {
    AdoptKeepsQueries(s, busy, p, c);
  }

  // ---- Sending ----

  function UdpRecord(cfg: Config, q: Query, server: nat, nextServer: nat, now: Timeval): Query
    requires cfg.nservers > 0 && Normal(now)
  {
    q.(phase := ToSend, retries := q.retries + 1,
       udpsent := q.udpsent + {server % cfg.nservers},
       udpnext := nextServer % cfg.nservers,
       timeout := TimevalAdd(now, UDPRETRYMS))
  }

  /** The UDP branch of adns__query_send. */
  function SentByUdp(s: State, x: Handle, server: nat, nextServer: nat, env: Env): State
    requires s.cfg.nservers > 0 && x in s.queries && Normal(env.now)
  {
    LinkTail(s.(queries := s.queries[x := UdpRecord(s.cfg, s.queries[x], server, nextServer, env.now)]), x)
  }

  lemma UdpRecordOk(cfg: Config, q: Query, server: nat, nextServer: nat, now: Timeval)
    requires cfg.nservers > 0 && Normal(now) && RangesOk(cfg, q)
    requires q.id >= 0 && q.children == [] && q.retries < UDPMAXRETRIES
    ensures var r := UdpRecord(cfg, q, server, nextServer, now);
            RangesOk(cfg, r) && PhaseOk(cfg, r)
  {
    assert server % cfg.nservers in UdpRecord(cfg, q, server, nextServer, now).udpsent;
  }

  lemma SentByUdpKeepsInv(s: State, busy: set<Handle>, x: Handle, server: nat, nextServer: nat, env: Env)
    requires Inv(s, busy) && x in s.queries && x in busy && Attached(s, x) && Normal(env.now)
    requires s.queries[x].id >= 0 && s.queries[x].children == [] && s.queries[x].retries < UDPMAXRETRIES
    ensures Inv(SentByUdp(s, x, server, nextServer, env), busy - {x})
  {
    var q' := UdpRecord(s.cfg, s.queries[x], server, nextServer, env.now);
    UdpRecordOk(s.cfg, s.queries[x], server, nextServer, env.now);
    SetBusyKeepsInv(s, busy, x, q');
    hide UdpRecord, RangesOk, PhaseOk;
    LinkTailKeepsInv(s.(queries := s.queries[x := q']), busy, x);
  }

  /** The query joins tcpw with no retries, counting from the attempt in progress. */
  function OnTcpw(s: State, x: Handle, env: Env): State
    requires x in s.queries && Normal(env.now) && (s.net.Open() ==> |s.net.attempts| > 0)
  {
    var q' := s.queries[x].(phase := TcpWait, retries := 0, timeout := TimevalAdd(env.now, TCPWAITMS),
                            joined := if s.net.Open() then |s.net.attempts| - 1 else |s.net.attempts|);
    LinkTail(s.(queries := s.queries[x := q']), x)
  }

  /** query_usetcp: wait on tcpw, be sent at once if the connection is up, and have one
      attempted if there is none. */
  function SentByTcp(s: State, x: Handle, env: Env): State
    requires s.cfg.nservers > 0 && x in s.queries && Normal(env.now) && (s.net.Open() ==> |s.net.attempts| > 0)
    requires forall y :: y in s.tcpw ==> y in s.queries
  {
    TryConnect(HandToTcp(OnTcpw(s, x, env), x, env), 0, env)
  }

  lemma OnTcpwKeepsInv(s: State, busy: set<Handle>, x: Handle, env: Env)
    requires Inv(s, busy) && x in s.queries && x in busy && Attached(s, x) && Normal(env.now)
    requires s.queries[x].id >= 0 && s.queries[x].children == []
    ensures InvFrom(OnTcpw(s, x, env), busy - {x}, |s.tcpw|)
  {
    var q' := s.queries[x].(phase := TcpWait, retries := 0, timeout := TimevalAdd(env.now, TCPWAITMS),
                            joined := if s.net.Open() then |s.net.attempts| - 1 else |s.net.attempts|);
    var s1 := s.(queries := s.queries[x := q']);
    SetBusyKeepsInv(s, busy, x, q');
    LinkTailKeepsShape(s1, busy, x);
    var r := OnTcpw(s, x, env);
    forall k | 0 <= k < |r.tcpw|
      ensures r.tcpw[k] in r.queries
      ensures RetryOk(r.cfg, r.net, r.queries[r.tcpw[k]].retries, r.queries[r.tcpw[k]].joined, k >= |s.tcpw|)
    {
      if k < |s.tcpw| {
        assert r.tcpw[k] == s.tcpw[k] && s.tcpw[k] in s.tcpw && s.tcpw[k] != x;
      }
    }
  }

  lemma HandJoinedKeepsInv(s: State, busy: set<Handle>, x: Handle, env: Env)
    requires |s.tcpw| > 0 && InvFrom(s, busy, |s.tcpw| - 1) && x == s.tcpw[|s.tcpw| - 1]
    ensures Inv(HandToTcp(s, x, env), busy) && OnlyRetries(s, HandToTcp(s, x, env))
  {
    if s.net.tcp == Connected {
      HandKeepsInv(s, busy, |s.tcpw| - 1, env);
      InvFromEnd(HandToTcp(s, x, env), busy, |s.tcpw|);
    } else {
      InvAnyFrom(s, busy, |s.tcpw| - 1);
    }
  }

  lemma SentByTcpKeepsInv(s: State, busy: set<Handle>, x: Handle, env: Env)
    requires Inv(s, busy) && x in s.queries && x in busy && Attached(s, x) && EnvOk(env)
    requires s.queries[x].id >= 0 && s.queries[x].children == []
    ensures Inv(SentByTcp(s, x, env), busy - {x})
    ensures OnlyRetries(OnTcpw(s, x, env), SentByTcp(s, x, env))
  {
    var s0 := OnTcpw(s, x, env);
    OnTcpwKeepsInv(s, busy, x, env);
    assert s0.tcpw[|s0.tcpw| - 1] == x;
    HandJoinedKeepsInv(s0, busy - {x}, x, env);
    var s1 := HandToTcp(s0, x, env);
    UnrefusedKeepsInv(s1, busy - {x}, env);
    OnlyRetriesTransitive(s0, s1, TryConnect(s1, 0, env));
  }

  function SentBy(s: State, x: Handle, how: SendBy, env: Env): State
    requires s.cfg.nservers > 0 && x in s.queries && Normal(env.now) && (s.net.Open() ==> |s.net.attempts| > 0)
    requires forall y :: y in s.tcpw ==> y in s.queries
  {
    match how
    case ByUdp(server, nextServer) => SentByUdp(s, x, server, nextServer, env)
    case ByTcp => SentByTcp(s, x, env)
  }

  lemma SentByKeepsInv(s: State, busy: set<Handle>, x: Handle, how: SendBy, env: Env)
    requires Inv(s, busy) && x in s.queries && x in busy && Attached(s, x) && EnvOk(env)
    requires s.queries[x].id >= 0 && s.queries[x].children == []
    requires how.ByUdp? ==> s.queries[x].retries < UDPMAXRETRIES
    ensures Inv(SentBy(s, x, how, env), busy - {x})
  {
    match how
    case ByUdp(server, nextServer) => SentByUdpKeepsInv(s, busy, x, server, nextServer, env);
    case ByTcp => SentByTcpKeepsInv(s, busy, x, env);
  }

  /** What a step at time now may do to the queries: the caller's queries (those
      without parent) all stay and none appears, old queries keep their parent, and
      a query waiting for the network keeps its deadline or has one not yet passed. */
  ghost predicate Follows(s: State, r: State, now: Timeval) {
    && r.cfg == s.cfg && s.next <= r.next && s.net.attempts <= r.net.attempts
    && (forall y :: y in s.queries ==> y < s.next)
    && (forall y :: y in s.queries && s.queries[y].parent.None? ==> y in r.queries)
    && forall y :: y in r.queries ==>
         && (if y in s.queries then r.queries[y].parent == s.queries[y].parent
             else y >= s.next && r.queries[y].parent.Some?)
         && (r.queries[y].phase == ToSend || r.queries[y].phase == TcpWait ==>
               || !Later(now, r.queries[y].timeout)
               || (y in s.queries && r.queries[y].phase == s.queries[y].phase
                   && r.queries[y].timeout == s.queries[y].timeout))
  }

  lemma FollowsTransitive(a: State, b: State, c: State, now: Timeval)
    requires Follows(a, b, now) && Follows(b, c, now)
    ensures Follows(a, c, now)
  {
  }

  lemma NotLaterThanNow(now: Timeval, ms: nat)
    requires Normal(now)
    ensures !Later(now, TimevalAdd(now, ms))
  {
    LaterIsMicros(now, TimevalAdd(now, ms));
  }

  /** Sending x leaves every other query's record alone but for retries, and
      puts x on the network with a deadline to come. */
  ghost predicate SendsOnly(s: State, r: State, x: Handle, now: Timeval) {
    && r.cfg == s.cfg && r.next == s.next && r.queries.Keys == s.queries.Keys
    && s.net.attempts <= r.net.attempts
    && (forall y :: y in s.queries && y != x ==>
         && r.queries[y] == s.queries[y].(retries := r.queries[y].retries)
         && (y in s.tcpw || r.queries[y] == s.queries[y]))
    && x in s.queries
    && r.queries[x].parent == s.queries[x].parent && r.queries[x].children == s.queries[x].children
    && (r.queries[x].phase == ToSend || r.queries[x].phase == TcpWait)
    && !Later(now, r.queries[x].timeout)
  }

  lemma RetriesAfterSend(s: State, s0: State, r: State, x: Handle, now: Timeval)
    requires SendsOnly(s, s0, x, now) && OnlyRetries(s0, r)
    requires forall y :: y in s0.tcpw ==> y in s.tcpw || y == x
    ensures SendsOnly(s, r, x, now)
  {
  }

  lemma OnTcpwFrame(s: State, busy: set<Handle>, x: Handle, env: Env)
    requires NetOk(s.cfg, s.net) && x in s.queries && Normal(env.now)
    ensures SendsOnly(s, OnTcpw(s, x, env), x, env.now)
    ensures forall y :: y in OnTcpw(s, x, env).tcpw ==> y in s.tcpw || y == x
  {
    NotLaterThanNow(env.now, TCPWAITMS);
  }

  lemma SentByTcpFrame(s: State, busy: set<Handle>, x: Handle, env: Env)
    requires Inv(s, busy) && x in busy && x in s.queries && EnvOk(env) && Attached(s, x)
    requires s.queries[x].id >= 0 && s.queries[x].children == []
    ensures SendsOnly(s, SentByTcp(s, x, env), x, env.now)
  {
    SentByTcpKeepsInv(s, busy, x, env);
    OnTcpwFrame(s, busy, x, env);
    hide *;
    RetriesAfterSend(s, OnTcpw(s, x, env), SentByTcp(s, x, env), x, env.now);
  }

  lemma SentByFrame(s: State, busy: set<Handle>, x: Handle, how: SendBy, env: Env)
    requires Inv(s, busy) && x in busy && x in s.queries && EnvOk(env) && Attached(s, x)
    requires s.queries[x].id >= 0 && s.queries[x].children == []
    ensures SendsOnly(s, SentBy(s, x, how, env), x, env.now)
  {
    match how
    case ByUdp(server, nextServer) => NotLaterThanNow(env.now, UDPRETRYMS);
    case ByTcp => SentByTcpFrame(s, busy, x, env);
  }

  // ---- Children ----

  /** The new query, sent but not yet anyone's child. */
  function SubmitFresh(s: State, how: SendBy, env: Env): State
    requires s.cfg.nservers > 0 && Normal(env.now) && (s.net.Open() ==> |s.net.attempts| > 0)
    requires forall y :: y in s.tcpw ==> y in s.queries
  {
    SentBy(AddQuery(s, VirginQuery(s.next, false, false)), s.next, how, env)
  }

  /** adns__internal_submit followed by linking the new query to its parent. */
  function SubmitChild(s: State, p: Handle, how: SendBy, env: Env): State
    requires s.cfg.nservers > 0 && p in s.queries && p < s.next && Normal(env.now) && (s.net.Open() ==> |s.net.attempts| > 0)
    requires forall y :: y in s.tcpw ==> y in s.queries
  {
    var s1 := SubmitFresh(s, how, env);
    if p in s1.queries && s.next in s1.queries then Adopt(s1, p, s.next) else s1
  }

  lemma SubmitFreshKeepsInv(s: State, p: Handle, how: SendBy, env: Env)
    requires Inv(s, {p}) && p in s.queries && EnvOk(env)
    ensures var r := SubmitFresh(s, how, env);
            && Inv(r, {p}) && p in r.queries && r.queries[p] == s.queries[p]
            && (Attached(s, p) ==> Attached(r, p))
            && s.next in r.queries && r.queries[s.next].parent.None?
            && SendsOnly(AddQuery(s, VirginQuery(s.next, false, false)), r, s.next, env.now)
  {
    var c := s.next;
    var s0 := AddQuery(s, VirginQuery(c, false, false));
    AddQueryKeepsInv(s, {p}, VirginQuery(c, false, false));
    assert {p} + {c} == {p, c} && {p, c} - {c} == {p};
    assert p !in s.tcpw;
    SentByKeepsInv(s0, {p, c}, c, how, env);
    SentByFrame(s0, {p, c}, c, how, env);
    hide SentBy, Inv;
  }

  lemma AdoptFollows(s: State, s1: State, q: Query, p: Handle, now: Timeval)
    requires p in s.queries && p < s.next && forall y :: y in s.queries ==> y < s.next
    requires SendsOnly(AddQuery(s, q), s1, s.next, now)
    ensures Follows(s, Adopt(s1, p, s.next), now)
  {
  }

  lemma SubmitChildFollows(s: State, p: Handle, how: SendBy, env: Env)
    requires p in s.queries && p < s.next && s.cfg.nservers > 0 && Normal(env.now) && (s.net.Open() ==> |s.net.attempts| > 0)
    requires forall y :: y in s.tcpw ==> y in s.queries
    requires forall y :: y in s.queries ==> y < s.next
    requires SendsOnly(AddQuery(s, VirginQuery(s.next, false, false)), SubmitFresh(s, how, env), s.next, env.now)
    ensures Follows(s, SubmitChild(s, p, how, env), env.now)
  {
    var s1 := SubmitFresh(s, how, env);
    assert p in s1.queries && s.next in s1.queries;
    hide SubmitFresh, Adopt, SendsOnly, Follows;
    AdoptFollows(s, s1, VirginQuery(s.next, false, false), p, env.now);
  }

  lemma SubmitChildKeepsInv(s: State, p: Handle, how: SendBy, env: Env)
    requires Inv(s, {p}) && p in s.queries && EnvOk(env)
    ensures var r := SubmitChild(s, p, how, env);
            && Inv(r, {p}) && p in r.queries
            && (Attached(s, p) ==> Attached(r, p))
            && r.queries[p] == s.queries[p].(children := s.queries[p].children + [s.next])
            && Follows(s, r, env.now)
  {
    var s1 := SubmitFresh(s, how, env);
    SubmitFreshKeepsInv(s, p, how, env);
    SubmitChildFollows(s, p, how, env);
    assert p < s.next;
    hide SubmitFresh;
    AdoptKeepsInv(s1, {p}, p, s.next);
  }
}
