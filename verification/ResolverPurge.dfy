/**
 The loop over tcpw of a broken connection, which fails every query whose retries
 are used up. It keeps the next entry in hand while a query fails, and the end of
 that query may free the entry: exactly when is stated here.
 */
module ResolverPurge {
  import opened Common
  import opened Timeval
  import opened ResolverState
  import opened ResolverEnv
  import opened ResolverSteps
  import opened ResolverTcp
  import opened ResolverFlow
  import opened ResolverDone
  import opened ResolverLoss
  import opened ResolverEvents
  import opened ResolverBroken
  import opened ResolverCancel
  import opened ResolverObject

  lemma NetworkPhase(s: State, x: Handle)
    requires Inv(s, {}) && x in s.queries
    ensures x in s.udpw <==> s.queries[x].phase == ToSend
    ensures x in s.tcpw <==> s.queries[x].phase == TcpWait
  {
  }

  lemma FollowsSelf(s: State, now: Timeval)
    requires Inv(s, {})
    ensures Follows(s, s, now)
  {
    hide QueuesOk, NetOk, RetriesOk, PhaseOk, KidsOk;
  }

  lemma InvTcpw(s: State)
    requires Inv(s, {})
    ensures forall y :: y in s.tcpw ==> y in s.queries && y < s.next
    ensures NoDup(s.tcpw) && s.cfg.nservers > 0
  {
  }

  // ---- One query fails ----

  predicate Spent(cfg: Config, q: Query) { q.retries > cfg.nservers }

  ghost function SpentOnTcpw(s: State): set<Handle> {
    set x | x in s.tcpw && x in s.queries && Spent(s.cfg, s.queries[x])
  }

  lemma UnlinkKeepsNet(s: State, x: Handle)
    requires x in s.queries
    ensures Unlink(s, x).net == s.net
  {
  }

  /** x, whose retries are used up, off tcpw and failed. */
  ghost function Dropped(s: State, x: Handle, env: Env): (r: State)
    requires Inv(s, {}) && x in s.tcpw && s.net.tcp == Broken && EnvOk(env)
    ensures Inv(r, {}) && Follows(s, r, env.now) && BrokenKeeps(Unlink(s, x), r)
  {
    InvTcpw(s);
    NetworkPhase(s, x);
    TakenOff(s, x, env.now);
    UnlinkKeepsTable(s, x);
    hide Inv, Attached, Follows, BrokenKeeps, Unlink;
    var s1 := Unlink(s, x);
    UnlinkKeepsNet(s, x);
    FailWhileBroken(s1, x, StAllServFail, env);
    var r := QueryFail(s1, x, StAllServFail, env);
    FollowsTransitive(s, s1, r, env.now);
    r
  }

  /** A query has run out of servers only after a connection attempt to each. */
  lemma SpentHasTriedAll(s: State, x: Handle)
    requires Inv(s, {}) && x in s.tcpw && x in s.queries && Spent(s.cfg, s.queries[x])
    ensures s.queries[x].joined <= |s.net.attempts|
    ensures forall k :: 0 <= k < s.cfg.nservers ==> k in s.net.attempts[s.queries[x].joined..]
  {
    AllServersTried(s, x, 0);
    forall k | 0 <= k < s.cfg.nservers ensures k in s.net.attempts[s.queries[x].joined..] {
      AllServersTried(s, x, k);
    }
  }

  /** So a query fails for want of servers only after a connection attempt to each. */
  method Drop(r: Resolver, x: Handle, env: Env)
    requires Inv(r.View(), {}) && x in r.tcpw && x in r.queries && Spent(r.cfg, r.queries[x])
    requires r.tcpstate == Broken && EnvOk(env)
    modifies r
    ensures r.View() == Dropped(old(r.View()), x, env)
    ensures old(r.queries[x].joined) <= |old(r.attempts)|
    ensures forall k :: 0 <= k < r.cfg.nservers ==> k in old(r.attempts)[old(r.queries[x].joined)..]
  {
    ghost var s := r.View();
    NetworkPhase(s, x);
    TakenOff(s, x, env.now);
    UnlinkKeepsTable(s, x);
    hide Inv, Attached, Follows, Unlink, QueryFail;
    SpentHasTriedAll(s, x);
    r.UnlinkQuery(x);
    r.Fail(x, StAllServFail, env);
  }

  lemma FateUnlinked(s: State, x: Handle, r: State, env: Env, h: Handle)
    requires QueriesOk(s, {}) && x in s.queries
    ensures Fate(Unlink(s, x), r, x, env, h) ==> Fate(s, r, x, env, h)
  {
    var t := Unlink(s, x);
    forall y | y in t.queries ensures Kept(s, t, x, y) {
      assert Attached(s, y);
    }
    assert Cut(s, t, {}, x);
    hide Unlink, QueriesOk, Cut, Fate;
    if Fate(t, r, x, env, h) { FateAcross(s, t, r, x, {}, env, h); }
  }

  lemma DroppedUnfolds(s: State, x: Handle, env: Env)
    requires Inv(s, {}) && x in s.tcpw && s.net.tcp == Broken && EnvOk(env)
    ensures x in s.queries && QueriesOk(s, {})
    ensures var s1 := Unlink(s, x);
            && Inv(s1, {x}) && x in s1.queries && Attached(s1, x) && s1.queries[x].phase != Done
            && var s2 := Reset(s1, x, StAllServFail);
            && Inv(s2, {x}) && x in s2.queries && Attached(s2, x) && s2.queries[x].phase != Done
            && Follows(s2, QueryDone(s2, x, env), env.now) && Dropped(s, x, env) == QueryDone(s2, x, env)
  {
    InvTcpw(s);
    NetworkPhase(s, x);
    TakenOff(s, x, env.now);
    UnlinkKeepsTable(s, x);
    hide Inv, Attached, Follows, Unlink, Reset, QueryDone;
    ResetKeepsInv(Unlink(s, x), x, StAllServFail, env.now);
  }

  /** Dropping x leaves exactly what is not lost with it. */
  lemma DroppedFate(s: State, x: Handle, env: Env, h: Handle)
    requires Inv(s, {}) && x in s.tcpw && s.net.tcp == Broken && EnvOk(env)
    ensures Fate(s, Dropped(s, x, env), x, env, h)
  {
    hide *;
    DroppedUnfolds(s, x, env);
    var s1 := Unlink(s, x);
    var s2 := Reset(s1, x, StAllServFail);
    DoneFate(s2, x, env, h);
    FateAfterReset(s1, x, StAllServFail, QueryDone(s2, x, env), env, h);
    FateUnlinked(s, x, QueryDone(s2, x, env), env, h);
  }

  /** And all else that was on tcpw is still there. */
  lemma DroppedStays(s: State, x: Handle, env: Env, h: Handle)
    requires Inv(s, {}) && x in s.tcpw && s.net.tcp == Broken && EnvOk(env)
    requires h in s.tcpw && h != x
    ensures h in Dropped(s, x, env).tcpw <==> !Lost(s, x, env, h)
  {
    DroppedFate(s, x, env, h);
    InvTcpw(s);
    NetworkPhase(s, h);
    var r := Dropped(s, x, env);
    InvTcpw(r);
    if h in r.queries { NetworkPhase(r, h); }
    hide Inv, Dropped, Lost;
  }

  // ---- The walk ----

  /** Where v has got to in a list that lost members and grew at its end: what is
      before it was before it. */
  lemma {:induction false} BeforeStays(q: seq<Handle>, D: set<Handle>, v: Handle, i: nat, j: nat)
    requires NoDup(q) && i < |q| && q[i] == v
    requires j < |Remove(q, D)| && Remove(q, D)[j] == v
    ensures forall k :: 0 <= k < j ==> Remove(q, D)[k] in q[..i]
  {
    if i == 0 {
      assert q == [q[0]] + q[1..];
      RemoveNoDup(q, D);
      assert v in Remove(q, D) && v !in D;
      assert Remove(q, D)[0] == v;
    } else {
      assert q[i] in Remove(q, D) && q[i] !in D;
      if q[0] in D {
        BeforeStays(q[1..], D, v, i - 1, j);
        assert q[1..][..i-1] == q[1..i];
      } else {
        assert q[0] != v;
        BeforeStays(q[1..], D, v, i - 1, j - 1);
        assert q[1..][..i-1] == q[1..i];
      }
    }
  }

  /** A list walked up to place i, when its i'th member goes, others may go too,
      and new ones come at the end. */
  lemma WalkOrder(q: seq<Handle>, i: nat, D: set<Handle>, e: seq<Handle>, next: Handle)
    requires NoDup(q) && i < |q| && (forall y :: y in q ==> y < next)
    requires forall y :: y in e ==> y >= next
    ensures var r := Remove(q, {q[i]} + D) + e;
            && (i + 1 == |q| ==> forall y :: y in r ==> y in q[..i] || y in e)
            && (i + 1 < |q| ==>
                  forall j, k :: 0 <= k < j < |r| && r[j] == q[i + 1] ==> r[k] in q[..i])
  {
    var m := Remove(q, {q[i]} + D);
    var r := m + e;
    if i + 1 == |q| {
      forall y | y in r ensures y in q[..i] || y in e {
        if y in m { assert y in q && y != q[i]; }
      }
    } else {
      forall j, k | 0 <= k < j < |r| && r[j] == q[i + 1] ensures r[k] in q[..i] {
        assert q[i + 1] in q;
        assert forall t :: |m| <= t < |r| ==> r[t] in e;
        assert j < |m|;
        BeforeStays(q, {q[i]} + D, q[i + 1], i + 1, j);
        assert m[k] in q[..i + 1] && m[k] in m;
        assert q[..i + 1] == q[..i] + [q[i]];
      }
    }
  }

  /** The place of v in q. */
  function IndexIn(q: seq<Handle>, v: Handle): (i: nat)
    requires v in q
    ensures i < |q| && q[i] == v
  {
    if q[0] == v then 0 else 1 + IndexIn(q[1..], v)
  }

  /** The walk has come to place i and left no spent query behind. */
  ghost predicate WalkedTo(s: State, i: nat) {
    && i <= |s.tcpw|
    && (forall y :: y in s.tcpw ==> y in s.queries)
    && forall k :: 0 <= k < i ==> !Spent(s.cfg, s.queries[s.tcpw[k]])
  }

  lemma WalkStarts(s: State)
    requires Inv(s, {})
    ensures WalkedTo(s, 0)
  {
    InvTcpw(s);
  }

  /** What WalkOrder says of r.tcpw; e has come at the end. */
  ghost predicate GrownBy(s: State, r: State, i: nat, e: seq<Handle>)
    requires i < |s.tcpw|
  {
    && (forall y :: y in e ==> y !in s.tcpw)
    && (i + 1 == |s.tcpw| ==> forall y :: y in r.tcpw ==> y in s.tcpw[..i] || y in e)
    && (i + 1 < |s.tcpw| ==>
          forall j, k :: 0 <= k < j < |r.tcpw| && r.tcpw[j] == s.tcpw[i + 1] ==> r.tcpw[k] in s.tcpw[..i])
  }

  /** s.tcpw is walked up to place i, whose query goes; r.tcpw lost that one and perhaps
      others and grew at its end. */
  ghost predicate LostAndGrew(s: State, r: State, i: nat) {
    && WalkedTo(s, i) && i < |s.tcpw| && (forall y :: y in r.tcpw ==> y in r.queries)
    && (forall y :: y in r.tcpw ==> (Spent(r.cfg, r.queries[y]) <==> y in s.tcpw && Spent(s.cfg, s.queries[y])))
    && exists e: seq<Handle> :: GrownBy(s, r, i, e)
  }

  lemma NoneBehind(s: State, i: nat, y: Handle)
    requires WalkedTo(s, i) && y in s.tcpw[..i]
    ensures y in s.tcpw && y in s.queries && !Spent(s.cfg, s.queries[y])
  {
    hide Spent;
  }

  lemma LastGone(s: State, r: State, i: nat)
    requires LostAndGrew(s, r, i) && i + 1 == |s.tcpw|
    ensures SpentOnTcpw(r) == {}
  {
    var e: seq<Handle> :| GrownBy(s, r, i, e);
    hide Spent, WalkedTo;
    forall y ensures y !in SpentOnTcpw(r) {
      if y in r.tcpw && y in s.tcpw[..i] { NoneBehind(s, i, y); }
    }
  }

  lemma NextReached(s: State, r: State, i: nat)
    requires LostAndGrew(s, r, i) && i + 1 < |s.tcpw| && s.tcpw[i + 1] in r.tcpw
    ensures WalkedTo(r, IndexIn(r.tcpw, s.tcpw[i + 1]))
  {
    var e: seq<Handle> :| GrownBy(s, r, i, e);
    var j := IndexIn(r.tcpw, s.tcpw[i + 1]);
    hide Spent, IndexIn;
    forall k | 0 <= k < j ensures !Spent(r.cfg, r.queries[r.tcpw[k]]) {
      assert r.tcpw[k] in s.tcpw[..i] && r.tcpw[k] in r.tcpw;
      NoneBehind(s, i, r.tcpw[k]);
    }
  }

  lemma DroppedOrder(s: State, r: State, i: nat)
    requires NoDup(s.tcpw) && (forall y :: y in s.tcpw ==> y < s.next)
    requires WalkedTo(s, i) && i < |s.tcpw|
    requires exists D, e :: Extends(Remove(s.tcpw, {s.tcpw[i]}), r.tcpw, D, e, s.next)
    requires forall y :: y in r.tcpw ==> y in r.queries
    requires forall y :: y in r.tcpw ==> (Spent(r.cfg, r.queries[y]) <==> y in s.tcpw && Spent(s.cfg, s.queries[y]))
    ensures LostAndGrew(s, r, i)
  {
    var x := s.tcpw[i];
    var D, e :| Extends(Remove(s.tcpw, {x}), r.tcpw, D, e, s.next);
    RemoveTwice(s.tcpw, {x}, D);
    WalkOrder(s.tcpw, i, D, e, s.next);
    assert r.tcpw == Remove(s.tcpw, {x} + D) + e;
    hide Spent, Remove, NoDup, Extends;
    assert GrownBy(s, r, i, e);
  }

  lemma DroppedSpent(s: State, x: Handle, env: Env)
    requires Inv(s, {}) && x in s.tcpw && s.net.tcp == Broken && EnvOk(env)
    ensures var r := Dropped(s, x, env);
            && r.net == s.net && r.cfg == s.cfg
            && (exists D, e :: Extends(Remove(s.tcpw, {x}), r.tcpw, D, e, s.next))
            && (forall y :: y in r.tcpw ==> y in r.queries && (Spent(r.cfg, r.queries[y]) <==> y in s.tcpw && Spent(s.cfg, s.queries[y])))
            && x !in r.tcpw
  {
    InvTcpw(s);
    NetworkPhase(s, x);
    var s1, r := Unlink(s, x), Dropped(s, x, env);
    assert s1.tcpw == Remove(s.tcpw, {x}) && s1 == s.(tcpw := s1.tcpw);
    InvTcpw(r);
    hide Inv, Dropped, Follows, Unlink, Extends, NoDup;
  }

  lemma DroppedIsProgress(s: State, x: Handle, env: Env)
    requires Inv(s, {}) && x in s.tcpw && s.net.tcp == Broken && EnvOk(env)
    requires x in s.queries && Spent(s.cfg, s.queries[x])
    ensures SpentOnTcpw(Dropped(s, x, env)) < SpentOnTcpw(s)
  {
    DroppedSpent(s, x, env);
    InvTcpw(s);
    hide Inv, Dropped, Spent, NoDup;
    assert x in SpentOnTcpw(s);
  }

  /** The end of the i'th query on tcpw frees the one after it. */
  ghost predicate LosesNext(s: State, i: nat, env: Env) {
    i + 1 < |s.tcpw| && Lost(s, s.tcpw[i], env, s.tcpw[i + 1])
  }

  lemma DroppedWalk(s: State, i: nat, env: Env)
    requires Inv(s, {}) && WalkedTo(s, i) && i < |s.tcpw| && s.net.tcp == Broken && EnvOk(env)
    ensures var r := Dropped(s, s.tcpw[i], env);
            && (i + 1 == |s.tcpw| ==> SpentOnTcpw(r) == {})
            && (i + 1 < |s.tcpw| ==>
                  && (s.tcpw[i + 1] in r.tcpw <==> !LosesNext(s, i, env))
                  && (s.tcpw[i + 1] in r.tcpw ==> WalkedTo(r, IndexIn(r.tcpw, s.tcpw[i + 1]))))
  {
    InvTcpw(s);
    DroppedSpent(s, s.tcpw[i], env);
    if i + 1 < |s.tcpw| {
      assert s.tcpw[i + 1] in s.tcpw && s.tcpw[i + 1] != s.tcpw[i];
      DroppedStays(s, s.tcpw[i], env, s.tcpw[i + 1]);
    }
    hide Inv, Dropped, Extends, Spent, NoDup, Lost, Fate, Follows, BrokenKeeps, LostAndGrew, SpentOnTcpw;
    DroppedOrder(s, Dropped(s, s.tcpw[i], env), i);
    if i + 1 == |s.tcpw| {
      LastGone(s, Dropped(s, s.tcpw[i], env), i);
    } else if s.tcpw[i + 1] in Dropped(s, s.tcpw[i], env).tcpw {
      NextReached(s, Dropped(s, s.tcpw[i], env), i);
    }
  }

  lemma NoneSpent(s: State)
    requires WalkedTo(s, |s.tcpw|)
    ensures SpentOnTcpw(s) == {}
  {
    hide Spent;
  }

  /** The whole walk from place i on, and whether it lost its place. */
  ghost function Purge(s: State, i: nat, env: Env): (r: (State, bool))
    requires Inv(s, {}) && s.net.tcp == Broken && EnvOk(env) && WalkedTo(s, i)
    ensures Inv(r.0, {}) && Follows(s, r.0, env.now) && r.0.net == s.net
    ensures !r.1 ==> SpentOnTcpw(r.0) == {}
    decreases SpentOnTcpw(s), |s.tcpw| - i
  {
    hide Inv, Follows, Spent, LosesNext, Dropped, BrokenKeeps;
    if i == |s.tcpw| then
      FollowsSelf(s, env.now);
      NoneSpent(s);
      (s, false)
    else if !Spent(s.cfg, s.queries[s.tcpw[i]]) then Purge(s, i + 1, env)
    else
      var x := s.tcpw[i];
      DroppedWalk(s, i, env);
      DroppedSpent(s, x, env);
      DroppedIsProgress(s, x, env);
      var r := Dropped(s, x, env);
      if i + 1 == |s.tcpw| then (r, false)
      else if LosesNext(s, i, env) then (r, true)
      else
        var rest := Purge(r, IndexIn(r.tcpw, s.tcpw[i + 1]), env);
        FollowsTransitive(s, r, rest.0, env.now);
        rest
  }

  /** One turn of the loop at a spent query. */
  lemma PurgeAtSpent(s: State, i: nat, env: Env)
    requires Inv(s, {}) && s.net.tcp == Broken && EnvOk(env) && WalkedTo(s, i)
    requires i < |s.tcpw| && Spent(s.cfg, s.queries[s.tcpw[i]])
    ensures var r := Dropped(s, s.tcpw[i], env);
            && Inv(r, {}) && r.net == s.net && r.cfg == s.cfg && SpentOnTcpw(r) < SpentOnTcpw(s)
            && if i + 1 == |s.tcpw| then Purge(s, i, env) == (r, false)
               else if s.tcpw[i + 1] !in r.tcpw then Purge(s, i, env) == (r, true)
               else
                 var j := IndexIn(r.tcpw, s.tcpw[i + 1]);
                 WalkedTo(r, j) && Purge(s, i, env) == Purge(r, j, env)
  {
    hide Inv, Follows, Spent, LosesNext, Dropped, BrokenKeeps;
    DroppedWalk(s, i, env);
    DroppedSpent(s, s.tcpw[i], env);
    DroppedIsProgress(s, s.tcpw[i], env);
  }

  /** The other turns: at a query with retries left, and at the end. */
  lemma PurgeElsewhere(s: State, i: nat, env: Env)
    requires Inv(s, {}) && s.net.tcp == Broken && EnvOk(env) && WalkedTo(s, i)
    ensures i <= |s.tcpw|
    ensures i == |s.tcpw| ==> Purge(s, i, env) == (s, false)
    ensures i < |s.tcpw| ==> s.tcpw[i] in s.queries
    ensures i < |s.tcpw| && !Spent(s.cfg, s.queries[s.tcpw[i]]) ==>
              WalkedTo(s, i + 1) && Purge(s, i, env) == Purge(s, i + 1, env)
  {
    hide Inv, Follows, Spent, LosesNext, Dropped, BrokenKeeps;
  }

  /** The loop does what Purge says. dangling: the saved next entry has been freed,
      and the walk has nowhere to go on from. */
  method DropSpent(r: Resolver, env: Env) returns (dangling: bool)
    requires Inv(r.View(), {}) && r.tcpstate == Broken && EnvOk(env)
    modifies r
    ensures WalkedTo(old(r.View()), 0)
    ensures (r.View(), dangling) == Purge(old(r.View()), 0, env)
  {
    ghost var s0 := r.View();
    WalkStarts(s0);
    hide Inv, Follows, LosesNext, Dropped, BrokenKeeps, NoDup, Spent, SpentOnTcpw, Purge, WalkedTo;
    PurgeElsewhere(s0, 0, env);
    dangling := false;
    var i: nat := 0;
    while i < |r.tcpw|
      invariant Inv(r.View(), {}) && r.tcpstate == Broken && WalkedTo(r.View(), i) && !dangling
      invariant i <= |r.tcpw| && Purge(r.View(), i, env) == Purge(s0, 0, env)
      decreases SpentOnTcpw(r.View()), |r.tcpw| - i
    {
      PurgeElsewhere(r.View(), i, env);
      var qu := r.tcpw[i];
      if Spent(r.cfg, r.queries[qu]) {
        var last := i + 1 == |r.tcpw|;
        var nqu := if last then qu else r.tcpw[i + 1];
        PurgeAtSpent(r.View(), i, env);
        Drop(r, qu, env);
        if last { return; }
        if nqu !in r.tcpw {
          dangling := true;
          return;
        }
        i := IndexIn(r.tcpw, nqu);
      } else {
        i := i + 1;
      }
      PurgeElsewhere(r.View(), i, env);
    }
  }

  // ---- When the walk loses its place ----

  /** nqu, in the table, is freed by the end of x exactly if it is below the highest
      query that ends with x, or is that query itself and somebody's child. */
  lemma FreedExactly(s: State, x: Handle, env: Env, nqu: Handle)
    requires Inv(s, {}) && x in s.tcpw && s.net.tcp == Broken && EnvOk(env) && nqu in s.queries
    ensures nqu !in Dropped(s, x, env).queries <==> Lost(s, x, env, nqu)
  {
    DroppedFate(s, x, env, nqu);
    hide Dropped, Lost;
  }

  /** Walking from place i of s on one comes to place j of t: past queries with retries left,
      and from a spent query to the one that was after it, in the state its end leaves. */
  ghost predicate ComesTo(s: State, i: nat, t: State, j: nat, env: Env)
    requires Inv(s, {}) && s.net.tcp == Broken && EnvOk(env) && WalkedTo(s, i)
    decreases SpentOnTcpw(s), |s.tcpw| - i
  {
    hide Inv, Follows, Spent, LosesNext, Dropped, BrokenKeeps;
    || (t == s && j == i)
    || (i < |s.tcpw| &&
        if !Spent(s.cfg, s.queries[s.tcpw[i]]) then ComesTo(s, i + 1, t, j, env)
        else
          var r := Dropped(s, s.tcpw[i], env);
          DroppedWalk(s, i, env);
          DroppedSpent(s, s.tcpw[i], env);
          DroppedIsProgress(s, s.tcpw[i], env);
          i + 1 < |s.tcpw| && s.tcpw[i + 1] in r.tcpw && ComesTo(r, IndexIn(r.tcpw, s.tcpw[i + 1]), t, j, env))
  }

  /** The query at place j is spent and its end frees the one after it. */
  ghost predicate LosesAt(t: State, j: nat, env: Env) {
    && Inv(t, {}) && WalkedTo(t, j) && t.net.tcp == Broken
    && j < |t.tcpw| && Spent(t.cfg, t.queries[t.tcpw[j]]) && LosesNext(t, j, env)
  }

  /** One turn of the walk, seen from ComesTo. */
  lemma ComesOn(s: State, i: nat, t: State, j: nat, env: Env)
    requires Inv(s, {}) && s.net.tcp == Broken && EnvOk(env) && WalkedTo(s, i)
    ensures ComesTo(s, i, s, i, env)
    ensures i < |s.tcpw| ==> s.tcpw[i] in s.queries
    ensures i < |s.tcpw| && !Spent(s.cfg, s.queries[s.tcpw[i]]) ==>
      WalkedTo(s, i + 1) && (ComesTo(s, i, t, j, env) <==> (t == s && j == i) || ComesTo(s, i + 1, t, j, env))
    ensures i < |s.tcpw| && Spent(s.cfg, s.queries[s.tcpw[i]]) ==>
      var r := Dropped(s, s.tcpw[i], env);
      if i + 1 < |s.tcpw| && s.tcpw[i + 1] in r.tcpw then
        var m := IndexIn(r.tcpw, s.tcpw[i + 1]);
        && Inv(r, {}) && r.net.tcp == Broken && WalkedTo(r, m)
        && (ComesTo(s, i, t, j, env) <==> (t == s && j == i) || ComesTo(r, m, t, j, env))
      else ComesTo(s, i, t, j, env) <==> t == s && j == i
    ensures i >= |s.tcpw| ==> (ComesTo(s, i, t, j, env) <==> t == s && j == i)
  {
    PurgeElsewhere(s, i, env);
    hide Inv, Follows, Spent, LosesNext, Dropped, BrokenKeeps, Purge;
    if i < |s.tcpw| && Spent(s.cfg, s.queries[s.tcpw[i]]) { PurgeAtSpent(s, i, env); }
  }

  lemma LosingIsFreeing(s: State, i: nat, env: Env)
    requires Inv(s, {}) && WalkedTo(s, i) && i < |s.tcpw| && s.net.tcp == Broken && EnvOk(env)
    ensures LosesNext(s, i, env) <==> i + 1 < |s.tcpw| && s.tcpw[i + 1] !in Dropped(s, s.tcpw[i], env).tcpw
  {
    DroppedWalk(s, i, env);
    hide *;
    hide LosesNext;
  }

  /** A walk that lost its place came to such a query, and its state is what dropping that
      one left. */
  lemma {:induction false} PurgeLost(s: State, i: nat, env: Env) returns (t: State, j: nat)
    requires Inv(s, {}) && s.net.tcp == Broken && EnvOk(env) && WalkedTo(s, i)
    requires Purge(s, i, env).1
    ensures ComesTo(s, i, t, j, env) && LosesAt(t, j, env) && Follows(s, t, env.now)
    ensures Purge(s, i, env).0 == Dropped(t, t.tcpw[j], env)
    decreases SpentOnTcpw(s), |s.tcpw| - i
  {
    hide Inv, Follows, LosesNext, Dropped, BrokenKeeps, Purge, Spent, SpentOnTcpw, WalkedTo, ComesTo, EnvOk;
    PurgeElsewhere(s, i, env);
    FollowsSelf(s, env.now);
    if !Spent(s.cfg, s.queries[s.tcpw[i]]) {
      t, j := PurgeLost(s, i + 1, env);
    } else {
      PurgeAtSpent(s, i, env);
      LosingIsFreeing(s, i, env);
      var r := Dropped(s, s.tcpw[i], env);
      if i + 1 < |s.tcpw| && s.tcpw[i + 1] in r.tcpw {
        t, j := PurgeLost(r, IndexIn(r.tcpw, s.tcpw[i + 1]), env);
        FollowsTransitive(s, r, t, env.now);
      } else {
        t, j := s, i;
      }
    }
    ComesOn(s, i, t, j, env);
  }

  lemma {:induction false} LosesOnceThere(s: State, i: nat, t: State, j: nat, env: Env)
    requires Inv(s, {}) && s.net.tcp == Broken && EnvOk(env) && WalkedTo(s, i)
    requires ComesTo(s, i, t, j, env) && LosesAt(t, j, env)
    ensures Purge(s, i, env).1
    decreases SpentOnTcpw(s), |s.tcpw| - i
  {
    hide Inv, Follows, LosesNext, Dropped, BrokenKeeps, Purge, Spent, SpentOnTcpw, WalkedTo, ComesTo, EnvOk;
    ComesOn(s, i, t, j, env);
    PurgeElsewhere(s, i, env);
    if i < |s.tcpw| && Spent(s.cfg, s.queries[s.tcpw[i]]) {
      PurgeAtSpent(s, i, env);
      LosingIsFreeing(s, i, env);
      if t != s || j != i {
        var r := Dropped(s, s.tcpw[i], env);
        LosesOnceThere(r, IndexIn(r.tcpw, s.tcpw[i + 1]), t, j, env);
      }
    } else if t != s || j != i {
      LosesOnceThere(s, i + 1, t, j, env);
    }
  }

  /** The walk loses its place exactly if it comes to a spent query whose end frees the
      one after it. */
  lemma PurgeLostExactly(s: State, i: nat, env: Env)
    requires Inv(s, {}) && s.net.tcp == Broken && EnvOk(env) && WalkedTo(s, i)
    ensures Purge(s, i, env).1 <==> exists t, j: nat :: ComesTo(s, i, t, j, env) && LosesAt(t, j, env)
  {
    hide Inv, LosesAt, Purge, ComesTo, WalkedTo;
    if Purge(s, i, env).1 { var t, j := PurgeLost(s, i, env); }
    forall t, j: nat | ComesTo(s, i, t, j, env) && LosesAt(t, j, env) ensures Purge(s, i, env).1 {
      LosesOnceThere(s, i, t, j, env);
    }
  }

  // ---- When it cannot ----

  /** The caller's query x belongs to. */
  ghost function Root(s: State, x: Handle): Handle
    decreases x
  {
    if x in s.queries && s.queries[x].parent.Some? && s.queries[x].parent.value < x
    then Root(s, s.queries[x].parent.value) else x
  }

  lemma {:induction false} SameRoot(s: State, h: Handle, a: Handle)
    requires Under(s, h, a)
    ensures Root(s, h) == Root(s, a)
    decreases h
  {
    if h != a { SameRoot(s, s.queries[h].parent.value, a); }
  }

  lemma LostSharesRoot(s: State, x: Handle, env: Env, h: Handle)
    requires Lost(s, x, env, h)
    ensures Root(s, h) == Root(s, x)
  {
    TopIsAbove(s, x, env);
    SameRoot(s, h, Top(s, x, env));
    SameRoot(s, x, Top(s, x, env));
  }

  lemma {:induction false} RootStays(s: State, r: State, h: Handle, now: Timeval)
    requires Inv(s, {}) && Inv(r, {}) && Follows(s, r, now) && h in s.queries && h in r.queries
    ensures Root(r, h) == Root(s, h)
    decreases h
  {
    assert Attached(s, h) && Attached(r, h);
    if s.queries[h].parent.Some? { RootStays(s, r, s.queries[h].parent.value, now); }
  }

  /** No spent query on tcpw belongs to the same caller's query as another one there. */
  ghost predicate SpentAlone(s: State) {
    forall y, z :: y in SpentOnTcpw(s) && z in s.tcpw && y != z ==> Root(s, y) != Root(s, z)
  }

  /** What appears while x is dropped belongs to the caller's query of x. */
  lemma NewbornRoot(s: State, x: Handle, env: Env, z: Handle)
    requires Inv(s, {}) && x in s.tcpw && x in s.queries && s.net.tcp == Broken && EnvOk(env)
    requires z in Dropped(s, x, env).queries && z !in s.queries
    ensures Root(Dropped(s, x, env), z) == Root(s, x)
  {
    var r := Dropped(s, x, env);
    DroppedFate(s, x, env, z);
    TopIsAbove(s, x, env);
    var a := Top(s, x, env);
    var p := s.queries[a].parent.value;
    SameRoot(s, x, a);
    assert Attached(r, z) && Attached(s, a) && p < z && p < a;
    RootStays(s, r, p, env.now);
  }

  /** An old query on tcpw afterwards was there before. */
  lemma StillOnTcpw(s: State, r: State, x: Handle, env: Env, z: Handle)
    requires Inv(s, {}) && x in s.tcpw && s.net.tcp == Broken && EnvOk(env)
    requires r == Dropped(s, x, env) && z in r.tcpw && z in s.queries
    ensures z in s.tcpw
  {
    DroppedSpent(s, x, env);
    var D, e :| Extends(Remove(s.tcpw, {x}), r.tcpw, D, e, s.next);
    assert z < s.next;
  }

  lemma DroppedKeepsAlone(s: State, x: Handle, env: Env)
    requires Inv(s, {}) && x in s.tcpw && s.net.tcp == Broken && EnvOk(env)
    requires x in SpentOnTcpw(s) && SpentAlone(s)
    ensures SpentAlone(Dropped(s, x, env))
  {
    var r := Dropped(s, x, env);
    InvTcpw(s);
    DroppedSpent(s, x, env);
    forall y, z | y in SpentOnTcpw(r) && z in r.tcpw && y != z
      ensures Root(r, y) != Root(r, z)
    {
      hide Inv, Dropped, Follows, BrokenKeeps, Spent, Extends;
      assert y in SpentOnTcpw(s) && y != x;
      RootStays(s, r, y, env.now);
      if z in s.queries {
        RootStays(s, r, z, env.now);
        StillOnTcpw(s, r, x, env, z);
      } else {
        NewbornRoot(s, x, env, z);
      }
    }
  }

  lemma AloneKeepsNext(s: State, i: nat, env: Env)
    requires Inv(s, {}) && WalkedTo(s, i) && SpentAlone(s)
    requires i < |s.tcpw| && Spent(s.cfg, s.queries[s.tcpw[i]])
    ensures !LosesNext(s, i, env) && s.tcpw[i] in SpentOnTcpw(s)
  {
    InvTcpw(s);
    hide Inv, Spent;
    if LosesNext(s, i, env) { LostSharesRoot(s, s.tcpw[i], env, s.tcpw[i + 1]); }
  }

  /** If every spent query is the only one of its caller's query on tcpw, the walk
      keeps its place and fails them all. */
  lemma {:induction false} AloneNeverLost(s: State, i: nat, env: Env)
    requires Inv(s, {}) && s.net.tcp == Broken && EnvOk(env) && WalkedTo(s, i) && SpentAlone(s)
    ensures !Purge(s, i, env).1
    decreases SpentOnTcpw(s), |s.tcpw| - i
  {
    PurgeElsewhere(s, i, env);
    hide Inv, Follows, Dropped, BrokenKeeps, Purge, Spent, SpentAlone, LosesNext, SpentOnTcpw, WalkedTo;
    if i < |s.tcpw| && !Spent(s.cfg, s.queries[s.tcpw[i]]) {
      AloneNeverLost(s, i + 1, env);
    } else if i < |s.tcpw| {
      var x := s.tcpw[i];
      PurgeAtSpent(s, i, env);
      LosingIsFreeing(s, i, env);
      AloneKeepsNext(s, i, env);
      DroppedKeepsAlone(s, x, env);
      if i + 1 < |s.tcpw| {
        AloneNeverLost(Dropped(s, x, env), IndexIn(Dropped(s, x, env).tcpw, s.tcpw[i + 1]), env);
      }
    }
  }

  /** Callbacks that neither finish nor fail a parent that has children left. */
  ghost predicate Content(env: Env) {
    forall p, x :: env.verdict(p, x).Continue?
  }

  lemma {:induction false} OnlyChildrenEnd(s: State, x: Handle, env: Env, h: Handle)
    requires QueriesOk(s, {}) && Content(env) && x in s.queries && h in s.queries
    requires Under(s, h, Top(s, x, env))
    ensures Under(s, h, x) || Under(s, x, h)
    decreases x
  {
    if Top(s, x, env) != x {
      var p := s.queries[x].parent.value;
      assert s.queries[p].children == [x];
      OnlyChildrenEnd(s, p, env, h);
      if Under(s, h, p) && h != p {
        var i := BelowAChild(s, {}, p, h);
      }
    }
  }

  /** Then a query that is waiting for TCP is lost only by its own end. */
  lemma ContentLosesNone(s: State, x: Handle, env: Env, h: Handle)
    requires Inv(s, {}) && Content(env) && x in s.tcpw && h in s.tcpw && x in s.queries && h in s.queries && h != x
    ensures !Lost(s, x, env, h)
  {
    assert PhaseOk(s.cfg, s.queries[x]) && PhaseOk(s.cfg, s.queries[h]);
    NetworkPhase(s, x);
    NetworkPhase(s, h);
    hide QueuesOk, NetOk, RetriesOk;
    if Lost(s, x, env, h) {
      OnlyChildrenEnd(s, x, env, h);
      if Under(s, h, x) {
        var i := BelowAChild(s, {}, x, h);
      } else {
        var i := BelowAChild(s, {}, h, x);
      }
    }
  }

  lemma ContentKeepsNext(s: State, i: nat, env: Env)
    requires Inv(s, {}) && Content(env) && i < |s.tcpw|
    ensures !LosesNext(s, i, env)
  {
    InvTcpw(s);
    hide Inv, Content, Lost;
    if i + 1 < |s.tcpw| {
      assert s.tcpw[i] != s.tcpw[i + 1];
      ContentLosesNone(s, s.tcpw[i], env, s.tcpw[i + 1]);
    }
  }

  lemma {:induction false} ContentNeverLost(s: State, i: nat, env: Env)
    requires Inv(s, {}) && s.net.tcp == Broken && EnvOk(env) && WalkedTo(s, i) && Content(env)
    ensures !Purge(s, i, env).1
    decreases SpentOnTcpw(s), |s.tcpw| - i
  {
    PurgeElsewhere(s, i, env);
    hide Inv, Follows, Dropped, BrokenKeeps, Purge, Spent, Content, LosesNext, SpentOnTcpw, WalkedTo;
    if i < |s.tcpw| && !Spent(s.cfg, s.queries[s.tcpw[i]]) {
      ContentNeverLost(s, i + 1, env);
    } else if i < |s.tcpw| {
      PurgeAtSpent(s, i, env);
      LosingIsFreeing(s, i, env);
      ContentKeepsNext(s, i, env);
      if i + 1 < |s.tcpw| {
        var r := Dropped(s, s.tcpw[i], env);
        ContentNeverLost(r, IndexIn(r.tcpw, s.tcpw[i + 1]), env);
      }
    }
  }

  // ---- A case in which it does ----

  /** One server, and a caller's query whose two children have both used up their
      retries, as a PTR answer with two records leaves it. */
  function TwoChildren(): State {
    var child := Query(TcpWait, Some(0), [], 0, 0, 0, 0, 0, 2, 0, {}, 0, 0, false, false, ZERO, StOk, 0);
    var parent := Query(ChildWait, None, [1, 2], 0, 0, 0, 0, 0, 0, 0, {}, 0, 0, false, false, ZERO, StOk, 0);
    State(Config(1, 0), map[0 := parent, 1 := child, 2 := child], [], [1, 2], [0], [],
          Net(Broken, false, 0, 0, 0, 0, ZERO, [0, 0]), 3)
  }

  /** A callback that fails the parent when a child fails. */
  function FailingParents(): Env {
    Env(ZERO, (p: Handle, x: Handle) => Abort(StAllServFail), (x: Handle) => NoFault, (x: Handle, k: nat) => Written(0),
        (x: Handle, c: Candidate) => NoMemory, (x: Handle) => ByTcp, (i: nat) => InProgress)
  }

  lemma TwoChildrenRecord(x: Handle)
    requires x in TwoChildren().queries
    ensures var s := TwoChildren();
            && (x == 0 || x == 1 || x == 2)
            && RangesOk(s.cfg, s.queries[x]) && KidsOk(s, x) && PhaseOk(s.cfg, s.queries[x]) && Attached(s, x)
  {
    var s := TwoChildren();
    if x == 0 {
      assert s.queries[x].children == [1, 2];
    } else {
      assert s.queries[0].children[x - 1] == x;
    }
  }

  lemma TwoChildrenQueued()
    ensures QueuesOk(TwoChildren(), {})
  {
    var s := TwoChildren();
    assert s.tcpw[0] == 1 && s.tcpw[1] == 2 && s.childw[0] == 0;
    forall x ensures x in s.queries <==> x == 0 || x == 1 || x == 2 { }
  }

  lemma TwoChildrenInOrder()
    ensures QueuesOk(TwoChildren(), {}) && QueriesOk(TwoChildren(), {})
  {
    var s := TwoChildren();
    TwoChildrenQueued();
    hide QueuesOk;
    forall x | x in s.queries
      ensures x < 3 && RangesOk(s.cfg, s.queries[x]) && KidsOk(s, x) && PhaseOk(s.cfg, s.queries[x]) && Attached(s, x)
    {
      TwoChildrenRecord(x);
    }
    hide RangesOk, KidsOk, PhaseOk, Attached;
  }

  lemma TwoChildrenInv()
    ensures Inv(TwoChildren(), {}) && EnvOk(FailingParents()) && WalkedTo(TwoChildren(), 0)
  {
    TwoChildrenInOrder();
    hide QueuesOk, QueriesOk;
    var s := TwoChildren();
    forall x | x in s.tcpw
      ensures x in s.queries && RetryOk(s.cfg, s.net, s.queries[x].retries, s.queries[x].joined, false)
    {
      assert x == 1 || x == 2;
    }
  }

  /** The walk loses its place: the first child's end frees the second. */
  lemma PurgeLosesItsPlace()
    ensures Inv(TwoChildren(), {}) && EnvOk(FailingParents()) && WalkedTo(TwoChildren(), 0)
    ensures Purge(TwoChildren(), 0, FailingParents()).1
  {
    TwoChildrenInv();
    var s, env := TwoChildren(), FailingParents();
    hide Inv, EnvOk, WalkedTo;
    PurgeElsewhere(s, 0, env);
    assert Top(s, 1, env) == 0 && Under(s, 2, 0) && Lost(s, 1, env, 2);
    assert LosesNext(s, 0, env);
    LosingIsFreeing(s, 0, env);
    PurgeAtSpent(s, 0, env);
  }
}
