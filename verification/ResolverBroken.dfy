/**
 Finishing queries while the connection is broken: nothing is sent or connected,
 no retry is counted, and tcpw only loses members and grows at its end.
 */
module ResolverBroken {
  import opened Common
  import opened Timeval
  import opened ResolverState
  import opened ResolverEnv
  import opened ResolverSteps
  import opened ResolverFlow
  import opened ResolverDone

  ghost predicate Extends(q: seq<Handle>, r: seq<Handle>, D: set<Handle>, e: seq<Handle>, next: Handle) {
    r == Remove(q, D) + e && forall y :: y in e ==> y >= next
  }

  /** The queries on tcpw are old ones with the retries they had, or new ones with none. */
  ghost predicate RetriesStay(s: State, r: State) {
    && (forall y :: y in s.tcpw ==> y in s.queries && y < s.next)
    && forall y :: y in r.tcpw ==> (
         && y in r.queries
         && (y in s.tcpw ==> r.queries[y].retries == s.queries[y].retries)
         && (y !in s.tcpw ==> y >= s.next && r.queries[y].retries == 0))
  }

  ghost predicate BrokenKeeps(s: State, r: State) {
    && r.net == s.net && r.cfg == s.cfg && s.next <= r.next
    && RetriesStay(s, r)
    && exists D, e :: Extends(s.tcpw, r.tcpw, D, e, s.next)
  }

  lemma RetriesStayTransitive(a: State, b: State, c: State)
    requires RetriesStay(a, b) && RetriesStay(b, c) && a.next <= b.next
    requires exists D, e :: Extends(a.tcpw, b.tcpw, D, e, a.next)
    ensures RetriesStay(a, c)
  {
    forall y | y in c.tcpw
      ensures y in a.tcpw ==> c.queries[y].retries == a.queries[y].retries
      ensures y !in a.tcpw ==> y >= a.next && c.queries[y].retries == 0
    {
    }
  }

  lemma ExtendsTransitive(p: seq<Handle>, q: seq<Handle>, r: seq<Handle>,
                          D1: set<Handle>, e1: seq<Handle>, n1: Handle, D2: set<Handle>, e2: seq<Handle>, n2: Handle)
    requires Extends(p, q, D1, e1, n1) && Extends(q, r, D2, e2, n2) && n1 <= n2
    ensures Extends(p, r, D1 + D2, Remove(e1, D2) + e2, n1)
  {
    calc {
      r;
      Remove(Remove(p, D1) + e1, D2) + e2;
      { RemoveAppend(Remove(p, D1), e1, D2); }
      (Remove(Remove(p, D1), D2) + Remove(e1, D2)) + e2;
      { RemoveTwice(p, D1, D2); }
      (Remove(p, D1 + D2) + Remove(e1, D2)) + e2;
      Remove(p, D1 + D2) + (Remove(e1, D2) + e2);
    }
  }

  lemma BrokenKeepsTransitive(a: State, b: State, c: State)
    requires BrokenKeeps(a, b) && BrokenKeeps(b, c)
    ensures BrokenKeeps(a, c)
  {
    RetriesStayTransitive(a, b, c);
    hide RetriesStay, Extends;
    var D1, e1 :| Extends(a.tcpw, b.tcpw, D1, e1, a.next);
    var D2, e2 :| Extends(b.tcpw, c.tcpw, D2, e2, b.next);
    ExtendsTransitive(a.tcpw, b.tcpw, c.tcpw, D1, e1, a.next, D2, e2, b.next);
  }

  /** A step that leaves the connection, the retries and tcpw alone, but for removals. */
  lemma RemovalKeeps(s: State, r: State, D: set<Handle>)
    requires r.net == s.net && r.cfg == s.cfg && s.next <= r.next && r.tcpw == Remove(s.tcpw, D)
    requires forall y :: y in s.tcpw ==> y in s.queries && y < s.next
    requires forall y :: y in r.tcpw ==> y in r.queries && r.queries[y].retries == s.queries[y].retries
    ensures BrokenKeeps(s, r)
  {
    assert Extends(s.tcpw, r.tcpw, D, [], s.next) by { assert Remove(s.tcpw, D) + [] == Remove(s.tcpw, D); }
  }

  lemma CancelKidsWhileBroken(s: State, x: Handle)
    requires Inv(s, {x}) && x in s.queries && s.net.tcp == Broken
    ensures BrokenKeeps(s, CancelKids(s, x))
  {
    RemovalKeeps(s, CancelKids(s, x), KidTree(s, x));
  }

  lemma ResetWhileBroken(s: State, x: Handle, st: Status)
    requires Inv(s, {x}) && x in s.queries && s.net.tcp == Broken
    ensures BrokenKeeps(s, Reset(s, x, st))
  {
    RemovalKeeps(s, Reset(s, x, st), KidTree(s, x));
  }

  lemma OutputWhileBroken(s: State, x: Handle, fault: MemFault)
    requires Inv(s, {x}) && x in s.queries && s.net.tcp == Broken
    ensures BrokenKeeps(s, ToOutput(s, x, fault))
  {
    RemoveNothing(s.tcpw, {});
    RemovalKeeps(s, ToOutput(s, x, fault), {});
  }

  lemma DetachWhileBroken(s: State, x: Handle, p: Handle)
    requires Inv(s, {x}) && x in s.queries && p in s.queries && x != p && s.net.tcp == Broken
    ensures BrokenKeeps(s, Detach(s, x, p))
  {
    RemoveNothing(s.tcpw, {});
    RemovalKeeps(s, Detach(s, x, p), {});
  }

  lemma SentByWhileBroken(s: State, x: Handle, how: SendBy, env: Env)
    requires s.net.tcp == Broken && s.cfg.nservers > 0 && x in s.queries && Normal(env.now)
    requires forall y :: y in s.tcpw ==> y in s.queries
    ensures var r := SentBy(s, x, how, env);
            && r.net == s.net && r.cfg == s.cfg && r.next == s.next
            && (r.tcpw == s.tcpw || (r.tcpw == s.tcpw + [x] && x in r.queries && r.queries[x].retries == 0))
            && forall y :: y in s.queries && y != x ==> y in r.queries && r.queries[y] == s.queries[y]
  {
  }

  lemma OneMore(s: State, r: State)
    requires r.net == s.net && r.cfg == s.cfg && s.next <= r.next
    requires forall y :: y in s.tcpw ==> y in s.queries && y < s.next && y in r.queries && r.queries[y].retries == s.queries[y].retries
    requires r.tcpw == s.tcpw || (r.tcpw == s.tcpw + [s.next] && s.next in r.queries && r.queries[s.next].retries == 0)
    ensures BrokenKeeps(s, r)
  {
    RemoveNothing(s.tcpw, {});
    if r.tcpw == s.tcpw {
      assert s.tcpw == s.tcpw + [];
      assert Extends(s.tcpw, r.tcpw, {}, [], s.next);
    } else {
      assert Extends(s.tcpw, r.tcpw, {}, [s.next], s.next);
    }
  }

  lemma TcpwIsOld(s: State, p: Handle)
    requires Inv(s, {p}) && p in s.queries
    ensures p !in s.tcpw && p < s.next && s.cfg.nservers > 0
    ensures forall y :: y in s.tcpw ==> y in s.queries && y < s.next
  {
  }

  lemma SubmitChildWhileBroken(s: State, p: Handle, how: SendBy, env: Env)
    requires Inv(s, {p}) && p in s.queries && EnvOk(env) && s.net.tcp == Broken
    ensures BrokenKeeps(s, SubmitChild(s, p, how, env))
  {
    hide Inv, SentBy, BrokenKeeps;
    TcpwIsOld(s, p);
    SentByWhileBroken(AddQuery(s, VirginQuery(s.next, false, false)), s.next, how, env);
    OneMore(s, SubmitChild(s, p, how, env));
  }

  lemma {:induction false} SubmitAllWhileBroken(s: State, p: Handle, kids: seq<SendBy>, env: Env)
    requires Inv(s, {p}) && p in s.queries && EnvOk(env) && Attached(s, p) && s.net.tcp == Broken
    ensures BrokenKeeps(s, SubmitAll(s, p, kids, env))
    decreases kids
  {
    if kids == [] {
      RemoveNothing(s.tcpw, {});
      RemovalKeeps(s, s, {});
    } else {
      hide Inv, Attached, SubmitChild;
      var s1 := SubmitChild(s, p, kids[0], env);
      SubmitChildKeepsInv(s, p, kids[0], env);
      SubmitChildWhileBroken(s, p, kids[0], env);
      SubmitAllStep(s, p, kids, env);
      SubmitAllWhileBroken(s1, p, kids[1..], env);
      BrokenKeepsTransitive(s, s1, SubmitAll(s1, p, kids[1..], env));
    }
  }

  lemma {:induction false} DoneWhileBroken(s: State, x: Handle, env: Env)
    requires Inv(s, {x}) && x in s.queries && Attached(s, x) && s.queries[x].phase != Done && EnvOk(env)
    requires s.net.tcp == Broken
    ensures BrokenKeeps(s, QueryDone(s, x, env))
    decreases x, if Refused(s.queries[x], env.fault(x)) then 1 else 0
  {
    hide Inv, Attached, CancelKids, Reset, Detach, ToOutput, Completed, QueryDone;
    CancelKidsWhileBroken(s, x);
    CancelKidsFollows(s, x, env.now);
    var s1 := CancelKids(s, x);
    if Refused(s.queries[x], env.fault(x)) {
      DoneWhenRefused(s, x, env);
      ResetWhileBroken(s1, x, StNoMemory);
      var s2 := Reset(s1, x, StNoMemory);
      DoneWhileBroken(s2, x, env);
      BrokenKeepsTransitive(s, s1, s2);
      BrokenKeepsTransitive(s, s2, QueryDone(s2, x, env));
    } else if s.queries[x].parent.None? {
      DoneAtRoot(s, x, env);
      OutputWhileBroken(s1, x, env.fault(x));
      BrokenKeepsTransitive(s, s1, ToOutput(s1, x, env.fault(x)));
    } else {
      DoneBelowParent(s, x, env);
      var p := s.queries[x].parent.value;
      DetachWhileBroken(s1, x, p);
      var s2 := Detach(s1, x, p);
      CompletedWhileBroken(s2, p, env.verdict(p, x), env);
      BrokenKeepsTransitive(s, s1, s2);
      BrokenKeepsTransitive(s, s2, Completed(s2, p, env.verdict(p, x), env));
    }
  }

  lemma BrokenKeepsSame(s: State, s1: State, r: State)
    requires BrokenKeeps(s, s1) && r == s1.(childw := r.childw)
    ensures BrokenKeeps(s, r)
  {
    var D, e :| Extends(s.tcpw, s1.tcpw, D, e, s.next);
    assert Extends(s.tcpw, r.tcpw, D, e, s.next);
  }

  lemma {:induction false} CompletedWhileBroken(s: State, p: Handle, v: Verdict, env: Env)
    requires Inv(s, {p}) && p in s.queries && Attached(s, p) && EnvOk(env)
    requires s.queries[p].phase == ChildWait && s.queries[p].id >= 0
    requires s.net.tcp == Broken
    ensures BrokenKeeps(s, Completed(s, p, v, env))
    decreases p, 2
  {
    hide Inv, Attached, Reset, SubmitAll, Completed, QueryDone;
    CompletedUnfolds(s, p, v, env);
    match v
    case Finish => DoneWhileBroken(s, p, env);
    case Abort(st) =>
      ResetWhileBroken(s, p, st);
      DoneWhileBroken(Reset(s, p, st), p, env);
      BrokenKeepsTransitive(s, Reset(s, p, st), QueryDone(Reset(s, p, st), p, env));
    case Continue(kids) =>
      SubmitAllWhileBroken(s, p, kids, env);
      SubmitAllKeepsInv(s, p, kids, env);
      var s1 := SubmitAll(s, p, kids, env);
      if s1.queries[p].children == [] {
        DoneWhileBroken(s1, p, env);
        BrokenKeepsTransitive(s, s1, QueryDone(s1, p, env));
      } else {
        assert LinkTail(s1, p).tcpw == s1.tcpw;
        BrokenKeepsSame(s, s1, LinkTail(s1, p));
      }
  }

  lemma FailWhileBroken(s: State, x: Handle, st: Status, env: Env)
    requires Inv(s, {x}) && x in s.queries && Attached(s, x) && s.queries[x].phase != Done && EnvOk(env)
    requires s.net.tcp == Broken
    ensures BrokenKeeps(s, QueryFail(s, x, st, env))
  {
    hide Inv, Attached, Reset, QueryDone;
    ResetKeepsInv(s, x, st, env.now);
    ResetWhileBroken(s, x, st);
    DoneWhileBroken(Reset(s, x, st), x, env);
    BrokenKeepsTransitive(s, Reset(s, x, st), QueryDone(Reset(s, x, st), x, env));
  }
}
