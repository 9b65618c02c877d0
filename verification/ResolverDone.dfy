/**
 Finishing queries. A finished child is taken from its parent, the parent from
 its queue, and the completion callback decides whether the parent finishes too,
 fails, or goes on waiting; a finished query without parent goes to output.
 */
module ResolverDone {
  import opened Common
  import opened Timeval
  import opened ResolverState
  import opened ResolverEnv
  import opened ResolverSteps
  import opened ResolverFlow

  // ---- The pieces ----

  /** adns__reset_preserved on the record, and the error status. */
  function Zap(q: Query, st: Status): Query {
    q.(children := [], nrrs := 0, interim := q.preserved, status := st)
  }

  /** adns__reset_preserved and the error status. */
  ghost function Reset(s: State, x: Handle, st: Status): State
    requires x in s.queries
  {
    var s1 := CancelKids(s, x);
    s1.(queries := s1.queries[x := Zap(s.queries[x], st)])
  }

  /** adns__query_done asks for memory to save the owner or to sort the records
      and is refused it. */
  predicate Refused(q: Query, fault: MemFault) {
    || (q.owner && q.search && q.status != StNoMemory && fault == OwnerFault)
    || (q.nrrs > 0 && fault == SortFault)
  }

  /** makefinal_query on the record. */
  function Finalised(q: Query, fault: MemFault): Query {
    var q1 := if q.interim > 0 && fault == FinalFault
              then Zap(q.(preserved := 0), StNoMemory) else q;
    q1.(phase := Done, id := -1, children := [], allocs := 0)
  }

  /** A finished query without parent. */
  function ToOutput(s: State, x: Handle, fault: MemFault): State
    requires x in s.queries
  {
    s.(queries := s.queries[x := Finalised(s.queries[x], fault)], output := s.output + [x])
  }

  /** A finished child leaves its parent and the table; the parent leaves childw. */
  function Detach(s: State, x: Handle, p: Handle): State
    requires x in s.queries && p in s.queries && x != p
  {
    var rest := map h | h in s.queries && h != x :: s.queries[h];
    s.(queries := rest[p := s.queries[p].(children := Remove(s.queries[p].children, {x}))],
       childw := Remove(s.childw, {p}))
  }

  /** The callback's new children, in order. */
  function SubmitAll(s: State, p: Handle, kids: seq<SendBy>, env: Env): State
    decreases kids
  {
    if kids == [] || !(s.cfg.nservers > 0 && p in s.queries && p < s.next && Normal(env.now)
                       && (s.net.Open() ==> |s.net.attempts| > 0)
                       && forall y :: y in s.tcpw ==> y in s.queries)
    then s
    else SubmitAll(SubmitChild(s, p, kids[0], env), p, kids[1..], env)
  }

  // ---- What they keep ----

  lemma WithoutFollows(s: State, D: set<Handle>, now: Timeval)
    requires forall y :: y in s.queries ==> y < s.next
    requires forall y :: y in D && y in s.queries ==> s.queries[y].parent.Some?
    ensures Follows(s, Without(s, D), now)
  {
  }

  lemma SetRecordFollows(s: State, x: Handle, q: Query, now: Timeval)
    requires x in s.queries && forall y :: y in s.queries ==> y < s.next
    requires q.parent == s.queries[x].parent
    requires q.phase == s.queries[x].phase && q.timeout == s.queries[x].timeout
    ensures Follows(s, s.(queries := s.queries[x := q]), now)
  {
  }

  lemma InvShape(s: State, busy: set<Handle>)
    requires Inv(s, busy)
    ensures QueuesOk(s, busy) && QueriesOk(s, busy)
  {
  }

  lemma BelowNext(s: State, busy: set<Handle>, x: Handle)
    requires QueriesOk(s, busy) && x in s.queries
    ensures forall y :: y in s.queries ==> y < s.next
    ensures RangesOk(s.cfg, s.queries[x])
  {
  }

  lemma KidTreeFollows(s: State, x: Handle, now: Timeval)
    requires QueriesOk(s, {x}) && x in s.queries
    ensures Follows(s, CancelKids(s, x), now)
  {
    WithoutFollows(s, KidTree(s, x), now);
  }

  lemma ResetKeepsInv(s: State, x: Handle, st: Status, now: Timeval)
    requires Inv(s, {x}) && x in s.queries && s.queries[x].phase != Done
    ensures var r := Reset(s, x, st);
            && Inv(r, {x}) && x in r.queries && r.queries[x] == Zap(s.queries[x], st)
            && r.queries[x].phase == s.queries[x].phase && r.queries[x].parent == s.queries[x].parent
            && (Attached(s, x) ==> Attached(r, x)) && Follows(s, r, now)
  {
    CancelKidsKeepsInv(s, {x}, x);
    CancelKidsAtRoot(s, x);
    KidTreeFollows(s, x, now);
    var s1 := CancelKids(s, x);
    BelowNext(s1, {x}, x);
    hide CancelKids, Follows, Inv, Attached;
    SetBusyKeepsInv(s1, {x}, x, Zap(s.queries[x], st));
    SetRecordFollows(s1, x, Zap(s.queries[x], st), now);
    FollowsTransitive(s, s1, Reset(s, x, st), now);
  }

  lemma ToOutputKeepsQuery(s: State, x: Handle, fault: MemFault, y: Handle)
    requires QueriesOk(s, {x}) && x in s.queries && y in s.queries
    requires s.queries[x].parent.None? && s.queries[x].children == []
    ensures var r := ToOutput(s, x, fault);
            RangesOk(r.cfg, r.queries[y]) && KidsOk(r, y) && PhaseOk(r.cfg, r.queries[y]) && Attached(r, y)
  {
    assert KidsOk(s, y);
    assert y != x ==> Attached(s, y) && PhaseOk(s.cfg, s.queries[y]);
  }

  lemma ToOutputKeepsQueries(s: State, x: Handle, fault: MemFault)
    requires QueriesOk(s, {x}) && x in s.queries
    requires s.queries[x].parent.None? && s.queries[x].children == []
    ensures QueriesOk(ToOutput(s, x, fault), {})
  {
    forall y | y in s.queries
      ensures var r := ToOutput(s, x, fault);
              RangesOk(r.cfg, r.queries[y]) && KidsOk(r, y) && PhaseOk(r.cfg, r.queries[y]) && Attached(r, y)
    {
      ToOutputKeepsQuery(s, x, fault, y);
    }
  }

  lemma ToOutputKeepsQueues(s: State, x: Handle, fault: MemFault)
    requires QueuesOk(s, {x}) && x in s.queries
    ensures QueuesOk(ToOutput(s, x, fault), {})
  {
  }

  lemma ToOutputFollows(s: State, x: Handle, fault: MemFault, now: Timeval)
    requires x in s.queries && forall y :: y in s.queries ==> y < s.next
    ensures Follows(s, ToOutput(s, x, fault), now)
  {
  }

  lemma ToOutputKeepsInv(s: State, x: Handle, fault: MemFault, now: Timeval)
    requires Inv(s, {x}) && x in s.queries
    requires s.queries[x].parent.None? && s.queries[x].children == []
    ensures Inv(ToOutput(s, x, fault), {}) && Follows(s, ToOutput(s, x, fault), now)
  {
    ToOutputKeepsQueries(s, x, fault);
    ToOutputKeepsQueues(s, x, fault);
    ToOutputFollows(s, x, fault, now);
    hide Follows, QueriesOk;
  }

  lemma DetachKeepsQuery(s: State, x: Handle, p: Handle, y: Handle)
    requires QueriesOk(s, {x}) && x in s.queries && s.queries[x].children == []
    requires s.queries[x].parent == Some(p) && p in s.queries
    requires y in s.queries && y != x
    ensures x != p
    ensures var r := Detach(s, x, p);
            && RangesOk(r.cfg, r.queries[y]) && KidsOk(r, y)
            && (y == p ==> Attached(r, y))
            && (y != p ==> PhaseOk(r.cfg, r.queries[y]) && Attached(r, y))
  {
    assert KidsOk(s, y) && Attached(s, y) && KidsOk(s, x);
    RemoveNoDup(s.queries[p].children, {x});
  }

  lemma DetachKeepsQueries(s: State, x: Handle, p: Handle)
    requires QueriesOk(s, {x}) && x in s.queries && s.queries[x].children == []
    requires s.queries[x].parent == Some(p) && p in s.queries
    ensures p < x && QueriesOk(Detach(s, x, p), {p}) && Attached(Detach(s, x, p), p)
  {
    var r := Detach(s, x, p);
    forall y | y in r.queries
      ensures RangesOk(r.cfg, r.queries[y]) && KidsOk(r, y)
      ensures y != p ==> PhaseOk(r.cfg, r.queries[y]) && Attached(r, y)
    {
      DetachKeepsQuery(s, x, p, y);
    }
    DetachKeepsQuery(s, x, p, p);
  }

  lemma DetachKeepsQueues(s: State, x: Handle, p: Handle)
    requires QueuesOk(s, {x}) && x in s.queries && p in s.queries && x != p
    requires s.queries[p].phase == ChildWait
    ensures QueuesOk(Detach(s, x, p), {p})
  {
    RemoveNoDup(s.childw, {p});
  }

  lemma DetachFollows(s: State, x: Handle, p: Handle, now: Timeval)
    requires x in s.queries && p in s.queries && x != p && s.queries[x].parent.Some?
    requires forall y :: y in s.queries ==> y < s.next
    ensures Follows(s, Detach(s, x, p), now)
  {
  }

  /** The parent of a query taken for processing is waiting for its children. */
  lemma ParentWaits(s: State, x: Handle, p: Handle)
    requires QueriesOk(s, {x}) && x in s.queries
    requires s.queries[x].parent == Some(p) && Attached(s, x)
    ensures p < x && p in s.queries && s.queries[p].phase == ChildWait && s.queries[p].id >= 0
    ensures forall y :: y in s.queries ==> y < s.next
  {
    assert PhaseOk(s.cfg, s.queries[p]);
  }

  lemma DetachKeepsInv(s: State, x: Handle, p: Handle, now: Timeval)
    requires Inv(s, {x}) && x in s.queries && s.queries[x].children == []
    requires s.queries[x].parent == Some(p) && Attached(s, x)
    ensures p < x && p in s.queries
    ensures var r := Detach(s, x, p);
            && Inv(r, {p}) && p in r.queries && Attached(r, p)
            && r.queries[p] == s.queries[p].(children := r.queries[p].children)
            && r.queries[p].phase == ChildWait && r.queries[p].id >= 0
            && Follows(s, r, now)
  {
    ParentWaits(s, x, p);
    DetachKeepsQueries(s, x, p);
    DetachKeepsQueues(s, x, p);
    DetachFollows(s, x, p, now);
    hide Follows, QueriesOk, Attached, QueuesOk, RetryOk, NetOk;
  }

  lemma SubmitAllStep(s: State, p: Handle, kids: seq<SendBy>, env: Env)
    requires Inv(s, {p}) && p in s.queries && Normal(env.now) && kids != []
    ensures SubmitAll(s, p, kids, env) == SubmitAll(SubmitChild(s, p, kids[0], env), p, kids[1..], env)
  {
    hide SubmitChild;
  }

  lemma {:induction false} SubmitAllKeepsInv(s: State, p: Handle, kids: seq<SendBy>, env: Env)
    requires Inv(s, {p}) && p in s.queries && EnvOk(env) && Attached(s, p)
    ensures var r := SubmitAll(s, p, kids, env);
            && Inv(r, {p}) && p in r.queries && Attached(r, p)
            && r.queries[p] == s.queries[p].(children := r.queries[p].children)
            && Follows(s, r, env.now)
            && |r.queries[p].children| == |s.queries[p].children| + |kids|
    decreases kids
  {
    if kids != [] {
      SubmitChildKeepsInv(s, p, kids[0], env);
      var s1 := SubmitChild(s, p, kids[0], env);
      SubmitAllStep(s, p, kids, env);
      hide SubmitChild, SubmitAll;
      SubmitAllKeepsInv(s1, p, kids[1..], env);
      FollowsTransitive(s, s1, SubmitAll(s1, p, kids[1..], env), env.now);
    }
  }

  // ---- Finishing ----

  lemma CancelKidsFollows(s: State, x: Handle, now: Timeval)
    requires Inv(s, {x}) && x in s.queries && Attached(s, x)
    ensures var r := CancelKids(s, x);
            && Inv(r, {x}) && x in r.queries && Attached(r, x) && Follows(s, r, now)
            && r.queries[x] == s.queries[x].(children := [])
  {
    CancelKidsKeepsInv(s, {x}, x);
    CancelKidsAtRoot(s, x);
    KidTreeFollows(s, x, now);
    hide Follows, CancelKids;
  }

  /** A parent with children goes back to childw. */
  lemma WaitAgain(s: State, p: Handle, now: Timeval)
    requires Inv(s, {p}) && p in s.queries && Attached(s, p)
    requires s.queries[p].phase == ChildWait && s.queries[p].id >= 0 && s.queries[p].children != []
    ensures Inv(LinkTail(s, p), {}) && Follows(s, LinkTail(s, p), now)
  {
    LinkTailKeepsInv(s, {p}, p);
    assert {p} - {p} == {};
  }

  /** x is finished with: a child is gone, a caller's query is on output. */
  ghost predicate Left(s: State, r: State, x: Handle)
    requires x in s.queries
  {
    if s.queries[x].parent.Some? then x !in r.queries
    else x in r.queries && r.queries[x].phase == Done
  }

  lemma LeftAtRoot(s: State, x: Handle, fault: MemFault)
    requires x in s.queries && s.queries[x].parent.None?
    ensures Left(s, ToOutput(s, x, fault), x)
  {
  }

  lemma LeftSame(s: State, s1: State, r: State, x: Handle)
    requires x in s.queries && x in s1.queries && s1.queries[x].parent == s.queries[x].parent
    ensures Left(s1, r, x) <==> Left(s, r, x)
  {
  }

  lemma LeftBelow(s: State, x: Handle, p: Handle, r: State, now: Timeval)
    requires x in s.queries && p in s.queries && x != p && s.queries[x].parent.Some? && x < s.next
    requires Follows(Detach(s, x, p), r, now)
    ensures Left(s, r, x)
  {
  }

  lemma ZapNotRefused(q: Query, fault: MemFault)
    ensures !Refused(Zap(q, StNoMemory), fault)
  {
  }

  /** adns__query_done, climbing from x towards its root. */
  ghost function QueryDone(s: State, x: Handle, env: Env): (r: State)
    requires Inv(s, {x}) && x in s.queries && Attached(s, x) && s.queries[x].phase != Done && EnvOk(env)
    ensures Inv(r, {}) && Follows(s, r, env.now)
    ensures Left(s, r, x)
    decreases x, if Refused(s.queries[x], env.fault(x)) then 1 else 0
  {
    hide *;
    CancelKidsFollows(s, x, env.now);
    var s1 := CancelKids(s, x);
    if Refused(s.queries[x], env.fault(x)) then
      ResetKeepsInv(s1, x, StNoMemory, env.now);
      ZapNotRefused(s1.queries[x], env.fault(x));
      var s2 := Reset(s1, x, StNoMemory);
      FollowsTransitive(s, s1, s2, env.now);
      var r := QueryDone(s2, x, env);
      FollowsTransitive(s, s2, r, env.now);
      LeftSame(s, s2, r, x);
      r
    else if s.queries[x].parent.None? then
      ToOutputKeepsInv(s1, x, env.fault(x), env.now);
      FollowsTransitive(s, s1, ToOutput(s1, x, env.fault(x)), env.now);
      LeftAtRoot(s1, x, env.fault(x));
      LeftSame(s, s1, ToOutput(s1, x, env.fault(x)), x);
      ToOutput(s1, x, env.fault(x))
    else
      var p := s.queries[x].parent.value;
      DetachKeepsInv(s1, x, p, env.now);
      var s2 := Detach(s1, x, p);
      FollowsTransitive(s, s1, s2, env.now);
      var r := Completed(s2, p, env.verdict(p, x), env);
      FollowsTransitive(s, s2, r, env.now);
      InvShape(s1, {x});
      BelowNext(s1, {x}, x);
      LeftBelow(s1, x, p, r, env.now);
      LeftSame(s, s1, r, x);
      r
  }

  /** What becomes of a parent once its callback has spoken. */
  ghost function Completed(s: State, p: Handle, v: Verdict, env: Env): (r: State)
    requires Inv(s, {p}) && p in s.queries && Attached(s, p) && EnvOk(env)
    requires s.queries[p].phase == ChildWait && s.queries[p].id >= 0
    ensures Inv(r, {}) && Follows(s, r, env.now)
    decreases p, 2
  {
    hide *;
    match v
    case Finish => QueryDone(s, p, env)
    case Abort(st) =>
      ResetKeepsInv(s, p, st, env.now);
      var s1 := Reset(s, p, st);
      var r := QueryDone(s1, p, env);
      FollowsTransitive(s, s1, r, env.now);
      r
    case Continue(kids) =>
      SubmitAllKeepsInv(s, p, kids, env);
      var s1 := SubmitAll(s, p, kids, env);
      if s1.queries[p].children == [] then
        var r := QueryDone(s1, p, env);
        FollowsTransitive(s, s1, r, env.now);
        r
      else
        WaitAgain(s1, p, env.now);
        FollowsTransitive(s, s1, LinkTail(s1, p), env.now);
        LinkTail(s1, p)
  }

  /** adns__query_fail */
  ghost function QueryFail(s: State, x: Handle, st: Status, env: Env): (r: State)
    requires Inv(s, {x}) && x in s.queries && Attached(s, x) && s.queries[x].phase != Done && EnvOk(env)
    ensures Inv(r, {}) && Follows(s, r, env.now)
    ensures Left(s, r, x)
  {
    hide *;
    ResetKeepsInv(s, x, st, env.now);
    var s1 := Reset(s, x, st);
    var r := QueryDone(s1, x, env);
    FollowsTransitive(s, s1, r, env.now);
    LeftSame(s, s1, r, x);
    r
  }

  /** adns__query_done, case by case, once the children are cancelled. */
  lemma DoneWhenRefused(s: State, x: Handle, env: Env)
    requires Inv(s, {x}) && x in s.queries && Attached(s, x) && s.queries[x].phase != Done && EnvOk(env)
    requires Refused(s.queries[x], env.fault(x))
    ensures var s1 := CancelKids(s, x);
            && Inv(s1, {x}) && x in s1.queries && s1.queries[x] == s.queries[x].(children := [])
            && var s2 := Reset(s1, x, StNoMemory);
            && Inv(s2, {x}) && x in s2.queries && Attached(s2, x) && s2.queries[x].phase != Done
            && !Refused(s2.queries[x], env.fault(x))
            && QueryDone(s, x, env) == QueryDone(s2, x, env)
  {
    hide Inv, Attached, CancelKids, Reset, Follows, Detach, ToOutput, Completed;
    CancelKidsFollows(s, x, env.now);
    var s1 := CancelKids(s, x);
    ResetKeepsInv(s1, x, StNoMemory, env.now);
    ZapNotRefused(s1.queries[x], env.fault(x));
  }

  lemma DoneAtRoot(s: State, x: Handle, env: Env)
    requires Inv(s, {x}) && x in s.queries && Attached(s, x) && s.queries[x].phase != Done && EnvOk(env)
    requires !Refused(s.queries[x], env.fault(x)) && s.queries[x].parent.None?
    ensures var s1 := CancelKids(s, x);
            && x in s1.queries && s1.queries[x] == s.queries[x].(children := [])
            && QueryDone(s, x, env) == ToOutput(s1, x, env.fault(x))
  {
    hide Inv, Attached, CancelKids, Reset, Follows, Detach, ToOutput, Completed;
    CancelKidsFollows(s, x, env.now);
  }

  lemma DoneBelowParent(s: State, x: Handle, env: Env)
    requires Inv(s, {x}) && x in s.queries && Attached(s, x) && s.queries[x].phase != Done && EnvOk(env)
    requires !Refused(s.queries[x], env.fault(x)) && s.queries[x].parent.Some?
    ensures var s1, p := CancelKids(s, x), s.queries[x].parent.value;
            && x in s1.queries && s1.queries[x] == s.queries[x].(children := [])
            && p in s1.queries && p < x
            && var s2 := Detach(s1, x, p);
            && Inv(s2, {p}) && p in s2.queries && Attached(s2, p)
            && s2.queries[p].phase == ChildWait && s2.queries[p].id >= 0
            && QueryDone(s, x, env) == Completed(s2, p, env.verdict(p, x), env)
  {
    hide Inv, Attached, CancelKids, Reset, Follows, Detach, ToOutput, Completed;
    CancelKidsFollows(s, x, env.now);
    DetachKeepsInv(CancelKids(s, x), x, s.queries[x].parent.value, env.now);
  }

  lemma CompletedUnfolds(s: State, p: Handle, v: Verdict, env: Env)
    requires Inv(s, {p}) && p in s.queries && Attached(s, p) && EnvOk(env)
    requires s.queries[p].phase == ChildWait && s.queries[p].id >= 0
    ensures v == Finish ==> Completed(s, p, v, env) == QueryDone(s, p, env)
    ensures v.Abort? ==>
              && Inv(Reset(s, p, v.st), {p}) && p in Reset(s, p, v.st).queries
              && Attached(Reset(s, p, v.st), p) && Reset(s, p, v.st).queries[p].phase != Done
              && Completed(s, p, v, env) == QueryDone(Reset(s, p, v.st), p, env)
    ensures v.Continue? ==>
              var s1 := SubmitAll(s, p, v.kids, env);
              && Inv(s1, {p}) && p in s1.queries && Attached(s1, p) && s1.queries[p].phase != Done
              && Completed(s, p, v, env) == if s1.queries[p].children == [] then QueryDone(s1, p, env) else LinkTail(s1, p)
  {
    hide Inv, Attached, Reset, SubmitAll, Follows, QueryDone;
    match v
    case Finish =>
    case Abort(st) => ResetKeepsInv(s, p, st, env.now);
    case Continue(kids) => SubmitAllKeepsInv(s, p, kids, env);
  }
}
