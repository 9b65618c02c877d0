/**
 What finishing a query takes with it: the callbacks may finish ancestors too,
 and everything below a finished query is cancelled.
 */
module ResolverLoss {
  import opened Common
  import opened Timeval
  import opened ResolverState
  import opened ResolverEnv
  import opened ResolverSteps
  import opened ResolverFlow
  import opened ResolverDone

  /** The end of x is the end of its parent p: the callback finishes p or fails it,
      or asks for no more when x was its only child. */
  ghost predicate EndsParent(s: State, x: Handle, p: Handle, env: Env)
    requires p in s.queries
  {
    match env.verdict(p, x)
    case Finish => true
    case Abort(_) => true
    case Continue(kids) => kids == [] && s.queries[p].children == [x]
  }

  /** The highest query that ends when x ends. */
  ghost function Top(s: State, x: Handle, env: Env): Handle
    decreases x
  {
    if x in s.queries && s.queries[x].parent.Some? && s.queries[x].parent.value < x
       && s.queries[x].parent.value in s.queries && EndsParent(s, x, s.queries[x].parent.value, env)
    then Top(s, s.queries[x].parent.value, env)
    else x
  }

  /** h is gone from the table once x has ended: it is below the highest query that
      ends, or is that query and somebody's child. */
  ghost predicate Lost(s: State, x: Handle, env: Env, h: Handle) {
    && h in s.queries
    && Under(s, h, Top(s, x, env))
    && (h == Top(s, x, env) ==> s.queries[h].parent.Some?)
  }

  lemma {:induction false} TopIsAbove(s: State, x: Handle, env: Env)
    ensures Under(s, x, Top(s, x, env)) && Top(s, x, env) <= x
    ensures x in s.queries ==> Top(s, x, env) in s.queries
    decreases x
  {
    if Top(s, x, env) != x {
      TopIsAbove(s, s.queries[x].parent.value, env);
    }
  }

  /** h's record in t is that of s as far as h's place in the forest goes. */
  ghost predicate Kept(s: State, t: State, y: Handle, h: Handle) {
    && h in s.queries && h in t.queries
    && t.queries[h].parent == s.queries[h].parent
    && t.queries[h].phase == s.queries[h].phase
    && (h < y ==> t.queries[h].children == s.queries[h].children)
    && (t.queries[h].parent.Some? ==> t.queries[h].parent.value in t.queries)
  }

  /** t is s without the queries of D, all of them after y; what is before y is untouched. */
  ghost predicate Cut(s: State, t: State, D: set<Handle>, y: Handle) {
    && t.queries.Keys == s.queries.Keys - D
    && (forall h :: h in D ==> y < h)
    && forall h {:trigger Kept(s, t, y, h)} :: h in t.queries ==> Kept(s, t, y, h)
  }

  lemma {:induction false} CutUnder(s: State, t: State, D: set<Handle>, y: Handle, h: Handle, a: Handle)
    requires Cut(s, t, D, y) && h in t.queries
    ensures Under(t, h, a) <==> Under(s, h, a)
    decreases h
  {
    assert Kept(s, t, y, h);
    if h != a && t.queries[h].parent.Some? && t.queries[h].parent.value < h {
      CutUnder(s, t, D, y, t.queries[h].parent.value, a);
    }
  }

  lemma {:induction false} CutTop(s: State, t: State, D: set<Handle>, y: Handle, x: Handle, env: Env)
    requires Cut(s, t, D, y) && x in s.queries && x <= y
    ensures Top(t, x, env) == Top(s, x, env)
    decreases x
  {
    assert Kept(s, t, y, x);
    var p := s.queries[x].parent;
    if p.Some? && p.value < x && p.value in s.queries {
      assert Kept(s, t, y, p.value);
      CutTop(s, t, D, y, p.value, env);
    }
  }

  lemma CutLost(s: State, t: State, D: set<Handle>, y: Handle, env: Env, h: Handle)
    requires Cut(s, t, D, y) && y in s.queries && h in t.queries
    ensures Lost(t, y, env, h) <==> Lost(s, y, env, h)
  {
    assert Kept(s, t, y, h);
    CutTop(s, t, D, y, y, env);
    CutUnder(s, t, D, y, h, Top(s, y, env));
  }

  /** What is below x is lost with it. */
  lemma BelowIsLost(s: State, x: Handle, env: Env, h: Handle)
    requires h in s.queries && Under(s, h, x) && (h == x ==> s.queries[x].parent.Some?)
    ensures Lost(s, x, env, h)
  {
    TopIsAbove(s, x, env);
    UnderIsAbove(s, h, x);
    UnderTransitive(s, h, x, Top(s, x, env));
  }

  /** r, in which x has ended, is right about h. A query waiting for TCP goes on
      waiting if it stays, and a new query is a child of the parent at which the
      climb stopped. */
  ghost predicate Fate(s: State, r: State, x: Handle, env: Env, h: Handle) {
    if h in s.queries then
      && (h !in r.queries <==> Lost(s, x, env, h))
      && (h in r.queries && h != x && s.queries[h].phase == TcpWait ==> r.queries[h].phase == TcpWait)
    else
      h in r.queries ==>
        && Top(s, x, env) in s.queries && s.queries[Top(s, x, env)].parent.Some?
        && r.queries[h].parent == s.queries[Top(s, x, env)].parent
  }

  lemma FateAcross(s: State, t: State, r: State, x: Handle, D: set<Handle>, env: Env, h: Handle)
    requires Cut(s, t, D, x) && x in s.queries
    requires forall d :: d in D && d in s.queries ==> Under(s, d, x) && d != x
    requires if h in s.queries && h !in t.queries then h !in r.queries else Fate(t, r, x, env, h)
    ensures Fate(s, r, x, env, h)
  {
    if h in t.queries {
      assert Kept(s, t, x, h);
      CutLost(s, t, D, x, env, h);
    } else if h in s.queries {
      BelowIsLost(s, x, env, h);
    } else {
      CutTop(s, t, D, x, x, env);
      TopIsAbove(s, x, env);
      assert Kept(s, t, x, Top(s, x, env));
    }
  }

  // ---- The cuts a query's end makes ----

  lemma BeforeIsOutside(s: State, x: Handle, h: Handle)
    requires h < x
    ensures h !in Tree(s, x)
  {
    if h in Tree(s, x) { UnderIsAbove(s, h, x); }
  }

  /** Where x's tree is cut off, the rest still hangs together. */
  lemma OutsideHangsOn(s: State, x: Handle, h: Handle)
    requires QueriesOk(s, {x}) && x in s.queries && Attached(s, x)
    requires h in s.queries && s.queries[h].parent.Some?
    requires h != x ==> h !in Tree(s, x)
    ensures s.queries[h].parent.value in s.queries && s.queries[h].parent.value !in Tree(s, x)
  {
    var p := s.queries[h].parent.value;
    assert Attached(s, h);
    if h == x {
      BeforeIsOutside(s, x, p);
    } else if p in Tree(s, x) {
      assert Under(s, h, x);
    }
  }

  /** A query outside x's tree keeps its children when the tree goes. */
  lemma OutsideKeepsChildren(s: State, x: Handle, h: Handle)
    requires QueriesOk(s, {x}) && x in s.queries && h in s.queries && h !in Tree(s, x)
    ensures Remove(s.queries[h].children, KidTree(s, x)) == s.queries[h].children
  {
    assert KidsOk(s, h);
    forall c | c in s.queries[h].children ensures c !in KidTree(s, x) {
      assert Under(s, c, x) ==> c == x || Under(s, h, x);
    }
    RemoveNothing(s.queries[h].children, KidTree(s, x));
  }

  /** t has the table of CancelKids(s, x) but for x's own record. */
  ghost predicate KidsCancelled(s: State, t: State, x: Handle)
    requires x in s.queries
  {
    && t.queries.Keys == CancelKids(s, x).queries.Keys
    && x in t.queries && t.queries[x].parent == s.queries[x].parent && t.queries[x].phase == s.queries[x].phase
    && forall h :: h in t.queries && h != x ==> t.queries[h] == CancelKids(s, x).queries[h]
  }

  lemma CancelKeeps(s: State, t: State, x: Handle, h: Handle)
    requires QueriesOk(s, {x}) && x in s.queries && Attached(s, x) && KidsCancelled(s, t, x)
    requires h in t.queries
    ensures Kept(s, t, x, h)
  {
    hide QueriesOk, Attached, Tree, Under;
    assert h in s.queries && h !in KidTree(s, x);
    if h < x { BeforeIsOutside(s, x, h); OutsideKeepsChildren(s, x, h); }
    if s.queries[h].parent.Some? { OutsideHangsOn(s, x, h); }
  }

  lemma CancelCuts(s: State, t: State, x: Handle)
    requires QueriesOk(s, {x}) && x in s.queries && Attached(s, x) && KidsCancelled(s, t, x)
    ensures Cut(s, t, KidTree(s, x), x)
  {
    hide QueriesOk, Attached, Under, Kept;
    forall h | h in KidTree(s, x) ensures x < h {
      UnderIsAbove(s, h, x);
    }
    forall h | h in t.queries ensures Kept(s, t, x, h) {
      CancelKeeps(s, t, x, h);
    }
  }

  /** t has the table of CancelKids(s, x) but for x, gone, and the record of p. */
  ghost predicate TreeGone(s: State, t: State, x: Handle, p: Handle)
    requires p in s.queries
  {
    && t.queries.Keys == s.queries.Keys - Tree(s, x)
    && p in t.queries && t.queries[p].parent == s.queries[p].parent && t.queries[p].phase == s.queries[p].phase
    && forall h :: h in t.queries && h != p ==> h in CancelKids(s, x).queries && t.queries[h] == CancelKids(s, x).queries[h]
  }

  lemma CancelledTable(s: State, x: Handle)
    ensures CancelKids(s, x).queries.Keys == s.queries.Keys - KidTree(s, x)
    ensures forall h :: h in CancelKids(s, x).queries ==>
              && CancelKids(s, x).queries[h].parent == s.queries[h].parent
              && CancelKids(s, x).queries[h].phase == s.queries[h].phase
  {
    hide KidTree;
  }

  lemma DetachedTable(s: State, x: Handle, p: Handle)
    requires x in s.queries && p in s.queries && p != x
    ensures var t := Detach(s, x, p);
            && t.queries.Keys == s.queries.Keys - {x}
            && t.queries[p] == s.queries[p].(children := t.queries[p].children)
            && forall h :: h in t.queries && h != p ==> t.queries[h] == s.queries[h]
  {
  }

  lemma DetachedTree(s: State, x: Handle, p: Handle)
    requires x in s.queries && p in s.queries && p < x
    requires p in CancelKids(s, x).queries && x in CancelKids(s, x).queries
    ensures TreeGone(s, Detach(CancelKids(s, x), x, p), x, p)
  {
    assert Under(s, x, x);
    BeforeIsOutside(s, x, p);
    assert Tree(s, x) == KidTree(s, x) + {x};
    CancelledTable(s, x);
    DetachedTable(CancelKids(s, x), x, p);
    hide Under, Tree, KidTree, CancelKids, Detach;
  }

  lemma DetachKeeps(s: State, t: State, x: Handle, p: Handle, h: Handle)
    requires QueriesOk(s, {x}) && x in s.queries && Attached(s, x) && p in s.queries && p < x
    requires TreeGone(s, t, x, p) && h in t.queries
    ensures Kept(s, t, p, h)
  {
    hide QueriesOk, Attached, Tree, Under;
    OutsideKeepsChildren(s, x, h);
    if s.queries[h].parent.Some? { OutsideHangsOn(s, x, h); }
  }

  /** A finished child cut off with all that was below it. */
  lemma DetachCuts(s: State, x: Handle, p: Handle)
    requires QueriesOk(s, {x}) && x in s.queries && Attached(s, x) && p in s.queries && p < x
    requires p in CancelKids(s, x).queries && x in CancelKids(s, x).queries
    ensures Cut(s, Detach(CancelKids(s, x), x, p), Tree(s, x), p)
  {
    var t := Detach(CancelKids(s, x), x, p);
    DetachedTree(s, x, p);
    hide QueriesOk, Attached, Under, Kept, Detach, CancelKids;
    forall h | h in Tree(s, x) ensures p < h {
      UnderIsAbove(s, h, x);
    }
    forall h | h in t.queries ensures Kept(s, t, p, h) {
      DetachKeeps(s, t, x, p, h);
    }
  }

  lemma FateAfterCancel(s: State, t: State, r: State, x: Handle, env: Env, h: Handle)
    requires QueriesOk(s, {x}) && x in s.queries && Attached(s, x) && KidsCancelled(s, t, x)
    requires if h in s.queries && h !in t.queries then h !in r.queries else Fate(t, r, x, env, h)
    ensures Fate(s, r, x, env, h)
  {
    CancelCuts(s, t, x);
    hide QueriesOk, Attached, KidsCancelled, Cut, Fate;
    FateAcross(s, t, r, x, KidTree(s, x), env, h);
  }

  lemma GoneStaysGone(s: State, t: State, r: State, h: Handle, now: Timeval)
    requires Follows(s, t, now) && Follows(t, r, now) && h in s.queries && h !in t.queries
    ensures h !in r.queries
  {
  }

  lemma ParentsFirst(s: State, x: Handle)
    requires x in s.queries && QueriesOk(s, {x})
    ensures KidsOk(s, x)
    ensures forall h :: h in s.queries && s.queries[h].parent.Some? ==> s.queries[h].parent.value < h
  {
  }

  lemma CancelsKids(s: State, x: Handle)
    requires x in s.queries && QueriesOk(s, {x})
    ensures KidsCancelled(s, CancelKids(s, x), x)
    ensures forall st :: KidsCancelled(s, Reset(s, x, st), x)
  {
    hide QueriesOk, CancelKids, Attached, KidsOk;
    ParentsFirst(s, x);
    CancelKidsAtRoot(s, x);
  }

  lemma FateAfterReset(s: State, x: Handle, st: Status, r: State, env: Env, h: Handle)
    requires Inv(s, {x}) && x in s.queries && Attached(s, x) && s.queries[x].phase != Done
    requires Follows(Reset(s, x, st), r, env.now)
    requires h in Reset(s, x, st).queries || h !in s.queries ==> Fate(Reset(s, x, st), r, x, env, h)
    ensures Fate(s, r, x, env, h)
  {
    var t := Reset(s, x, st);
    InvShape(s, {x});
    ResetKeepsInv(s, x, st, env.now);
    hide Inv, QueriesOk, Attached, Reset, KidsCancelled, Fate, Follows;
    CancelsKids(s, x);
    if h in s.queries && h !in t.queries { GoneStaysGone(s, t, r, h, env.now); }
    FateAfterCancel(s, t, r, x, env, h);
  }

  lemma FateAfterKids(s: State, x: Handle, r: State, env: Env, h: Handle)
    requires Inv(s, {x}) && x in s.queries && Attached(s, x) && s.queries[x].phase != Done
    requires Follows(CancelKids(s, x), r, env.now)
    requires h in CancelKids(s, x).queries || h !in s.queries ==> Fate(CancelKids(s, x), r, x, env, h)
    ensures Fate(s, r, x, env, h)
  {
    var t := CancelKids(s, x);
    InvShape(s, {x});
    CancelKidsFollows(s, x, env.now);
    hide Inv, QueriesOk, Attached, CancelKids, KidsCancelled, Fate, Follows;
    CancelsKids(s, x);
    if h in s.queries && h !in t.queries { GoneStaysGone(s, t, r, h, env.now); }
    FateAfterCancel(s, t, r, x, env, h);
  }

  lemma FateAtRoot(s: State, x: Handle, env: Env, h: Handle)
    requires QueriesOk(s, {x}) && x in s.queries && s.queries[x].parent.None?
    requires x in CancelKids(s, x).queries
    ensures Fate(s, ToOutput(CancelKids(s, x), x, env.fault(x)), x, env, h)
  {
    CancelledTable(s, x);
    hide CancelKids, QueriesOk, Finalised;
    assert Top(s, x, env) == x;
  }

  /** The parent ends too, and r is right about what that takes with it. */
  lemma FateWithParent(s: State, t: State, r: State, x: Handle, p: Handle, env: Env, h: Handle)
    requires Cut(s, t, Tree(s, x), p) && x in s.queries && s.queries[x].parent == Some(p)
    requires p in s.queries && p < x && s.queries[p].phase == ChildWait && EndsParent(s, x, p, env)
    requires if h in s.queries && h !in t.queries then h !in r.queries else Fate(t, r, p, env, h)
    ensures Fate(s, r, x, env, h)
  {
    assert Top(s, x, env) == Top(s, p, env);
    if h in t.queries {
      assert Kept(s, t, p, h);
      CutLost(s, t, Tree(s, x), p, env, h);
    } else if h in s.queries {
      BelowIsLost(s, x, env, h);
    } else {
      CutTop(s, t, Tree(s, x), p, p, env);
      TopIsAbove(s, p, env);
      assert Kept(s, t, p, Top(s, p, env));
    }
  }

  /** r is t with nothing gone and perhaps new children of p. */
  ghost predicate OnlyNewborns(t: State, r: State, p: Handle, h: Handle) {
    if h in t.queries then h in r.queries && (h != p ==> r.queries[h].phase == t.queries[h].phase)
    else h in r.queries ==> r.queries[h].parent == Some(p)
  }

  /** The parent goes on, and nothing but x's tree is lost. */
  lemma FateWithoutParent(s: State, t: State, r: State, x: Handle, p: Handle, env: Env, h: Handle)
    requires Cut(s, t, Tree(s, x), p) && x in s.queries && s.queries[x].parent == Some(p)
    requires p in s.queries && p < x && s.queries[p].phase == ChildWait && !EndsParent(s, x, p, env)
    requires if h in t.queries || h !in s.queries then OnlyNewborns(t, r, p, h) else h !in r.queries
    ensures Fate(s, r, x, env, h)
  {
    assert Top(s, x, env) == x;
    if h in t.queries { assert Kept(s, t, p, h); }
  }

  lemma OnlyChild(kids: seq<Handle>, x: Handle)
    requires NoDup(kids) && x in kids
    ensures Remove(kids, {x}) == [] <==> kids == [x]
  {
    if Remove(kids, {x}) == [] {
      assert forall y :: y in kids && y != x ==> y in Remove(kids, {x});
      assert kids[0] in kids && kids[|kids| - 1] in kids;
    }
  }

  /** Whether the parent has a child left when x is gone can be told before. */
  lemma ChildrenLeft(s: State, x: Handle, p: Handle)
    requires QueriesOk(s, {x}) && x in s.queries && Attached(s, x)
    requires s.queries[x].parent == Some(p) && p in s.queries && p < x
    requires x in CancelKids(s, x).queries && p in CancelKids(s, x).queries
    ensures Detach(CancelKids(s, x), x, p).queries[p].children == [] <==> s.queries[p].children == [x]
  {
    assert KidsOk(s, p) && x in s.queries[p].children;
    hide QueriesOk, Attached;
    BeforeIsOutside(s, x, p);
    OutsideKeepsChildren(s, x, p);
    OnlyChild(s.queries[p].children, x);
    hide KidTree, Tree, NoDup;
  }

  // ---- New children take nothing away ----

  lemma AdoptNewborns(s: State, s1: State, q: Query, p: Handle, h: Handle, now: Timeval)
    requires p in s.queries && p < s.next && (h in s.queries ==> h < s.next)
    requires SendsOnly(AddQuery(s, q), s1, s.next, now)
    ensures OnlyNewborns(s, Adopt(s1, p, s.next), p, h)
  {
  }

  lemma SubmitChildNewborns(s: State, p: Handle, how: SendBy, env: Env, h: Handle)
    requires Inv(s, {p}) && p in s.queries && EnvOk(env)
    ensures OnlyNewborns(s, SubmitChild(s, p, how, env), p, h)
  {
    SubmitFreshKeepsInv(s, p, how, env);
    assert p < s.next && (h in s.queries ==> h < s.next);
    hide SubmitFresh, Inv, Adopt, SendsOnly, OnlyNewborns;
    AdoptNewborns(s, SubmitFresh(s, how, env), VirginQuery(s.next, false, false), p, h, env.now);
  }

  lemma {:induction false} SubmitAllNewborns(s: State, p: Handle, kids: seq<SendBy>, env: Env, h: Handle)
    requires Inv(s, {p}) && p in s.queries && Attached(s, p) && EnvOk(env)
    ensures OnlyNewborns(s, SubmitAll(s, p, kids, env), p, h)
    decreases kids
  {
    if kids != [] {
      SubmitChildKeepsInv(s, p, kids[0], env);
      SubmitChildNewborns(s, p, kids[0], env, h);
      SubmitAllStep(s, p, kids, env);
      var s1 := SubmitChild(s, p, kids[0], env);
      SubmitAllKeepsInv(s1, p, kids[1..], env);
      hide SubmitChild, SubmitAll, Inv, Attached;
      SubmitAllNewborns(s1, p, kids[1..], env, h);
    }
  }

  // ---- The end of a query, all the way up ----

  /** x's tree detached from p: what the parent's callback then does settles the rest. */
  lemma FateAfterDetach(s: State, x: Handle, p: Handle, r: State, env: Env, h: Handle)
    requires Inv(s, {x}) && x in s.queries && Attached(s, x) && s.queries[x].parent == Some(p)
    requires p in s.queries && p < x && s.queries[p].phase == ChildWait
    requires x in CancelKids(s, x).queries && p in CancelKids(s, x).queries
    requires var t := Detach(CancelKids(s, x), x, p);
             && Follows(s, t, env.now) && Follows(t, r, env.now)
             && (h in t.queries || h !in s.queries ==>
                   if EndsParent(s, x, p, env) then Fate(t, r, p, env, h) else OnlyNewborns(t, r, p, h))
    ensures Fate(s, r, x, env, h)
  {
    var t := Detach(CancelKids(s, x), x, p);
    InvShape(s, {x});
    DetachCuts(s, x, p);
    hide Inv, QueriesOk, Attached, CancelKids, Detach, Fate, Follows, Cut, EndsParent;
    if h in s.queries && h !in t.queries { GoneStaysGone(s, t, r, h, env.now); }
    if EndsParent(s, x, p, env) {
      FateWithParent(s, t, r, x, p, env, h);
    } else {
      FateWithoutParent(s, t, r, x, p, env, h);
    }
  }

  ghost predicate GoesOn(s: State, p: Handle, v: Verdict)
    requires p in s.queries
  {
    v.Continue? && (v.kids != [] || s.queries[p].children != [])
  }

  /** Whether the parent ends, told from what is left of it. */
  lemma EndsParentFrom(s: State, t: State, x: Handle, p: Handle, env: Env)
    requires p in s.queries && p in t.queries
    requires t.queries[p].children == [] <==> s.queries[p].children == [x]
    ensures EndsParent(s, x, p, env) <==> !GoesOn(t, p, env.verdict(p, x))
  {
  }

  /** Exactly what is lost is gone once x has ended. */
  lemma {:induction false} DoneFate(s: State, x: Handle, env: Env, h: Handle)
    requires Inv(s, {x}) && x in s.queries && Attached(s, x) && s.queries[x].phase != Done && EnvOk(env)
    ensures Fate(s, QueryDone(s, x, env), x, env, h)
    decreases x, if Refused(s.queries[x], env.fault(x)) then 1 else 0
  {
    InvShape(s, {x});
    CancelKidsFollows(s, x, env.now);
    hide Inv, QueriesOk, Attached, CancelKids, Reset, Detach, ToOutput, Completed, QueryDone, Fate, Follows, EndsParent;
    var s1, r := CancelKids(s, x), QueryDone(s, x, env);
    if Refused(s.queries[x], env.fault(x)) {
      DoneWhenRefused(s, x, env);
      var s2 := Reset(s1, x, StNoMemory);
      ResetKeepsInv(s1, x, StNoMemory, env.now);
      FollowsTransitive(s1, s2, r, env.now);
      if h in s2.queries || h !in s1.queries { DoneFate(s2, x, env, h); }
      FateAfterReset(s1, x, StNoMemory, r, env, h);
      FateAfterKids(s, x, r, env, h);
    } else if s.queries[x].parent.None? {
      DoneAtRoot(s, x, env);
      FateAtRoot(s, x, env, h);
    } else {
      DoneBelowParent(s, x, env);
      var p := s.queries[x].parent.value;
      ParentWaits(s, x, p);
      ChildrenLeft(s, x, p);
      DetachKeepsInv(s1, x, p, env.now);
      var t := Detach(s1, x, p);
      FollowsTransitive(s, s1, t, env.now);
      CompletedFate(t, p, env.verdict(p, x), env, h);
      EndsParentFrom(s, t, x, p, env);
      FateAfterDetach(s, x, p, r, env, h);
    }
  }

  lemma NoneSubmitted(s: State, p: Handle, env: Env)
    ensures SubmitAll(s, p, [], env) == s
  {
  }

  lemma {:induction false} CompletedFate(s: State, p: Handle, v: Verdict, env: Env, h: Handle)
    requires Inv(s, {p}) && p in s.queries && Attached(s, p) && EnvOk(env)
    requires s.queries[p].phase == ChildWait && s.queries[p].id >= 0
    ensures var r := Completed(s, p, v, env);
            if GoesOn(s, p, v) then OnlyNewborns(s, r, p, h) else Fate(s, r, p, env, h)
    decreases p, 2
  {
    CompletedUnfolds(s, p, v, env);
    hide Inv, QueriesOk, Attached, Reset, SubmitAll, Completed, QueryDone, Fate, Follows;
    match v
    case Finish => DoneFate(s, p, env, h);
    case Abort(st) =>
      var s1 := Reset(s, p, st);
      if h in s1.queries || h !in s.queries { DoneFate(s1, p, env, h); }
      FateAfterReset(s, p, st, QueryDone(s1, p, env), env, h);
    case Continue(kids) =>
      SubmitAllKeepsInv(s, p, kids, env);
      SubmitAllNewborns(s, p, kids, env, h);
      if !GoesOn(s, p, v) {
        NoneSubmitted(s, p, env);
        DoneFate(s, p, env, h);
      }
  }
}
