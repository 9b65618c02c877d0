/**
 Cancelling a query one node at a time removes exactly its tree.
 */
module ResolverCancel {
  import opened Common
  import opened ResolverState
  import opened ResolverSteps

  /** The trees of the first n children. */
  ghost function TreesOf(s: State, kids: seq<Handle>, n: nat): set<Handle>
    requires n <= |kids|
  {
    if n == 0 then {} else TreesOf(s, kids, n - 1) + Tree(s, kids[n - 1])
  }

  lemma {:induction false} UnderStays(s: State, U: set<Handle>, h: Handle, k: Handle)
    requires h in s.queries && Under(s, h, k) && Tree(s, k) !! U
    requires forall x :: x in s.queries && s.queries[x].parent.Some? && Under(s, s.queries[x].parent.value, k) ==> s.queries[x].parent.value in s.queries
    ensures Under(Without(s, U), h, k)
    decreases h
  {
    assert h in Tree(s, k);
    if h != k { UnderStays(s, U, s.queries[h].parent.value, k); }
  }

  lemma {:induction false} UnderWas(s: State, U: set<Handle>, h: Handle, k: Handle)
    requires Under(Without(s, U), h, k)
    ensures Under(s, h, k)
    decreases h
  {
    if h != k { UnderWas(s, U, s.queries[h].parent.value, k); }
  }

  /** Removing other trees leaves k's tree as it was. */
  lemma TreeStays(s: State, busy: set<Handle>, U: set<Handle>, k: Handle)
    requires QueriesOk(s, busy) && k in s.queries && Tree(s, k) !! U
    ensures Tree(Without(s, U), k) == Tree(s, k)
  {
    forall x | x in s.queries && s.queries[x].parent.Some? && Under(s, s.queries[x].parent.value, k)
      ensures s.queries[x].parent.value in s.queries
    {
      if s.queries[x].parent.value != k { }
    }
    forall h | h in s.queries && Under(s, h, k) ensures h in Without(s, U).queries && Under(Without(s, U), h, k) {
      assert h in Tree(s, k);
      UnderStays(s, U, h, k);
    }
    forall h | h in Without(s, U).queries && Under(Without(s, U), h, k) ensures Under(s, h, k) {
      UnderWas(s, U, h, k);
    }
  }

  /** No query is under two siblings. */
  lemma {:induction false} UnderOneSibling(s: State, h: Handle, a: Handle, b: Handle, x: Handle)
    requires a in s.queries && b in s.queries
    requires s.queries[a].parent == Some(x) && s.queries[b].parent == Some(x) && x < a && x < b
    requires Under(s, h, a) && Under(s, h, b)
    ensures a == b
    decreases h
  {
    if h == a && h != b { UnderIsAbove(s, x, b); }
    else if h == b && h != a { UnderIsAbove(s, x, a); }
    else if h != a && h != b { UnderOneSibling(s, s.queries[h].parent.value, a, b, x); }
  }

  lemma {:induction false} InSomeTree(s: State, kids: seq<Handle>, n: nat, h: Handle) returns (i: nat)
    requires n <= |kids| && h in TreesOf(s, kids, n)
    ensures i < n && h in Tree(s, kids[i])
  {
    if h in Tree(s, kids[n - 1]) { i := n - 1; } else { i := InSomeTree(s, kids, n - 1, h); }
  }

  lemma {:induction false} TreeInTrees(s: State, kids: seq<Handle>, n: nat, i: nat)
    requires i < n <= |kids|
    ensures Tree(s, kids[i]) <= TreesOf(s, kids, n)
  {
    if i < n - 1 { TreeInTrees(s, kids, n - 1, i); }
  }

  /** The next child's tree is untouched by the ones before. */
  lemma NextTreeApart(s: State, busy: set<Handle>, x: Handle, n: nat)
    requires QueriesOk(s, busy) && x in s.queries && n < |s.queries[x].children|
    ensures Tree(s, s.queries[x].children[n]) !! TreesOf(s, s.queries[x].children, n)
  {
    var kids := s.queries[x].children;
    assert KidsOk(s, x);
    forall h | h in TreesOf(s, kids, n) ensures h !in Tree(s, kids[n]) {
      var i := InSomeTree(s, kids, n, h);
      assert kids[i] in kids && kids[n] in kids && kids[i] != kids[n];
      if h in Tree(s, kids[n]) { UnderOneSibling(s, h, kids[i], kids[n], x); }
    }
  }

  /** What is below x is below one of its children. */
  lemma {:induction false} BelowAChild(s: State, busy: set<Handle>, x: Handle, h: Handle) returns (i: nat)
    requires QueriesOk(s, busy) && x in s.queries && h in KidTree(s, x)
    requires forall y :: y in busy ==> y <= x
    ensures i < |s.queries[x].children| && h in Tree(s, s.queries[x].children[i])
    decreases h
  {
    var p := s.queries[h].parent.value;
    UnderIsAbove(s, h, x);
    assert h !in busy && Attached(s, h);
    if p == x {
      i :| 0 <= i < |s.queries[x].children| && s.queries[x].children[i] == h;
      assert Under(s, h, h);
    } else {
      i := BelowAChild(s, busy, x, p);
      assert Under(s, h, s.queries[x].children[i]);
    }
  }

  /** All the children's trees together are everything below x. */
  lemma AllTrees(s: State, busy: set<Handle>, x: Handle)
    requires QueriesOk(s, busy) && x in s.queries
    requires forall y :: y in busy ==> y <= x
    ensures TreesOf(s, s.queries[x].children, |s.queries[x].children|) == KidTree(s, x)
  {
    var kids := s.queries[x].children;
    assert KidsOk(s, x);
    forall h | h in KidTree(s, x) ensures h in TreesOf(s, kids, |kids|) {
      var i := BelowAChild(s, busy, x, h);
      TreeInTrees(s, kids, |kids|, i);
    }
    forall h | h in TreesOf(s, kids, |kids|) ensures h in KidTree(s, x) {
      var i := InSomeTree(s, kids, |kids|, h);
      assert kids[i] in kids;
      assert Under(s, x, x) && Under(s, kids[i], x);
      UnderTransitive(s, h, kids[i], x);
      UnderIsAbove(s, h, kids[i]);
    }
  }

  /** The trees of some children can be removed. */
  lemma TreesRemovable(s: State, busy: set<Handle>, x: Handle, n: nat)
    requires QueriesOk(s, busy) && x in s.queries && x in busy && n <= |s.queries[x].children|
    ensures Removable(s, busy, TreesOf(s, s.queries[x].children, n))
    ensures x !in TreesOf(s, s.queries[x].children, n)
  {
    var kids := s.queries[x].children;
    assert KidsOk(s, x);
    var U := TreesOf(s, kids, n);
    if x in U {
      var i := InSomeTree(s, kids, n, x);
      assert kids[i] in kids;
      UnderIsAbove(s, x, kids[i]);
    }
    forall h | h in s.queries && s.queries[h].parent.Some?
      ensures s.queries[h].parent.value in U ==> h in U
      ensures h in U && s.queries[h].parent.value !in U ==> s.queries[h].parent.value in busy
    {
      var p := s.queries[h].parent.value;
      if p in U {
        var i := InSomeTree(s, kids, n, p);
        assert Under(s, h, kids[i]);
        TreeInTrees(s, kids, n, i);
      }
      if h in U {
        var i := InSomeTree(s, kids, n, h);
        TreeInTrees(s, kids, n, i);
        assert kids[i] in kids;
        if h != kids[i] {
          assert Under(s, p, kids[i]);
          assert p in Tree(s, kids[i]);
        }
      }
    }
  }

  /** LIST_UNLINK_PART of x from its parent's children. */
  function LeftParent(s: State, x: Handle): (r: State)
    requires x in s.queries
    ensures r == s.(queries := r.queries) && r.queries.Keys == s.queries.Keys
    ensures forall y :: y in s.queries ==>
              r.queries[y] == if s.queries[x].parent == Some(y)
                              then s.queries[y].(children := Remove(s.queries[y].children, {x})) else s.queries[y]
  {
    var p := s.queries[x].parent;
    if p.Some? && p.value in s.queries
    then s.(queries := s.queries[p.value := s.queries[p.value].(children := Remove(s.queries[p.value].children, {x}))])
    else s
  }

  /** The state once x is off its parent's list and off its queue. */
  function Loosened(s: State, x: Handle): (r: State)
    requires x in s.queries
    ensures r.queries == LeftParent(s, x).queries
  {
    Unlink(LeftParent(s, x), x)
  }

  /** Forgetting x itself. */
  function Freed(s: State, x: Handle): State {
    s.(queries := map h | h in s.queries && h != x :: s.queries[h])
  }

  lemma LoosenedKeepsQuery(s: State, busy: set<Handle>, x: Handle, y: Handle)
    requires QueriesOk(s, busy) && x in s.queries && x !in busy && y in s.queries
    requires s.queries[x].parent.Some? ==> s.queries[x].parent.value in busy
    ensures var r := Loosened(s, x);
            && RangesOk(r.cfg, r.queries[y]) && KidsOk(r, y)
            && (y !in busy + {x} ==> PhaseOk(r.cfg, r.queries[y]) && Attached(r, y))
  {
    assert KidsOk(s, y);
    assert y !in busy ==> Attached(s, y);
    var p := s.queries[x].parent;
    if p.Some? && p.value in s.queries { RemoveNoDup(s.queries[p.value].children, {x}); }
  }

  lemma LoosenedKeepsQueues(s: State, busy: set<Handle>, x: Handle)
    requires QueuesOk(s, busy) && x in s.queries && x !in busy
    ensures QueuesOk(Loosened(s, x), busy + {x})
  {
    var r := LeftParent(s, x);
    assert forall y :: y in s.queries ==> r.queries[y].phase == s.queries[y].phase;
    hide LeftParent;
    assert QueuesOk(r, busy);
    UnlinkKeepsQueues(r, busy, x);
    hide QueuesOk, Unlink;
  }

  lemma LoosenedKeepsQueries(s: State, busy: set<Handle>, x: Handle)
    requires QueriesOk(s, busy) && x in s.queries && x !in busy
    requires s.queries[x].parent.Some? ==> s.queries[x].parent.value in busy
    ensures QueriesOk(Loosened(s, x), busy + {x})
    ensures x in Loosened(s, x).queries && Loosened(s, x).queries[x] == s.queries[x]
  {
    forall y | y in s.queries
      ensures var r := Loosened(s, x);
              && RangesOk(r.cfg, r.queries[y]) && KidsOk(r, y)
              && (y !in busy + {x} ==> PhaseOk(r.cfg, r.queries[y]) && Attached(r, y))
    {
      LoosenedKeepsQuery(s, busy, x, y);
    }
  }

  lemma LoosenedKeepsRetries(s: State, x: Handle)
    requires RetriesOk(s) && x in s.queries
    ensures RetriesOk(Loosened(s, x)) && Loosened(s, x).net == s.net && Loosened(s, x).cfg == s.cfg && Loosened(s, x).next == s.next
  {
    var r := Loosened(s, x);
    assert forall y :: y in r.tcpw ==> y in s.tcpw;
    forall y | y in r.tcpw
      ensures y in r.queries && RetryOk(r.cfg, r.net, r.queries[y].retries, r.queries[y].joined, false)
    {
      assert RetryOk(s.cfg, s.net, s.queries[y].retries, s.queries[y].joined, false);
    }
  }

  /** Unlinking x from its parent and its queue keeps the invariant, x being processed. */
  lemma LoosenedKeepsInv(s: State, busy: set<Handle>, x: Handle)
    requires Inv(s, busy) && x in s.queries && x !in busy
    requires s.queries[x].parent.Some? ==> s.queries[x].parent.value in busy
    ensures Inv(Loosened(s, x), busy + {x})
    ensures x in Loosened(s, x).queries && Loosened(s, x).queries[x] == s.queries[x] && Loosened(s, x).next == s.next
  {
    LoosenedKeepsQueues(s, busy, x);
    LoosenedKeepsQueries(s, busy, x);
    LoosenedKeepsRetries(s, x);
    hide QueuesOk, QueriesOk, RetriesOk;
  }

  /** Only processed queries lose a child when x's tree goes. */
  lemma CancelTreeKeepsInv(s: State, busy: set<Handle>, x: Handle)
    requires Inv(s, busy) && x in s.queries && x !in busy
    requires s.queries[x].parent.Some? ==> s.queries[x].parent.value in busy
    ensures Inv(Without(s, Tree(s, x)), busy)
  {
    forall h | h in s.queries && s.queries[h].parent.Some?
      ensures s.queries[h].parent.value in Tree(s, x) ==> h in Tree(s, x)
      ensures h in Tree(s, x) && s.queries[h].parent.value !in Tree(s, x) ==> s.queries[h].parent.value in busy
    {
      var p := s.queries[h].parent.value;
      assert p < h by { assert QueriesOk(s, busy); }
      assert Under(s, h, x) <==> h == x || Under(s, p, x);
      if h in Tree(s, x) && h != x && h !in busy { assert Attached(s, h); }
      if h in Tree(s, x) && h != x && h in busy { UnderIsAbove(s, h, x); }
    }
    WithoutKeepsInv(s, busy, Tree(s, x));
  }

  lemma {:induction false} SameTreesUnder(s: State, r: State, h: Handle, x: Handle)
    requires r.queries.Keys == s.queries.Keys
    requires forall y :: y in s.queries ==> r.queries[y].parent == s.queries[y].parent
    ensures Under(r, h, x) <==> Under(s, h, x)
    decreases h
  {
    if h != x && h in s.queries && s.queries[h].parent.Some? && s.queries[h].parent.value < h {
      SameTreesUnder(s, r, s.queries[h].parent.value, x);
    }
  }

  lemma LoosenedSameTree(s: State, x: Handle)
    requires x in s.queries
    ensures Tree(Loosened(s, x), x) == Tree(s, x)
  {
    forall h ensures Under(Loosened(s, x), h, x) <==> Under(s, h, x) {
      SameTreesUnder(s, Loosened(s, x), h, x);
    }
  }

  /** Only its parent lists x. */
  lemma CancelledChildren(s: State, x: Handle, D: set<Handle>, h: Handle)
    requires x in s.queries && h in s.queries && KidsOk(s, h)
    ensures Remove(Loosened(s, x).queries[h].children, D) == Remove(s.queries[h].children, D + {x})
  {
    hide LeftParent, Unlink, Loosened;
    var kids := s.queries[h].children;
    RemoveTwice(kids, {x}, D);
    assert {x} + D == D + {x};
    if s.queries[x].parent != Some(h) {
      RemoveNothing(kids, {x});
    }
  }

  lemma CancelledRecord(s: State, x: Handle, D: set<Handle>, h: Handle)
    requires x in s.queries && h in s.queries && KidsOk(s, h)
    ensures var q := Loosened(s, x).queries[h];
            q.(children := Remove(q.children, D)) == s.queries[h].(children := Remove(s.queries[h].children, D + {x}))
  {
    CancelledChildren(s, x, D, h);
    hide KidsOk, Unlink;
  }

  /** The table Without leaves, key by key. */
  lemma WithoutTable(s: State, D: set<Handle>)
    ensures Without(s, D).queries.Keys == s.queries.Keys - D
    ensures forall h :: h in s.queries && h !in D ==>
              Without(s, D).queries[h] == s.queries[h].(children := Remove(s.queries[h].children, D))
  {
    hide Remove;
  }

  lemma FreedTable(s: State, x: Handle)
    ensures Freed(s, x).queries.Keys == s.queries.Keys - {x}
    ensures forall h :: h in s.queries && h != x ==> Freed(s, x).queries[h] == s.queries[h]
  {
  }

  lemma LoosenedKeys(s: State, x: Handle)
    requires x in s.queries
    ensures Loosened(s, x).queries.Keys == s.queries.Keys
  {
    hide Unlink;
  }

  lemma CancelledTable(s: State, x: Handle, D: set<Handle>)
    requires x in s.queries && forall h :: h in s.queries ==> KidsOk(s, h)
    ensures Freed(Without(Loosened(s, x), D), x).queries == Without(s, D + {x}).queries
  {
    hide *;
    var l := Loosened(s, x);
    var r, t := Freed(Without(l, D), x).queries, Without(s, D + {x}).queries;
    WithoutTable(l, D);
    FreedTable(Without(l, D), x);
    WithoutTable(s, D + {x});
    LoosenedKeys(s, x);
    assert r.Keys == t.Keys;
    forall h | h in t ensures r[h] == t[h] {
      CancelledRecord(s, x, D, h);
    }
  }

  lemma CancelledQueue(q: seq<Handle>, x: Handle, D: set<Handle>)
    ensures Remove(Remove(q, {x}), D) == Remove(q, D + {x})
    ensures x !in q ==> Remove(q, D) == Remove(q, D + {x})
  {
    RemoveTwice(q, {x}, D);
    assert {x} + D == D + {x};
    if x !in q { RemoveNothing(q, {x}); }
  }

  /** Unlinking x, cancelling what is below it and freeing it removes its tree. */
  lemma CancelComposes(s: State, busy: set<Handle>, x: Handle)
    requires QueuesOk(s, busy) && QueriesOk(s, busy) && x in s.queries && x !in busy
    ensures Freed(CancelKids(Loosened(s, x), x), x) == Without(s, Tree(s, x))
  {
    LoosenedSameTree(s, x);
    CancelledTable(s, x, KidTree(s, x));
    assert Under(s, x, x);
    assert KidTree(s, x) + {x} == Tree(s, x);
    CancelledQueue(s.udpw, x, KidTree(s, x));
    CancelledQueue(s.tcpw, x, KidTree(s, x));
    CancelledQueue(s.childw, x, KidTree(s, x));
    CancelledQueue(s.output, x, KidTree(s, x));
    hide Tree, KidTree, QueriesOk;
  }

  lemma WithoutNothing(s: State)
    ensures Without(s, {}) == s
  {
    RemoveNothing(s.udpw, {});
    RemoveNothing(s.tcpw, {});
    RemoveNothing(s.childw, {});
    RemoveNothing(s.output, {});
    var t := Without(s, {}).queries;
    assert t.Keys == s.queries.Keys;
    forall h | h in t ensures t[h] == s.queries[h] { RemoveNothing(s.queries[h].children, {}); }
    assert t == s.queries;
  }

  /** With the trees of the first n children gone, the next child is in order and
      its tree is what it was. */
  lemma ChildOnItsOwn(s: State, busy: set<Handle>, x: Handle, n: nat)
    requires Inv(s, busy) && x in s.queries && x in busy
    requires n < |s.queries[x].children|
    requires forall y :: y in busy ==> y <= x
    ensures var r, c := Without(s, TreesOf(s, s.queries[x].children, n)), s.queries[x].children[n];
            && Inv(r, busy) && r.next == s.next
            && c in r.queries && c !in busy && r.queries[c].parent == Some(x)
            && x < c < r.next && Tree(r, c) == Tree(s, c)
            && forall y :: y in busy ==> y <= c
  {
    var kids := s.queries[x].children;
    var U := TreesOf(s, kids, n);
    assert KidsOk(s, x) && kids[n] in kids;
    TreesRemovable(s, busy, x, n);
    WithoutKeepsInv(s, busy, U);
    NextTreeApart(s, busy, x, n);
    TreeStays(s, busy, U, kids[n]);
    assert Under(s, kids[n], kids[n]);
    assert kids[n] in Tree(s, kids[n]);
  }
}
