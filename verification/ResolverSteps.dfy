/**
 Taking queries off the resolver: a query off its queue, a subtree off the
 table, and the two ways a query is put back.
 */
module ResolverSteps {
  import opened Common
  import opened ResolverState

  // ---- Removing queries ----

  function Without(s: State, D: set<Handle>): State {
    s.(queries := map h | h in s.queries && h !in D ::
                    s.queries[h].(children := Remove(s.queries[h].children, D)),
       udpw := Remove(s.udpw, D), tcpw := Remove(s.tcpw, D),
       childw := Remove(s.childw, D), output := Remove(s.output, D))
  }

  ghost function Tree(s: State, x: Handle): set<Handle> {
    set h | h in s.queries && Under(s, h, x)
  }

  ghost function KidTree(s: State, x: Handle): set<Handle> {
    Tree(s, x) - {x}
  }

  lemma RemoveQueue(s: State, busy: set<Handle>, D: set<Handle>, q: seq<Handle>, ph: Phase)
    requires QueueIs(s, busy, q, ph)
    ensures QueueIs(Without(s, D), busy, Remove(q, D), ph)
  {
    RemoveNoDup(q, D);
  }

  /** D holds everything below its members, and only busy queries lose children. */
  ghost predicate Removable(s: State, busy: set<Handle>, D: set<Handle>) {
    forall h :: h in s.queries && s.queries[h].parent.Some? ==>
      && (s.queries[h].parent.value in D ==> h in D)
      && (h in D && s.queries[h].parent.value !in D ==> s.queries[h].parent.value in busy)
  }

  lemma WithoutKeepsQuery(s: State, busy: set<Handle>, D: set<Handle>, x: Handle)
    requires QueriesOk(s, busy) && Removable(s, busy, D)
    requires x in s.queries && x !in D
    ensures KidsOk(Without(s, D), x)
    ensures x !in busy ==> PhaseOk(s.cfg, Without(s, D).queries[x]) && Attached(Without(s, D), x)
  {
    RemoveNoDup(s.queries[x].children, D);
    if x !in busy {
      forall c | c in s.queries[x].children ensures c !in D {
        assert s.queries[c].parent == Some(x);
      }
      RemoveNothing(s.queries[x].children, D);
    }
  }

  lemma WithoutKeepsQueues(s: State, busy: set<Handle>, D: set<Handle>)
    requires QueuesOk(s, busy)
    ensures QueuesOk(Without(s, D), busy)
  {
    RemoveQueue(s, busy, D, s.udpw, ToSend);
    RemoveQueue(s, busy, D, s.tcpw, TcpWait);
    RemoveQueue(s, busy, D, s.childw, ChildWait);
    RemoveQueue(s, busy, D, s.output, Done);
  }

  lemma WithoutKeepsQueries(s: State, busy: set<Handle>, D: set<Handle>)
    requires QueriesOk(s, busy) && Removable(s, busy, D)
    ensures QueriesOk(Without(s, D), busy)
  {
    var r := Without(s, D);
    forall x | x in r.queries
      ensures KidsOk(r, x)
      ensures x !in busy ==> PhaseOk(r.cfg, r.queries[x]) && Attached(r, x)
    {
      WithoutKeepsQuery(s, busy, D, x);
    }
  }

  lemma WithoutKeepsRetries(s: State, busy: set<Handle>, D: set<Handle>)
    requires RetriesOk(s)
    ensures RetriesOk(Without(s, D))
  {
  }

  lemma WithoutKeepsInv(s: State, busy: set<Handle>, D: set<Handle>)
    requires Inv(s, busy) && Removable(s, busy, D)
    ensures Inv(Without(s, D), busy)
  {
    WithoutKeepsQueues(s, busy, D);
    WithoutKeepsQueries(s, busy, D);
    WithoutKeepsRetries(s, busy, D);
  }

  lemma UnderIsAbove(s: State, h: Handle, x: Handle)
    requires Under(s, h, x)
    ensures x <= h
    decreases h
  {
    if h != x { UnderIsAbove(s, s.queries[h].parent.value, x); }
  }

  /** Cancelling everything below x. */
  ghost function CancelKids(s: State, x: Handle): (r: State)
  {
    Without(s, KidTree(s, x))
  }

  lemma KidTreeRemovable(s: State, busy: set<Handle>, x: Handle)
    requires QueriesOk(s, busy) && x in s.queries && x in busy
    ensures Removable(s, busy, KidTree(s, x))
  {
    forall h | h in s.queries && s.queries[h].parent.Some?
      ensures s.queries[h].parent.value in KidTree(s, x) ==> h in KidTree(s, x)
      ensures h in KidTree(s, x) && s.queries[h].parent.value !in KidTree(s, x) ==> s.queries[h].parent.value in busy
    {
      var p := s.queries[h].parent.value;
      assert Under(s, h, x) <==> h == x || Under(s, p, x);
      if p in KidTree(s, x) { UnderIsAbove(s, p, x); }
    }
  }

  /** x loses exactly its children, and stays where it hangs. */
  lemma CancelKidsAtRoot(s: State, x: Handle)
    requires x in s.queries && KidsOk(s, x)
    requires forall h :: h in s.queries && s.queries[h].parent.Some? ==> s.queries[h].parent.value < h
    ensures x in CancelKids(s, x).queries
    ensures CancelKids(s, x).queries[x] == s.queries[x].(children := [])
    ensures Attached(s, x) ==> Attached(CancelKids(s, x), x)
  {
    var D := KidTree(s, x);
    var kids := Remove(s.queries[x].children, D);
    if kids != [] {
      assert kids[0] in kids;
      assert Under(s, kids[0], x) by { assert Under(s, x, x); }
    }
    var p := s.queries[x].parent;
    if Attached(s, x) && p.Some? && p.value in D { UnderIsAbove(s, p.value, x); }
  }

  lemma CancelKidsKeepsInv(s: State, busy: set<Handle>, x: Handle)
    requires Inv(s, busy) && x in s.queries && x in busy
    ensures Inv(CancelKids(s, x), busy)
  {
    KidTreeRemovable(s, busy, x);
    WithoutKeepsInv(s, busy, KidTree(s, x));
  }

  lemma WithoutTwiceTable(s: State, A: set<Handle>, B: set<Handle>)
    ensures Without(Without(s, A), B).queries == Without(s, A + B).queries
  {
    var r, t := Without(Without(s, A), B).queries, Without(s, A + B).queries;
    assert r.Keys == t.Keys;
    forall h | h in t ensures r[h] == t[h] {
      RemoveTwice(s.queries[h].children, A, B);
    }
  }

  /** Two removals in a row are one. */
  lemma WithoutTwice(s: State, A: set<Handle>, B: set<Handle>)
    ensures Without(Without(s, A), B) == Without(s, A + B)
  {
    WithoutTwiceTable(s, A, B);
    RemoveTwice(s.udpw, A, B);
    RemoveTwice(s.tcpw, A, B);
    RemoveTwice(s.childw, A, B);
    RemoveTwice(s.output, A, B);
  }

  // ---- On and off the queues ----

  /** LIST_UNLINK of x from the queue of its phase. */
  function Unlink(s: State, x: Handle): State
    requires x in s.queries
  {
    match s.queries[x].phase {
      case ToSend => s.(udpw := Remove(s.udpw, {x}))
      case TcpWait => s.(tcpw := Remove(s.tcpw, {x}))
      case ChildWait => s.(childw := Remove(s.childw, {x}))
      case Done => s.(output := Remove(s.output, {x}))
    }
  }

  /** LIST_LINK_TAIL of x to the queue of its phase. */
  function LinkTail(s: State, x: Handle): State
    requires x in s.queries
  {
    match s.queries[x].phase {
      case ToSend => s.(udpw := s.udpw + [x])
      case TcpWait => s.(tcpw := s.tcpw + [x])
      case ChildWait => s.(childw := s.childw + [x])
      case Done => s.(output := s.output + [x])
    }
  }

  lemma UnlinkKeepsQueues(s: State, busy: set<Handle>, x: Handle)
    requires QueuesOk(s, busy) && x in s.queries && x !in busy
    ensures QueuesOk(Unlink(s, x), busy + {x})
  {
    RemoveNoDup(QueueOf(s, s.queries[x].phase), {x});
  }

  /** QueriesOk depends on the table alone. */
  lemma SameTableKeepsQueries(s: State, r: State, busy: set<Handle>, more: set<Handle>)
    requires QueriesOk(s, busy)
    requires r.queries == s.queries && r.cfg == s.cfg && r.next >= s.next
    requires forall x :: x in s.queries && x in busy && x !in more ==> PhaseOk(s.cfg, s.queries[x]) && Attached(s, x)
    ensures QueriesOk(r, more)
  {
    forall x | x in r.queries
      ensures x < r.next && RangesOk(r.cfg, r.queries[x]) && KidsOk(r, x)
      ensures x !in more ==> PhaseOk(r.cfg, r.queries[x]) && Attached(r, x)
    {
      assert KidsOk(s, x);
      assert x !in busy ==> Attached(s, x);
    }
  }

  lemma UnlinkKeepsInv(s: State, busy: set<Handle>, x: Handle)
    requires Inv(s, busy) && x in s.queries && x !in busy
    ensures Inv(Unlink(s, x), busy + {x}) && Attached(Unlink(s, x), x)
  {
    var r := Unlink(s, x);
    UnlinkKeepsQueues(s, busy, x);
    assert QueriesOk(r, busy + {x}) by { SameTableKeepsQueries(s, r, busy, busy + {x}); }
  }

  /** A busy query in good order may go back on its queue. */
  lemma LinkTailKeepsShape(s: State, busy: set<Handle>, x: Handle)
    requires QueuesOk(s, busy) && QueriesOk(s, busy)
    requires x in s.queries && x in busy && PhaseOk(s.cfg, s.queries[x]) && Attached(s, x)
    ensures QueuesOk(LinkTail(s, x), busy - {x}) && QueriesOk(LinkTail(s, x), busy - {x})
  {
    SameTableKeepsQueries(s, LinkTail(s, x), busy, busy - {x});
  }

  lemma LinkTailKeepsInv(s: State, busy: set<Handle>, x: Handle)
    requires Inv(s, busy) && x in s.queries && x in busy
    requires s.queries[x].phase != TcpWait && PhaseOk(s.cfg, s.queries[x]) && Attached(s, x)
    ensures Inv(LinkTail(s, x), busy - {x})
  {
    LinkTailKeepsShape(s, busy, x);
  }

  lemma SetBusyKeepsQuery(s: State, busy: set<Handle>, x: Handle, q: Query, y: Handle)
    requires QueriesOk(s, busy) && x in s.queries && x in busy && y in s.queries
    requires RangesOk(s.cfg, q) && q.phase != Done
    requires q.parent == s.queries[x].parent && q.children == s.queries[x].children
    ensures var r := s.(queries := s.queries[x := q]);
            && RangesOk(r.cfg, r.queries[y]) && KidsOk(r, y)
            && (y !in busy ==> PhaseOk(r.cfg, r.queries[y]) && Attached(r, y))
  {
    assert KidsOk(s, y);
    assert y !in busy ==> Attached(s, y);
  }

  lemma SetBusyKeepsQueries(s: State, busy: set<Handle>, x: Handle, q: Query)
    requires QueriesOk(s, busy) && x in s.queries && x in busy
    requires RangesOk(s.cfg, q) && q.phase != Done
    requires q.parent == s.queries[x].parent && q.children == s.queries[x].children
    ensures QueriesOk(s.(queries := s.queries[x := q]), busy)
  {
    var r := s.(queries := s.queries[x := q]);
    forall y | y in r.queries
      ensures RangesOk(r.cfg, r.queries[y]) && KidsOk(r, y)
      ensures y !in busy ==> PhaseOk(r.cfg, r.queries[y]) && Attached(r, y)
    {
      SetBusyKeepsQuery(s, busy, x, q, y);
    }
  }

  /** A busy query's record may change as long as its family does not. */
  lemma SetBusyKeepsInv(s: State, busy: set<Handle>, x: Handle, q: Query)
    requires Inv(s, busy) && x in s.queries && x in busy
    requires RangesOk(s.cfg, q) && q.phase != Done
    requires q.parent == s.queries[x].parent && q.children == s.queries[x].children
    ensures Inv(s.(queries := s.queries[x := q]), busy)
    ensures Attached(s, x) ==> Attached(s.(queries := s.queries[x := q]), x)
  {
    SetBusyKeepsQueries(s, busy, x, q);
  }
}
