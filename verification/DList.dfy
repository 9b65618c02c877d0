/**
 The intrusive doubly linked lists of adns-1.0/src/dlist.h, which hold the
 resolver's queues: the pointer surgery refines operations on a sequence.
 */
module DList {
  import opened Common

  class Node {
    var next: Node?
    var back: Node?
    constructor () ensures next == null && back == null { next, back := null, null; }
  }

  class List {
    var head: Node?
    var tail: Node?
    ghost var Contents: seq<Node>

    /** DLIST_CHECK: the links run along Contents both ways. */
    ghost predicate Valid()
      reads this, Contents
    {
      && NoDup(Contents)
      && (if Contents == [] then head == null && tail == null
          else head == Contents[0] && tail == Contents[|Contents| - 1])
      && (forall i {:trigger Contents[i].next} :: 0 <= i < |Contents| ==>
            Contents[i].next == if i == |Contents| - 1 then null else Contents[i + 1])
      && (forall i {:trigger Contents[i].back} :: 0 <= i < |Contents| ==>
            Contents[i].back == if i == 0 then null else Contents[i - 1])
    }

    constructor ()
      ensures Valid() && Contents == []
    {
      head, tail := null, null;
      Contents := [];
    }

    /** LIST_LINK_TAIL */
    method LinkTail(node: Node)
      requires Valid() && node !in Contents
      modifies this, Contents, node
      ensures Valid() && Contents == old(Contents) + [node]
    {
      node.next := null;
      node.back := tail;
      if tail != null { tail.next := node; } else { head := node; }
      tail := node;
      Contents := Contents + [node];
    }

    /** LIST_UNLINK: the node's own links are left as they were. */
    method Unlink(node: Node) returns (ghost k: nat)
      requires Valid() && node in Contents
      modifies this, Contents
      ensures k < |old(Contents)| && old(Contents)[k] == node
      ensures Contents == old(Contents)[..k] + old(Contents)[k+1..] && node !in Contents
      ensures Valid()
      ensures node.next == old(node.next) && node.back == old(node.back)
    {
      k :| 0 <= k < |Contents| && Contents[k] == node;
      if node.back != null { node.back.next := node.next; } else { head := node.next; }
      if node.next != null { node.next.back := node.back; } else { tail := node.back; }
      Contents := Contents[..k] + Contents[k+1..];
    }
  }

  /** What taking out the k'th entry is on a list of distinct values: the removal
      the resolver's queues are modelled with. */
  lemma {:induction false} UnlinkIsRemove<T(!new)>(q: seq<T>, k: nat)
    requires NoDup(q) && k < |q|
    ensures q[..k] + q[k+1..] == Remove(q, {q[k]})
  {
    var rest := q[1..];
    if k == 0 {
      RemoveNothing(rest, {q[0]});
      assert q[..0] + q[1..] == rest;
    } else {
      assert q[k] == rest[k - 1] && q[0] != q[k];
      UnlinkIsRemove(rest, k - 1);
      assert q[..k] + q[k+1..] == [q[0]] + (rest[..k-1] + rest[k..]);
    }
  }
}
