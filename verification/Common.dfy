/** Small shared vocabulary: options, bytes, and lists without repetition. */
module Common {

  datatype Option<+T> = None | Some(value: T)

  type byte = b: int | 0 <= b < 256

  ghost predicate NoDup<T>(q: seq<T>) {
    forall i, j :: 0 <= i < j < |q| ==> q[i] != q[j]
  }

  /** q without the members of D, in order. */
  function Remove<T(==,!new)>(q: seq<T>, D: set<T>): (r: seq<T>)
    ensures forall x :: x in r <==> x in q && x !in D
    ensures |r| <= |q|
  {
    if q == [] then []
    else if q[0] in D then Remove(q[1..], D)
    else
      assert q == [q[0]] + q[1..];
      [q[0]] + Remove(q[1..], D)
  }

  lemma {:induction false} RemoveNoDup<T(!new)>(q: seq<T>, D: set<T>)
    requires NoDup(q)
    ensures NoDup(Remove(q, D))
  {
    if q != [] {
      RemoveNoDup(q[1..], D);
      assert q[0] !in q[1..];
    }
  }

  lemma {:induction false} RemoveNothing<T(!new)>(q: seq<T>, D: set<T>)
    requires forall x :: x in q ==> x !in D
    ensures Remove(q, D) == q
  {
    if q != [] {
      forall x | x in q[1..] ensures x !in D { assert x in q; }
      RemoveNothing(q[1..], D);
    }
  }

  lemma {:induction false} RemoveTwice<T(!new)>(q: seq<T>, A: set<T>, B: set<T>)
    ensures Remove(Remove(q, A), B) == Remove(q, A + B)
  {
    if q != [] { RemoveTwice(q[1..], A, B); }
  }

  lemma {:induction false} RemoveAppend<T(!new)>(p: seq<T>, q: seq<T>, D: set<T>)
    ensures Remove(p + q, D) == Remove(p, D) + Remove(q, D)
  {
    if p == [] {
      assert p + q == q;
    } else {
      assert (p + q)[1..] == p[1..] + q;
      RemoveAppend(p[1..], q, D);
    }
  }
}
