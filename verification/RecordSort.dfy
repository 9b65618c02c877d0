/** The insertion sort that puts the records of an answer in order. */
module RecordSort {

  /** x is moved down past everything at the end of s that should come after it. */
  function Insert<T>(s: seq<T>, x: T, needSwap: (T, T) -> bool): seq<T> {
    if s == [] then [x]
    else if needSwap(s[|s| - 1], x) then Insert(s[..|s| - 1], x, needSwap) + [s[|s| - 1]]
    else s + [x]
  }

  function Sorted<T>(s: seq<T>, needSwap: (T, T) -> bool): seq<T> {
    if s == [] then [] else Insert(Sorted(s[..|s| - 1], needSwap), s[|s| - 1], needSwap)
  }

  // ---- A permutation ----

  lemma {:induction false} InsertPermutes<T>(s: seq<T>, x: T, needSwap: (T, T) -> bool)
    ensures multiset(Insert(s, x, needSwap)) == multiset(s) + multiset{x}
  {
    if s != [] {
      var n := |s| - 1;
      assert s == s[..n] + [s[n]];
      if needSwap(s[n], x) { InsertPermutes(s[..n], x, needSwap); }
    }
  }

  /** Every record is still there, as often as before. */
  lemma {:induction false} SortedPermutes<T>(s: seq<T>, needSwap: (T, T) -> bool)
    ensures multiset(Sorted(s, needSwap)) == multiset(s)
  {
    if s != [] {
      var n := |s| - 1;
      assert s == s[..n] + [s[n]];
      SortedPermutes(s[..n], needSwap);
      InsertPermutes(Sorted(s[..n], needSwap), s[n], needSwap);
    }
  }

  // ---- In order ----

  /** Should-come-after is a strict order, with ties. */
  ghost predicate StrictWeak<T(!new)>(needSwap: (T, T) -> bool) {
    && (forall x, y :: needSwap(x, y) ==> !needSwap(y, x))
    && (forall x, y, z :: !needSwap(x, y) && !needSwap(y, z) ==> !needSwap(x, z))
  }

  ghost predicate Ordered<T>(s: seq<T>, needSwap: (T, T) -> bool) {
    forall i, j :: 0 <= i < j < |s| ==> !needSwap(s[i], s[j])
  }

  lemma {:induction false} InsertOrdered<T(!new)>(s: seq<T>, x: T, needSwap: (T, T) -> bool)
    requires StrictWeak(needSwap) && Ordered(s, needSwap)
    ensures Ordered(Insert(s, x, needSwap), needSwap)
  {
    if s != [] {
      var n := |s| - 1;
      if needSwap(s[n], x) {
        var r := Insert(s[..n], x, needSwap);
        InsertOrdered(s[..n], x, needSwap);
        InsertPermutes(s[..n], x, needSwap);
        forall i | 0 <= i < |r| ensures !needSwap(r[i], s[n]) {
          assert r[i] in multiset(r);
          assert r[i] in multiset(s[..n]) + multiset{x};
          if r[i] != x { assert r[i] in s[..n]; }
        }
      } else {
        forall i | 0 <= i < n ensures !needSwap(s[i], x) { assert !needSwap(s[i], s[n]); }
      }
    }
  }

  /** No record is before one it should come after. */
  lemma {:induction false} SortedOrdered<T(!new)>(s: seq<T>, needSwap: (T, T) -> bool)
    requires StrictWeak(needSwap)
    ensures Ordered(Sorted(s, needSwap), needSwap)
  {
    if s != [] {
      SortedOrdered(s[..|s| - 1], needSwap);
      InsertOrdered(Sorted(s[..|s| - 1], needSwap), s[|s| - 1], needSwap);
    }
  }

  // ---- Stability ----

  function Those<T>(s: seq<T>, p: T -> bool): seq<T> {
    if s == [] then [] else Those(s[..|s| - 1], p) + if p(s[|s| - 1]) then [s[|s| - 1]] else []
  }

  ghost predicate Alike<T(!new)>(p: T -> bool, needSwap: (T, T) -> bool) {
    forall x, y :: p(x) && p(y) ==> !needSwap(x, y)
  }

  lemma ThoseLast<T>(s: seq<T>, x: T, p: T -> bool)
    ensures Those(s + [x], p) == Those(s, p) + if p(x) then [x] else []
  {
    assert (s + [x])[..|s|] == s;
  }

  lemma {:induction false} InsertStable<T(!new)>(s: seq<T>, x: T, needSwap: (T, T) -> bool, p: T -> bool)
    requires Alike(p, needSwap)
    ensures Those(Insert(s, x, needSwap), p) == Those(s + [x], p)
  {
    ThoseLast(s, x, p);
    if s == [] {
      assert s + [x] == [x];
    } else {
      var n := |s| - 1;
      if needSwap(s[n], x) {
        assert s == s[..n] + [s[n]];
        InsertStable(s[..n], x, needSwap, p);
        ThoseLast(s[..n], x, p);
        ThoseLast(s[..n], s[n], p);
        ThoseLast(Insert(s[..n], x, needSwap), s[n], p);
        assert !(p(s[n]) && p(x));
      }
    }
  }

  /** Records none of which should come after another keep their order. */
  lemma {:induction false} SortedStable<T(!new)>(s: seq<T>, needSwap: (T, T) -> bool, p: T -> bool)
    requires Alike(p, needSwap)
    ensures Those(Sorted(s, needSwap), p) == Those(s, p)
  {
    if s != [] {
      var n := |s| - 1;
      SortedStable(s[..n], needSwap, p);
      InsertStable(Sorted(s[..n], needSwap), s[n], needSwap, p);
      ThoseLast(Sorted(s[..n], needSwap), s[n], p);
    }
  }

  // ---- In place ----

  lemma {:induction false} InsertAt<T>(s: seq<T>, x: T, needSwap: (T, T) -> bool, place: nat)
    requires place <= |s| && (forall k :: place <= k < |s| ==> needSwap(s[k], x))
    requires place > 0 ==> !needSwap(s[place - 1], x)
    ensures Insert(s, x, needSwap) == s[..place] + [x] + s[place..]
  {
    if place < |s| {
      var n := |s| - 1;
      InsertAt(s[..n], x, needSwap, place);
      assert s[..n][..place] == s[..place] && s[place..] == s[..n][place..] + [s[n]];
    } else {
      assert s[..place] == s && s[place..] == [];
    }
  }

  /** The memmove: a[place..i] goes one up. */
  method MoveUp<T>(a: array<T>, place: nat, i: nat)
    requires place < i < a.Length
    modifies a
    ensures a[..] == old(a[..place + 1] + a[place..i] + a[i + 1..])
  {
    forall k | place < k <= i { a[k] := a[k - 1]; }
  }

  /** One turn of the loop: record i is put in its place among those before it. */
  method InsertIn<T>(a: array<T>, i: nat, needSwap: (T, T) -> bool)
    requires i < a.Length
    modifies a
    ensures a[..i + 1] == Insert(old(a[..i]), old(a[i]), needSwap) && a[i + 1..] == old(a[i + 1..])
  {
    hide Insert;
    ghost var front := a[..i];
    var x := a[i];
    var place: nat := i;
    while place > 0 && needSwap(a[place - 1], a[i])
      invariant place <= i && forall k :: place <= k < i ==> needSwap(a[k], x)
    {
      place := place - 1;
    }
    InsertAt(front, x, needSwap, place);
    if place != i {
      MoveUp(a, place, i);
      a[place] := x;
    }
    assert a[..i + 1] == front[..place] + [x] + front[place..];
  }

  /** adns__isort */
  method Isort<T>(a: array<T>, needSwap: (T, T) -> bool)
    modifies a
    ensures a[..] == Sorted(old(a[..]), needSwap)
  {
    hide Insert;
    ghost var was := a[..];
    assert was[..0] == [];
    for i := 0 to a.Length
      invariant a[..i] == Sorted(was[..i], needSwap) && a[i..] == was[i..]
    {
      assert a[i] == a[i..][0] && a[i + 1..] == a[i..][1..];
      InsertIn(a, i, needSwap);
      assert was[..i + 1][..i] == was[..i];
    }
    assert a[..a.Length] == a[..] && was[..a.Length] == was;
  }
}
