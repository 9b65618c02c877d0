/**
 The hosts of a network page, merged into groups that are drawn as one, and the
 links between them. A group is a chain of hosts through merge; all of them name
 its first host, the primary, in merge_primary. A link keeps its two real ends
 and is drawn between the primaries of their groups.

 This module has the objects and, as a value, the graph they form.
 */
module MergeGraph {

  class PageObject {
    var merge: PageObject?
    var merge_primary: PageObject?
    var links: seq<PageLink>

    constructor ()
      ensures merge == null && merge_primary == null && links == []
    {
      merge, merge_primary, links := null, null, [];
    }
  }

  class PageLink {
    const po1: PageObject
    const po2: PageObject
    var merge1: PageObject?
    var merge2: PageObject?

    constructor (a: PageObject, b: PageObject)
      ensures po1 == a && po2 == b && merge1 == null && merge2 == null
    {
      po1, po2, merge1, merge2 := a, b, null, null;
    }
  }

  /** The fields of all hosts and links, and for each primary, and each host on
      its own, its chain, with every host's place in its chain. */
  datatype Graph = Graph(
    next: map<PageObject, PageObject?>,
    prim: map<PageObject, PageObject?>,
    filed: map<PageObject, seq<PageLink>>,
    drawn1: map<PageLink, PageObject?>,
    drawn2: map<PageLink, PageObject?>,
    chains: map<PageObject, seq<PageObject>>,
    place: map<PageObject, nat>)

  /** The host a host is drawn as. */
  ghost function Rep(g: Graph, h: PageObject): PageObject
    requires h in g.prim
  {
    var p: PageObject? := g.prim[h];
    if p == null then h else p
  }

  // ---- Groups ----

  ghost predicate InPlace(g: Graph, r: PageObject, i: nat) {
    && r in g.chains && i < |g.chains[r]|
    && var c := g.chains[r];
    && c[i] in g.prim && c[i] in g.next && c[i] in g.place
    && Rep(g, c[i]) == r && g.place[c[i]] == i
    && g.next[c[i]] == if i + 1 < |c| then c[i + 1] else null
  }

  ghost predicate Placed(g: Graph, h: PageObject)
    requires h in g.prim
  {
    && Rep(g, h) in g.chains && h in g.place && h in g.next && h in g.filed
    && g.place[h] < |g.chains[Rep(g, h)]| && g.chains[Rep(g, h)][g.place[h]] == h
  }

  ghost predicate Headed(g: Graph, r: PageObject)
    requires r in g.chains
  {
    r in g.prim && |g.chains[r]| > 0 && g.chains[r][0] == r && (g.prim[r] == null <==> |g.chains[r]| == 1)
  }

  /** The groups are disjoint chains that cover all hosts. */
  ghost predicate GroupsOk(g: Graph) {
    && (forall h :: h in g.prim ==> Placed(g, h))
    && (forall r :: r in g.chains ==> Headed(g, r))
    && (forall r, i :: r in g.chains && 0 <= i < |g.chains[r]| ==> InPlace(g, r, i))
  }

  // ---- Links ----

  /** How many ends of l the host h stands for. */
  ghost function Ends(g: Graph, l: PageLink, h: PageObject): nat
    requires l.po1 in g.prim && l.po2 in g.prim
  {
    (if Rep(g, l.po1) == h then 1 else 0) + (if Rep(g, l.po2) == h then 1 else 0)
  }

  ghost predicate Joins(g: Graph, l: PageLink) {
    l.po1 in g.prim && l.po2 in g.prim && l.po1 != l.po2
  }

  /** Every link is filed once with a host for each end the host stands for. */
  ghost predicate FiledOk(g: Graph) {
    && (forall l :: l in g.drawn1 ==> Joins(g, l))
    && (forall h, l :: h in g.filed && l in g.filed[h] ==> l in g.drawn1)
    && (forall h, l :: h in g.filed && l in g.drawn1 ==> multiset(g.filed[h])[l] == Ends(g, l, h))
  }

  ghost function Shown(e: PageObject, m: PageObject?): PageObject { if m == null then e else m }

  /** l is drawn between the primaries of its real ends. */
  ghost predicate WellDrawn(g: Graph, l: PageLink) {
    && l.po1 in g.prim && l.po2 in g.prim && l in g.drawn1 && l in g.drawn2
    && Shown(l.po1, g.drawn1[l]) == Rep(g, l.po1)
    && Shown(l.po2, g.drawn2[l]) == Rep(g, l.po2)
  }

  ghost predicate DrawnOk(g: Graph) {
    forall l :: l in g.drawn1 ==> WellDrawn(g, l)
  }

  /** The two links join the same two hosts. */
  ghost predicate Same(l: PageLink, m: PageLink) {
    (l.po1 == m.po1 && l.po2 == m.po2) || (l.po1 == m.po2 && l.po2 == m.po1)
  }

  ghost predicate OnePerPair(g: Graph) {
    forall l, m :: l in g.drawn1 && m in g.drawn1 && Same(l, m) ==> l == m
  }

  ghost predicate KeysOk(g: Graph) {
    && g.next.Keys == g.prim.Keys && g.filed.Keys == g.prim.Keys
    && g.drawn2.Keys == g.drawn1.Keys
  }

  /** The invariant of the graph. */
  ghost predicate Valid(g: Graph) {
    KeysOk(g) && GroupsOk(g) && FiledOk(g) && DrawnOk(g) && OnePerPair(g)
  }

  // ---- Regrouping ----

  /** s, on its own, joins the chain of the primary p right after p. */
  ghost function Spliced(g: Graph, p: PageObject, s: PageObject): Graph
    requires p in g.next && p in g.chains && |g.chains[p]| > 0
  {
    g.(next := g.next[s := g.next[p]][p := s],
       prim := g.prim[p := p][s := p],
       chains := map r | r in g.chains && r != s :: if r == p then [p, s] + g.chains[p][1..] else g.chains[r],
       place := map h | h in g.place :: if h == s then 1 else if h in g.prim && Rep(g, h) == p && h != p then g.place[h] + 1 else g.place[h])
  }

  lemma SplicedRep(g: Graph, p: PageObject, s: PageObject, h: PageObject)
    requires p in g.next && p in g.chains && |g.chains[p]| > 0 && p in g.prim && Rep(g, p) == p && h in g.prim
    ensures Rep(Spliced(g, p, s), h) == if h == s then p else Rep(g, h)
  {
  }

  /** What is known of a primary. */
  ghost predicate Leads(g: Graph, p: PageObject) {
    && p in g.prim && p in g.next && p in g.place && p in g.filed && p in g.chains
    && |g.chains[p]| > 0 && g.chains[p][0] == p && g.place[p] == 0 && Rep(g, p) == p
    && g.next[p] == (if 1 < |g.chains[p]| then g.chains[p][1] else null)
    && (g.prim[p] == null <==> |g.chains[p]| == 1)
  }

  lemma PrimaryLeads(g: Graph, p: PageObject)
    requires GroupsOk(g) && p in g.prim && Rep(g, p) == p
    ensures Leads(g, p)
  {
    assert Placed(g, p);
    assert InPlace(g, p, 0);
    assert Headed(g, p);
  }

  lemma SplicedInPlace(g: Graph, p: PageObject, s: PageObject, x: PageObject, i: nat)
    requires Leads(g, p) && Leads(g, s) && g.prim[s] == null && s != p
    requires x in g.chains && x != s && i < |Spliced(g, p, s).chains[x]|
    requires (x != p || i == 0) ==> InPlace(g, x, i)
    requires x == p && i > 1 ==> InPlace(g, x, i - 1)
    ensures InPlace(Spliced(g, p, s), x, i)
  {
    if x == p && i == 1 {
      SplicedRep(g, p, s, s);
    } else {
      SplicedRep(g, p, s, g.chains[x][if x == p && i >= 1 then i - 1 else i]);
    }
  }

  lemma SplicedPlaced(g: Graph, p: PageObject, s: PageObject, h: PageObject)
    requires Leads(g, p) && Leads(g, s) && g.prim[s] == null && s != p && h in g.prim && Placed(g, h)
    ensures Placed(Spliced(g, p, s), h)
  {
    SplicedRep(g, p, s, h);
  }

  lemma SplicedHeaded(g: Graph, p: PageObject, s: PageObject, x: PageObject)
    requires Leads(g, p) && s != p && x in g.chains && x != s && Headed(g, x)
    ensures Headed(Spliced(g, p, s), x)
  {
  }

  lemma SplicedKeys(g: Graph, p: PageObject, s: PageObject)
    requires Leads(g, p) && s in g.prim && s != p
    ensures var r := Spliced(g, p, s);
            && r.prim.Keys == g.prim.Keys
            && forall x :: x in r.chains <==> x in g.chains && x != s
    ensures forall x :: x in g.chains && x != s ==>
              |Spliced(g, p, s).chains[x]| == if x == p then |g.chains[x]| + 1 else |g.chains[x]|
  {
  }

  lemma SplicedOk(g: Graph, p: PageObject, s: PageObject)
    requires GroupsOk(g) && p in g.prim && Rep(g, p) == p && s in g.prim && g.prim[s] == null && s != p
    ensures Leads(g, p) && GroupsOk(Spliced(g, p, s))
    ensures forall h :: h in g.prim ==> h in Spliced(g, p, s).prim && Rep(Spliced(g, p, s), h) == if h == s then p else Rep(g, h)
  {
    hide InPlace, Placed, Headed, Spliced;
    PrimaryLeads(g, p);
    PrimaryLeads(g, s);
    SplicedKeys(g, p, s);
    var r := Spliced(g, p, s);
    forall x, i | x in r.chains && 0 <= i < |r.chains[x]| ensures InPlace(r, x, i) {
      assert (x != p || i == 0) ==> InPlace(g, x, i);
      assert x == p && i > 1 ==> InPlace(g, x, i - 1);
      hide Leads;
      SplicedInPlace(g, p, s, x, i);
    }
    forall h | h in r.prim ensures Placed(r, h) && Rep(r, h) == if h == s then p else Rep(g, h) {
      SplicedPlaced(g, p, s, h);
      SplicedRep(g, p, s, h);
    }
    forall x | x in r.chains ensures Headed(r, x) {
      assert Headed(g, x);
      SplicedHeaded(g, p, s, x);
    }
  }

  /** The whole chain of the primary q is hung at the end of that of p. */
  ghost function Joined(g: Graph, p: PageObject, q: PageObject): Graph
    requires Leads(g, p) && Leads(g, q)
  {
    var cp := g.chains[p];
    g.(next := g.next[cp[|cp| - 1] := q],
       prim := map h | h in g.prim :: if h == p || Rep(g, h) == q then p else g.prim[h],
       chains := map r | r in g.chains && r != q :: if r == p then cp + g.chains[q] else g.chains[r],
       place := map h | h in g.place :: if h in g.prim && Rep(g, h) == q then g.place[h] + |cp| else g.place[h])
  }

  lemma JoinedRep(g: Graph, p: PageObject, q: PageObject, h: PageObject)
    requires Leads(g, p) && Leads(g, q) && h in g.prim
    ensures Rep(Joined(g, p, q), h) == if Rep(g, h) == q then p else Rep(g, h)
  {
  }

  lemma JoinedInPlace(g: Graph, p: PageObject, q: PageObject, x: PageObject, i: nat)
    requires Leads(g, p) && Leads(g, q) && p != q && InPlace(g, p, |g.chains[p]| - 1)
    requires x in g.chains && x != q && i < |Joined(g, p, q).chains[x]|
    requires x != p || i < |g.chains[p]| ==> InPlace(g, x, i)
    requires x == p && i >= |g.chains[p]| ==> InPlace(g, q, i - |g.chains[p]|)
    ensures InPlace(Joined(g, p, q), x, i)
  {
    if x == p && i >= |g.chains[p]| {
      JoinedRep(g, p, q, g.chains[q][i - |g.chains[p]|]);
    } else {
      JoinedRep(g, p, q, g.chains[x][i]);
    }
  }

  lemma JoinedPlaced(g: Graph, p: PageObject, q: PageObject, h: PageObject)
    requires Leads(g, p) && Leads(g, q) && p != q && h in g.prim && Placed(g, h) && InPlace(g, p, |g.chains[p]| - 1)
    ensures Placed(Joined(g, p, q), h)
  {
    JoinedRep(g, p, q, h);
  }

  lemma JoinedHeaded(g: Graph, p: PageObject, q: PageObject, x: PageObject)
    requires Leads(g, p) && Leads(g, q) && p != q && x in g.chains && x != q && Headed(g, x) && InPlace(g, x, 0)
    ensures Headed(Joined(g, p, q), x)
  {
  }

  lemma JoinedKeys(g: Graph, p: PageObject, q: PageObject)
    requires Leads(g, p) && Leads(g, q) && p != q
    ensures var r := Joined(g, p, q);
            && r.prim.Keys == g.prim.Keys
            && forall x :: x in r.chains <==> x in g.chains && x != q
    ensures forall x :: x in g.chains && x != q ==>
              |Joined(g, p, q).chains[x]| == if x == p then |g.chains[p]| + |g.chains[q]| else |g.chains[x]|
  {
  }

  lemma HeadedLeads(g: Graph, x: PageObject)
    requires GroupsOk(g) && x in g.chains
    ensures Leads(g, x)
  {
    assert Headed(g, x) && InPlace(g, x, 0);
  }

  lemma JoinedOk(g: Graph, p: PageObject, q: PageObject)
    requires GroupsOk(g) && p in g.prim && Rep(g, p) == p && q in g.prim && Rep(g, q) == q && p != q
    ensures Leads(g, p) && Leads(g, q) && GroupsOk(Joined(g, p, q))
    ensures forall h :: h in g.prim ==> h in Joined(g, p, q).prim && Rep(Joined(g, p, q), h) == if Rep(g, h) == q then p else Rep(g, h)
  {
    hide InPlace, Placed, Headed, Joined;
    PrimaryLeads(g, p);
    PrimaryLeads(g, q);
    JoinedKeys(g, p, q);
    var r := Joined(g, p, q);
    var n := |g.chains[p]|;
    assert InPlace(g, p, n - 1);
    forall x, i | x in r.chains && 0 <= i < |r.chains[x]| ensures InPlace(r, x, i) {
      assert x != p || i < n ==> InPlace(g, x, i);
      assert x == p && i >= n ==> InPlace(g, q, i - n);
      hide Leads;
      JoinedInPlace(g, p, q, x, i);
    }
    forall h | h in r.prim ensures Placed(r, h) && Rep(r, h) == if Rep(g, h) == q then p else Rep(g, h) {
      JoinedPlaced(g, p, q, h);
      JoinedRep(g, p, q, h);
    }
    forall x | x in r.chains ensures Headed(r, x) {
      assert Headed(g, x);
      assert |g.chains[x]| > 0 by { assert Leads(g, x) by { HeadedLeads(g, x); } }
      assert InPlace(g, x, 0);
      JoinedHeaded(g, p, q, x);
    }
  }

  /** The group of the primary p comes apart into hosts on their own. */
  ghost function Dissolved(g: Graph, p: PageObject): Graph
  {
    g.(next := map h | h in g.next :: if h in g.prim && Rep(g, h) == p then null else g.next[h],
       prim := map h | h in g.prim :: if Rep(g, h) == p then null else g.prim[h],
       chains := map h | h in g.prim && (h in g.chains || Rep(g, h) == p) :: if Rep(g, h) == p then [h] else g.chains[h],
       place := map h | h in g.place :: if h in g.prim && Rep(g, h) == p then 0 else g.place[h])
  }

  lemma DissolvedRep(g: Graph, p: PageObject, h: PageObject)
    requires h in g.prim
    ensures Rep(Dissolved(g, p), h) == if Rep(g, h) == p then h else Rep(g, h)
  {
  }

  lemma DissolvedInPlace(g: Graph, p: PageObject, x: PageObject, i: nat)
    requires x in g.prim && x in Dissolved(g, p).chains && i < |Dissolved(g, p).chains[x]|
    requires Placed(g, x)
    requires Rep(g, x) != p ==> Rep(g, x) == x && InPlace(g, x, i)
    ensures InPlace(Dissolved(g, p), x, i)
  {
    if Rep(g, x) == p {
      DissolvedRep(g, p, x);
    } else {
      DissolvedRep(g, p, g.chains[x][i]);
    }
  }

  lemma DissolvedPlaced(g: Graph, p: PageObject, h: PageObject)
    requires h in g.prim && Placed(g, h) && Headed(g, Rep(g, h)) && InPlace(g, Rep(g, h), 0)
    ensures Placed(Dissolved(g, p), h)
  {
    DissolvedRep(g, p, h);
  }

  lemma DissolvedKeys(g: Graph, p: PageObject, x: PageObject)
    requires forall r :: r in g.chains ==> r in g.prim && Rep(g, r) == r
    ensures Dissolved(g, p).prim.Keys == g.prim.Keys
    ensures x in Dissolved(g, p).chains ==> x in g.prim && (Rep(g, x) != p ==> x in g.chains && Rep(g, x) == x && |Dissolved(g, p).chains[x]| == |g.chains[x]|)
  {
  }

  lemma DissolvedHeaded(g: Graph, p: PageObject, x: PageObject)
    requires x in Dissolved(g, p).chains
    requires x in g.prim && (Rep(g, x) != p ==> x in g.chains && Headed(g, x))
    ensures Headed(Dissolved(g, p), x)
  {
  }

  lemma HeadIsRep(g: Graph, x: PageObject)
    requires GroupsOk(g) && x in g.chains
    ensures x in g.prim && Rep(g, x) == x && InPlace(g, x, 0)
  {
    assert Headed(g, x) && InPlace(g, x, 0);
  }

  lemma PlacedRep(g: Graph, h: PageObject)
    requires GroupsOk(g) && h in g.prim
    ensures Rep(g, h) in g.chains && Headed(g, Rep(g, h)) && InPlace(g, Rep(g, h), 0)
  {
    assert Placed(g, h);
    HeadIsRep(g, Rep(g, h));
  }

  lemma DissolvedOk(g: Graph, p: PageObject)
    requires GroupsOk(g) && p in g.prim
    ensures GroupsOk(Dissolved(g, p))
    ensures forall h :: h in g.prim ==> h in Dissolved(g, p).prim && Rep(Dissolved(g, p), h) == if Rep(g, h) == p then h else Rep(g, h)
  {
    hide InPlace, Leads, Dissolved, Placed, Headed, Rep;
    var r := Dissolved(g, p);
    forall x | x in g.chains ensures x in g.prim && Rep(g, x) == x { HeadIsRep(g, x); }
    forall x, i | x in r.chains && 0 <= i < |r.chains[x]| ensures InPlace(r, x, i) {
      DissolvedKeys(g, p, x);
      assert Rep(g, x) != p ==> InPlace(g, x, i);
      assert Placed(g, x);
      DissolvedInPlace(g, p, x, i);
    }
    DissolvedKeys(g, p, p);
    forall h | h in r.prim ensures Placed(r, h) && Rep(r, h) == if Rep(g, h) == p then h else Rep(g, h) {
      assert Placed(g, h);
      PlacedRep(g, h);
      DissolvedPlaced(g, p, h);
      DissolvedRep(g, p, h);
    }
    forall x | x in r.chains ensures Headed(r, x) {
      DissolvedKeys(g, p, x);
      assert x in g.chains ==> Headed(g, x);
      DissolvedHeaded(g, p, x);
    }
  }

  /** s leaves the chain of its primary. */
  ghost function Split(g: Graph, s: PageObject): Graph
    requires s in g.prim && Placed(g, s) && g.place[s] > 0
  {
    var p, k := Rep(g, s), g.place[s];
    var c := g.chains[p];
    g.(next := g.next[c[k - 1] := g.next[s]][s := null],
       prim := if |c| == 2 then g.prim[s := null][p := null] else g.prim[s := null],
       chains := g.chains[p := c[..k] + c[k+1..]][s := [s]],
       place := map h | h in g.place :: if h == s then 0 else if h in g.prim && Rep(g, h) == p && g.place[h] > k then g.place[h] - 1 else g.place[h])
  }

  lemma SplitRep(g: Graph, s: PageObject, h: PageObject)
    requires s in g.prim && Placed(g, s) && g.place[s] > 0 && Leads(g, Rep(g, s)) && h in g.prim && Placed(g, h)
    ensures Rep(Split(g, s), h) == if h == s then s else Rep(g, h)
  {
  }

  lemma SplitInPlace(g: Graph, s: PageObject, x: PageObject, i: nat)
    requires s in g.prim && Placed(g, s) && g.place[s] > 0 && Leads(g, Rep(g, s)) && s !in g.chains
    requires x in g.chains && i < |Split(g, s).chains[x]|
    requires x != Rep(g, s) || i < g.place[s] ==> InPlace(g, x, i)
    requires x == Rep(g, s) && i >= g.place[s] ==> InPlace(g, x, i + 1)
    requires InPlace(g, Rep(g, s), g.place[s] - 1) && InPlace(g, Rep(g, s), g.place[s])
    requires forall h :: h in g.prim ==> Placed(g, h)
    ensures InPlace(Split(g, s), x, i)
  {
    var j := if x == Rep(g, s) && i >= g.place[s] then i + 1 else i;
    assert InPlace(g, x, j);
    SplitRep(g, s, g.chains[x][j]);
  }

  lemma SplitAlone(g: Graph, s: PageObject)
    requires s in g.prim && Placed(g, s) && g.place[s] > 0 && Leads(g, Rep(g, s)) && s !in g.chains
    ensures InPlace(Split(g, s), s, 0) && Headed(Split(g, s), s) && |Split(g, s).chains[s]| == 1
  {
    SplitRep(g, s, s);
  }

  lemma SplitPlaced(g: Graph, s: PageObject, h: PageObject)
    requires s in g.prim && Placed(g, s) && g.place[s] > 0 && Leads(g, Rep(g, s)) && s !in g.chains && h in g.prim && Placed(g, h)
    ensures Placed(Split(g, s), h)
  {
    SplitRep(g, s, h);
  }

  lemma SplitHeaded(g: Graph, s: PageObject, x: PageObject)
    requires s in g.prim && Placed(g, s) && g.place[s] > 0 && Leads(g, Rep(g, s)) && s !in g.chains
    requires x in g.chains && Headed(g, x)
    ensures Headed(Split(g, s), x)
  {
  }

  lemma SplitKeys(g: Graph, s: PageObject)
    requires s in g.prim && Placed(g, s) && g.place[s] > 0 && Leads(g, Rep(g, s)) && s !in g.chains
    ensures Split(g, s).prim.Keys == g.prim.Keys && Split(g, s).chains.Keys == g.chains.Keys + {s}
    ensures forall x :: x in g.chains ==> |Split(g, s).chains[x]| == if x == Rep(g, s) then |g.chains[x]| - 1 else |g.chains[x]|
  {
  }

  lemma SplitOk(g: Graph, s: PageObject)
    requires GroupsOk(g) && s in g.prim && Rep(g, s) != s
    ensures Placed(g, s) && g.place[s] > 0 && GroupsOk(Split(g, s))
    ensures forall h :: h in g.prim ==> h in Split(g, s).prim && Rep(Split(g, s), h) == if h == s then s else Rep(g, h)
  {
    hide InPlace, Headed, Rep;
    assert Placed(g, s);
    var p, k := Rep(g, s), g.place[s];
    HeadIsRep(g, p);
    PrimaryLeads(g, p);
    if s in g.chains { HeadIsRep(g, s); }
    assert InPlace(g, p, k - 1) && InPlace(g, p, k);
    SplitKeys(g, s);
    SplitAlone(g, s);
    var r := Split(g, s);
    hide Split;
    forall x, i | x in r.chains && 0 <= i < |r.chains[x]| ensures InPlace(r, x, i) {
      if x != s {
        assert x != p || i < k ==> InPlace(g, x, i);
        assert x == p && i >= k ==> InPlace(g, x, i + 1);
        SplitInPlace(g, s, x, i);
      }
    }
    forall h | h in r.prim ensures Placed(r, h) && Rep(r, h) == if h == s then s else Rep(g, h) {
      assert Placed(g, h);
      SplitPlaced(g, s, h);
      SplitRep(g, s, h);
    }
    forall x | x in r.chains ensures Headed(r, x) {
      if x != s {
        assert Headed(g, x);
        SplitHeaded(g, s, x);
      }
    }
  }

  // ---- What regrouping asks of the links ----

  /** g2 is g with the group of q drawn as p. */
  ghost predicate Regrouped(g: Graph, g2: Graph, q: PageObject, p: PageObject) {
    && g2.prim.Keys == g.prim.Keys && g2.drawn1.Keys == g.drawn1.Keys
    && forall h :: h in g.prim ==> Rep(g2, h) == if Rep(g, h) == q then p else Rep(g, h)
  }

  /** q's links have been handed over to p. */
  ghost predicate HandedOver(g: Graph, g2: Graph, q: PageObject, p: PageObject) {
    p in g.filed && q in g.filed && p != q && g2.filed == g.filed[p := g.filed[p] + g.filed[q]][q := []]
  }

  lemma HandedOverFiled(g: Graph, g2: Graph, q: PageObject, p: PageObject)
    requires FiledOk(g) && Regrouped(g, g2, q, p) && HandedOver(g, g2, q, p)
    requires q in g.prim && p in g.prim && Rep(g, p) == p
    ensures FiledOk(g2)
  {
    forall h, l | h in g2.filed && l in g2.filed[h] ensures l in g2.drawn1 {
      if h == p { assert l in g.filed[p] || l in g.filed[q]; }
    }
    forall h, l | h in g2.filed && l in g2.drawn1 ensures multiset(g2.filed[h])[l] == Ends(g2, l, h) {
      assert Joins(g, l);
      assert multiset(g.filed[h])[l] == Ends(g, l, h);
      if h == p { assert multiset(g.filed[q])[l] == Ends(g, l, q); }
    }
  }

  /** What the loop that tries the four places in turn does to a link's drawn ends
      when it meets the link n times. */
  ghost function Redrawn(n: nat, l: PageLink, m1: PageObject?, m2: PageObject?, q: PageObject, p: PageObject): (PageObject?, PageObject?)
  {
    if n == 0 then (m1, m2)
    else
      var (n1, n2) := Redrawn(n - 1, l, m1, m2, q, p);
      if l.po1 == q then (p, n2)
      else if l.po2 == q then (n1, p)
      else if n1 == q then (p, n2)
      else if n2 == q then (n1, p)
      else (n1, n2)
  }

  lemma RedrawnOnceMore(n: nat, l: PageLink, m1: PageObject?, m2: PageObject?, q: PageObject, p: PageObject)
    ensures var (n1, n2) := Redrawn(n, l, m1, m2, q, p); Redrawn(n + 1, l, m1, m2, q, p) == Redrawn(1, l, n1, n2, q, p)
  {
    var (n1, n2) := Redrawn(n, l, m1, m2, q, p);
    assert Redrawn(0, l, n1, n2, q, p) == (n1, n2);
  }

  /** l joins the primary q to a member of its own group. */
  ghost predicate WithinGroup(g: Graph, l: PageLink, q: PageObject) {
    && l.po1 in g.prim && l.po2 in g.prim
    && ((l.po1 == q && Rep(g, l.po2) == q) || (l.po2 == q && Rep(g, l.po1) == q))
  }

  /** The loop gets a link right exactly if the link does not join the primary to a
      member of its own group: it takes the first match both times it meets it. */
  lemma RedrawnExactly(g: Graph, g2: Graph, l: PageLink, q: PageObject, p: PageObject)
    requires WellDrawn(g, l) && Joins(g, l) && Regrouped(g, g2, q, p) && p != q
    requires q in g.prim && p in g.prim && Rep(g, q) == q && Rep(g, p) == p
    requires l in g2.drawn1 && l in g2.drawn2
    requires (g2.drawn1[l], g2.drawn2[l]) == Redrawn(Ends(g, l, q), l, g.drawn1[l], g.drawn2[l], q, p)
    ensures WellDrawn(g2, l) <==> !WithinGroup(g, l, q)
  {
    var n := Ends(g, l, q);
    assert Redrawn(0, l, g.drawn1[l], g.drawn2[l], q, p) == (g.drawn1[l], g.drawn2[l]);
    if n == 2 { assert Redrawn(1, l, g.drawn1[l], g.drawn2[l], q, p) == Redrawn(1, l, g.drawn1[l], g.drawn2[l], q, p); }
  }

  /** The loop that looks at all four places gets every link right. */
  lemma RedrawnAll(g: Graph, g2: Graph, l: PageLink, q: PageObject, p: PageObject)
    requires WellDrawn(g, l) && Joins(g, l) && Regrouped(g, g2, q, p) && p != q
    requires q in g.prim && p in g.prim && Rep(g, q) == q && Rep(g, p) == p
    requires l in g2.drawn1 && l in g2.drawn2
    requires g2.drawn1[l] == if Ends(g, l, q) > 0 && (l.po1 == q || g.drawn1[l] == q) then p else g.drawn1[l]
    requires g2.drawn2[l] == if Ends(g, l, q) > 0 && (l.po2 == q || g.drawn2[l] == q) then p else g.drawn2[l]
    ensures WellDrawn(g2, l)
  {
  }

  lemma SameGroupsSameLists(g: Graph, g2: Graph, h: PageObject)
    requires FiledOk(g) && FiledOk(g2) && g2.prim.Keys == g.prim.Keys && g2.drawn1.Keys == g.drawn1.Keys
    requires forall x :: x in g.prim ==> Rep(g2, x) == Rep(g, x)
    requires h in g.filed && h in g2.filed
    ensures multiset(g2.filed[h]) == multiset(g.filed[h])
  {
    assert forall l :: l in g2.filed[h] || l in g.filed[h] ==> l in g.drawn1;
    forall l ensures multiset(g2.filed[h])[l] == multiset(g.filed[h])[l] {
      if l in g.drawn1 {
        assert Joins(g, l);
        assert multiset(g.filed[h])[l] == Ends(g, l, h) && multiset(g2.filed[h])[l] == Ends(g2, l, h);
      }
    }
  }

  /** The graph is determined, up to the order of the lists and chains, by who
      stands for whom and by the real links. */
  lemma SameGroupsSameGraph(g: Graph, g2: Graph)
    requires Valid(g) && Valid(g2) && g2.prim.Keys == g.prim.Keys && g2.drawn1.Keys == g.drawn1.Keys
    requires forall h :: h in g.prim ==> Rep(g2, h) == Rep(g, h)
    ensures forall h :: h in g.prim ==> h in g.filed && h in g2.filed && multiset(g2.filed[h]) == multiset(g.filed[h])
    ensures forall l :: l in g.drawn1 ==> (
              && l in g.drawn2 && l in g2.drawn2
              && Shown(l.po1, g2.drawn1[l]) == Shown(l.po1, g.drawn1[l])
              && Shown(l.po2, g2.drawn2[l]) == Shown(l.po2, g.drawn2[l]))
  {
    hide GroupsOk, FiledOk, OnePerPair, Rep;
    forall h | h in g.prim ensures multiset(g2.filed[h]) == multiset(g.filed[h]) {
      SameGroupsSameLists(g, g2, h);
    }
    forall l | l in g.drawn1
      ensures Shown(l.po1, g2.drawn1[l]) == Shown(l.po1, g.drawn1[l]) && Shown(l.po2, g2.drawn2[l]) == Shown(l.po2, g.drawn2[l])
    {
      assert WellDrawn(g, l) && WellDrawn(g2, l);
    }
  }
}
