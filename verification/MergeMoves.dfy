/**
 What merging, unmerging and linking do to the graph of a page, step by step:
 the facts the operations of a page rest on.
 */
module MergeMoves {
  import opened Common
  import opened MergeGraph

  /** g_list_remove */
  function RemoveFirst(q: seq<PageLink>, l: PageLink): (r: seq<PageLink>)
    ensures multiset(r) == multiset(q)[l := if l in q then multiset(q)[l] - 1 else 0]
    ensures l !in q ==> r == q
    ensures l in q ==> |r| == |q| - 1
  {
    if q == [] then []
    else
      assert q == [q[0]] + q[1..];
      if q[0] == l then q[1..] else [q[0]] + RemoveFirst(q[1..], l)
  }

  predicate Touches(l: PageLink, h: PageObject) { l.po1 == h || l.po2 == h }

  /** The two graphs have the same chains and names. */
  ghost predicate SameGroups(g: Graph, g2: Graph) {
    g2.next == g.next && g2.prim == g.prim && g2.chains == g.chains && g2.place == g.place && g2.filed.Keys == g.filed.Keys
  }

  ghost predicate TurnsAll(g: Graph, g2: Graph, q: PageObject, p: PageObject, l: PageLink) {
    && q in g.filed && l in g.drawn1 && l in g.drawn2 && l in g2.drawn1 && l in g2.drawn2
    && g2.drawn1[l] == (if l in g.filed[q] && (l.po1 == q || g.drawn1[l] == q) then p else g.drawn1[l])
    && g2.drawn2[l] == (if l in g.filed[q] && (l.po2 == q || g.drawn2[l] == q) then p else g.drawn2[l])
  }

  /** The drawn ends are as the loop over q's links leaves them that looks at all
      four places. */
  ghost predicate TurnedAll(g: Graph, g2: Graph, q: PageObject, p: PageObject) {
    && q in g.filed && g2.drawn1.Keys == g.drawn1.Keys && g2.drawn2.Keys == g.drawn2.Keys
    && forall l :: l in g.drawn1 && l in g.drawn2 ==> TurnsAll(g, g2, q, p, l)
  }

  ghost predicate TurnsFirst(g: Graph, g2: Graph, q: PageObject, p: PageObject, l: PageLink) {
    && q in g.filed && l in g.drawn1 && l in g.drawn2 && l in g2.drawn1 && l in g2.drawn2
    && (g2.drawn1[l], g2.drawn2[l]) == Redrawn(multiset(g.filed[q])[l], l, g.drawn1[l], g.drawn2[l], q, p)
  }

  /** The drawn ends are as the loop over q's links leaves them that takes the
      four places in turn. */
  ghost predicate TurnedFirst(g: Graph, g2: Graph, q: PageObject, p: PageObject) {
    && q in g.filed && g2.drawn1.Keys == g.drawn1.Keys && g2.drawn2.Keys == g.drawn2.Keys
    && forall l :: l in g.drawn1 && l in g.drawn2 ==> TurnsFirst(g, g2, q, p, l)
  }

  /** The hosts of c, and p, name p as their primary. */
  ghost function NewNames(prim: map<PageObject, PageObject?>, p: PageObject, c: seq<PageObject>): map<PageObject, PageObject?> {
    map h | h in prim :: if h == p || h in c then p else prim[h]
  }

  lemma JoinedFields(g: Graph, p: PageObject, q: PageObject)
    requires Leads(g, p) && Leads(g, q)
    requires forall h :: h in g.prim ==> (h in g.chains[q] <==> Rep(g, h) == q)
    ensures Joined(g, p, q).next == g.next[g.chains[p][|g.chains[p]| - 1] := q]
    ensures Joined(g, p, q).prim == NewNames(g.prim, p, g.chains[q])
    ensures Joined(g, p, q).filed == g.filed && Joined(g, p, q).drawn1 == g.drawn1 && Joined(g, p, q).drawn2 == g.drawn2
  {
  }

  lemma InChain(g: Graph, q: PageObject, h: PageObject)
    requires GroupsOk(g) && q in g.chains && h in g.prim
    ensures Rep(g, h) == q <==> h in g.chains[q]
  {
    assert Placed(g, h);
    if h in g.chains[q] {
      var i :| 0 <= i < |g.chains[q]| && g.chains[q][i] == h;
      assert InPlace(g, q, i);
    }
  }

  /** Every host is on its own and there are no links. */
  ghost predicate Single(g: Graph) {
    && g.next.Keys == g.prim.Keys && g.filed.Keys == g.prim.Keys && g.chains.Keys == g.prim.Keys && g.place.Keys == g.prim.Keys
    && g.drawn1 == map[] && g.drawn2 == map[]
    && forall h :: h in g.prim ==> g.next[h] == null && g.prim[h] == null && g.filed[h] == [] && g.chains[h] == [h] && g.place[h] == 0
  }

  lemma SinglesValid(g: Graph)
    requires Single(g)
    ensures Valid(g)
  {
    forall h | h in g.prim ensures Placed(g, h) {}
    forall r | r in g.chains ensures Headed(g, r) {}
    forall r, i | r in g.chains && 0 <= i < |g.chains[r]| ensures InPlace(g, r, i) {}
    hide Placed, Headed, InPlace;
  }

  lemma AlikePlaced(g: Graph, g2: Graph, h: PageObject)
    requires SameGroups(g, g2) && h in g.prim && Placed(g, h)
    ensures Placed(g2, h)
  {
  }

  lemma AlikeHeaded(g: Graph, g2: Graph, r: PageObject)
    requires SameGroups(g, g2) && r in g.chains && Headed(g, r)
    ensures Headed(g2, r)
  {
  }

  lemma AlikeInPlace(g: Graph, g2: Graph, r: PageObject, i: nat)
    requires SameGroups(g, g2) && InPlace(g, r, i)
    ensures InPlace(g2, r, i)
  {
  }

  /** Groups are not a matter of which links are filed where. */
  lemma MovedGroups(g: Graph, g2: Graph)
    requires GroupsOk(g) && SameGroups(g, g2)
    ensures GroupsOk(g2)
  {
    hide Placed, Headed, InPlace;
    forall h | h in g2.prim ensures Placed(g2, h) { AlikePlaced(g, g2, h); }
    forall r | r in g2.chains ensures Headed(g2, r) { AlikeHeaded(g, g2, r); }
    forall r, i | r in g2.chains && 0 <= i < |g2.chains[r]| ensures InPlace(g2, r, i) { AlikeInPlace(g, g2, r, i); }
  }

  /** What a merge does to the graph, whatever the drawn ends have become. */
  lemma MergedGraph(g: Graph, r: Graph, g2: Graph, q: PageObject, p: PageObject)
    requires Valid(g) && GroupsOk(r) && Regrouped(g, r, q, p) && r.next.Keys == g.next.Keys && r.filed.Keys == g.filed.Keys
    requires SameGroups(g2, r) && HandedOver(g, g2, q, p)
    requires g2.drawn1.Keys == g.drawn1.Keys && g2.drawn2.Keys == g.drawn2.Keys
    requires q in g.prim && p in g.prim && Rep(g, p) == p
    ensures Regrouped(g, g2, q, p) && KeysOk(g2) && GroupsOk(g2) && FiledOk(g2) && OnePerPair(g2)
  {
    hide GroupsOk, DrawnOk;
    MovedGroups(r, g2);
    HandedOverFiled(g, g2, q, p);
  }

  /** The groups of q and p have become one, named by p; q's links are filed with p. */
  ghost predicate Merged(g: Graph, g2: Graph, q: PageObject, p: PageObject) {
    && Regrouped(g, g2, q, p) && HandedOver(g, g2, q, p)
    && KeysOk(g2) && GroupsOk(g2) && FiledOk(g2) && OnePerPair(g2)
  }

  lemma LastHasNext(g: Graph, p: PageObject)
    requires GroupsOk(g) && Leads(g, p)
    ensures g.chains[p][|g.chains[p]| - 1] in g.next
  {
    hide Placed, Headed;
    assert InPlace(g, p, |g.chains[p]| - 1);
  }

  lemma AfterJoined(g: Graph, g2: Graph, q: PageObject, p: PageObject)
    requires Valid(g) && Leads(g, p) && Leads(g, q) && SameGroups(g2, Joined(g, p, q)) && HandedOver(g, g2, q, p)
    requires g2.drawn1.Keys == g.drawn1.Keys && g2.drawn2.Keys == g.drawn2.Keys
    ensures Merged(g, g2, q, p) && Regrouped(g, g2, q, p)
  {
    hide GroupsOk, FiledOk, DrawnOk, OnePerPair;
    JoinedOk(g, p, q);
    LastHasNext(g, p);
    MergedGraph(g, Joined(g, p, q), g2, q, p);
  }

  lemma AloneRep(g: Graph, s: PageObject, h: PageObject)
    requires GroupsOk(g) && Leads(g, s) && g.prim[s] == null && h in g.prim
    ensures Rep(g, h) == s <==> h == s
  {
    hide InPlace, Headed;
    assert Placed(g, h);
  }

  lemma AfterSpliced(g: Graph, g2: Graph, s: PageObject, p: PageObject)
    requires Valid(g) && Leads(g, p) && Leads(g, s) && g.prim[s] == null
    requires SameGroups(g2, Spliced(g, p, s)) && HandedOver(g, g2, s, p)
    requires g2.drawn1.Keys == g.drawn1.Keys && g2.drawn2.Keys == g.drawn2.Keys
    ensures Merged(g, g2, s, p) && Regrouped(g, g2, s, p)
    ensures forall l :: l in g.drawn1 ==> Joins(g, l) && !WithinGroup(g, l, s)
  {
    hide GroupsOk, DrawnOk, OnePerPair;
    SplicedOk(g, p, s);
    forall h | h in g.prim ensures Rep(g, h) == s <==> h == s { AloneRep(g, s, h); }
    MergedGraph(g, Spliced(g, p, s), g2, s, p);
  }

  lemma TurnedFirstDraws(g: Graph, g2: Graph, q: PageObject, p: PageObject)
    requires Valid(g) && Regrouped(g, g2, q, p) && TurnedFirst(g, g2, q, p) && p != q
    requires q in g.prim && p in g.prim && Rep(g, q) == q && Rep(g, p) == p
    ensures forall l :: l in g.drawn1 ==> Joins(g, l) && (WellDrawn(g2, l) <==> !WithinGroup(g, l, q))
  {
    hide GroupsOk, OnePerPair, Redrawn, WithinGroup, WellDrawn, Rep, Ends;
    forall l | l in g.drawn1 ensures Joins(g, l) && (WellDrawn(g2, l) <==> !WithinGroup(g, l, q)) {
      assert Joins(g, l) && WellDrawn(g, l) && TurnsFirst(g, g2, q, p, l);
      assert multiset(g.filed[q])[l] == Ends(g, l, q);
      RedrawnExactly(g, g2, l, q, p);
    }
  }

  lemma TurnedAllDraws(g: Graph, g2: Graph, q: PageObject, p: PageObject)
    requires Valid(g) && Regrouped(g, g2, q, p) && TurnedAll(g, g2, q, p) && p != q
    requires q in g.prim && p in g.prim && Rep(g, q) == q && Rep(g, p) == p
    ensures forall l :: l in g.drawn1 ==> Joins(g, l) && WellDrawn(g2, l)
  {
    hide GroupsOk, OnePerPair, WellDrawn, Rep, Ends;
    forall l | l in g.drawn1 ensures Joins(g, l) && WellDrawn(g2, l) {
      assert Joins(g, l) && WellDrawn(g, l) && TurnsAll(g, g2, q, p, l);
      assert multiset(g.filed[q])[l] == Ends(g, l, q);
      RedrawnAll(g, g2, l, q, p);
    }
  }

  lemma ThenJoined(g: Graph, g1: Graph, g2: Graph, p: PageObject, q: PageObject)
    requires GroupsOk(g) && Leads(g, p) && Leads(g, q)
    requires g1 == g.(drawn1 := g1.drawn1, drawn2 := g1.drawn2)
    requires g2 == g1.(filed := g2.filed) && g2.filed.Keys == g.filed.Keys && HandedOver(g1, g2, q, p)
    ensures GroupsOk(g2) && Leads(g2, p) && Leads(g2, q) && SameGroups(Joined(g2, p, q), Joined(g, p, q))
    ensures Joined(g2, p, q).filed == g2.filed && Joined(g2, p, q).drawn1 == g1.drawn1 && Joined(g2, p, q).drawn2 == g1.drawn2
    ensures HandedOver(g, Joined(g2, p, q), q, p)
  {
    hide GroupsOk;
    assert SameGroups(g, g2);
    MovedGroups(g, g2);
  }

  lemma TurnedAllAlike(g: Graph, g2: Graph, h: Graph, h2: Graph, q: PageObject, p: PageObject)
    requires TurnedAll(g, g2, q, p) && h.filed == g.filed && h.drawn1 == g.drawn1 && h.drawn2 == g.drawn2
    requires h2.drawn1 == g2.drawn1 && h2.drawn2 == g2.drawn2
    ensures TurnedAll(h, h2, q, p) && h2.drawn1.Keys == h.drawn1.Keys && h2.drawn2.Keys == h.drawn2.Keys
  {
    forall l | l in h.drawn1 && l in h.drawn2 ensures TurnsAll(h, h2, q, p, l) { assert TurnsAll(g, g2, q, p, l); }
  }

  lemma TurnedFirstAlike(g: Graph, g2: Graph, h: Graph, h2: Graph, q: PageObject, p: PageObject)
    requires TurnedFirst(g, g2, q, p) && h.filed == g.filed && h.drawn1 == g.drawn1 && h.drawn2 == g.drawn2
    requires h2.drawn1 == g2.drawn1 && h2.drawn2 == g2.drawn2
    ensures TurnedFirst(h, h2, q, p) && h2.drawn1.Keys == h.drawn1.Keys && h2.drawn2.Keys == h.drawn2.Keys
  {
    hide Redrawn;
    forall l | l in h.drawn1 && l in h.drawn2 ensures TurnsFirst(h, h2, q, p, l) { assert TurnsFirst(g, g2, q, p, l); }
  }

  /** Handing links over and redrawing them leaves the groups alone. */
  lemma MovedTo(g: Graph, g1: Graph, g2: Graph, g3: Graph, q: PageObject, p: PageObject)
    requires g1.filed == g.filed && g2 == g1.(drawn1 := g2.drawn1, drawn2 := g2.drawn2)
    requires g3 == g2.(filed := g3.filed) && HandedOver(g2, g3, q, p) && g3.filed.Keys == g.filed.Keys
    ensures HandedOver(g, g3, q, p) && SameGroups(g3, g1)
  {
  }

  lemma SplicedFiled(g: Graph, p: PageObject, s: PageObject)
    requires Leads(g, p)
    ensures Spliced(g, p, s).filed == g.filed && Spliced(g, p, s).drawn1 == g.drawn1 && Spliced(g, p, s).drawn2 == g.drawn2
  {
  }

  /** Of the links in had, those in b, which are po's, have moved there once; a has the rest. */
  ghost predicate Moved(had: seq<PageLink>, a: seq<PageLink>, b: seq<PageLink>, po: PageObject) {
    && multiset(a) + multiset(b) == multiset(had)
    && (forall l :: l in b ==> Touches(l, po) && multiset(b)[l] == 1)
  }

  lemma NoneMoved(had: seq<PageLink>, po: PageObject)
    ensures Moved(had, had, [], po)
  {
  }

  lemma OneMoved(had: seq<PageLink>, a: seq<PageLink>, b: seq<PageLink>, po: PageObject, l: PageLink)
    requires Moved(had, a, b, po) && l in a && l !in b && Touches(l, po)
    ensures Moved(had, RemoveFirst(a, l), b + [l], po)
    ensures forall x :: x in RemoveFirst(a, l) ==> x in a
  {
    hide Touches;
    var r, d := RemoveFirst(a, l), b + [l];
    assert multiset(r) == multiset(a) - multiset{l} && multiset(d) == multiset(b) + multiset{l};
    hide RemoveFirst;
    forall x | x in r ensures x in a { assert x in multiset(r); }
    forall x | x in d ensures Touches(x, po) && multiset(d)[x] == 1 {
      if x != l { assert x in b; }
      assert multiset(b)[l] == 0;
    }
  }

  /** l is drawn at po's end from po itself again, if it has moved to po. */
  ghost predicate Undrawn(g: Graph, g2: Graph, po: PageObject, l: PageLink) {
    && l in g.drawn1 && l in g.drawn2 && l in g2.drawn1 && l in g2.drawn2 && po in g2.filed
    && g2.drawn1[l] == (if l in g2.filed[po] && l.po1 == po then null else g.drawn1[l])
    && g2.drawn2[l] == (if l in g2.filed[po] && l.po2 == po then null else g.drawn2[l])
  }

  /** po has got its links back from p. */
  ghost predicate LeftWith(g: Graph, g2: Graph, p: PageObject, po: PageObject) {
    && p in g.filed && po in g.filed && g2.filed.Keys == g.filed.Keys
    && g2.drawn1.Keys == g.drawn1.Keys && g2.drawn2.Keys == g.drawn2.Keys
    && (forall h :: h in g.filed && h != p && h != po ==> g2.filed[h] == g.filed[h])
    && Moved(g.filed[p], g2.filed[p], g2.filed[po], po)
    && (forall l :: l in g2.filed[p] && l !in g2.filed[po] ==> !Touches(l, po))
    && (forall l :: l in g.drawn1 && l in g.drawn2 ==> Undrawn(g, g2, po, l))
  }

  /** The links are filed and drawn as the names in the graph ask. */
  ghost predicate LinksOk(g: Graph) {
    KeysOk(g) && FiledOk(g) && DrawnOk(g)
  }

  /** p stands for po, and po for nobody. */
  ghost predicate Stands(g: Graph, p: PageObject, po: PageObject) {
    && p in g.prim && po in g.prim && p != po && Rep(g, po) == p && Rep(g, p) == p
    && forall h :: h in g.prim ==> Rep(g, h) != po
  }

  lemma LeftFacts(g: Graph, g1: Graph, g2: Graph, p: PageObject, po: PageObject, l: PageLink)
    requires LinksOk(g) && p in g.filed && p in g.prim && g1.filed == g.filed && g1.drawn1 == g.drawn1 && g1.drawn2 == g.drawn2
    requires LeftWith(g1, g2, p, po) && l in g.drawn1 && l in g.drawn2
    requires Touches(l, po) ==> po in g.prim && Rep(g, po) == p
    ensures Joins(g, l) && WellDrawn(g, l) && Undrawn(g1, g2, po, l)
    ensures p in g2.filed && po in g2.filed && multiset(g2.filed[p])[l] + multiset(g2.filed[po])[l] == Ends(g, l, p)
    ensures multiset(g2.filed[po])[l] == (if Touches(l, po) then 1 else 0) && (Touches(l, po) <==> l in g2.filed[po])
  {
    hide WellDrawn, Undrawn;
    assert Joins(g, l) && WellDrawn(g, l);
    assert multiset(g.filed[p])[l] == Ends(g, l, p);
    assert multiset(g2.filed[p])[l] + multiset(g2.filed[po])[l] == multiset(g.filed[p])[l];
  }

  lemma LeftEnds(g: Graph, g2: Graph, p: PageObject, po: PageObject, l: PageLink, h: PageObject)
    requires Joins(g, l) && Stands(g, p, po) && g2.prim == g.prim[po := null]
    ensures Joins(g2, l)
    ensures Ends(g2, l, h) == Ends(g, l, h) + (if h == p && Touches(l, po) then -1 else if h == po && Touches(l, po) then 1 else 0)
  {
  }

  lemma NoEnds(g: Graph, p: PageObject, po: PageObject, l: PageLink)
    requires Joins(g, l) && Stands(g, p, po)
    ensures Ends(g, l, po) == 0
  {
  }

  lemma LeftFiled(g: Graph, g1: Graph, g2: Graph, p: PageObject, po: PageObject, l: PageLink, h: PageObject)
    requires LinksOk(g) && Stands(g, p, po) && g2.prim == g.prim[po := null]
    requires g1.filed == g.filed && g1.drawn1 == g.drawn1 && g1.drawn2 == g.drawn2 && LeftWith(g1, g2, p, po)
    requires l in g.drawn1 && h in g.filed
    ensures Joins(g2, l) && multiset(g2.filed[h])[l] == Ends(g2, l, h)
  {
    hide WellDrawn, Undrawn, Moved, Ends, DrawnOk, Touches;
    LeftFacts(g, g1, g2, p, po, l);
    LeftEnds(g, g2, p, po, l, h);
    assert multiset(g.filed[h])[l] == Ends(g, l, h) && multiset(g.filed[po])[l] == Ends(g, l, po);
    NoEnds(g, p, po, l);
  }

  lemma LeftDrawn(g: Graph, g1: Graph, g2: Graph, p: PageObject, po: PageObject, l: PageLink)
    requires LinksOk(g) && Stands(g, p, po) && g2.prim == g.prim[po := null]
    requires g1.filed == g.filed && g1.drawn1 == g.drawn1 && g1.drawn2 == g.drawn2 && LeftWith(g1, g2, p, po)
    requires l in g.drawn1
    ensures WellDrawn(g2, l)
  {
    LeftFacts(g, g1, g2, p, po, l);
    hide FiledOk, DrawnOk, LeftWith, Moved;
  }

  lemma LeftMembers(g1: Graph, g2: Graph, p: PageObject, po: PageObject, h: PageObject, l: PageLink)
    requires LeftWith(g1, g2, p, po) && h in g2.filed && l in g2.filed[h]
    ensures h in g1.filed && (l in g1.filed[h] || l in g1.filed[p])
  {
    hide Undrawn;
    assert l in multiset(g2.filed[p]) + multiset(g2.filed[po]) ==> l in multiset(g1.filed[p]);
  }

  lemma JoinsIn(g: Graph, l: PageLink)
    requires Joins(g, l)
    ensures l.po1 in g.prim && l.po2 in g.prim
  {
  }

  lemma StandsIn(g: Graph, p: PageObject, po: PageObject)
    requires Stands(g, p, po)
    ensures p in g.prim && po in g.prim && p != po && (g.prim[p] == null || g.prim[p] == p)
  {
  }

  lemma LeftKeys(g: Graph, g2: Graph, p: PageObject, po: PageObject)
    requires LeftWith(g, g2, p, po)
    ensures g2.filed.Keys == g.filed.Keys && g2.drawn1.Keys == g.drawn1.Keys && g2.drawn2.Keys == g.drawn2.Keys && p in g.filed
  {
  }

  lemma LeftFiledOk(g: Graph, g1: Graph, g2: Graph, p: PageObject, po: PageObject)
    requires LinksOk(g) && Stands(g, p, po) && g2.prim == g.prim[po := null]
    requires g1.filed == g.filed && g1.drawn1 == g.drawn1 && g1.drawn2 == g.drawn2 && LeftWith(g1, g2, p, po)
    ensures FiledOk(g2)
  {
    hide WellDrawn, Ends, Stands, LeftWith, Rep, Joins, DrawnOk;
    StandsIn(g, p, po);
    LeftKeys(g1, g2, p, po);
    forall h, l | h in g2.filed && l in g2.filed[h] ensures l in g2.drawn1 { LeftMembers(g1, g2, p, po, h, l); }
    forall l | l in g2.drawn1 ensures Joins(g2, l) { LeftFiled(g, g1, g2, p, po, l, p); }
    forall h, l | h in g2.filed && l in g2.drawn1 ensures l.po1 in g2.prim && l.po2 in g2.prim && multiset(g2.filed[h])[l] == Ends(g2, l, h) {
      LeftFiled(g, g1, g2, p, po, l, h);
      JoinsIn(g2, l);
    }
  }

  lemma LeftOk(g: Graph, g1: Graph, g2: Graph, p: PageObject, po: PageObject)
    requires LinksOk(g) && Stands(g, p, po) && g2.prim == g.prim[po := null] && g2.next == g.next[po := null]
    requires g1.filed == g.filed && g1.drawn1 == g.drawn1 && g1.drawn2 == g.drawn2 && LeftWith(g1, g2, p, po)
    ensures LinksOk(g2) && g2.drawn1.Keys == g.drawn1.Keys
  {
    hide WellDrawn, Stands, LeftWith, FiledOk;
    StandsIn(g, p, po);
    LeftKeys(g1, g2, p, po);
    LeftFiledOk(g, g1, g2, p, po);
    forall l | l in g2.drawn1 ensures WellDrawn(g2, l) { LeftDrawn(g, g1, g2, p, po, l); }
  }

  /** The hosts of c have nothing in m any more. */
  ghost function Freed(m: map<PageObject, PageObject?>, c: seq<PageObject>): map<PageObject, PageObject?> {
    map h | h in m :: if h in c then null else m[h]
  }

  lemma FreedNone(m: map<PageObject, PageObject?>)
    ensures Freed(m, []) == m
  {
  }

  lemma FreedOne(m: map<PageObject, PageObject?>, c: seq<PageObject>, h: PageObject)
    requires h in m
    ensures Freed(m, c)[h := null] == Freed(m, c + [h])
  {
  }

  lemma NotARep(g: Graph, p: PageObject, po: PageObject, h: PageObject)
    requires GroupsOk(g) && po in g.prim && Rep(g, po) == p != po && h in g.prim
    ensures Rep(g, h) != po
  {
    hide InPlace, Placed, Headed;
    PlacedRep(g, h);
    HeadIsRep(g, Rep(g, h));
  }

  /** With the first j - 1 secondaries gone, p still stands for the next, which stands for nobody. */
  lemma StandsNext(g: Graph, v: Graph, p: PageObject, c: seq<PageObject>, j: nat)
    requires GroupsOk(g) && p in g.chains && c == g.chains[p] && 1 <= j < |c|
    requires v.prim == Freed(g.prim, c[1..j]) && v.next == Freed(g.next, c[1..j])
    ensures c[j] in g.prim && c[j] in g.next && Stands(v, p, c[j])
    ensures c[j] in v.next && v.next[c[j]] == if j + 1 < |c| then c[j + 1] else null
  {
    hide Headed, Placed;
    HeadedLeads(g, p);
    assert InPlace(g, p, j);
    forall i | 0 <= i < |c| ensures c[i] in g.place && g.place[c[i]] == i && c[i] in g.prim && Rep(g, c[i]) == p { assert InPlace(g, p, i); }
    hide InPlace;
    var po := c[j];
    assert p !in c[1..j] && po !in c[1..j] && po in c;
    forall h | h in g.prim ensures Rep(v, h) != po {
      NotARep(g, p, po, h);
    }
  }

  lemma LinksAlike(g: Graph, g2: Graph)
    requires LinksOk(g) && g2.prim.Keys == g.prim.Keys && g2.next.Keys == g.next.Keys
    requires g2.filed == g.filed && g2.drawn1 == g.drawn1 && g2.drawn2 == g.drawn2
    requires forall h :: h in g.prim ==> Rep(g2, h) == Rep(g, h)
    ensures LinksOk(g2)
  {
    hide Rep;
    forall l | l in g2.drawn1 ensures Joins(g2, l) && WellDrawn(g2, l) { assert Joins(g, l) && WellDrawn(g, l); }
    forall h, l | h in g2.filed && l in g2.drawn1 ensures multiset(g2.filed[h])[l] == Ends(g2, l, h) {
      assert Joins(g, l);
      assert multiset(g.filed[h])[l] == Ends(g, l, h);
    }
  }

  lemma LinksKeys(g: Graph)
    requires LinksOk(g)
    ensures g.next.Keys == g.prim.Keys && g.filed.Keys == g.prim.Keys
  {
  }

  lemma KeysAgree(g: Graph)
    requires KeysOk(g)
    ensures g.next.Keys == g.prim.Keys && g.filed.Keys == g.prim.Keys
  {
  }

  lemma AlikeFields(g: Graph, g2: Graph)
    requires g2.next == g.next && g2.prim == g.prim && g2.chains == g.chains && g2.place == g.place && g2.filed.Keys == g.filed.Keys
    ensures SameGroups(g, g2)
  {
  }

  /** A primary's own name for itself can go. */
  lemma UnnamedLinks(v: Graph, v3: Graph, p: PageObject)
    requires LinksOk(v) && p in v.prim && (v.prim[p] == null || v.prim[p] == p) && p in v.next
    requires v3.next == v.next[p := null] && v3.prim == v.prim[p := null]
    requires v3.filed == v.filed && v3.drawn1 == v.drawn1 && v3.drawn2 == v.drawn2
    ensures LinksOk(v3)
  {
    hide LinksOk;
    LinksAlike(v, v3);
  }

  lemma NamesItself(g: Graph, p: PageObject)
    requires Leads(g, p)
    ensures g.prim[p] == null || g.prim[p] == p
  {
  }

  lemma FreedKeys(g: Graph, p: PageObject)
    requires GroupsOk(g) && Leads(g, p)
    ensures var m := Freed(g.prim, g.chains[p][1..]);
            p in m && m.Keys == g.prim.Keys && (m[p] == null || m[p] == p)
    ensures Freed(g.next, g.chains[p][1..]).Keys == g.next.Keys && p in g.next
  {
    hide GroupsOk, Rep;
    assert p in Freed(g.prim, g.chains[p][1..]);
    NamesItself(g, p);
  }

  lemma FreedMembers(g: Graph, p: PageObject, q: seq<PageObject>)
    requires KeysOk(g) && p in g.prim && forall h :: h in g.prim ==> (Rep(g, h) == p <==> h == p || h in q)
    ensures Freed(g.next, q)[p := null] == Dissolved(g, p).next
    ensures Freed(g.prim, q)[p := null] == Dissolved(g, p).prim
    ensures Dissolved(g, p).filed == g.filed
  {
    hide Rep;
  }

  lemma FreedIsDissolved(g: Graph, p: PageObject)
    requires GroupsOk(g) && KeysOk(g) && Leads(g, p)
    ensures Freed(g.next, g.chains[p][1..])[p := null] == Dissolved(g, p).next
    ensures Freed(g.prim, g.chains[p][1..])[p := null] == Dissolved(g, p).prim
    ensures Dissolved(g, p).filed == g.filed
  {
    hide InPlace, Placed, Headed, Dissolved, Freed;
    var c := g.chains[p];
    assert c == [p] + c[1..];
    forall h | h in g.prim ensures Rep(g, h) == p <==> h in c { InChain(g, p, h); }
    FreedMembers(g, p, c[1..]);
  }

  lemma AllFreed(g: Graph, v: Graph, v2: Graph, v3: Graph, p: PageObject)
    requires GroupsOk(g) && KeysOk(g) && Leads(g, p) && LinksOk(v) && v.drawn1.Keys == g.drawn1.Keys
    requires v.next == Freed(g.next, g.chains[p][1..]) && v.prim == Freed(g.prim, g.chains[p][1..])
    requires v2 == v.(next := v.next[p := null], prim := v.prim[p := null])
    requires v3 == v2.(chains := Dissolved(g, p).chains, place := Dissolved(g, p).place)
    ensures SameGroups(v3, Dissolved(g, p)) && LinksOk(v3) && v3.drawn1.Keys == g.drawn1.Keys
  {
    hide *;
    FreedIsDissolved(g, p);
    FreedKeys(g, p);
    LinksKeys(v);
    KeysAgree(g);
    AlikeFields(v3, Dissolved(g, p));
    UnnamedLinks(v, v3, p);
  }

  lemma PlacedAt(g: Graph, h: PageObject)
    requires h in g.prim && Placed(g, h)
    ensures Rep(g, h) in g.chains && h in g.place && g.place[h] < |g.chains[Rep(g, h)]| && g.chains[Rep(g, h)][g.place[h]] == h
  {
  }

  lemma StandsFor(g: Graph, p: PageObject, po: PageObject)
    requires p in g.prim && po in g.prim && p != po && Rep(g, po) == p && Rep(g, p) == p
    requires forall h :: h in g.prim ==> Rep(g, h) != po
    ensures Stands(g, p, po)
  {
  }

  lemma ChainNoDup(g: Graph, p: PageObject)
    requires GroupsOk(g) && p in g.chains
    ensures NoDup(g.chains[p])
  {
    hide Placed, Headed;
    forall i | 0 <= i < |g.chains[p]| ensures g.chains[p][i] in g.place && g.place[g.chains[p][i]] == i { assert InPlace(g, p, i); }
  }

  lemma SplitFields(g: Graph, s: PageObject)
    requires s in g.prim && Placed(g, s) && g.place[s] > 0
    ensures var c, k := g.chains[Rep(g, s)], g.place[s];
      && Split(g, s).next == g.next[c[k - 1] := g.next[s]][s := null]
      && Split(g, s).prim == (if |c| == 2 then g.prim[s := null][Rep(g, s) := null] else g.prim[s := null])
      && Split(g, s).filed == g.filed
  {
  }

  lemma LeftWithAlike(g: Graph, g2: Graph, g3: Graph, p: PageObject, po: PageObject)
    requires LeftWith(g, g2, p, po) && g3.filed == g2.filed && g3.drawn1 == g2.drawn1 && g3.drawn2 == g2.drawn2
    ensures LeftWith(g, g3, p, po)
  {
    hide Moved, Touches;
    forall l | l in g.drawn1 && l in g.drawn2 ensures Undrawn(g, g3, po, l) { assert Undrawn(g, g2, po, l); }
  }

  lemma PredecessorIn(g: Graph, p: PageObject, i: nat)
    requires GroupsOk(g) && p in g.chains && i < |g.chains[p]|
    ensures g.chains[p][i] in g.next
  {
    hide Placed, Headed;
    assert InPlace(g, p, i);
  }

  lemma RenamedLinks(v: Graph, v3: Graph, p: PageObject)
    requires LinksOk(v) && p in v.prim && (v.prim[p] == null || v.prim[p] == p)
    requires v3.next.Keys == v.next.Keys && (v3.prim == v.prim || v3.prim == v.prim[p := null])
    requires v3.filed == v.filed && v3.drawn1 == v.drawn1 && v3.drawn2 == v.drawn2
    ensures LinksOk(v3)
  {
    hide LinksOk;
    LinksAlike(v, v3);
  }

  lemma AfterLeaving(g: Graph, v1: Graph, v3: Graph, p: PageObject, po: PageObject)
    requires LinksOk(g) && KeysOk(g) && GroupsOk(g) && Stands(g, p, po) && po in g.prim && Rep(g, po) == p && Placed(g, po) && g.place[po] > 0
    requires v1 == g.(filed := v1.filed, drawn1 := v1.drawn1, drawn2 := v1.drawn2) && LeftWith(g, v1, p, po)
    requires var c, k, r := g.chains[p], g.place[po], Split(g, po);
      v3 == v1.(next := g.next[c[k - 1] := g.next[po]][po := null],
                prim := if |c| == 2 then g.prim[po := null][p := null] else g.prim[po := null],
                chains := r.chains, place := r.place)
    ensures SameGroups(v3, Split(g, po)) && LinksOk(v3) && v3.drawn1.Keys == g.drawn1.Keys
  {
    hide *;
    PlacedAt(g, po);
    StandsIn(g, p, po);
    var c, k := g.chains[p], g.place[po];
    SplitFields(g, po);
    LeftKeys(g, v1, p, po);
    AlikeFields(v3, Split(g, po));
    var h := v1.(next := g.next[po := null], prim := g.prim[po := null]);
    LeftWithAlike(g, v1, h, p, po);
    LeftOk(g, g, h, p, po);
    PredecessorIn(g, p, k - 1);
    RenamedLinks(h, v3, p);
  }

  lemma SameGroupsRep(g: Graph, g2: Graph)
    requires SameGroups(g, g2)
    ensures g2.prim == g.prim && forall h :: h in g.prim ==> Rep(g2, h) == Rep(g, h)
  {
  }

  lemma ValidFrom(g: Graph, g2: Graph)
    requires OnePerPair(g) && LinksOk(g2) && GroupsOk(g2) && g2.drawn1.Keys == g.drawn1.Keys
    ensures Valid(g2)
  {
    hide GroupsOk, FiledOk, DrawnOk, KeysOk;
  }

  lemma SameGroupsSym(g: Graph, g2: Graph)
    requires SameGroups(g, g2)
    ensures SameGroups(g2, g)
  {
  }

  lemma DissolvedKeys2(g: Graph, p: PageObject)
    ensures Dissolved(g, p).prim.Keys == g.prim.Keys
  {
  }

  lemma DissolvedValid(g: Graph, v: Graph, p: PageObject)
    requires Valid(g) && p in g.prim && SameGroups(v, Dissolved(g, p)) && LinksOk(v) && v.drawn1.Keys == g.drawn1.Keys
    ensures Valid(v) && v.prim.Keys == g.prim.Keys
    ensures forall h :: h in g.prim ==> h in v.prim && Rep(v, h) == if Rep(g, h) == p then h else Rep(g, h)
  {
    hide GroupsOk, FiledOk, DrawnOk, KeysOk, OnePerPair, LinksOk, Rep, SameGroups;
    DissolvedOk(g, p);
    DissolvedKeys2(g, p);
    SameGroupsSym(v, Dissolved(g, p));
    MovedGroups(Dissolved(g, p), v);
    SameGroupsRep(Dissolved(g, p), v);
    ValidFrom(g, v);
  }

  lemma SplitPrimKeys(g: Graph, s: PageObject)
    requires GroupsOk(g) && s in g.prim && Placed(g, s) && g.place[s] > 0
    ensures Split(g, s).prim.Keys == g.prim.Keys
  {
    hide Placed, InPlace;
    PlacedRep(g, s);
  }

  lemma SplitValid(g: Graph, v: Graph, s: PageObject)
    requires Valid(g) && s in g.prim && Rep(g, s) != s && Placed(g, s) && g.place[s] > 0
    requires SameGroups(v, Split(g, s)) && LinksOk(v) && v.drawn1.Keys == g.drawn1.Keys
    ensures Valid(v) && v.prim.Keys == g.prim.Keys
    ensures forall h :: h in g.prim ==> h in v.prim && Rep(v, h) == if h == s then s else Rep(g, h)
  {
    hide GroupsOk, FiledOk, DrawnOk, KeysOk, OnePerPair, LinksOk, SameGroups;
    SplitOk(g, s);
    SplitPrimKeys(g, s);
    SameGroupsSym(v, Split(g, s));
    MovedGroups(Split(g, s), v);
    SameGroupsRep(Split(g, s), v);
    ValidFrom(g, v);
  }

  lemma MergedValid(g: Graph, g2: Graph, q: PageObject, p: PageObject)
    requires Merged(g, g2, q, p)
    ensures Valid(g2) <==> forall l :: l in g.drawn1 ==> WellDrawn(g2, l)
  {
    hide KeysOk, GroupsOk, FiledOk, OnePerPair, WellDrawn, HandedOver;
  }

  /** primary's group without newPrimary, joined to newPrimary, is the old group under a new name. */
  lemma RegroupedTwice(g: Graph, g1: Graph, g2: Graph, primary: PageObject, newPrimary: PageObject)
    requires newPrimary in g.prim && g1.prim.Keys == g.prim.Keys && g1.drawn1.Keys == g.drawn1.Keys
    requires forall h :: h in g.prim ==> Rep(g1, h) == if h == newPrimary then h else Rep(g, h)
    requires Merged(g1, g2, primary, newPrimary) && Rep(g, newPrimary) == primary
    ensures g2.prim.Keys == g.prim.Keys && g2.drawn1.Keys == g.drawn1.Keys
    ensures forall h :: h in g.prim ==> Rep(g2, h) == if Rep(g, h) == primary then newPrimary else Rep(g, h)
  {
    hide KeysOk, GroupsOk, FiledOk, OnePerPair, HandedOver, Rep;
  }

  /** l joins a and b, in either direction. */
  predicate Joining(l: PageLink, a: PageObject, b: PageObject) {
    (l.po1 == a && l.po2 == b) || (l.po1 == b && l.po2 == a)
  }

  ghost function WithoutLink(filed: map<PageObject, seq<PageLink>>, h: PageObject, l: PageLink): map<PageObject, seq<PageLink>> {
    if h in filed then filed[h := RemoveFirst(filed[h], l)] else filed
  }

  /** l is gone, and taken off the list of p1 and then off that of p2. */
  ghost predicate Dropped(g: Graph, g2: Graph, l: PageLink, p1: PageObject, p2: PageObject) {
    g2 == g.(filed := WithoutLink(WithoutLink(g.filed, p1, l), p2, l), drawn1 := g.drawn1 - {l}, drawn2 := g.drawn2 - {l})
  }

  lemma DroppedCount(g: Graph, g2: Graph, l: PageLink, p1: PageObject, p2: PageObject, h: PageObject, m: PageLink)
    requires FiledOk(g) && KeysOk(g) && Dropped(g, g2, l, p1, p2) && l in g.drawn1 && l.po1 in g.prim && l.po2 in g.prim
    requires p1 == Rep(g, l.po1) && p2 == Rep(g, l.po2) && h in g.filed && p1 in g.filed && p2 in g.filed
    ensures h in g2.filed && multiset(g2.filed[h])[m] == if m == l then 0 else multiset(g.filed[h])[m]
  {
    hide Joins;
    assert multiset(g.filed[h])[l] == Ends(g, l, h);
    hide FiledOk;
  }

  lemma IsDropped(g: Graph, g2: Graph, l: PageLink, p1: PageObject, p2: PageObject)
    requires g2 == g.(filed := WithoutLink(WithoutLink(g.filed, p1, l), p2, l), drawn1 := g.drawn1 - {l}, drawn2 := g.drawn2 - {l})
    ensures Dropped(g, g2, l, p1, p2)
  {
  }

  lemma OldLinks(g: Graph)
    requires Valid(g)
    ensures KeysOk(g) && GroupsOk(g) && FiledOk(g) && DrawnOk(g) && OnePerPair(g) && g.filed.Keys == g.prim.Keys
  {
  }

  lemma NowValid(g: Graph)
    requires KeysOk(g) && GroupsOk(g) && FiledOk(g) && DrawnOk(g) && OnePerPair(g)
    ensures Valid(g)
  {
  }

  lemma DroppedShape(g: Graph, g2: Graph, l: PageLink, p1: PageObject, p2: PageObject)
    requires KeysOk(g) && Dropped(g, g2, l, p1, p2)
    ensures SameGroups(g, g2) && KeysOk(g2) && g2.drawn1 == g.drawn1 - {l} && g2.drawn2 == g.drawn2 - {l}
    ensures g2.prim == g.prim && g2.filed.Keys == g.filed.Keys && g.drawn2.Keys == g.drawn1.Keys
  {
  }

  lemma SameEnds(g: Graph, g2: Graph, l: PageLink, h: PageObject)
    requires g2.prim == g.prim && Joins(g, l)
    ensures Joins(g2, l) && Ends(g2, l, h) == Ends(g, l, h)
  {
  }

  lemma DroppedFiled(g: Graph, g2: Graph, l: PageLink, p1: PageObject, p2: PageObject)
    requires KeysOk(g) && FiledOk(g) && Dropped(g, g2, l, p1, p2) && l in g.drawn1 && Joins(g, l)
    requires p1 == Rep(g, l.po1) && p2 == Rep(g, l.po2) && p1 in g.filed && p2 in g.filed
    ensures FiledOk(g2)
  {
    hide Rep, WithoutLink, Dropped, KeysOk, Ends, SameGroups;
    DroppedShape(g, g2, l, p1, p2);
    forall h, m | h in g2.filed && m in g2.filed[h] ensures m in g2.drawn1 {
      DroppedCount(g, g2, l, p1, p2, h, m);
      assert m in multiset(g2.filed[h]);
      assert m in multiset(g.filed[h]);
    }
    forall h, m | h in g2.filed && m in g2.drawn1 ensures Joins(g2, m) && multiset(g2.filed[h])[m] == Ends(g2, m, h) {
      DroppedCount(g, g2, l, p1, p2, h, m);
      assert Joins(g, m) && multiset(g.filed[h])[m] == Ends(g, m, h);
      SameEnds(g, g2, m, h);
    }
    forall m | m in g2.drawn1 ensures Joins(g2, m) { assert Joins(g, m); }
  }

  lemma DroppedDrawn(g: Graph, g2: Graph, l: PageLink)
    requires DrawnOk(g) && OnePerPair(g) && g2.prim == g.prim && g2.drawn1 == g.drawn1 - {l} && g2.drawn2 == g.drawn2 - {l}
    ensures DrawnOk(g2) && OnePerPair(g2)
  {
    forall m | m in g2.drawn1 ensures WellDrawn(g2, m) { assert WellDrawn(g, m); }
  }

  lemma DestroyedOk(g: Graph, g2: Graph, l: PageLink, p1: PageObject, p2: PageObject)
    requires Valid(g) && Dropped(g, g2, l, p1, p2) && l in g.drawn1 && Joins(g, l)
    requires p1 == Rep(g, l.po1) && p2 == Rep(g, l.po2) && p1 in g.prim && p2 in g.prim
    ensures Valid(g2)
  {
    hide *;
    OldLinks(g);
    DroppedShape(g, g2, l, p1, p2);
    DroppedFiled(g, g2, l, p1, p2);
    MovedGroups(g, g2);
    DroppedDrawn(g, g2, l);
    NowValid(g2);
  }

  ghost function WithLink(filed: map<PageObject, seq<PageLink>>, h: PageObject, l: PageLink): map<PageObject, seq<PageLink>> {
    if h in filed then filed[h := filed[h] + [l]] else filed
  }

  /** l is new, drawn between the primaries of its ends and on both lists. */
  ghost predicate Added(g: Graph, g2: Graph, l: PageLink) {
    && l.po1 in g.prim && l.po2 in g.prim
    && g2 == g.(filed := WithLink(WithLink(g.filed, Rep(g, l.po1), l), Rep(g, l.po2), l),
                drawn1 := g.drawn1[l := g.prim[l.po1]], drawn2 := g.drawn2[l := g.prim[l.po2]])
  }

  ghost function Unjoined(ls: set<PageLink>, a: PageObject, b: PageObject): set<PageLink> {
    set m | m in ls && !Joining(m, a, b)
  }

  lemma IsAdded(g: Graph, g2: Graph, l: PageLink)
    requires l.po1 in g.prim && l.po2 in g.prim
    requires g2 == g.(filed := WithLink(WithLink(g.filed, Rep(g, l.po1), l), Rep(g, l.po2), l),
                      drawn1 := g.drawn1[l := g.prim[l.po1]], drawn2 := g.drawn2[l := g.prim[l.po2]])
    ensures Added(g, g2, l)
  {
  }

  lemma AddedCount(g: Graph, g2: Graph, l: PageLink, h: PageObject, m: PageLink)
    requires FiledOk(g) && KeysOk(g) && Added(g, g2, l) && l !in g.drawn1
    requires Rep(g, l.po1) in g.prim && Rep(g, l.po2) in g.prim && h in g.filed
    ensures h in g2.filed && multiset(g2.filed[h])[m] == if m == l then Ends(g, l, h) else multiset(g.filed[h])[m]
  {
    assert l !in g.filed[h];
    hide FiledOk, Joins;
  }

  lemma AddedShape(g: Graph, g2: Graph, l: PageLink)
    requires KeysOk(g) && Added(g, g2, l)
    ensures SameGroups(g, g2) && KeysOk(g2) && g2.drawn1.Keys == g.drawn1.Keys + {l} && g2.drawn2.Keys == g.drawn2.Keys + {l}
    ensures g2.prim == g.prim && g2.filed.Keys == g.filed.Keys
    ensures g2.drawn1 == g.drawn1[l := g.prim[l.po1]] && g2.drawn2 == g.drawn2[l := g.prim[l.po2]]
  {
  }

  lemma AddedFiled(g: Graph, g2: Graph, l: PageLink)
    requires KeysOk(g) && FiledOk(g) && Added(g, g2, l) && l !in g.drawn1 && Joins(g, l)
    requires Rep(g, l.po1) in g.prim && Rep(g, l.po2) in g.prim
    ensures FiledOk(g2)
  {
    hide Rep, WithLink, Added, KeysOk, Ends, SameGroups;
    AddedShape(g, g2, l);
    forall h, m | h in g2.filed && m in g2.filed[h] ensures m in g2.drawn1 {
      AddedCount(g, g2, l, h, m);
      assert m in multiset(g2.filed[h]);
      assert m != l ==> m in multiset(g.filed[h]);
    }
    forall h, m | h in g2.filed && m in g2.drawn1 ensures Joins(g2, m) && multiset(g2.filed[h])[m] == Ends(g2, m, h) {
      AddedCount(g, g2, l, h, m);
      assert Joins(g, m) && (m != l ==> multiset(g.filed[h])[m] == Ends(g, m, h));
      SameEnds(g, g2, m, h);
    }
    forall m | m in g2.drawn1 ensures Joins(g2, m) { assert Joins(g, m); }
  }

  lemma AddedDrawn(g: Graph, g2: Graph, l: PageLink)
    requires DrawnOk(g) && OnePerPair(g) && g2.prim == g.prim && Joins(g, l)
    requires g2.drawn1 == g.drawn1[l := g.prim[l.po1]] && g2.drawn2 == g.drawn2[l := g.prim[l.po2]]
    requires forall m :: m in g.drawn1 ==> !Joining(m, l.po1, l.po2)
    ensures DrawnOk(g2) && OnePerPair(g2)
  {
    forall m | m in g2.drawn1 ensures WellDrawn(g2, m) { assert m != l ==> WellDrawn(g, m); }
  }

  lemma AddedOk(g: Graph, g2: Graph, l: PageLink)
    requires Valid(g) && Added(g, g2, l) && l !in g.drawn1 && Joins(g, l)
    requires Rep(g, l.po1) in g.prim && Rep(g, l.po2) in g.prim
    requires forall m :: m in g.drawn1 ==> !Joining(m, l.po1, l.po2)
    ensures Valid(g2)
  {
    hide *;
    OldLinks(g);
    AddedShape(g, g2, l);
    AddedFiled(g, g2, l);
    MovedGroups(g, g2);
    AddedDrawn(g, g2, l);
    NowValid(g2);
  }

  lemma JoinsTwo(g: Graph, l: PageLink)
    requires l.po1 in g.prim && l.po2 in g.prim && l.po1 != l.po2
    ensures Joins(g, l)
  {
  }

  // ---- There and back ----

  /** The same groups, the same links on every list but for order, and every link
      drawn between the same hosts. */
  ghost predicate Restored(g: Graph, g2: Graph) {
    && g2.prim.Keys == g.prim.Keys && g2.drawn1.Keys == g.drawn1.Keys
    && (forall h :: h in g.prim ==> Rep(g2, h) == Rep(g, h))
    && (forall h :: h in g.prim ==> h in g.filed && h in g2.filed && multiset(g2.filed[h]) == multiset(g.filed[h]))
    && (forall l :: l in g.drawn1 ==>
      && l in g.drawn2 && l in g2.drawn1 && l in g2.drawn2
      && Shown(l.po1, g2.drawn1[l]) == Shown(l.po1, g.drawn1[l])
      && Shown(l.po2, g2.drawn2[l]) == Shown(l.po2, g.drawn2[l]))
  }

  /** What Unmerge promises of a host that is in a group. */
  ghost predicate Unmerged(g: Graph, g2: Graph, x: PageObject) {
    && Valid(g2) && x in g.prim && g.prim[x] != null && g2.prim.Keys == g.prim.Keys && g2.drawn1.Keys == g.drawn1.Keys
    && forall h :: h in g.prim ==> Rep(g2, h) == if (g.prim[x] == x && Rep(g, h) == x) || h == x then h else Rep(g, h)
  }

  lemma IsUnmerged(g: Graph, g2: Graph, x: PageObject)
    requires Valid(g2) && x in g.prim && g.prim[x] != null && g2.prim.Keys == g.prim.Keys && g2.drawn1.Keys == g.drawn1.Keys
    requires forall h :: h in g.prim ==> Rep(g2, h) == if (g.prim[x] == x && Rep(g, h) == x) || h == x then h else Rep(g, h)
    ensures Unmerged(g, g2, x)
  {
  }

  /** Merging a host on its own and unmerging it again, or unmerging the primary it
      was merged with if that was on its own too, restores everything. */
  lemma MergeUnmergeRestores(g: Graph, g1: Graph, g2: Graph, p: PageObject, s: PageObject, x: PageObject)
    requires Valid(g) && p in g.prim && s in g.prim && p != s && Rep(g, p) == p && g.prim[s] == null
    requires Merged(g, g1, s, p) && Unmerged(g1, g2, x)
    requires x == s || (x == p && g.prim[p] == null)
    ensures Restored(g, g2)
  {
    hide InPlace, Placed, Headed, KeysOk, FiledOk, DrawnOk, OnePerPair, WellDrawn, HandedOver;
    PrimaryLeads(g, s);
    PrimaryLeads(g, p);
    forall h | h in g.prim ensures Rep(g2, h) == Rep(g, h) {
      AloneRep(g, s, h);
      if g.prim[p] == null { AloneRep(g, p, h); }
    }
    assert Valid(g2) && g2.prim.Keys == g.prim.Keys && g2.drawn1.Keys == g.drawn1.Keys;
    hide GroupsOk, Merged, Unmerged, Leads;
    SameGroupsSameGraph(g, g2);
  }

  // ---- Which hosts can be merged with a primary ----

  /** Merging s with the primary p gives a valid graph: s is of another group, and is that
      group's primary, or no link joins that primary to a host of its own group. */
  ghost predicate Mergeable(g: Graph, p: PageObject, s: PageObject) {
    && s in g.prim && Rep(g, s) != p
    && (Rep(g, s) == s || forall l :: l in g.drawn1 && Joins(g, l) ==> !WithinGroup(g, l, Rep(g, s)))
  }

  /** All of these hosts can, one after the other: no two are of the same group. */
  ghost predicate SelectionOk(g: Graph, p: PageObject, sel: seq<PageObject>) {
    && (forall i :: 0 <= i < |sel| ==> Mergeable(g, p, sel[i]))
    && (forall i, j :: 0 <= i < j < |sel| ==> Rep(g, sel[i]) != Rep(g, sel[j]))
  }

  lemma MergeableAfter(g: Graph, g2: Graph, p: PageObject, q: PageObject, x: PageObject)
    requires Regrouped(g, g2, q, p) && x in g.prim && p != q
    ensures Mergeable(g2, p, x) <==> Mergeable(g, p, x) && Rep(g, x) != q
    ensures Mergeable(g2, p, x) ==> Rep(g2, x) == Rep(g, x)
  {
    assert forall l :: l in g.drawn1 ==> (Joins(g2, l) <==> Joins(g, l));
    if Rep(g, x) != p && Rep(g, x) != q {
      assert forall l :: l in g.drawn1 && Joins(g, l) ==> (WithinGroup(g2, l, Rep(g, x)) <==> WithinGroup(g, l, Rep(g, x)));
    }
  }

  /** Whether the rest can be merged after s is known before. */
  lemma SelectionUnfolds(g: Graph, g2: Graph, p: PageObject, s: PageObject, rest: seq<PageObject>)
    requires s in g.prim && Regrouped(g, g2, Rep(g, s), p) && Mergeable(g, p, s)
    requires forall i :: 0 <= i < |rest| ==> rest[i] in g.prim
    ensures SelectionOk(g, p, [s] + rest) <==> SelectionOk(g2, p, rest)
  {
    var sel := [s] + rest;
    assert Rep(g, s) != p && g2.prim.Keys == g.prim.Keys;
    hide Mergeable, Regrouped;
    forall i | 0 <= i < |rest|
      ensures sel[i + 1] == rest[i] && rest[i] in g2.prim
      ensures Mergeable(g2, p, rest[i]) <==> Mergeable(g, p, rest[i]) && Rep(g, rest[i]) != Rep(g, s)
      ensures Mergeable(g2, p, rest[i]) ==> Rep(g2, rest[i]) == Rep(g, rest[i])
    {
      MergeableAfter(g, g2, p, Rep(g, s), rest[i]);
    }
    if SelectionOk(g, p, sel) {
      forall i | 0 <= i < |rest| ensures Mergeable(g2, p, rest[i]) {
        assert Mergeable(g, p, sel[i + 1]) && Rep(g, sel[0]) != Rep(g, sel[i + 1]);
      }
      forall i, j | 0 <= i < j < |rest| ensures Rep(g2, rest[i]) != Rep(g2, rest[j]) {
        assert Rep(g, sel[i + 1]) != Rep(g, sel[j + 1]);
      }
    }
    if SelectionOk(g2, p, rest) {
      forall i | 0 <= i < |sel| ensures Mergeable(g, p, sel[i]) {
        if i > 0 { assert Mergeable(g2, p, rest[i - 1]); }
      }
      forall i, j | 0 <= i < j < |sel| ensures Rep(g, sel[i]) != Rep(g, sel[j]) {
        assert Mergeable(g2, p, rest[j - 1]);
        if i > 0 { assert Mergeable(g2, p, rest[i - 1]); }
      }
    }
  }

  lemma FirstMergeable(g: Graph, p: PageObject, s: PageObject, rest: seq<PageObject>)
    requires SelectionOk(g, p, [s] + rest)
    ensures Mergeable(g, p, s) && s in g.prim && Rep(g, s) != p
    ensures Rep(g, s) == s || forall l :: l in g.drawn1 && Joins(g, l) ==> !WithinGroup(g, l, Rep(g, s))
  {
    assert ([s] + rest)[0] == s;
  }

  /** The groups of these hosts are now drawn as p, all others as before. */
  ghost predicate AllUnder(g: Graph, g2: Graph, p: PageObject, sel: seq<PageObject>) {
    && (forall i :: 0 <= i < |sel| ==> sel[i] in g.prim)
    && g2.prim.Keys == g.prim.Keys
    && forall h :: h in g.prim ==> Rep(g2, h) == if exists i :: 0 <= i < |sel| && Rep(g, sel[i]) == Rep(g, h) then p else Rep(g, h)
  }

  lemma NobodyUnder(g: Graph, p: PageObject)
    ensures AllUnder(g, g, p, [])
  {
  }

  lemma OneMoreUnder(g: Graph, g1: Graph, g2: Graph, p: PageObject, sel: seq<PageObject>, s: PageObject)
    requires AllUnder(g, g1, p, sel) && s in g1.prim && Rep(g1, s) != p && Regrouped(g1, g2, Rep(g1, s), p)
    ensures AllUnder(g, g2, p, sel + [s])
  {
    var more := sel + [s];
    forall h | h in g.prim
      ensures Rep(g2, h) == if exists i :: 0 <= i < |more| && Rep(g, more[i]) == Rep(g, h) then p else Rep(g, h)
    {
      if i :| 0 <= i < |sel| && Rep(g, sel[i]) == Rep(g, h) { assert more[i] == sel[i]; }
      assert more[|sel|] == s;
    }
  }

  lemma MergedKeys(g: Graph, g2: Graph, q: PageObject, p: PageObject)
    requires Merged(g, g2, q, p)
    ensures Regrouped(g, g2, q, p) && g2.prim.Keys == g.prim.Keys && g2.drawn1.Keys == g.drawn1.Keys
  {
  }

  /** Where n steps along merge lead. */
  ghost function After(next: map<PageObject, PageObject?>, h: PageObject, n: nat): PageObject?
  {
    if n == 0 then h
    else
      var m: PageObject? := After(next, h, n - 1);
      if m == null || m !in next then null else next[m]
  }

  /** Merging a host of p's own group hangs p behind its own chain, and the loop that
      then names the new primary along merge never comes to an end. */
  lemma {:induction false} RingNeverEnds(g: Graph, p: PageObject, n: nat) returns (i: nat)
    requires GroupsOk(g) && Leads(g, p)
    ensures var c := g.chains[p]; i < |c| && After(g.next[c[|c| - 1] := p], p, n) == c[i]
  {
    var c := g.chains[p];
    hide Placed, Headed;
    if n == 0 {
      i := 0;
    } else {
      var j := RingNeverEnds(g, p, n - 1);
      assert InPlace(g, p, j) && InPlace(g, p, |c| - 1);
      i := if j + 1 < |c| then j + 1 else 0;
      if j + 1 < |c| { assert c[j] != c[|c| - 1] by { assert g.place[c[j]] == j && g.place[c[|c| - 1]] == |c| - 1; } }
    }
  }

  /** Nobody's merge leads to a host that names itself. So merging with a host that is not
      its group's primary, which first makes it name itself, leaves no valid graph while
      the host before it is left as it was. */
  lemma NamedIsNotNext(g: Graph, h: PageObject, p: PageObject)
    requires GroupsOk(g) && p in g.prim && g.prim[p] == p && h in g.prim
    ensures h in g.next && g.next[h] != p
  {
    hide Headed;
    PrimaryLeads(g, p);
    assert Placed(g, h) && Placed(g, p) && InPlace(g, Rep(g, h), g.place[h]);
    var c, i := g.chains[Rep(g, h)], g.place[h];
    if i + 1 < |c| { assert InPlace(g, Rep(g, h), i + 1); }
  }
}
