/**
 The operations on a network page: merging hosts, taking them apart again,
 changing a group's primary, and linking.
 */
module MergePage {
  import opened Common
  import opened MergeGraph
  import opened MergeMoves

  /** Each primary's chain, and each host's place in its chain. */
  datatype Shape = Shape(chains: map<PageObject, seq<PageObject>>, place: map<PageObject, nat>)

  class NetPage {
    ghost const hosts: set<PageObject>
    ghost var links: set<PageLink>
    ghost var shape: Shape

    ghost function Groups(): (map<PageObject, PageObject?>, map<PageObject, PageObject?>)
      reads hosts`merge, hosts`merge_primary
    {
      (map h | h in hosts :: h.merge, map h | h in hosts :: h.merge_primary)
    }

    ghost function Lists(): map<PageObject, seq<PageLink>>
      reads hosts`links
    {
      map h | h in hosts :: h.links
    }

    ghost function Drawn(): (map<PageLink, PageObject?>, map<PageLink, PageObject?>)
      reads this`links, links`merge1, links`merge2
    {
      (map l | l in links :: l.merge1, map l | l in links :: l.merge2)
    }

    /** The graph of the page. */
    ghost function View(): Graph
      reads this, hosts, links
    {
      Graph(Groups().0, Groups().1, Lists(), Drawn().0, Drawn().1, shape.chains, shape.place)
    }

    /** A page of hosts on their own, without links. */
    constructor (ghost hs: set<PageObject>)
      requires forall h :: h in hs ==> h.merge == null && h.merge_primary == null && h.links == []
      ensures hosts == hs && links == {} && Valid(View())
    {
      hosts, links := hs, {};
      shape := Shape(map h | h in hs :: [h], map h | h in hs :: 0);
      new;
      assert Single(View());
      hide View;
      SinglesValid(View());
    }

    // ---- Redrawing the links of a group that gets a new primary ----

    method RedrawOne(pol: PageLink, q: PageObject, p: PageObject)
      modifies pol`merge1, pol`merge2
      ensures (pol.merge1, pol.merge2) == Redrawn(1, pol, old(pol.merge1), old(pol.merge2), q, p)
    {
      assert Redrawn(0, pol, pol.merge1, pol.merge2, q, p) == (pol.merge1, pol.merge2);
      if pol.po1 == q {
        pol.merge1 := p;
      } else if pol.po2 == q {
        pol.merge2 := p;
      } else if pol.merge1 == q {
        pol.merge1 := p;
      } else if pol.merge2 == q {
        pol.merge2 := p;
      }
    }

    /** The loop that tries the four places in turn and stops at the first. */
    method RedrawFirst(list: seq<PageLink>, q: PageObject, p: PageObject)
      requires forall l :: l in list ==> l in links
      modifies links`merge1, links`merge2
      ensures forall l :: l in links ==>
        (l.merge1, l.merge2) == Redrawn(multiset(list)[l], l, old(l.merge1), old(l.merge2), q, p)
    {
      assert list[..0] == [];
      forall l | l in links ensures Redrawn(0, l, l.merge1, l.merge2, q, p) == (l.merge1, l.merge2) {}
      hide Redrawn;
      for i := 0 to |list|
        invariant forall l :: l in links ==>
          (l.merge1, l.merge2) == Redrawn(multiset(list[..i])[l], l, old(l.merge1), old(l.merge2), q, p)
      {
        var pol := list[i];
        assert pol in links;
        assert list[..i+1] == list[..i] + [pol];
        RedrawnOnceMore(multiset(list[..i])[pol], pol, old(pol.merge1), old(pol.merge2), q, p);
        RedrawOne(pol, q, p);
      }
      assert list[..|list|] == list;
    }

    method TurnFirst(q: PageObject, p: PageObject)
      requires q in hosts && forall l :: l in q.links ==> l in links
      modifies links`merge1, links`merge2
      ensures View() == old(View()).(drawn1 := View().drawn1, drawn2 := View().drawn2)
      ensures TurnedFirst(old(View()), View(), q, p)
    {
      hide Groups, Redrawn;
      ghost var g := View();
      RedrawFirst(q.links, q, p);
      ghost var g2 := View();
      forall l | l in links ensures TurnsFirst(g, g2, q, p, l) { assert g.filed[q] == q.links; }
    }

    /** The loop that looks at all four places. */
    method RedrawAll(list: seq<PageLink>, q: PageObject, p: PageObject)
      requires p != q && forall l :: l in list ==> l in links
      modifies links`merge1, links`merge2
      ensures forall l :: l in links ==>
        && l.merge1 == (if l in list && (l.po1 == q || old(l.merge1) == q) then p else old(l.merge1))
        && l.merge2 == (if l in list && (l.po2 == q || old(l.merge2) == q) then p else old(l.merge2))
    {
      for i := 0 to |list|
        invariant forall l :: l in links ==>
          && l.merge1 == (if l in list[..i] && (l.po1 == q || old(l.merge1) == q) then p else old(l.merge1))
          && l.merge2 == (if l in list[..i] && (l.po2 == q || old(l.merge2) == q) then p else old(l.merge2))
      {
        var pol := list[i];
        assert pol in links;
        assert list[..i+1] == list[..i] + [pol];
        if pol.po1 == q { pol.merge1 := p; }
        if pol.po2 == q { pol.merge2 := p; }
        if pol.merge1 == q { pol.merge1 := p; }
        if pol.merge2 == q { pol.merge2 := p; }
      }
      assert list[..|list|] == list;
    }

    /** g_list_concat, and the giver's list is forgotten. */
    method HandOverLinks(q: PageObject, p: PageObject)
      requires p in hosts && q in hosts && p != q
      modifies p`links, q`links
      ensures HandedOver(old(View()), View(), q, p)
      ensures View() == old(View()).(filed := View().filed) && View().filed.Keys == hosts
    {
      hide Groups, Drawn;
      p.links := p.links + q.links;
      q.links := [];
    }

    method TurnAll(q: PageObject, p: PageObject)
      requires p != q && q in hosts && forall l :: l in q.links ==> l in links
      modifies links`merge1, links`merge2
      ensures View() == old(View()).(drawn1 := View().drawn1, drawn2 := View().drawn2)
      ensures TurnedAll(old(View()), View(), q, p)
    {
      hide Groups;
      ghost var g := View();
      RedrawAll(q.links, q, p);
      ghost var g2 := View();
      forall l | l in links ensures TurnsAll(g, g2, q, p, l) { assert g.filed[q] == q.links; }
    }

    // ---- Chains ----

    /** The i-th host of a chain leads to the next. */
    ghost predicate Chained(c: seq<PageObject>, i: nat)
      reads hosts`merge
    {
      i < |c| ==> c[i] in hosts && c[i].merge == if i + 1 < |c| then c[i + 1] else null
    }

    lemma ChainIsChained(r: PageObject)
      requires GroupsOk(View()) && r in shape.chains
      ensures forall i :: 0 <= i < |shape.chains[r]| ==> Chained(shape.chains[r], i)
      ensures |shape.chains[r]| > 0 && shape.chains[r][0] == r
      ensures forall h :: h in hosts ==> h in View().prim && (h in shape.chains[r] <==> Rep(View(), h) == r)
    {
      var g := View();
      assert Headed(g, r);
      forall i | 0 <= i < |shape.chains[r]| ensures Chained(shape.chains[r], i) { assert InPlace(g, r, i); }
      forall h | h in hosts ensures h in shape.chains[r] <==> Rep(View(), h) == r { InChain(g, r, h); }
    }

    /** page_object_get_last_merge */
    method LastMerge(po: PageObject, ghost c: seq<PageObject>) returns (last: PageObject?)
      requires |c| > 0 && c[0] == po && forall i :: 0 <= i < |c| ==> Chained(c, i)
      ensures last == if |c| == 1 then null else c[|c| - 1]
    {
      ghost var i := 1;
      assert Chained(c, 0) && (|c| > 1 ==> Chained(c, 1));
      last := po.merge;
      while last != null && last.merge != null
        invariant 1 <= i
        invariant if |c| == 1 then last == null else i < |c| && last == c[i] && Chained(c, i)
        decreases |c| - i
      {
        last := last.merge;
        i := i + 1;
        assert Chained(c, i);
      }
    }

    /** The loop over a chain that names its new primary. */
    method NamePrimary(q: PageObject, p: PageObject, ghost c: seq<PageObject>)
      requires |c| > 0 && c[0] == q && forall i :: 0 <= i < |c| ==> Chained(c, i)
      modifies hosts`merge_primary
      ensures forall h :: h in hosts ==> h.merge_primary == if h in c[1..] then p else old(h.merge_primary)
    {
      assert Chained(c, 0);
      var po := q.merge;
      ghost var j := 1;
      while po != null
        invariant 1 <= j <= |c| && po == if j < |c| then c[j] else null
        invariant forall h :: h in hosts ==> h.merge_primary == if h in c[1..j] then p else old(h.merge_primary)
        decreases |c| - j
      {
        assert Chained(c, j);
        assert c[1..j + 1] == c[1..j] + [po];
        po.merge_primary := p;
        po := po.merge;
        j := j + 1;
      }
      assert c[1..j] == c[1..];
    }

    static method HangFirst(p: PageObject, s: PageObject)
      requires s != p
      modifies p`merge, p`merge_primary, s`merge, s`merge_primary
      ensures p.merge == s && s.merge == old(p.merge) && p.merge_primary == p && s.merge_primary == p
    {
      p.merge_primary := p;
      s.merge := p.merge;
      p.merge := s;
      s.merge_primary := p;
    }

    method HangAfter(p: PageObject, s: PageObject, ghost sh: Shape)
      requires s != p && s in hosts && p in hosts
      modifies this`shape, p`merge, p`merge_primary, s`merge, s`merge_primary
      ensures shape == sh
      ensures p in old(Groups().0)
      ensures Groups().0 == old(Groups().0[s := Groups().0[p]][p := s])
      ensures Groups().1 == old(Groups().1[p := p][s := p])
      ensures Lists() == old(Lists()) && Drawn() == old(Drawn())
    {
      hide Lists, Drawn;
      shape := sh;
      HangFirst(p, s);
    }

    /** s, on its own, joins the chain right after p. */
    method SpliceSingle(p: PageObject, s: PageObject)
      requires p in hosts && s in hosts && s != p && p in shape.chains && |shape.chains[p]| > 0
      modifies this`shape, p`merge, p`merge_primary, s`merge, s`merge_primary
      ensures View() == Spliced(old(View()), p, s)
    {
      ghost var r := Spliced(View(), p, s);
      hide Groups, Lists, Drawn;
      HangAfter(p, s, Shape(r.chains, r.place));
      assert shape.chains == r.chains && shape.place == r.place;
      assert View().next == r.next && View().prim == r.prim;
    }

    /** The chain c of q is hung at the end of the chain cp of p. */
    method HangLast(p: PageObject, q: PageObject, ghost cp: seq<PageObject>, ghost c: seq<PageObject>)
      requires p in hosts && q in hosts && p != q
      requires |cp| > 0 && cp[0] == p && forall i :: 0 <= i < |cp| ==> Chained(cp, i)
      requires |c| > 0 && c[0] == q && forall i :: 0 <= i < |c| ==> Chained(c, i)
      requires cp[|cp| - 1] !in c
      modifies hosts`merge, hosts`merge_primary
      ensures forall h :: h in hosts ==> h.merge == if h == cp[|cp| - 1] then q else old(h.merge)
      ensures forall h :: h in hosts ==> h.merge_primary == if h == p || h in c then p else old(h.merge_primary)
    {
      assert Chained(cp, |cp| - 1);
      var last := LastMerge(p, cp);
      p.merge_primary := p;
      if last != null { last.merge := q; } else { p.merge := q; }
      q.merge_primary := p;
      forall i | 0 <= i < |c| ensures Chained(c, i) { assert old(Chained(c, i)); }
      NamePrimary(q, p, c);
      assert c == [q] + c[1..];
    }

    method JoinGroups(p: PageObject, q: PageObject, ghost cp: seq<PageObject>, ghost c: seq<PageObject>, ghost sh: Shape)
      requires p in hosts && q in hosts && p != q
      requires |cp| > 0 && cp[0] == p && forall i :: 0 <= i < |cp| ==> Chained(cp, i)
      requires |c| > 0 && c[0] == q && forall i :: 0 <= i < |c| ==> Chained(c, i)
      requires cp[|cp| - 1] !in c
      modifies this`shape, hosts`merge, hosts`merge_primary
      ensures shape == sh
      ensures Groups().0 == old(Groups().0[cp[|cp| - 1] := q])
      ensures Groups().1 == NewNames(old(Groups().1), p, c)
      ensures Lists() == old(Lists()) && Drawn() == old(Drawn())
    {
      hide Lists, Drawn;
      assert Chained(cp, |cp| - 1);
      shape := sh;
      HangLast(p, q, cp, c);
    }

    /** The whole chain of q is hung at the end of p's. */
    method JoinChains(p: PageObject, q: PageObject)
      requires p in hosts && q in hosts && p != q && Leads(View(), p) && Leads(View(), q) && GroupsOk(View())
      modifies this`shape, hosts`merge, hosts`merge_primary
      ensures View() == Joined(old(View()), p, q)
    {
      ghost var g := View();
      ghost var r := Joined(g, p, q);
      ghost var cp, c := shape.chains[p], shape.chains[q];
      ChainIsChained(p);
      ChainIsChained(q);
      assert cp[|cp| - 1] in cp && Chained(cp, |cp| - 1);
      JoinedFields(g, p, q);
      hide Groups, Lists, Drawn, Rep, GroupsOk, Leads, Joined, NewNames;
      JoinGroups(p, q, cp, c, Shape(r.chains, r.place));
      assert View().next == r.next && View().prim == r.prim;
      assert View().chains == r.chains && View().place == r.place;
      assert View().filed == r.filed && View().drawn1 == r.drawn1 && View().drawn2 == r.drawn2;
    }

    /** p is on its own or a primary. */
    predicate Names(p: PageObject)
      reads p`merge_primary
    {
      p.merge_primary == null || p.merge_primary == p
    }

    lemma BeforeMerge(p: PageObject)
      requires Valid(View()) && p in hosts && Names(p)
      ensures GroupsOk(View()) && Leads(View(), p) && p in shape.chains && |shape.chains[p]| > 0 && View().filed.Keys == hosts
      ensures View().drawn1.Keys == links
    {
      hide FiledOk, DrawnOk, OnePerPair, KeysOk, InPlace, Headed, Placed;
      PrimaryLeads(View(), p);
    }

    lemma ListedLinks(h: PageObject)
      requires Valid(View()) && h in hosts
      ensures forall l :: l in h.links ==> l in links
    {
      forall l | l in h.links ensures l in links {
        assert h in View().filed && l in View().filed[h];
        assert l in View().drawn1;
      }
    }

    // ---- Merging ----

    method MergeSingle(p: PageObject, s: PageObject)
      requires Valid(View()) && p in hosts && s in hosts && Names(p) && s.merge_primary == null && s != p
      modifies this`shape, hosts`merge, hosts`merge_primary, hosts`links, links`merge1, links`merge2
      ensures Leads(old(View()), p) && SameGroups(View(), Spliced(old(View()), p, s))
      ensures HandedOver(old(View()), View(), s, p) && TurnedFirst(old(View()), View(), s, p)
      ensures View().drawn1.Keys == old(View()).drawn1.Keys && View().drawn2.Keys == old(View()).drawn2.Keys
    {
      hide *;
      ghost var g := View();
      BeforeMerge(p);
      ListedLinks(s);
      SplicedFiled(g, p, s);
      SpliceSingle(p, s);
      ghost var g1 := View();
      assert forall l :: l in s.links ==> l in links;
      TurnFirst(s, p);
      ghost var g2 := View();
      HandOverLinks(s, p);
      ghost var g3 := View();
      TurnedFirstAlike(g1, g2, g, g3, s, p);
      MovedTo(g, g1, g2, g3, s, p);
    }

    /** The secondary q is the primary of its group. */
    method MergePrimary(p: PageObject, q: PageObject)
      requires Valid(View()) && p in hosts && q in hosts && Names(p) && Names(q) && q != p
      modifies this`shape, hosts`merge, hosts`merge_primary, hosts`links, links`merge1, links`merge2
      ensures Leads(old(View()), p) && Leads(old(View()), q) && SameGroups(View(), Joined(old(View()), p, q))
      ensures HandedOver(old(View()), View(), q, p) && TurnedAll(old(View()), View(), q, p)
      ensures View().drawn1.Keys == old(View()).drawn1.Keys && View().drawn2.Keys == old(View()).drawn2.Keys
    {
      hide *;
      ghost var g := View();
      BeforeMerge(p);
      BeforeMerge(q);
      ListedLinks(q);
      TurnAll(q, p);
      ghost var g1 := View();
      HandOverLinks(q, p);
      ghost var g2 := View();
      ThenJoined(g, g1, g2, p, q);
      JoinChains(p, q);
      TurnedAllAlike(g, g1, g, View(), q, p);
    }

    /** The secondary is neither on its own nor the primary q of its group. */
    method MergeMember(p: PageObject, q: PageObject)
      requires Valid(View()) && p in hosts && q in hosts && Names(p) && Names(q) && q != p
      modifies this`shape, hosts`merge, hosts`merge_primary, hosts`links, links`merge1, links`merge2
      ensures Leads(old(View()), p) && Leads(old(View()), q) && SameGroups(View(), Joined(old(View()), p, q))
      ensures HandedOver(old(View()), View(), q, p) && TurnedFirst(old(View()), View(), q, p)
      ensures View().drawn1.Keys == old(View()).drawn1.Keys && View().drawn2.Keys == old(View()).drawn2.Keys
    {
      hide *;
      ghost var g := View();
      BeforeMerge(p);
      BeforeMerge(q);
      ListedLinks(q);
      TurnFirst(q, p);
      ghost var g1 := View();
      HandOverLinks(q, p);
      ghost var g2 := View();
      ThenJoined(g, g1, g2, p, q);
      JoinChains(p, q);
      TurnedFirstAlike(g, g1, g, View(), q, p);
    }

    /** The host h is drawn as. */
    function Primary(h: PageObject): PageObject
      reads h`merge_primary
    {
      if h.merge_primary == null then h else h.merge_primary
    }

    lemma NamesRep(h: PageObject)
      requires Valid(View()) && h in hosts
      ensures h in View().prim && View().prim[h] == h.merge_primary && Rep(View(), h) in View().prim && Rep(View(), h) in hosts && Names(Rep(View(), h)) && Rep(View(), Rep(View(), h)) == Rep(View(), h)
      ensures Leads(View(), Rep(View(), h)) && Rep(View(), h) == Primary(h)
      ensures Names(h) <==> Rep(View(), h) == h
      ensures Rep(View(), h) == (if h.merge_primary == null then h else h.merge_primary)
    {
      hide FiledOk, DrawnOk, OnePerPair, InPlace, Headed;
      PlacedRep(View(), h);
      HeadIsRep(View(), Rep(View(), h));
      PrimaryLeads(View(), Rep(View(), h));
    }

    /** page_object_merge, for two different groups, the first named by its primary. */
    method Merge(p: PageObject, s: PageObject)
      requires Valid(View()) && p in hosts && s in hosts && Names(p) && Rep(View(), s) != p
      modifies this`shape, hosts`merge, hosts`merge_primary, hosts`links, links`merge1, links`merge2
      ensures Merged(old(View()), View(), old(Rep(View(), s)), p)
      ensures Leads(old(View()), p) && Leads(old(View()), old(Rep(View(), s)))
      ensures SameGroups(View(), if old(s.merge_primary == null) then Spliced(old(View()), p, s) else Joined(old(View()), p, old(Rep(View(), s))))
      ensures forall l :: l in links ==> Joins(old(View()), l)
      ensures forall l :: l in links ==> (WellDrawn(View(), l) <==> old(Names(s)) || !WithinGroup(old(View()), l, old(Rep(View(), s))))
      ensures Valid(View()) <==> forall l :: l in links ==> old(Names(s)) || !WithinGroup(old(View()), l, old(Rep(View(), s)))
    {
      hide *;
      ghost var g := View();
      BeforeMerge(p);
      NamesRep(p);
      NamesRep(s);
      ghost var q := Rep(g, s);
      if s.merge_primary != null {
        if s.merge_primary == s {
          MergePrimary(p, s);
          AfterJoined(g, View(), s, p);
          TurnedAllDraws(g, View(), s, p);
        } else {
          MergeMember(p, s.merge_primary);
          AfterJoined(g, View(), q, p);
          TurnedFirstDraws(g, View(), q, p);
        }
      } else {
        MergeSingle(p, s);
        AfterSpliced(g, View(), s, p);
        TurnedFirstDraws(g, View(), s, p);
      }
      MergedValid(g, View(), q, p);
    }

    lemma KeysAreLinks()
      ensures View().drawn1.Keys == links
    {
    }

    lemma Unfolded()
      requires Valid(View())
      ensures LinksOk(View()) && KeysOk(View()) && GroupsOk(View()) && View().chains == shape.chains && View().place == shape.place
      ensures View().prim.Keys == hosts
    {
    }

    /** net_page_merge_plink: the selected hosts are merged with the first, one after the other. */
    method MergeSelected(p: PageObject, sel: seq<PageObject>)
      requires Valid(View()) && p in hosts && Names(p) && forall i :: 0 <= i < |sel| ==> sel[i] in hosts
      requires SelectionOk(View(), p, sel)
      modifies this`shape, hosts`merge, hosts`merge_primary, hosts`links, links`merge1, links`merge2
      ensures Valid(View()) && View().prim.Keys == old(View()).prim.Keys && View().drawn1.Keys == old(View()).drawn1.Keys
      ensures AllUnder(old(View()), View(), p, sel)
    {
      hide *;
      ghost var g := View();
      NobodyUnder(g, p);
      NamesRep(p);
      assert sel[..0] == [] && sel[0..] == sel;
      for i := 0 to |sel|
        invariant Valid(View()) && Names(p) && View().prim.Keys == g.prim.Keys && View().drawn1.Keys == g.drawn1.Keys
        invariant SelectionOk(View(), p, sel[i..])
        invariant AllUnder(g, View(), p, sel[..i])
      {
        ghost var g1 := View();
        var s := sel[i];
        assert sel[i..] == [s] + sel[i + 1..] && sel[..i + 1] == sel[..i] + [s];
        NamesRep(s);
        Unfolded();
        FirstMergeable(g1, p, s, sel[i + 1..]);
        KeysAreLinks();
        Merge(p, s);
        MergedKeys(g1, View(), Rep(g1, s), p);
        SelectionUnfolds(g1, View(), p, s, sel[i + 1..]);
        OneMoreUnder(g, g1, View(), p, sel[..i], s);
        NamesRep(p);
        assert Rep(View(), p) == p;
      }
      assert sel[..|sel|] == sel;
    }

    // ---- Unmerging ----

    /** The loop that gives po, which is leaving p's group, its links back. It starts
        again from the head of the list whenever it has moved one. */
    method MoveBack(p: PageObject, po: PageObject)
      requires p != po && po.links == [] && forall l :: l in p.links ==> l in links && l.po1 != l.po2
      modifies p`links, po`links, links`merge1, links`merge2
      ensures Moved(old(p.links), p.links, po.links, po) && forall l :: l in p.links && l !in po.links ==> !Touches(l, po)
      ensures forall l :: l in links ==> l.merge1 == if l in po.links && l.po1 == po then null else old(l.merge1)
      ensures forall l :: l in links ==> l.merge2 == if l in po.links && l.po2 == po then null else old(l.merge2)
    {
      hide Moved, RemoveFirst;
      ghost var had := p.links;
      var current := 0;
      NoneMoved(had, po);
      while current < |p.links|
        invariant current <= |p.links|
        invariant forall l :: l in p.links ==> l in links && l.po1 != l.po2
        invariant Moved(had, p.links, po.links, po)
        invariant forall k :: 0 <= k < current ==> p.links[k] in po.links || !Touches(p.links[k], po)
        invariant forall l :: l in links ==> l.merge1 == if l in po.links && l.po1 == po then null else old(l.merge1)
        invariant forall l :: l in links ==> l.merge2 == if l in po.links && l.po2 == po then null else old(l.merge2)
        decreases |p.links|, |p.links| - current
      {
        var pol := p.links[current];
        current := current + 1;
        if pol !in po.links {
          if pol.po1 == po {
            OneMoved(had, p.links, po.links, po, pol);
            p.links := RemoveFirst(p.links, pol);
            po.links := po.links + [pol];
            pol.merge1 := null;
            current := 0;
          } else if pol.po2 == po {
            OneMoved(had, p.links, po.links, po, pol);
            p.links := RemoveFirst(p.links, pol);
            po.links := po.links + [pol];
            pol.merge2 := null;
            current := 0;
          }
        }
      }
    }

    method MoveBackTo(p: PageObject, po: PageObject)
      requires p in hosts && po in hosts && p != po && po.links == []
      requires forall l :: l in p.links ==> l in links && l.po1 != l.po2
      modifies p`links, po`links, links`merge1, links`merge2
      ensures View() == old(View()).(filed := View().filed, drawn1 := View().drawn1, drawn2 := View().drawn2)
      ensures LeftWith(old(View()), View(), p, po)
    {
      hide Groups, Moved;
      ghost var g := View();
      MoveBack(p, po);
      ghost var v := View();
      forall h | h in hosts && h != p && h != po ensures v.filed[h] == g.filed[h] { assert h.links == g.filed[h]; }
      forall l | l in links ensures Undrawn(g, v, po, l) { assert l.merge1 == v.drawn1[l] && l.merge2 == v.drawn2[l]; }
    }

    lemma BeforeRelease(p: PageObject, po: PageObject)
      requires p in hosts && po in hosts && LinksOk(View()) && Stands(View(), p, po)
      ensures p != po && po.links == [] && forall l :: l in p.links ==> l in links && l.po1 != l.po2
    {
      hide DrawnOk, Rep;
      var g := View();
      assert g.filed[po] == po.links && g.filed[p] == p.links;
      forall l | l in g.drawn1 ensures multiset(po.links)[l] == 0 {
        assert Joins(g, l) && multiset(g.filed[po])[l] == Ends(g, l, po);
      }
      forall l ensures multiset(po.links)[l] == 0 {
        assert l in multiset(po.links) ==> l in g.filed[po];
        assert l in g.filed[po] ==> l in g.drawn1;
      }
      assert multiset(po.links) == multiset{};
      assert |multiset(po.links)| == |po.links|;
      forall l | l in p.links ensures l in links && l.po1 != l.po2 {
        assert l in g.filed[p] && l in g.drawn1;
        assert Joins(g, l);
      }
    }

    method Unname(po: PageObject)
      requires po in hosts
      modifies po`merge, po`merge_primary
      ensures View() == old(View()).(next := old(View()).next[po := null], prim := old(View()).prim[po := null])
    {
      hide Lists, Drawn;
      ghost var g := View();
      po.merge := null;
      po.merge_primary := null;
      assert Groups().0 == g.next[po := null];
      assert Groups().1 == g.prim[po := null];
    }

    /** po, a secondary of p, names no primary any more and gets its links back. */
    method Release(p: PageObject, po: PageObject)
      requires p in hosts && po in hosts && LinksOk(View()) && Stands(View(), p, po)
      modifies po`merge, po`merge_primary, p`links, po`links, links`merge1, links`merge2
      ensures View().next == old(View()).next[po := null] && View().prim == old(View()).prim[po := null]
      ensures LinksOk(View()) && View().drawn1.Keys == old(View()).drawn1.Keys
    {
      hide *;
      ghost var g := View();
      BeforeRelease(p, po);
      Unname(po);
      ghost var g1 := View();
      MoveBackTo(p, po);
      LeftOk(g, g1, View(), p, po);
    }

    ghost method SetShape(sh: Shape)
      modifies this`shape
      ensures shape == sh && View() == old(View()).(chains := sh.chains, place := sh.place)
    {
      hide Groups, Lists, Drawn;
      shape := sh;
    }

    lemma FieldsOf(h: PageObject)
      ensures h in View().next <==> h in hosts
      ensures h in hosts ==> h in View().prim && View().next[h] == h.merge && View().prim[h] == h.merge_primary
    {
    }

    lemma BeforeUnmerge(p: PageObject)
      requires Valid(View()) && p in hosts && p.merge_primary == p
      ensures LinksOk(View()) && GroupsOk(View()) && KeysOk(View()) && p in shape.chains && View().chains == shape.chains && Leads(View(), p)
      ensures var c := shape.chains[p]; |c| > 0 && c[0] == p && p.merge == if 1 < |c| then c[1] else null
    {
      hide InPlace, Placed, Headed, FiledOk, DrawnOk, OnePerPair;
      PrimaryLeads(View(), p);
      FieldsOf(p);
    }

    /** The primary p leaves its group, and so does everybody else. */
    method UnmergePrimary(p: PageObject)
      requires Valid(View()) && p in hosts && p.merge_primary == p
      modifies this`shape, hosts`merge, hosts`merge_primary, hosts`links, links`merge1, links`merge2
      ensures SameGroups(View(), Dissolved(old(View()), p)) && LinksOk(View())
      ensures View().drawn1.Keys == old(View()).drawn1.Keys
    {
      hide *;
      ghost var g := View();
      BeforeUnmerge(p);
      ghost var c := shape.chains[p];
      var po := p.merge;
      ghost var j := 1;
      FreedNone(g.next);
      FreedNone(g.prim);
      assert c[1..1] == [];
      while po != null
        invariant 1 <= j <= |c| && po == (if j < |c| then c[j] else null)
        invariant LinksOk(View()) && shape == old(shape) && View().drawn1.Keys == g.drawn1.Keys
        invariant View().next == Freed(g.next, c[1..j]) && View().prim == Freed(g.prim, c[1..j])
        decreases |c| - j
      {
        StandsNext(g, View(), p, c, j);
        FieldsOf(po);
        var next := po.merge;
        FreedOne(g.next, c[1..j], po);
        FreedOne(g.prim, c[1..j], po);
        assert c[1..j + 1] == c[1..j] + [po];
        Release(p, po);
        po := next;
        j := j + 1;
      }
      assert c[1..j] == c[1..];
      ghost var v := View();
      Unname(p);
      ghost var r := Dissolved(g, p);
      ghost var v2 := View();
      SetShape(Shape(r.chains, r.place));
      AllFreed(g, v, v2, View(), p);
    }

    /** The loop that takes po out of p's chain. It walks on to the end. */
    method TakeOut(p: PageObject, po: PageObject, ghost c: seq<PageObject>, ghost k: nat)
      requires |c| > 0 && c[0] == p && 1 <= k < |c| && c[k] == po && NoDup(c)
      requires forall i :: 0 <= i < |c| ==> Chained(c, i)
      modifies hosts`merge
      ensures forall h :: h in hosts ==> h.merge == if h == c[k - 1] then (if k + 1 < |c| then c[k + 1] else null) else old(h.merge)
      ensures c[k - 1] in hosts
    {
      assert Chained(c, 0) && Chained(c, 1) && Chained(c, k - 1);
      var prev: PageObject?, next := null, p.merge;
      ghost var i := 1;
      while next != null
        invariant 1 <= i <= |c| && next == (if i < |c| then c[i] else null)
        invariant prev == if i == 1 then null else c[i - 1]
        invariant forall h :: h in hosts ==>
          (h.merge == if i > k && h == c[k - 1] then (if k + 1 < |c| then c[k + 1] else null) else old(h.merge))
        decreases |c| - i
      {
        assert old(Chained(c, i)) && old(Chained(c, k));
        if next == po {
          assert i == k;
          if prev != null { prev.merge := po.merge; } else { p.merge := po.merge; }
        }
        prev := next;
        next := next.merge;
        i := i + 1;
      }
    }

    method Detach(p: PageObject, po: PageObject, ghost c: seq<PageObject>, ghost k: nat)
      requires |c| > 0 && c[0] == p && 1 <= k < |c| && c[k] == po && NoDup(c)
      requires forall i :: 0 <= i < |c| ==> Chained(c, i)
      modifies hosts`merge, hosts`merge_primary
      ensures forall h :: h in hosts ==>
        (h.merge == if h == po then null else if h == c[k - 1] then (if k + 1 < |c| then c[k + 1] else null) else old(h.merge))
      ensures forall h :: h in hosts ==> h.merge_primary == if h == po || (h == p && |c| == 2) then null else old(h.merge_primary)
    {
      assert Chained(c, 0) && Chained(c, k) && Chained(c, k - 1);
      TakeOut(p, po, c, k);
      assert p.merge == null <==> |c| == 2;
      if p.merge == null { p.merge_primary := null; }
      po.merge_primary := null;
      po.merge := null;
    }

    method DetachGroups(p: PageObject, po: PageObject, ghost c: seq<PageObject>, ghost k: nat)
      requires |c| > 0 && c[0] == p && 1 <= k < |c| && c[k] == po && NoDup(c)
      requires forall i :: 0 <= i < |c| ==> Chained(c, i)
      modifies hosts`merge, hosts`merge_primary
      ensures po in old(View()).next
      ensures View() == old(View()).(
        next := old(View()).next[c[k - 1] := old(View()).next[po]][po := null],
        prim := if |c| == 2 then old(View()).prim[po := null][p := null] else old(View()).prim[po := null])
    {
      hide Lists, Drawn;
      ghost var g := View();
      assert Chained(c, 0) && Chained(c, k) && Chained(c, k - 1);
      Detach(p, po, c, k);
      assert Groups().0 == g.next[c[k - 1] := g.next[po]][po := null];
      assert Groups().1 == if |c| == 2 then g.prim[po := null][p := null] else g.prim[po := null];
    }

    lemma BeforeLeaving(po: PageObject)
      requires Valid(View()) && po in hosts && po.merge_primary != null && po.merge_primary != po
      ensures var g, p := View(), po.merge_primary;
        && LinksOk(g) && KeysOk(g) && GroupsOk(g) && Stands(g, p, po) && g.chains == shape.chains && g.place == shape.place
        && p in hosts && po in g.prim && Rep(g, po) == p && Placed(g, po) && g.place[po] > 0 && Leads(g, p)
        && p in shape.chains && po in shape.place && p != po && po.links == []
        && (forall l :: l in p.links ==> l in links && l.po1 != l.po2)
      ensures var c, k := shape.chains[po.merge_primary], shape.place[po];
        && |c| > 0 && c[0] == po.merge_primary && 1 <= k < |c| && c[k] == po && NoDup(c)
        && forall i :: 0 <= i < |c| ==> Chained(c, i)
    {
      hide *;
      var g := View();
      Unfolded();
      FieldsOf(po);
      NamesRep(po);
      SplitOk(g, po);
      PlacedAt(g, po);
      var p := po.merge_primary;
      forall h | h in g.prim ensures Rep(g, h) != po { NotARep(g, p, po, h); }
      StandsFor(g, p, po);
      BeforeRelease(p, po);
      ChainIsChained(p);
      ChainNoDup(g, p);
    }

    /** The secondary po leaves its group. */
    method UnmergeSecondary(po: PageObject)
      requires Valid(View()) && po in hosts && po.merge_primary != null && po.merge_primary != po
      modifies this`shape, hosts`merge, hosts`merge_primary, hosts`links, links`merge1, links`merge2
      ensures po in old(View()).prim && Placed(old(View()), po) && old(View()).place[po] > 0
      ensures SameGroups(View(), Split(old(View()), po)) && LinksOk(View())
      ensures View().drawn1.Keys == old(View()).drawn1.Keys
    {
      hide *;
      ghost var g := View();
      BeforeLeaving(po);
      var p := po.merge_primary;
      MoveBackTo(p, po);
      ghost var v1 := View();
      ghost var c, k := shape.chains[p], shape.place[po];
      DetachGroups(p, po, c, k);
      ghost var r := Split(g, po);
      SetShape(Shape(r.chains, r.place));
      AfterLeaving(g, v1, View(), p, po);
    }

    /** page_object_unmerge. Without a group there is only a complaint. */
    method Unmerge(p: PageObject) returns (complained: bool)
      requires Valid(View()) && p in hosts
      modifies this`shape, hosts`merge, hosts`merge_primary, hosts`links, links`merge1, links`merge2
      ensures Valid(View()) && complained == (old(p.merge_primary) == null)
      ensures if old(p.merge_primary) == null then View() == old(View()) else Unmerged(old(View()), View(), p)
      ensures forall h :: h in hosts ==> h in View().prim && h in old(View()).prim
      ensures forall h :: h in hosts ==>
        (Rep(View(), h) == if (old(p.merge_primary) == p && Rep(old(View()), h) == p) || h == p then h else Rep(old(View()), h))
      ensures View().prim.Keys == old(View()).prim.Keys && View().drawn1.Keys == old(View()).drawn1.Keys
    {
      hide *;
      ghost var g := View();
      Unfolded();
      NamesRep(p);
      complained := false;
      if p.merge_primary == p {
        UnmergePrimary(p);
        DissolvedValid(g, View(), p);
        IsUnmerged(g, View(), p);
      } else if p.merge_primary != null {
        UnmergeSecondary(p);
        SplitValid(g, View(), p);
        IsUnmerged(g, View(), p);
      } else {
        complained := true;
      }
    }

    /** The walk along primary's chain for h. */
    method FindInChain(primary: PageObject, h: PageObject, ghost c: seq<PageObject>) returns (found: bool)
      requires |c| > 0 && c[0] == primary && forall i :: 0 <= i < |c| ==> Chained(c, i)
      ensures found <==> h in c
    {
      var p: PageObject? := primary;
      ghost var i := 0;
      while p != null && p != h
        invariant 0 <= i <= |c| && p == (if i < |c| then c[i] else null)
        invariant h !in c[..i]
        decreases |c| - i
      {
        assert Chained(c, i);
        assert c[..i + 1] == c[..i] + [c[i]];
        p := p.merge;
        i := i + 1;
      }
      assert c[..|c|] == c;
      found := p == h;
    }

    /** page_object_set_merge_primary, called with the primary of a group. */
    method SetMergePrimary(primary: PageObject, newPrimary: PageObject)
      requires Valid(View()) && primary in hosts && newPrimary in hosts && primary.merge_primary == primary
      modifies this`shape, hosts`merge, hosts`merge_primary, hosts`links, links`merge1, links`merge2
      ensures Valid(View()) && View().prim.Keys == old(View()).prim.Keys && View().drawn1.Keys == old(View()).drawn1.Keys
      ensures forall h :: h in hosts ==> h in View().prim && h in old(View()).prim
      ensures forall h :: h in hosts ==> (Rep(View(), h) ==
        if old(Rep(View(), newPrimary)) == primary && Rep(old(View()), h) == primary then newPrimary else Rep(old(View()), h))
    {
      hide *;
      ghost var g := View();
      Unfolded();
      BeforeUnmerge(primary);
      ChainIsChained(primary);
      NamesRep(primary);
      NamesRep(newPrimary);
      if newPrimary.merge_primary != newPrimary {
        var found := FindInChain(primary, newPrimary, shape.chains[primary]);
        if found {
          var _ := Unmerge(newPrimary);
          NamesRep(newPrimary);
          NamesRep(primary);
          ghost var g1 := View();
          Merge(newPrimary, primary);
          RegroupedTwice(g, g1, View(), primary, newPrimary);
        }
      }
    }

    // ---- Links ----

    /** One of the two search loops of page_object_link_get. */
    method FindLink(list: seq<PageLink>, a: PageObject, b: PageObject) returns (pol: PageLink?)
      ensures pol != null ==> pol in list && Joining(pol, a, b)
      ensures pol == null ==> forall l :: l in list ==> !Joining(l, a, b)
    {
      for i := 0 to |list|
        invariant forall l :: l in list[..i] ==> !Joining(l, a, b)
      {
        if Joining(list[i], a, b) { return list[i]; }
        assert list[..i + 1] == list[..i] + [list[i]];
      }
      assert list[..|list|] == list;
      pol := null;
    }

    lemma FiledWithPrimary(l: PageLink, a: PageObject, b: PageObject)
      requires Valid(View()) && a in hosts && l in links && Joining(l, a, b)
      ensures l in Primary(a).links
    {
      hide GroupsOk, DrawnOk, OnePerPair;
      var g := View();
      var r := Primary(a);
      NamesRep(a);
      assert r == Rep(g, a);
      assert l in g.drawn1 && Joins(g, l) && r in g.filed && g.filed[r] == r.links;
      assert multiset(g.filed[r])[l] == Ends(g, l, r);
    }

    /** page_object_link_get: only the lists of the two primaries are searched. */
    method LinkGet(a: PageObject, b: PageObject) returns (pol: PageLink?)
      requires Valid(View()) && a in hosts && b in hosts
      ensures pol != null ==> pol in links && Joining(pol, a, b)
      ensures pol == null <==> forall l :: l in links ==> !Joining(l, a, b)
    {
      hide *;
      Unfolded();
      NamesRep(a);
      NamesRep(b);
      ListedLinks(Primary(a));
      ListedLinks(Primary(b));
      pol := FindLink(Primary(a).links, a, b);
      if pol == null { pol := FindLink(Primary(b).links, a, b); }
      forall l | l in links && Joining(l, a, b) ensures l in Primary(a).links { FiledWithPrimary(l, a, b); }
    }

    method TakeFrom(h: PageObject, pol: PageLink)
      requires h in hosts
      modifies h`links
      ensures View() == old(View()).(filed := WithoutLink(old(View()).filed, h, pol))
    {
      hide Groups, Drawn, RemoveFirst;
      ghost var g := View();
      h.links := RemoveFirst(h.links, pol);
      assert Lists() == WithoutLink(g.filed, h, pol);
    }

    method Free(pol: PageLink)
      modifies this`links
      ensures links == old(links) - {pol}
      ensures View() == old(View()).(drawn1 := old(View()).drawn1 - {pol}, drawn2 := old(View()).drawn2 - {pol})
    {
      hide Groups, Lists;
      ghost var g := View();
      links := links - {pol};
      assert Drawn().0 == g.drawn1 - {pol};
      assert Drawn().1 == g.drawn2 - {pol};
    }

    lemma BeforeDestroy(pol: PageLink)
      requires Valid(View()) && pol in links
      ensures var p1, p2 := Shown(pol.po1, pol.merge1), Shown(pol.po2, pol.merge2);
        && p1 in hosts && p2 in hosts && Joins(View(), pol) && p1 == Rep(View(), pol.po1) && p2 == Rep(View(), pol.po2)
        && pol in View().drawn1 && p1 in View().prim && p2 in View().prim
      ensures Shown(pol.po1, pol.merge1) == (if pol.merge1 != null then pol.merge1 else pol.po1)
      ensures Shown(pol.po2, pol.merge2) == (if pol.merge2 != null then pol.merge2 else pol.po2)
    {
      hide GroupsOk, OnePerPair;
      var g := View();
      assert pol in g.drawn1 && Joins(g, pol) && WellDrawn(g, pol);
      NamesRep(pol.po1);
      NamesRep(pol.po2);
    }

    /** page_object_link_destroy without a host that is going away. */
    method LinkDestroy(pol: PageLink)
      requires Valid(View()) && pol in links
      modifies this`links, hosts`links
      ensures Valid(View()) && links == old(links) - {pol}
    {
      hide *;
      ghost var g := View();
      BeforeDestroy(pol);
      var p1 := if pol.merge1 != null then pol.merge1 else pol.po1;
      var p2 := if pol.merge2 != null then pol.merge2 else pol.po2;
      TakeFrom(p1, pol);
      TakeFrom(p2, pol);
      Free(pol);
      IsDropped(g, View(), pol, p1, p2);
      DestroyedOk(g, View(), pol, p1, p2);
    }

    method FileWith(h: PageObject, pol: PageLink)
      requires h in hosts
      modifies h`links
      ensures View() == old(View()).(filed := WithLink(old(View()).filed, h, pol))
    {
      hide Groups, Drawn;
      ghost var g := View();
      h.links := h.links + [pol];
      assert Lists() == WithLink(g.filed, h, pol);
    }

    method Enter(pol: PageLink)
      requires pol !in links
      modifies this`links
      ensures links == old(links) + {pol}
      ensures View() == old(View()).(drawn1 := old(View()).drawn1[pol := pol.merge1], drawn2 := old(View()).drawn2[pol := pol.merge2])
    {
      hide Groups, Lists;
      ghost var g := View();
      links := links + {pol};
      assert Drawn().0 == g.drawn1[pol := pol.merge1];
      assert Drawn().1 == g.drawn2[pol := pol.merge2];
    }

    /** The link goes on the lists of the primaries of its ends. */
    method FileLink(pol: PageLink)
      requires pol !in links && pol.po1 in hosts && pol.po2 in hosts && Primary(pol.po1) in hosts && Primary(pol.po2) in hosts
      modifies this`links, hosts`links
      ensures links == old(links) + {pol}
      ensures View() == old(View()).(
        filed := WithLink(WithLink(old(View()).filed, old(Primary(pol.po1)), pol), old(Primary(pol.po2)), pol),
        drawn1 := old(View()).drawn1[pol := pol.merge1], drawn2 := old(View()).drawn2[pol := pol.merge2])
    {
      hide View, WithLink;
      FileWith(Primary(pol.po1), pol);
      FileWith(Primary(pol.po2), pol);
      Enter(pol);
    }

    /** The new link of net_page_map_page_objects. */
    method NewLink(a: PageObject, b: PageObject) returns (pol: PageLink)
      requires Valid(View()) && a in hosts && b in hosts && a != b && forall l :: l in links ==> !Joining(l, a, b)
      modifies this`links, hosts`links
      ensures Valid(View()) && fresh(pol) && links == old(links) + {pol} && pol.po1 == a && pol.po2 == b
    {
      hide *;
      ghost var g := View();
      NamesRep(a);
      NamesRep(b);
      Unfolded();
      KeysAreLinks();
      pol := new PageLink(a, b);
      if a.merge_primary != null { pol.merge1 := a.merge_primary; }
      if b.merge_primary != null { pol.merge2 := b.merge_primary; }
      assert View() == g;
      FileLink(pol);
      IsAdded(g, View(), pol);
      JoinsTwo(g, pol);
      AddedOk(g, View(), pol);
    }

    lemma OneJoining(pol: PageLink, a: PageObject, b: PageObject)
      requires Valid(View()) && pol in links && Joining(pol, a, b)
      ensures Unjoined(links, a, b) == links - {pol}
    {
      hide GroupsOk, FiledOk, DrawnOk;
      forall l | l in links && Joining(l, a, b) ensures l == pol {
        assert l in View().drawn1 && pol in View().drawn1 && Same(l, pol);
      }
    }

    method DropPair(a: PageObject, b: PageObject)
      requires Valid(View()) && a in hosts && b in hosts
      modifies this`links, hosts`links
      ensures Valid(View()) && links == Unjoined(old(links), a, b)
    {
      hide View;
      var pol := LinkGet(a, b);
      if pol != null {
        OneJoining(pol, a, b);
        LinkDestroy(pol);
      }
    }

    /** net_page_map_page_objects: the link of the pair is replaced. */
    method MapPageObjects(a: PageObject, b: PageObject) returns (ghost pol: PageLink?)
      requires Valid(View()) && a in hosts && b in hosts
      modifies this`links, hosts`links
      ensures Valid(View())
      ensures a == b ==> links == old(links)
      ensures a != b ==> pol != null && fresh(pol) && pol.po1 == a && pol.po2 == b && links == Unjoined(old(links), a, b) + {pol}
    {
      hide View, Valid;
      pol := null;
      if a != b {
        DropPair(a, b);
        DropPair(a, b);
        pol := NewLink(a, b);
      }
    }
  }

  lemma Alone(page: NetPage, p: PageObject, q: PageObject, m: PageObject)
    requires Valid(page.View()) && page.hosts == {p, q, m} && p != q && q != m && p != m
    requires q.merge_primary == null && m.merge_primary == null
    ensures page.Names(q) && page.Names(m) && Rep(page.View(), m) == m
  {
    page.NamesRep(q);
    page.NamesRep(m);
  }

  lemma NoneToDrop(a: PageObject, b: PageObject)
    ensures Unjoined({}, a, b) == {}
  {
  }

  lemma Grouped(page: NetPage, g: Graph, p: PageObject, q: PageObject, m: PageObject)
    requires Leads(g, q) && SameGroups(page.View(), Spliced(g, q, m))
    requires p in g.prim && g.prim[p] == null && p != q && p != m && {p, q, m} <= page.hosts
    ensures p.merge_primary == null && q.merge_primary == q && m.merge_primary == q
  {
    page.FieldsOf(p);
    page.FieldsOf(q);
    page.FieldsOf(m);
  }

  /** Two hosts with a link between them, merged. */
  method LinkedGroup(p: PageObject, q: PageObject, m: PageObject) returns (page: NetPage, ghost l: PageLink)
    requires p != q && p != m && q != m
    requires forall h :: h in {p, q, m} ==> h.merge == null && h.merge_primary == null && h.links == []
    modifies p, q, m
    ensures fresh(page) && fresh(page.links) && page.hosts == {p, q, m} && Valid(page.View())
    ensures l in page.links && l.po1 == q && l.po2 == m
    ensures p.merge_primary == null && q.merge_primary == q && m.merge_primary == q
  {
    hide *;
    page := new NetPage({p, q, m});
    ghost var pol := page.MapPageObjects(q, m);
    l := pol;
    NoneToDrop(q, m);
    assert page.links == {l};
    ghost var g := page.View();
    page.FieldsOf(p);
    Alone(page, p, q, m);
    page.Merge(q, m);
    Grouped(page, g, p, q, m);
  }

  lemma WithinItsGroup(g: Graph, l: PageLink, q: PageObject)
    requires l.po1 in g.prim && l.po2 in g.prim && l.po1 == q && Rep(g, l.po2) == q
    ensures WithinGroup(g, l, q)
  {
  }

  /** Merging then with a host that is not the primary of that group leaves the link with
      a stale end: the graph was valid and is not any more. */
  method StaleEnd(p: PageObject, q: PageObject, m: PageObject) returns (page: NetPage, ghost before: Graph)
    requires p != q && p != m && q != m
    requires forall h :: h in {p, q, m} ==> h.merge == null && h.merge_primary == null && h.links == []
    modifies p, q, m
    ensures Valid(before) && !Valid(page.View())
  {
    hide *;
    ghost var l;
    page, l := LinkedGroup(p, q, m);
    before := page.View();
    page.NamesRep(p);
    page.NamesRep(m);
    page.NamesRep(q);
    WithinItsGroup(before, l, q);
    page.Merge(p, m);
  }
}
