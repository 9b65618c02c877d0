/**
 The agent's table of file descriptors. The caller holds a handle, a cell with the
 index of its entry; removing an entry moves the last one into its place.
 */
module IoTable {
  import opened Common

  /** What a caller holds. */
  class Handle {
    var id: int

    constructor (i: int)
      ensures id == i
    {
      id := i;
    }
  }

  datatype PollFd = PollFd(fd: int, events: int, revents: bool)
  datatype IoRec = IoRec(callback: int, data: int, id: Handle?)

  /** An entry as its owner knows it. Callback and data zero are null. */
  datatype Entry = Entry(fd: int, events: int, callback: int, data: int)

  // ---- Capacity ----

  const GROW: nat := 512
  const UINT_RANGE: nat := 0x1_0000_0000

  /** maxfdcnt after n enlargements: it starts at -1, as an unsigned number. */
  function MaxFdCnt(n: nat): nat { (UINT_RANGE - 1 + n * GROW) % UINT_RANGE }

  /** The number of entries realloc is asked for. */
  function Capacity(n: nat): nat { (MaxFdCnt(n) + 1) % UINT_RANGE }

  lemma WrapBelow(a: nat)
    ensures ((UINT_RANGE - 1 + a) % UINT_RANGE + 1) % UINT_RANGE == a % UINT_RANGE
  {
  }

  lemma CapacityIs(n: nat)
    ensures Capacity(n) == n * GROW % UINT_RANGE
  {
    WrapBelow(n * GROW);
  }

  /** The arrays have room as long as they have been enlarged fewer than two to the
      twenty-third times; then the number asked for is zero. */
  lemma CapacityExactly(n: nat)
    ensures Capacity(n) == n * GROW % UINT_RANGE
    ensures n < 0x80_0000 ==> Capacity(n) == n * GROW >= n
    ensures Capacity(0x80_0000) == 0
  {
    CapacityIs(n);
    CapacityIs(0x80_0000);
    hide Capacity;
  }

  lemma MaxFdCntNext(n: nat)
    ensures MaxFdCnt(n + 1) == (MaxFdCnt(n) + GROW) % UINT_RANGE
    ensures MaxFdCnt(n) == (MaxFdCnt(n + 1) + UINT_RANGE - GROW) % UINT_RANGE
  {
  }

  /** The test before adding never finds enough room: the arrays grow every time. */
  lemma GrowsAlways(entries: nat, n: nat)
    requires entries <= n < 0x80_0000
    ensures entries < MaxFdCnt(n)
  {
    assert n > 0 ==> MaxFdCnt(n) == n * GROW - 1;
  }

  const LIMIT: nat := 0x80_0000

  /** One enlargement: the count goes up and would come down again, and there is more room. */
  lemma OneMore(n: nat)
    requires n + 1 < LIMIT
    ensures (MaxFdCnt(n) + GROW) % UINT_RANGE == MaxFdCnt(n + 1)
    ensures (MaxFdCnt(n + 1) + UINT_RANGE - GROW) % UINT_RANGE == MaxFdCnt(n)
    ensures (MaxFdCnt(n + 1) + 1) % UINT_RANGE == Capacity(n + 1)
    ensures n < Capacity(n + 1) && Capacity(n) <= Capacity(n + 1)
  {
    CapacityExactly(n);
    CapacityExactly(n + 1);
    MaxFdCntNext(n);
    hide MaxFdCnt;
  }

  /** Whether each of the allocations of one call succeeds. */
  datatype Memory = Memory(records: bool, pollfds: bool, cell: bool)

  datatype Request = Request(entry: Entry, memory: Memory)

  /** What a callback does: it adds entries, may remove its own, and says whether it
      wants to be kept. */
  datatype Reaction = Reaction(adds: seq<Request>, removesSelf: bool, keep: bool)

  predicate Stays(r: Reaction) { r.keep && !r.removesSelf }

  // ---- The pass over the table ----

  /** The owners of the rows once the callback at x has added news: the last row is moved
      over that of a caller that does not stay. */
  ghost function Turned(os: seq<Handle>, x: nat, news: seq<Handle>, stays: bool): (r: seq<Handle>)
    requires x < |os|
  {
    var o := os + news;
    if stays then o else o[x := o[|o| - 1]][..|o| - 1]
  }

  lemma TurnedTwice(os: seq<Handle>, x: nat, news: seq<Handle>, stays: bool)
    requires x < |os|
    ensures Turned(os + news, x, [], stays) == Turned(os, x, news, stays)
  {
    assert (os + news) + [] == os + news;
  }

  /** The last row's owner, if it was moved into the place of a caller that went. */
  ghost function Passed(os: seq<Handle>, x: nat, news: seq<Handle>, stays: bool): seq<Handle>
    requires x < |os|
  {
    var o := os + news;
    if stays || x == |o| - 1 then [] else [o[|o| - 1]]
  }

  lemma TurnedRows(os: seq<Handle>, x: nat, n: seq<Handle>, stays: bool)
    requires x < |os|
    ensures var r := Turned(os, x, n, stays);
            && |r| == |os + n| - (if stays then 0 else 1)
            && (forall i :: x < i < |r| ==> r[i] == if i < |os| then os[i] else n[i - |os|])
            && (forall h :: h in r ==> h in os || h in n)
  {
    var o := os + n;
    assert forall h :: h in o ==> h in os || h in n;
    assert o[|o| - 1] in o;
  }

  /** The first row from x on whose owner poll found ready, or the end. */
  ghost function NextHot(os: seq<Handle>, x: nat, hot: set<Handle>): (y: nat)
    requires x <= |os|
    ensures x <= y <= |os| && (forall i :: x <= i < y ==> os[i] !in hot) && (y < |os| ==> os[y] in hot)
    decreases |os| - x
  {
    if x == |os| || os[x] in hot then x else NextHot(os, x + 1, hot)
  }

  /** Where a pass has got to: the row, the rows' owners, whom it has called, and who was
      moved into a place already passed. */
  datatype Place = Place(x: nat, owners: seq<Handle>, called: seq<Handle>, passed: seq<Handle>)

  /** The callback of row y is called and adds n. */
  ghost function CalledAt(p: Place, y: nat, n: seq<Handle>, react: Handle -> Reaction): (r: Place)
    requires p.x <= y < |p.owners|
    ensures r.x <= |r.owners|
  {
    var h := p.owners[y];
    var s := Stays(react(h));
    var os := Turned(p.owners, y, n, s);
    Place(if y < |os| then y + 1 else y, os, p.called + [h], p.passed + Passed(p.owners, y, n, s))
  }

  /** The pass over the rows of os up to the end of the last of |news| calls, of which the
      k-th added news[k]. */
  ghost function Pass(os: seq<Handle>, hot: set<Handle>, news: seq<seq<Handle>>, react: Handle -> Reaction): (p: Place)
    ensures p.x <= |p.owners|
    decreases |news|
  {
    if news == [] then Place(0, os, [], [])
    else
      var p := Pass(os, hot, news[..|news| - 1], react);
      var y := NextHot(p.owners, p.x, hot);
      if y == |p.owners| then p else CalledAt(p, y, news[|news| - 1], react)
  }

  /** New entries are not among those poll found ready. */
  ghost predicate Cold(news: seq<seq<Handle>>, hot: set<Handle>) {
    forall k, h :: 0 <= k < |news| && h in news[k] ==> h !in hot
  }

  /** What poll finds ready. */
  ghost function Hot(contents: map<Handle, Entry>, ready: Handle -> bool): set<Handle> {
    set h | h in contents && ready(h)
  }

  /** How many of the called went. */
  function Leaving(called: seq<Handle>, react: Handle -> Reaction): nat {
    if called == [] then 0
    else Leaving(called[..|called| - 1], react) + if Stays(react(called[|called| - 1])) then 0 else 1
  }

  lemma TurnedMembers(os: seq<Handle>, x: nat, n: seq<Handle>, stays: bool, h: Handle)
    requires x < |os| && h in os[x + 1..]
    ensures stays || x < |os + n| - 1
    ensures x + 1 <= |Turned(os, x, n, stays)|
    ensures h in Turned(os, x, n, stays)[x + 1..] || h in Passed(os, x, n, stays)
  {
    var o := os + n;
    var i :| x + 1 <= i < |os| && os[i] == h;
    var r := Turned(os, x, n, stays);
    if stays || i < |o| - 1 { assert r[i] == h && r[x + 1..][i - (x + 1)] == h; }
  }

  lemma PassStarts(os: seq<Handle>, hot: set<Handle>, react: Handle -> Reaction)
    ensures Pass(os, hot, [], react) == Place(0, os, [], [])
  {
  }

  lemma ColdRow(os: seq<Handle>, x: nat, hot: set<Handle>)
    requires x < |os| && os[x] !in hot
    ensures NextHot(os, x, hot) == NextHot(os, x + 1, hot)
  {
  }

  lemma CalledAtMisses(p: Place, y: nat, n: seq<Handle>, react: Handle -> Reaction, hot: set<Handle>, h: Handle)
    requires p.x <= |p.owners| && y == NextHot(p.owners, p.x, hot) && y < |p.owners| && h in hot
    requires h in p.called || h in p.passed || h in p.owners[p.x..]
    ensures var r := CalledAt(p, y, n, react); h in r.called || h in r.passed || h in r.owners[r.x..]
  {
    if h in p.owners[p.x..] && h != p.owners[y] {
      var i :| p.x <= i < |p.owners| && p.owners[i] == h;
      assert i > y;
      assert p.owners[y + 1..][i - (y + 1)] == h;
      TurnedMembers(p.owners, y, n, Stays(react(p.owners[y])), h);
    }
  }

  lemma CalledAtLeaves(p: Place, y: nat, n: seq<Handle>, react: Handle -> Reaction)
    requires p.x <= y < |p.owners| && |p.passed| <= Leaving(p.called, react)
    ensures var r := CalledAt(p, y, n, react); |r.passed| <= Leaving(r.called, react)
  {
    assert CalledAt(p, y, n, react).called[..|p.called|] == p.called;
  }

  /** Every entry that was ready is called, or was moved into a place already passed, or is
      still to come; and at most one was so moved for each caller that went. */
  lemma {:induction false} PassMissesFew(os: seq<Handle>, hot: set<Handle>, news: seq<seq<Handle>>, react: Handle -> Reaction)
    ensures var p := Pass(os, hot, news, react);
            && (forall h :: h in os && h in hot ==> h in p.called || h in p.passed || h in p.owners[p.x..])
            && |p.passed| <= Leaving(p.called, react)
    decreases |news|
  {
    hide CalledAt;
    if news == [] {
      assert os[0..] == os;
    } else {
      PassMissesFew(os, hot, news[..|news| - 1], react);
      var p := Pass(os, hot, news[..|news| - 1], react);
      var y := NextHot(p.owners, p.x, hot);
      if y < |p.owners| {
        var n := news[|news| - 1];
        CalledAtLeaves(p, y, n, react);
        forall h | h in os && h in hot
          ensures var r := CalledAt(p, y, n, react); h in r.called || h in r.passed || h in r.owners[r.x..]
        {
          CalledAtMisses(p, y, n, react, hot, h);
        }
      }
    }
  }

  /** The pass is over when no ready entry is left to come. */
  ghost predicate Over(p: Place, hot: set<Handle>)
  {
    p.x <= |p.owners| && NextHot(p.owners, p.x, hot) == |p.owners|
  }

  lemma OverReachesAll(os: seq<Handle>, hot: set<Handle>, news: seq<seq<Handle>>, react: Handle -> Reaction)
    requires Over(Pass(os, hot, news, react), hot)
    ensures var p := Pass(os, hot, news, react);
            && (forall h :: h in os && h in hot ==> h in p.called || h in p.passed)
            && |p.passed| <= Leaving(p.called, react)
  {
    PassMissesFew(os, hot, news, react);
    var p := Pass(os, hot, news, react);
    forall h | h in p.owners[p.x..] ensures h !in hot {
      var i :| p.x <= i < |p.owners| && p.owners[i] == h;
    }
  }

  /** From x on a ready entry is at one row only, and is neither called nor passed over. */
  ghost predicate StillToCome(p: Place, hot: set<Handle>) {
    && p.x <= |p.owners|
    && (forall i :: p.x <= i < |p.owners| && p.owners[i] in hot ==> p.owners[i] !in p.called && p.owners[i] !in p.passed)
    && (forall i, j :: p.x <= i < j < |p.owners| && p.owners[i] in hot ==> p.owners[i] != p.owners[j])
    && (forall h :: h in p.passed && h in hot ==> h !in p.called)
  }

  lemma CalledAtStillToCome(p: Place, y: nat, n: seq<Handle>, react: Handle -> Reaction, hot: set<Handle>)
    requires StillToCome(p, hot) && p.x <= y < |p.owners| && p.owners[y] in hot && forall h :: h in n ==> h !in hot
    ensures StillToCome(CalledAt(p, y, n, react), hot)
  {
    var s := Stays(react(p.owners[y]));
    var r := CalledAt(p, y, n, react);
    TurnedRows(p.owners, y, n, s);
    hide Turned, Stays;
    assert forall i :: y < i < |r.owners| && r.owners[i] in hot ==> i < |p.owners|;
    forall h | h in r.passed && h in hot && h !in p.passed
      ensures h != p.owners[y] && h !in p.called
      ensures forall i :: r.x <= i < |r.owners| ==> r.owners[i] != h
    {
      var o := p.owners + n;
      assert h == o[|o| - 1] && y < |o| - 1;
    }
  }

  /** If what is added is not ready yet, a ready entry is missed exactly if it was the last
      row when a caller went and took that caller's place. */
  lemma {:induction false} PassMissesExactly(os: seq<Handle>, hot: set<Handle>, news: seq<seq<Handle>>, react: Handle -> Reaction)
    requires NoDup(os) && Cold(news, hot)
    ensures StillToCome(Pass(os, hot, news, react), hot)
    ensures var p := Pass(os, hot, news, react);
            Over(p, hot) ==> forall h :: h in os && h in hot ==> (h !in p.called <==> h in p.passed)
    decreases |news|
  {
    hide CalledAt;
    if news != [] {
      var m := |news| - 1;
      assert Cold(news[..m], hot);
      PassMissesExactly(os, hot, news[..m], react);
      var p := Pass(os, hot, news[..m], react);
      var y := NextHot(p.owners, p.x, hot);
      if y < |p.owners| {
        assert forall h :: h in news[m] ==> h !in hot;
        CalledAtStillToCome(p, y, news[m], react, hot);
      }
    }
    if Over(Pass(os, hot, news, react), hot) { OverReachesAll(os, hot, news, react); }
  }

  /** Of two ready entries the second is missed when the first goes. */
  lemma TwoReady(a: Handle, b: Handle)
    requires a != b
    ensures var p := Pass([a, b], {a, b}, [[]], (h: Handle) => Reaction([], false, h != a));
            Over(p, {a, b}) && p.called == [a] && p.passed == [b]
  {
    var react := (h: Handle) => Reaction([], false, h != a);
    var news: seq<seq<Handle>> := [[]];
    assert news[..0] == [];
    PassStarts([a, b], {a, b}, react);
    assert Turned([a, b], 0, [], false) == [b] by { assert [a, b] + [] == [a, b]; }
  }

  lemma {:induction false} AllStay(called: seq<Handle>, react: Handle -> Reaction)
    requires forall h :: h in called ==> Stays(react(h))
    ensures Leaving(called, react) == 0
    decreases |called|
  {
    if called != [] { AllStay(called[..|called| - 1], react); }
  }

  function Product(a: nat, b: nat): nat { a * b }

  lemma Budget(most: nat, n: nat)
    requires n > 0
    ensures Product(most, n) == most + Product(most, n - 1)
  {
  }

  /** Exactly the callers that did not want to stay are gone. */
  ghost predicate AllServed(contents: map<Handle, Entry>, contents2: map<Handle, Entry>, called: seq<Handle>, react: Handle -> Reaction) {
    && (forall h :: h in contents ==> (h in contents2 <==> h !in called || Stays(react(h))))
    && (forall h :: h in contents && h in contents2 ==> contents2[h] == contents[h])
  }

  /** Of the entries there were, only h's may have gone. */
  ghost predicate Served(contents: map<Handle, Entry>, contents2: map<Handle, Entry>, h: Handle, stays: bool) {
    && (forall g :: g in contents ==> (g in contents2 <==> g != h || stays))
    && (forall g :: g in contents && g in contents2 ==> contents2[g] == contents[g])
  }

  /** Entries have been added at the end, and nothing else changed. */
  ghost predicate Grown(owners: seq<Handle>, owners2: seq<Handle>, contents: map<Handle, Entry>, contents2: map<Handle, Entry>) {
    && owners <= owners2
    && (forall h :: h in contents ==> h in contents2 && contents2[h] == contents[h])
    && (forall h :: h in contents2 ==> h in contents || h in owners2[|owners|..])
  }

  lemma ServedAfter(os: seq<Handle>, os1: seq<Handle>, c0: map<Handle, Entry>, c1: map<Handle, Entry>, h: Handle, stays: bool)
    requires Grown(os, os1, c0, c1)
    ensures Served(c0, if stays then c1 else c1 - {h}, h, stays)
  {
  }

  /** What a pass starts from: the rows, the entries and those of them that are ready. */
  datatype Course = Course(os: seq<Handle>, n: nat, hot: set<Handle>, c0: map<Handle, Entry>)

  /** The pass has come to row x of these owners and entries. */
  ghost predicate Come(pass: Course, react: Handle -> Reaction, x: nat, os: seq<Handle>, contents: map<Handle, Entry>,
                       called: seq<Handle>, news: seq<seq<Handle>>)
  {
    var p := Pass(pass.os, pass.hot, news, react);
    && os == p.owners && called == p.called && |news| == |called|
    && p.x <= x && (if x <= |os| then NextHot(os, x, pass.hot) == NextHot(os, p.x, pass.hot) else p.x == |os|)
    && AllServed(pass.c0, contents, called, react)
    && NoDup(called) && (forall h :: h in called ==> h in pass.hot)
    && (forall h :: h in pass.hot ==> h in pass.c0)
    && forall i :: x <= i < |os| && os[i] in pass.hot ==> i < pass.n && os[i] !in called
  }

  lemma NoneServed(contents: map<Handle, Entry>, react: Handle -> Reaction)
    ensures AllServed(contents, contents, [], react)
  {
  }

  lemma ComeStart(pass: Course, react: Handle -> Reaction)
    requires pass.n == |pass.os| && forall h :: h in pass.hot ==> h in pass.c0
    ensures Come(pass, react, 0, pass.os, pass.c0, [], [])
  {
    PassStarts(pass.os, pass.hot, react);
    NoneServed(pass.c0, react);
    hide AllServed;
  }

  lemma ComeBelow(pass: Course, react: Handle -> Reaction, x: nat, os: seq<Handle>, contents: map<Handle, Entry>,
                  called: seq<Handle>, news: seq<seq<Handle>>)
    requires Come(pass, react, x, os, contents, called, news) && x < |os| && os[x] in pass.hot
    ensures x < pass.n && forall h :: h in pass.hot ==> h in pass.c0
  {
  }

  lemma ComeCold(pass: Course, react: Handle -> Reaction, x: nat, os: seq<Handle>, contents: map<Handle, Entry>,
                 called: seq<Handle>, news: seq<seq<Handle>>)
    requires Come(pass, react, x, os, contents, called, news) && x < |os| && os[x] !in pass.hot
    ensures Come(pass, react, x + 1, os, contents, called, news)
  {
    ColdRow(os, x, pass.hot);
    hide Pass, NextHot, AllServed;
  }

  lemma OneServed(c0: map<Handle, Entry>, c1: map<Handle, Entry>, c2: map<Handle, Entry>, called: seq<Handle>, h: Handle, react: Handle -> Reaction)
    requires AllServed(c0, c1, called, react) && Served(c1, c2, h, Stays(react(h))) && h !in called
    requires forall g :: g in c2 ==> g in c1 || g !in c0
    ensures AllServed(c0, c2, called + [h], react)
  {
  }

  // ---- The pass of one call of cheops_io_wait ----

  lemma ComePlace(pass: Course, react: Handle -> Reaction, x: nat, os: seq<Handle>, contents: map<Handle, Entry>,
                  called: seq<Handle>, news: seq<seq<Handle>>)
    requires Come(pass, react, x, os, contents, called, news) && x < |os|
    ensures var p := Pass(pass.os, pass.hot, news, react);
            && os == p.owners && called == p.called && p.x <= x && NextHot(os, x, pass.hot) == NextHot(os, p.x, pass.hot)
  {
    hide Pass, NextHot;
  }

  lemma ComeCalled(pass: Course, x: nat, os: seq<Handle>, called: seq<Handle>, added: seq<Handle>, os2: seq<Handle>)
    requires x < |os| && os[x] in pass.hot && NoDup(os) && NoDup(called)
    requires |os2| <= |os| + |added|
    requires forall i :: x < i < |os2| ==> os2[i] == if i < |os| then os[i] else added[i - |os|]
    requires forall g :: g in added ==> g !in pass.hot
    requires forall i :: x <= i < |os| && os[i] in pass.hot ==> i < pass.n && os[i] !in called
    ensures NoDup(called + [os[x]])
    ensures forall i :: x + 1 <= i < |os2| && os2[i] in pass.hot ==> i < pass.n && os2[i] !in called + [os[x]]
  {
    forall i | x + 1 <= i < |os2| && os2[i] in pass.hot
      ensures i < pass.n && os2[i] !in called + [os[x]]
    {
      assert i < |os|;
    }
  }

  lemma ComePass(pass: Course, react: Handle -> Reaction, x: nat, os: seq<Handle>, called: seq<Handle>, news: seq<seq<Handle>>, added: seq<Handle>)
    requires x < |os| && os[x] in pass.hot
    requires var p := Pass(pass.os, pass.hot, news, react);
             && os == p.owners && called == p.called && p.x <= x && NextHot(os, x, pass.hot) == NextHot(os, p.x, pass.hot)
    ensures var p := Pass(pass.os, pass.hot, news + [added], react);
            var os2 := Turned(os, x, added, Stays(react(os[x])));
            && os2 == p.owners && called + [os[x]] == p.called && p.x <= x + 1
            && (if x + 1 <= |os2| then NextHot(os2, x + 1, pass.hot) == NextHot(os2, p.x, pass.hot) else p.x == |os2|)
  {
    var more := news + [added];
    assert more[..|more| - 1] == news && more[|more| - 1] == added;
    assert NextHot(os, x, pass.hot) == x;
    hide Turned;
    TurnedRows(os, x, added, Stays(react(os[x])));
  }

  lemma ComeOn(pass: Course, react: Handle -> Reaction, x: nat, os: seq<Handle>, contents: map<Handle, Entry>,
               called: seq<Handle>, news: seq<seq<Handle>>, added: seq<Handle>, os2: seq<Handle>, contents2: map<Handle, Entry>)
    requires Come(pass, react, x, os, contents, called, news) && x < |os| && os[x] in pass.hot && NoDup(os)
    requires os2 == Turned(os, x, added, Stays(react(os[x]))) && Served(contents, contents2, os[x], Stays(react(os[x])))
    requires forall g :: g in added ==> g !in pass.hot && g !in pass.c0
    requires (forall g :: g in os <==> g in contents) && (forall g :: g in os2 <==> g in contents2)
    ensures Come(pass, react, x + 1, os2, contents2, called + [os[x]], news + [added])
  {
    var h := os[x];
    ComePlace(pass, react, x, os, contents, called, news);
    ComePass(pass, react, x, os, called, news, added);
    hide Turned, Served, AllServed, Stays, Pass, NextHot, NoDup;
    TurnedRows(os, x, added, Stays(react(h)));
    assert forall g :: g in contents2 ==> g in contents || g in added;
    OneServed(pass.c0, contents, contents2, called, h, react);
    ComeCalled(pass, x, os, called, added, os2);
  }

  /** A whole pass: who was called and who was passed over. */
  ghost predicate Completed(os: seq<Handle>, os2: seq<Handle>, hot: set<Handle>, called: seq<Handle>, passed: seq<Handle>,
                            news: seq<seq<Handle>>, react: Handle -> Reaction)
  {
    var p := Pass(os, hot, news, react);
    && Over(p, hot) && os2 == p.owners && called == p.called && passed == p.passed && |news| == |called|
    && NoDup(called) && (forall h :: h in called ==> h in hot)
    && (forall h :: h in hot && h in os ==> h in called || h in passed)
    && |passed| <= Leaving(called, react)
    && ((forall h :: h in hot ==> Stays(react(h))) ==> passed == [])
  }

  lemma ComeOver(pass: Course, react: Handle -> Reaction, x: nat, os: seq<Handle>, contents: map<Handle, Entry>,
                 called: seq<Handle>, news: seq<seq<Handle>>)
    requires Come(pass, react, x, os, contents, called, news) && x >= |os|
    ensures Completed(pass.os, os, pass.hot, called, Pass(pass.os, pass.hot, news, react).passed, news, react)
    ensures AllServed(pass.c0, contents, called, react)
  {
    var p := Pass(pass.os, pass.hot, news, react);
    assert NextHot(os, |os|, pass.hot) == |os|;
    assert Over(p, pass.hot);
    OverReachesAll(pass.os, pass.hot, news, react);
    if forall h :: h in pass.hot ==> Stays(react(h)) { AllStay(called, react); }
    hide AllServed, Stays, Leaving;
  }

  class Table {
    var fds: array<PollFd>
    var ior: array<IoRec>
    var fdcnt: nat
    var maxfdcnt: nat
    var currentIoc: int
    var removeCurrentIoc: bool
    ghost var enlarged: nat
    ghost var owners: seq<Handle>
    ghost var contents: map<Handle, Entry>   // the table as its users see it

    ghost predicate Slot(i: nat)
      reads this`fds, this`ior, this`owners, this`contents, fds, ior, owners
    {
      && i < |owners| && i < fds.Length && i < ior.Length
      && ior[i].id == owners[i] && owners[i].id == i
      && owners[i] in contents && contents[owners[i]] == Entry(fds[i].fd, fds[i].events, ior[i].callback, ior[i].data)
    }

    /** Every entry's cell holds its index, and the entries are those the users see. */
    ghost predicate Valid()
      reads this`fds, this`ior, this`owners, this`contents, this`fdcnt, this`maxfdcnt, this`enlarged, fds, ior, owners
    {
      && |owners| == fdcnt <= enlarged < LIMIT && fdcnt <= fds.Length <= ior.Length
      && maxfdcnt == MaxFdCnt(enlarged) && fds.Length == Capacity(enlarged)
      && (forall i :: 0 <= i < fdcnt ==> Slot(i))
      && (forall h :: h in contents ==> h in owners)
    }

    constructor ()
      ensures Valid() && contents == map[] && currentIoc == -1 && enlarged == 0
      ensures fresh(fds) && fresh(ior)
    {
      fds := new PollFd[0];
      ior := new IoRec[0];
      fdcnt, maxfdcnt, currentIoc, removeCurrentIoc := 0, UINT_RANGE - 1, -1, false;
      enlarged, owners, contents := 0, [], map[];
    }

    /** The cells of all entries. */
    ghost function Cells(): set<Handle>
      reads this`owners
    {
      set h | h in owners
    }

    /** Every row is in order. */
    ghost predicate Rows()
      reads this`fds, this`ior, this`owners, this`contents, this`fdcnt, fds, ior, owners
    {
      |owners| == fdcnt <= fds.Length <= ior.Length && forall i :: 0 <= i < fdcnt ==> Slot(i)
    }

    /** realloc of the array of callbacks. */
    method EnlargeRecords(size: nat)
      requires Rows() && size >= fds.Length
      modifies this`ior
      ensures Rows() && fresh(ior) && ior.Length == size
    {
      ior := new IoRec[size](i requires 0 <= i < size reads this, ior => if i < ior.Length then ior[i] else IoRec(0, 0, null));
      forall i | 0 <= i < fdcnt ensures Slot(i) { assert old(Slot(i)); }
    }

    /** realloc of the array of descriptors. */
    method EnlargeFds(size: nat)
      requires Rows() && fdcnt <= size <= ior.Length
      modifies this`fds
      ensures Rows() && fresh(fds) && fds.Length == size && forall i :: 0 <= i < fdcnt ==> fds[i] == old(fds[i])
    {
      fds := new PollFd[size](i requires 0 <= i < size reads this, fds => if i < fds.Length then fds[i] else PollFd(0, 0, false));
      forall i | 0 <= i < fdcnt ensures Slot(i) { assert old(Slot(i)); }
    }

    /** io_grow. If only the second allocation fails the first array stays enlarged. */
    method Grow(memory: Memory) returns (r: int)
      requires Valid() && enlarged + 1 < LIMIT
      modifies this`fds, this`ior, this`maxfdcnt, this`enlarged
      ensures Valid() && (fds == old(fds) || fresh(fds)) && (ior == old(ior) || fresh(ior))
      ensures r == if memory.records && memory.pollfds then 0 else -1
      ensures enlarged == old(enlarged) + if r == 0 then 1 else 0
      ensures r == 0 ==> fdcnt < fds.Length
      ensures forall i :: 0 <= i < fdcnt ==> fds[i] == old(fds[i])
    {
      OneMore(enlarged);
      hide MaxFdCnt, Capacity, Slot;
      maxfdcnt := (maxfdcnt + GROW) % UINT_RANGE;
      var size := (maxfdcnt + 1) % UINT_RANGE;
      if !memory.records {
        maxfdcnt := (maxfdcnt + UINT_RANGE - GROW) % UINT_RANGE;
        return -1;
      }
      EnlargeRecords(size);
      if !memory.pollfds {
        maxfdcnt := (maxfdcnt + UINT_RANGE - GROW) % UINT_RANGE;
        return -1;
      }
      EnlargeFds(size);
      enlarged := enlarged + 1;
      return 0;
    }

    /** The new last row is filled in; the table does not have it yet. */
    method Fill(e: Entry, h: Handle?)
      requires Valid() && fdcnt < fds.Length
      modifies fds, ior
      ensures Valid() && fds[fdcnt] == PollFd(e.fd, e.events, false) && ior[fdcnt] == IoRec(e.callback, e.data, h)
      ensures forall i :: 0 <= i < fdcnt ==> fds[i] == old(fds[i])
    {
      fds[fdcnt] := PollFd(e.fd, e.events, false);
      ior[fdcnt] := IoRec(e.callback, e.data, h);
      forall i | 0 <= i < fdcnt ensures Slot(i) { assert old(Slot(i)); }
    }

    /** The filled row becomes part of the table. */
    method Count(e: Entry, h: Handle)
      requires Valid() && fdcnt < fds.Length && fdcnt < enlarged
      requires h !in owners && h.id == fdcnt && ior[fdcnt] == IoRec(e.callback, e.data, h) && fds[fdcnt] == PollFd(e.fd, e.events, false)
      modifies this`fdcnt, this`owners, this`contents
      ensures Valid() && fdcnt == old(fdcnt) + 1 && contents == old(contents)[h := e] && owners == old(owners) + [h]
    {
      fdcnt := fdcnt + 1;
      owners := owners + [h];
      contents := contents[h := e];
      forall i | 0 <= i < fdcnt ensures Slot(i) {
        if i < fdcnt - 1 { assert old(Slot(i)); }
      }
    }

    /** cheops_io_add; null if there is no memory. */
    method Add(e: Entry, memory: Memory) returns (h: Handle?)
      requires Valid() && enlarged + 1 < LIMIT
      modifies this, fds, ior
      ensures Valid() && (fds == old(fds) || fresh(fds)) && (ior == old(ior) || fresh(ior))
      ensures h == null <==> !(memory.records && memory.pollfds && memory.cell)
      ensures h == null ==> contents == old(contents) && owners == old(owners)
      ensures h != null ==> fresh(h) && contents == old(contents)[h := e] && owners == old(owners) + [h] && !fds[fdcnt - 1].revents
      ensures enlarged <= old(enlarged) + 1 && currentIoc == old(currentIoc) && removeCurrentIoc == old(removeCurrentIoc)
      ensures forall i :: 0 <= i < old(fdcnt) ==> i < fds.Length && fds[i] == old(fds[i])
    {
      GrowsAlways(fdcnt, enlarged);
      hide Slot, MaxFdCnt, Capacity;
      if fdcnt < maxfdcnt {
        var r := Grow(memory);
        if r != 0 { return null; }
      }
      if !memory.cell {
        Fill(e, null);
        return null;
      }
      h := new Handle(fdcnt);
      Fill(e, h);
      Count(e, h);
    }

    lemma OwnerIndex(h: Handle)
      requires Valid() && h in contents
      ensures 0 <= h.id < fdcnt && owners[h.id] == h && Slot(h.id)
    {
      var i :| 0 <= i < |owners| && owners[i] == h;
      assert Slot(i);
    }

    /** cheops_io_change: what is negative, null or zero is left as it was. */
    method Change(h: Handle, fd: int, callback: int, events: int, data: int) returns (r: Handle?)
      requires Valid() && h in contents
      modifies this`contents, fds, ior
      ensures Valid() && r == h
      ensures contents == old(contents)[h := Entry(
        if fd > -1 then fd else old(contents)[h].fd,
        if events != 0 then events else old(contents)[h].events,
        if callback != 0 then callback else old(contents)[h].callback,
        if data != 0 then data else old(contents)[h].data)]
    {
      OwnerIndex(h);
      if h.id < fdcnt {
        var i := h.id;
        var p, c := fds[i], ior[i];
        if fd > -1 { p := p.(fd := fd); }
        if callback != 0 { c := c.(callback := callback); }
        if events != 0 { p := p.(events := events); }
        if data != 0 { c := c.(data := data); }
        fds[i] := p;
        ior[i] := c;
        contents := contents[h := Entry(p.fd, p.events, c.callback, c.data)];
        forall j | 0 <= j < fdcnt ensures Slot(j) { assert old(Slot(j)); }
        r := h;
      } else {
        r := null;
      }
    }

    /** io_shrink: the last entry is moved over the one that goes. */
    method Shrink(which: nat)
      requires Valid() && which < fdcnt
      modifies this`fdcnt, this`owners, this`contents, fds, ior, Cells()
      ensures Valid() && fdcnt == old(fdcnt) - 1
      ensures contents == old(contents) - {old(owners[which])}
      ensures owners == old(owners)[which := old(owners[fdcnt - 1])][..fdcnt]
      ensures forall i :: 0 <= i < fdcnt ==> fds[i] == if i == which then old(fds[fdcnt - 1]) else old(fds[i])
    {
      assert Slot(which) && Slot(fdcnt - 1);
      ghost var gone := owners[which];
      fdcnt := fdcnt - 1;
      if which != fdcnt {
        fds[which] := fds[fdcnt];
        ior[which] := ior[fdcnt];
        ior[which].id.id := which;
      }
      owners := owners[which := owners[fdcnt]][..fdcnt];
      contents := contents - {gone};
      forall i | 0 <= i < fdcnt ensures Slot(i) {
        assert old(Slot(i)) && old(Slot(fdcnt - 1)) && old(Slot(which));
      }
      forall h | h in contents ensures h in owners {
        var i :| 0 <= i < |old(owners)| && old(owners)[i] == h;
        assert old(Slot(i));
        assert if i == old(fdcnt) - 1 then owners[which] == h else owners[i] == h;
      }
    }

    /** cheops_io_remove. A callback's own entry is only marked, for the loop to remove. */
    method Remove(h: Handle) returns (r: int)
      requires Valid() && h in contents
      modifies this`fdcnt, this`owners, this`contents, this`removeCurrentIoc, fds, ior, Cells()
      ensures Valid()
      ensures if currentIoc == old(h.id)
              then r == -1 && removeCurrentIoc && contents == old(contents) && owners == old(owners)
                   && forall i :: 0 <= i < fdcnt ==> fds[i] == old(fds[i])
              else r == 0 && removeCurrentIoc == old(removeCurrentIoc) && contents == old(contents) - {h}
    {
      OwnerIndex(h);
      if currentIoc == h.id {
        removeCurrentIoc := true;
      } else if h.id < fdcnt {
        Shrink(h.id);
        return 0;
      }
      return -1;
    }

    /** poll: which descriptors are ready. */
    method Poll(ready: Handle -> bool)
      requires Valid()
      modifies fds
      ensures Valid() && forall i :: 0 <= i < fdcnt ==> fds[i].revents == ready(owners[i])
    {
      for i := 0 to fdcnt
        invariant Valid()
        invariant forall k :: 0 <= k < i ==> fds[k].revents == ready(owners[k])
      {
        assert Slot(i);
        label before:
        if ior[i].id != null { fds[i] := fds[i].(revents := ready(ior[i].id)); }
        forall k | 0 <= k < fdcnt ensures Slot(k) { assert old@before(Slot(k)); }
      }
    }

    lemma OwnerAt(x: nat)
      requires Valid() && x < fdcnt
      ensures owners[x] in contents && owners[x].id == x && ior[x].id == owners[x]
    {
      assert Slot(x);
    }

    /** The entries a callback adds. */
    method AddAll(adds: seq<Request>)
      requires Valid() && enlarged + |adds| < LIMIT
      modifies this, fds, ior
      ensures Valid() && (fds == old(fds) || fresh(fds)) && (ior == old(ior) || fresh(ior))
      ensures Grown(old(owners), owners, old(contents), contents)
      ensures (forall i :: 0 <= i < old(fdcnt) ==> fds[i] == old(fds[i])) && (forall i :: old(fdcnt) <= i < fdcnt ==> !fds[i].revents)
      ensures (forall i :: old(fdcnt) <= i < fdcnt ==> fresh(owners[i]))
      ensures enlarged <= old(enlarged) + |adds| && currentIoc == old(currentIoc) && removeCurrentIoc == old(removeCurrentIoc)
    {
      for j := 0 to |adds|
        invariant Valid() && (fds == old(fds) || fresh(fds)) && (ior == old(ior) || fresh(ior))
        invariant Grown(old(owners), owners, old(contents), contents)
        invariant (forall i :: 0 <= i < old(fdcnt) ==> fds[i] == old(fds[i])) && (forall i :: old(fdcnt) <= i < fdcnt ==> !fds[i].revents)
        invariant (forall i :: old(fdcnt) <= i < fdcnt ==> fresh(owners[i]))
        invariant enlarged <= old(enlarged) + j && currentIoc == old(currentIoc) && removeCurrentIoc == old(removeCurrentIoc)
      {
        hide Slot, MaxFdCnt, Capacity;
        var _ := Add(adds[j].entry, adds[j].memory);
      }
    }

    /** A callback running for h, which is at x. */
    method Call(h: Handle, x: nat, reaction: Reaction) returns (ghost news: seq<Handle>)
      requires Valid() && x < fdcnt && owners[x] == h && currentIoc == x && !removeCurrentIoc
      requires enlarged + |reaction.adds| < LIMIT
      modifies this, fds, ior, Cells()
      ensures Valid() && (fds == old(fds) || fresh(fds)) && (ior == old(ior) || fresh(ior))
      ensures owners == old(owners) + news && owners[x] == h && forall g :: g in news ==> fresh(g)
      ensures Grown(old(owners), owners, old(contents), contents)
      ensures (forall i :: 0 <= i < old(fdcnt) ==> fds[i] == old(fds[i])) && (forall i :: old(fdcnt) <= i < fdcnt ==> !fds[i].revents)
      ensures enlarged <= old(enlarged) + |reaction.adds| && currentIoc == x && removeCurrentIoc == reaction.removesSelf
    {
      hide Slot, MaxFdCnt, Capacity;
      AddAll(reaction.adds);
      news := owners[|old(owners)|..];
      assert owners == old(owners) + news;
      if reaction.removesSelf {
        OwnerAt(x);
        var _ := Remove(h);
      }
    }

    lemma OwnersDistinct()
      requires Valid()
      ensures NoDup(owners) && forall i :: 0 <= i < fdcnt ==> owners[i] in contents
    {
      forall i | 0 <= i < fdcnt ensures owners[i].id == i && owners[i] in contents { assert Slot(i); }
    }

    /** After a callback: its entry goes unless it wants to be kept. */
    method Finish(x: nat, keep: bool)
      requires Valid() && x < fdcnt
      modifies this`fdcnt, this`owners, this`contents, this`currentIoc, fds, ior, Cells()
      ensures Valid() && currentIoc == -1
      ensures var stays := keep && !removeCurrentIoc;
              && contents == (if stays then old(contents) else old(contents) - {old(owners[x])})
              && owners == Turned(old(owners), x, [], stays)
      ensures forall i :: x < i < fdcnt ==> i < old(fdcnt) && fds[i] == old(fds[i])
    {
      hide Slot, MaxFdCnt, Capacity;
      assert owners + [] == owners;
      if !keep || removeCurrentIoc { Shrink(x); }
      currentIoc := -1;
    }

    /** One turn of the loop of cheops_io_wait, for a ready descriptor. */
    method Serve(x: nat, reaction: Reaction) returns (ghost news: seq<Handle>)
      requires Valid() && x < fdcnt && enlarged + |reaction.adds| < LIMIT
      modifies this, fds, ior, Cells()
      ensures Valid() && (fds == old(fds) || fresh(fds)) && (ior == old(ior) || fresh(ior)) && currentIoc == -1
      ensures enlarged <= old(enlarged) + |reaction.adds|
      ensures Served(old(contents), contents, old(owners[x]), Stays(reaction))
      ensures owners == Turned(old(owners), x, news, Stays(reaction)) && forall h :: h in news ==> fresh(h)
      ensures forall i :: x < i < fdcnt ==> (fds[i].revents <==> i < old(fdcnt) && old(fds[i].revents))
    {
      hide Slot, MaxFdCnt, Capacity;
      OwnerAt(x);
      var h: Handle := ior[x].id;
      currentIoc := h.id;
      removeCurrentIoc := false;
      news := Call(h, x, reaction);
      ghost var c1 := contents;
      TurnedTwice(old(owners), x, news, Stays(reaction));
      ServedAfter(old(owners), owners, old(contents), c1, h, Stays(reaction));
      hide Turned, Grown, Served;
      Finish(x, reaction.keep);
    }

    /** From row x on, what is marked ready is what poll found ready. */
    ghost predicate Marked(x: nat, hot: set<Handle>)
      reads this`fds, this`owners, this`fdcnt, fds
    {
      |owners| == fdcnt <= fds.Length && forall i :: x <= i < fdcnt ==> (fds[i].revents <==> owners[i] in hot)
    }

    /** One turn of the loop for row x, which is ready. */
    method ServeNext(x: nat, react: Handle -> Reaction, ghost hot: set<Handle>, ghost c0: map<Handle, Entry>) returns (ghost news: seq<Handle>)
      requires Valid() && x < fdcnt && fds[x].revents && Marked(x, hot) && enlarged + |react(owners[x]).adds| < LIMIT
      modifies this, fds, ior, Cells()
      ensures Valid() && (fds == old(fds) || fresh(fds)) && (ior == old(ior) || fresh(ior)) && currentIoc == -1
      ensures enlarged <= old(enlarged) + |react(old(owners)[x]).adds|
      ensures Served(old(contents), contents, old(owners)[x], Stays(react(old(owners)[x])))
      ensures owners == Turned(old(owners), x, news, Stays(react(old(owners)[x])))
      ensures forall g :: g in news ==> fresh(g) && g !in hot && g !in c0
      ensures Marked(x + 1, hot)
      ensures forall g :: g in Cells() ==> g in old(Cells()) || fresh(g)
    {
      hide Slot, MaxFdCnt, Capacity, Served, Stays;
      OwnerAt(x);
      var h: Handle := ior[x].id;
      ghost var os := owners;
      news := Serve(x, react(h));
      TurnedRows(os, x, news, Stays(react(h)));
      hide Turned;
      forall i | x < i < fdcnt ensures fds[i].revents <==> owners[i] in hot {
        if i >= |os| { assert owners[i] == news[i - |os|] && owners[i] in news; }
      }
    }

    lemma OwnersInContents()
      requires Valid()
      ensures forall h :: h in owners <==> h in contents
    {
      forall i | 0 <= i < fdcnt ensures owners[i] in contents { assert Slot(i); }
    }

    /** The same, and what the pass has come to. */
    method Turn(x: nat, react: Handle -> Reaction, ghost pass: Course, ghost called: seq<Handle>, ghost news: seq<seq<Handle>>)
      returns (ghost h: Handle, ghost added: seq<Handle>)
      requires Valid() && x < fdcnt && fds[x].revents && Marked(x, pass.hot)
      requires Come(pass, react, x, owners, contents, called, news)
      requires forall g :: g in pass.hot ==> enlarged + |react(g).adds| < LIMIT
      modifies this, fds, ior, Cells()
      ensures Valid() && (fds == old(fds) || fresh(fds)) && (ior == old(ior) || fresh(ior)) && currentIoc == -1
      ensures h in pass.hot && x < pass.n && enlarged <= old(enlarged) + |react(h).adds| && Marked(x + 1, pass.hot)
      ensures Come(pass, react, x + 1, owners, contents, called + [h], news + [added])
      ensures forall g :: g in added ==> fresh(g)
      ensures forall g :: g in Cells() ==> g in old(Cells()) || fresh(g)
    {
      hide Slot, MaxFdCnt, Capacity, Served, Stays, Come, Turned;
      ghost var os, c := owners, contents;
      OwnersDistinct();
      OwnersInContents();
      ComeBelow(pass, react, x, os, c, called, news);
      h := owners[x];
      added := ServeNext(x, react, pass.hot, pass.c0);
      OwnersInContents();
      ComeOn(pass, react, x, os, c, called, news, added, owners, contents);
    }

    /** cheops_io_wait, when poll finds the given descriptors ready: the pass over the table
        in which the k-th of the called adds news[k]. Every ready entry is called, but for
        those in passed: each was the last in the table when a caller went, and was moved
        into the caller's place, which the pass has left behind; it waits for the next time.
        A callback removes no entry but its own. */
    method Wait(ready: Handle -> bool, react: Handle -> Reaction, ghost most: nat)
      returns (ghost called: seq<Handle>, ghost passed: seq<Handle>, ghost news: seq<seq<Handle>>)
      requires Valid() && currentIoc == -1
      requires enlarged + Product(most, fdcnt) < LIMIT && forall h :: h in contents ==> |react(h).adds| <= most
      modifies this, fds, ior, Cells()
      ensures Valid() && currentIoc == -1
      ensures forall k, h :: 0 <= k < |news| && h in news[k] ==> fresh(h)
      ensures Completed(old(owners), owners, Hot(old(contents), ready), called, passed, news, react)
      ensures AllServed(old(contents), contents, called, react)
    {
      hide Slot, MaxFdCnt, Capacity, Product, Come, Completed, AllServed;
      called, news := [], [];
      ghost var pass := Course(owners, fdcnt, Hot(contents, ready), contents);
      OwnersInContents();
      Poll(ready);
      ComeStart(pass, react);
      var x := 0;
      while x < fdcnt
        invariant 0 <= x && Valid() && currentIoc == -1
        invariant (fds == old(fds) || fresh(fds)) && (ior == old(ior) || fresh(ior))
        invariant forall h :: h in Cells() ==> h in old(Cells()) || fresh(h)
        invariant x < pass.n ==> enlarged + Product(most, pass.n - x) < LIMIT
        invariant forall k, h :: 0 <= k < |news| && h in news[k] ==> fresh(h)
        invariant Marked(x, pass.hot) && Come(pass, react, x, owners, contents, called, news)
        decreases if x < pass.n then pass.n - x else 0, fdcnt - x
      {
        if x < pass.n { Budget(most, pass.n - x); }
        if fds[x].revents {
          ComeBelow(pass, react, x, owners, contents, called, news);
          ghost var h, added;
          h, added := Turn(x, react, pass, called, news);
          called, news := called + [h], news + [added];
        } else {
          ComeCold(pass, react, x, owners, contents, called, news);
        }
        x := x + 1;
      }
      passed := Pass(pass.os, pass.hot, news, react).passed;
      ComeOver(pass, react, x, owners, contents, called, news);
    }
  }
}
