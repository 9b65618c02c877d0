/**
 Reading domain names out of a DNS datagram, where a name may end in a pointer to
 the rest of it elsewhere in the datagram (RFC 1035, section 4.1.4).
 */
module DomainName {
  import opened Common

  type Bytes = seq<byte>

  const MAX_DOMAIN: nat := 255

  // ---- The cursor ----

  /** Where the walk is, up to where the part of the name being read may reach, how
      long the name is so far, and, once a pointer or the end has been met, where
      the uncompressed part ended. */
  datatype Cursor = Cursor(at: nat, max: nat, namelen: nat, end: Option<nat>)

  function Start(d: Bytes, at: nat, max: nat): Cursor { Cursor(at, max, 0, None) }

  function Target(d: Bytes, c: nat): nat
    requires c + 1 < |d|
  {
    (d[c] as int % 64) * 256 + d[c + 1] as int
  }

  /** A whole pointer is next. */
  predicate AtPointer(d: Bytes, cur: Cursor) {
    cur.at + 1 < |d| && cur.at + 1 < cur.max && d[cur.at] >= 0xC0
  }

  function Hop(d: Bytes, cur: Cursor): Cursor
    requires AtPointer(d, cur)
  {
    Cursor(Target(d, cur.at), |d| + 1, cur.namelen, if cur.end == None then Some(cur.at + 2) else cur.end)
  }

  /** At most n pointers in a row lead from here to something else. */
  predicate EndsIn(d: Bytes, cur: Cursor, n: nat)
    decreases n
  {
    AtPointer(d, cur) ==> n > 0 && EndsIn(d, Hop(d, cur), n - 1)
  }

  /** The pointers from here lead to something else before more of them have been
      followed than the datagram has bytes. */
  predicate Settles(d: Bytes, cur: Cursor) { EndsIn(d, cur, |d| + 1) }

  function Landing(d: Bytes, cur: Cursor, n: nat): Cursor
    requires EndsIn(d, cur, n)
    decreases n
  {
    if AtPointer(d, cur) then Landing(d, Hop(d, cur), n - 1) else cur
  }

  // ---- Why that many are enough ----

  /** How many pointers are followed. */
  function Hops(d: Bytes, cur: Cursor, n: nat): nat
    requires EndsIn(d, cur, n)
    decreases n
  {
    if AtPointer(d, cur) then 1 + Hops(d, Hop(d, cur), n - 1) else 0
  }

  lemma {:induction false} HopsEnough(d: Bytes, cur: Cursor, n: nat, m: nat)
    requires EndsIn(d, cur, n)
    ensures Hops(d, cur, n) <= m ==> EndsIn(d, cur, m) && Hops(d, cur, m) == Hops(d, cur, n)
    decreases n
  {
    if AtPointer(d, cur) && m > 0 { HopsEnough(d, Hop(d, cur), n - 1, m - 1); }
  }

  lemma {:induction false} HopsAtMost(d: Bytes, cur: Cursor, n: nat)
    requires EndsIn(d, cur, n)
    ensures Hops(d, cur, n) <= n
    decreases n
  {
    if AtPointer(d, cur) { HopsAtMost(d, Hop(d, cur), n - 1); }
  }

  /** A pointer has been followed before: from here on only the place changes. */
  predicate Jumped(d: Bytes, cur: Cursor) { cur.max == |d| + 1 && cur.end != None }

  /** The places of the pointers followed. */
  ghost function Visited(d: Bytes, cur: Cursor, n: nat): set<nat>
    requires EndsIn(d, cur, n)
    decreases n
  {
    if AtPointer(d, cur) then {cur.at} + Visited(d, Hop(d, cur), n - 1) else {}
  }

  /** From a place that was visited no more pointers are followed than from the start. */
  lemma {:induction false} VisitedHops(d: Bytes, cur: Cursor, n: nat, q: nat)
    requires EndsIn(d, cur, n) && Jumped(d, cur) && q in Visited(d, cur, n)
    ensures q < |d| && EndsIn(d, cur.(at := q), n) && Hops(d, cur.(at := q), n) <= Hops(d, cur, n)
    decreases n
  {
    if q == cur.at {
      assert cur.(at := q) == cur;
    } else {
      var h := Hop(d, cur);
      VisitedHops(d, h, n - 1, q);
      assert h.(at := q) == cur.(at := q);
      HopsAtMost(d, h.(at := q), n - 1);
      HopsEnough(d, h.(at := q), n - 1, n);
    }
  }

  /** So no place is visited twice. */
  lemma {:induction false} VisitedCount(d: Bytes, cur: Cursor, n: nat)
    requires EndsIn(d, cur, n) && Jumped(d, cur)
    ensures |Visited(d, cur, n)| == Hops(d, cur, n)
    decreases n
  {
    if AtPointer(d, cur) {
      var h := Hop(d, cur);
      VisitedCount(d, h, n - 1);
      if cur.at in Visited(d, h, n - 1) {
        VisitedHops(d, h, n - 1, cur.at);
        assert h.(at := cur.at) == cur;
        HopsAtMost(d, cur, n - 1);
        HopsEnough(d, cur, n - 1, n);
      }
    }
  }

  lemma {:induction false} Below(V: set<nat>, n: nat)
    requires forall q :: q in V ==> q < n
    ensures |V| <= n
    decreases n
  {
    if n == 0 {
      assert V == {};
    } else {
      Below(V - {n - 1}, n - 1);
    }
  }

  lemma JumpedHops(d: Bytes, cur: Cursor, n: nat)
    requires EndsIn(d, cur, n) && Jumped(d, cur)
    ensures Hops(d, cur, n) <= |d| && EndsIn(d, cur, |d|)
  {
    forall q | q in Visited(d, cur, n) ensures q < |d| { VisitedHops(d, cur, n, q); }
    VisitedCount(d, cur, n);
    Below(Visited(d, cur, n), |d|);
    HopsEnough(d, cur, n, |d|);
  }

  ghost predicate EndsAfter(d: Bytes, cur: Cursor, n: nat) { EndsIn(d, cur, n) }

  /** Following pointers ends exactly if it ends within one step more than the
      datagram has bytes. */
  lemma SettlesExactly(d: Bytes, cur: Cursor)
    ensures Settles(d, cur) <==> exists n: nat :: EndsAfter(d, cur, n)
  {
    forall n: nat | EndsAfter(d, cur, n) ensures Settles(d, cur) {
      if AtPointer(d, cur) { JumpedHops(d, Hop(d, cur), n - 1); }
    }
    if Settles(d, cur) { assert EndsAfter(d, cur, |d| + 1); }
  }

  // ---- One label ----

  datatype Step = Label(start: nat, len: nat, next: Cursor) | Root(end: nat) | Truncated | BadResponse | UnknownFormat | TooLong | Endless

  /** What is at the cursor, which is not at a whole pointer. */
  function Look(d: Bytes, cur: Cursor): Step
    requires !AtPointer(d, cur)
  {
    if cur.at >= |d| then Truncated
    else if cur.at >= cur.max then BadResponse
    else
      var b: nat := d[cur.at];
      if b >= 0xC0 then if cur.at + 1 >= |d| then Truncated else BadResponse
      else if b >= 0x40 then UnknownFormat
      else if b == 0 then Root(if cur.end == None then cur.at + 1 else cur.end.value)
      else
        var namelen := cur.namelen + b + if cur.namelen > 0 then 1 else 0;
        var next := cur.at + 1 + b;
        if namelen > MAX_DOMAIN then TooLong
        else if next > |d| then Truncated
        else if next > cur.max then BadResponse
        else Label(cur.at + 1, b, Cursor(next, cur.max, namelen, cur.end))
  }

  lemma {:induction false} LandingNamelen(d: Bytes, cur: Cursor, n: nat)
    requires EndsIn(d, cur, n)
    ensures !AtPointer(d, Landing(d, cur, n)) && Landing(d, cur, n).namelen == cur.namelen
    decreases n
  {
    if AtPointer(d, cur) { LandingNamelen(d, Hop(d, cur), n - 1); }
  }

  /** The next step of the walk: pointers are followed first. */
  function Next(d: Bytes, cur: Cursor): (s: Step)
    ensures s.Label? ==> s.len > 0 && s.start + s.len <= |d| && cur.namelen < s.next.namelen <= MAX_DOMAIN
  {
    if Settles(d, cur) then
      LandingNamelen(d, cur, |d| + 1);
      Look(d, Landing(d, cur, |d| + 1))
    else Endless
  }

  lemma {:induction false} OneLanding(d: Bytes, cur: Cursor, n: nat, m: nat)
    requires EndsIn(d, cur, n) && EndsIn(d, cur, m)
    ensures Landing(d, cur, n) == Landing(d, cur, m)
    decreases n
  {
    if AtPointer(d, cur) { OneLanding(d, Hop(d, cur), n - 1, m - 1); }
  }

  lemma NextHop(d: Bytes, cur: Cursor)
    requires AtPointer(d, cur)
    ensures Settles(d, cur) <==> Settles(d, Hop(d, cur))
    ensures Next(d, cur) == Next(d, Hop(d, cur))
  {
    var h := Hop(d, cur);
    assert Settles(d, cur) <==> EndsIn(d, h, |d|);
    if EndsIn(d, h, |d|) {
      HopsAtMost(d, h, |d|);
      HopsEnough(d, h, |d|, |d| + 1);
      OneLanding(d, h, |d|, |d| + 1);
    } else if Settles(d, h) {
      JumpedHops(d, h, |d| + 1);
    }
  }

  lemma NextHere(d: Bytes, cur: Cursor)
    requires !AtPointer(d, cur)
    ensures Settles(d, cur) && Next(d, cur) == Look(d, cur)
  {
  }

  // ---- Pointers that aim backwards ----

  /** Every pointer is to a prior place in the datagram, as the standard has it. */
  predicate PointersBack(d: Bytes) {
    forall c :: 0 <= c && c + 1 < |d| && d[c] >= 0xC0 ==> Target(d, c) < c
  }

  lemma {:induction false} BackwardsSettles(d: Bytes, cur: Cursor)
    requires PointersBack(d)
    ensures Settles(d, cur)
    decreases cur.at
  {
    if AtPointer(d, cur) {
      BackwardsSettles(d, Hop(d, cur));
      NextHop(d, cur);
    } else {
      NextHere(d, cur);
    }
  }

  lemma {:induction false} SelfPointerTurns(d: Bytes, cur: Cursor, n: nat)
    requires AtPointer(d, cur) && Target(d, cur.at) == cur.at && cur.max == |d| + 1
    ensures !EndsIn(d, cur, n)
    decreases n
  {
    if n > 0 {
      var h := Hop(d, cur);
      assert AtPointer(d, h);
      SelfPointerTurns(d, h, n - 1);
    }
  }

  /** A pointer to itself keeps the walk going for ever. */
  lemma SelfPointerNeverSettles(d: Bytes, cur: Cursor)
    requires AtPointer(d, cur) && Target(d, cur.at) == cur.at
    ensures !Settles(d, cur) && Next(d, cur) == Endless
  {
    SelfPointerTurns(d, Hop(d, cur), |d|);
  }

  // ---- A whole name ----

  /** Why a walk stops. */
  datatype Stop = AtEnd(end: nat) | CutShort | Bad | Unknown | Long | Never

  /** The labels met on the walk, and why it stops after them. */
  datatype Name = Name(labels: seq<Bytes>, stop: Stop)

  function Walk(d: Bytes, cur: Cursor): (r: Name)
    requires cur.namelen <= MAX_DOMAIN
    decreases MAX_DOMAIN - cur.namelen
  {
    match Next(d, cur)
    case Label(start, len, next) => var rest := Walk(d, next); Name([d[start..start + len]] + rest.labels, rest.stop)
    case Root(end) => Name([], AtEnd(end))
    case Truncated => Name([], CutShort)
    case BadResponse => Name([], Bad)
    case UnknownFormat => Name([], Unknown)
    case TooLong => Name([], Long)
    case Endless => Name([], Never)
  }

  /** Wherever the walk comes to pointers they settle. */
  predicate Followable(d: Bytes, cur: Cursor)
    requires cur.namelen <= MAX_DOMAIN
    decreases MAX_DOMAIN - cur.namelen
  {
    Settles(d, cur) && (Next(d, cur).Label? ==> Followable(d, Next(d, cur).next))
  }

  lemma NeverEndless(d: Bytes, cur: Cursor)
    ensures Settles(d, cur) <==> Next(d, cur) != Endless
  {
    if Settles(d, cur) { LandingNamelen(d, cur, |d| + 1); }
  }

  /** A walk goes on for ever exactly if it comes to pointers that do not settle. */
  lemma {:induction false} WalkStopsExactly(d: Bytes, cur: Cursor)
    requires cur.namelen <= MAX_DOMAIN
    ensures Walk(d, cur).stop != Never <==> Followable(d, cur)
    decreases MAX_DOMAIN - cur.namelen
  {
    hide Settles, Next;
    NeverEndless(d, cur);
    if Next(d, cur).Label? { WalkStopsExactly(d, Next(d, cur).next); }
  }

  /** A walk over a datagram whose pointers aim backwards stops. */
  lemma {:induction false} BackwardsStops(d: Bytes, cur: Cursor)
    requires PointersBack(d) && cur.namelen <= MAX_DOMAIN
    ensures Followable(d, cur) && Walk(d, cur).stop != Never
    decreases MAX_DOMAIN - cur.namelen
  {
    BackwardsSettles(d, cur);
    WalkStopsExactly(d, cur);
    hide Settles, Next;
    if Next(d, cur).Label? { BackwardsStops(d, Next(d, cur).next); }
  }

  // ---- What the standard says a name is ----

  /** The name at c is ls: labels in a row, or a pointer to the rest, until an empty
      label; n pointers are followed in all. The part before the first pointer
      stays below max. */
  ghost predicate Spells(d: Bytes, c: nat, max: nat, ls: seq<Bytes>, n: nat)
    decreases |ls| + n
  {
    && c < |d| && c < max
    && if d[c] == 0 then ls == [] && n == 0
       else if d[c] < 0x40 then
         var e := c + 1 + d[c] as int;
         e <= |d| && e <= max && ls != [] && ls[0] == d[c + 1..e] && Spells(d, e, max, ls[1..], n)
       else d[c] >= 0xC0 && c + 1 < |d| && c + 1 < max && n > 0 && Spells(d, Target(d, c), |d| + 1, ls, n - 1)
  }

  /** The length of a name: its labels and a dot between any two. */
  function NameLength(ls: seq<Bytes>, before: nat): nat {
    if ls == [] then before else NameLength(ls[1..], before + |ls[0]| + if before > 0 then 1 else 0)
  }

  lemma {:induction false} LengthGrows(ls: seq<Bytes>, before: nat)
    ensures NameLength(ls, before) >= before
  {
    if ls != [] { LengthGrows(ls[1..], before + |ls[0]| + if before > 0 then 1 else 0); }
  }

  lemma WalkHop(d: Bytes, cur: Cursor)
    requires AtPointer(d, cur) && cur.namelen <= MAX_DOMAIN
    ensures Walk(d, cur) == Walk(d, Hop(d, cur))
  {
    NextHop(d, cur);
  }

  lemma LookLabel(d: Bytes, cur: Cursor)
    requires !AtPointer(d, cur) && Look(d, cur).Label?
    ensures var s := Look(d, cur);
      && cur.at < |d| && s.start == cur.at + 1 && s.len == d[cur.at] as int && 0 < s.len < 64 && s.start + s.len <= |d|
      && s.next == Cursor(s.start + s.len, cur.max, cur.namelen + s.len + (if cur.namelen > 0 then 1 else 0), cur.end)
      && s.next.namelen <= MAX_DOMAIN
  {
  }

  lemma WalkStep(d: Bytes, cur: Cursor)
    requires cur.namelen <= MAX_DOMAIN && Next(d, cur).Label?
    ensures var s := Next(d, cur);
      Walk(d, cur) == Name([d[s.start..s.start + s.len]] + Walk(d, s.next).labels, Walk(d, s.next).stop)
  {
    hide Next;
  }

  lemma WalkLabel(d: Bytes, cur: Cursor)
    requires !AtPointer(d, cur) && cur.namelen <= MAX_DOMAIN && Look(d, cur).Label?
    ensures var s := Look(d, cur);
      && s.start == cur.at + 1 && s.len == d[cur.at] as int && 0 < s.len < 64 && s.start + s.len <= |d|
      && s.next == Cursor(s.start + s.len, cur.max, cur.namelen + s.len + (if cur.namelen > 0 then 1 else 0), cur.end)
      && s.next.namelen <= MAX_DOMAIN
      && Walk(d, cur) == Name([d[s.start..s.start + s.len]] + Walk(d, s.next).labels, Walk(d, s.next).stop)
  {
    hide Next, Settles, Walk;
    NextHere(d, cur);
    LookLabel(d, cur);
    WalkStep(d, cur);
    hide Look;
  }

  lemma WalkNoLabel(d: Bytes, cur: Cursor)
    requires !AtPointer(d, cur) && cur.namelen <= MAX_DOMAIN && !Look(d, cur).Label?
    ensures Walk(d, cur).labels == [] && (Walk(d, cur).stop.AtEnd? <==> Look(d, cur).Root?)
  {
    NextHere(d, cur);
  }

  lemma SpellsHop(d: Bytes, cur: Cursor, ls: seq<Bytes>, n: nat)
    requires AtPointer(d, cur)
    ensures Spells(d, cur.at, cur.max, ls, n) <==> n > 0 && Spells(d, Target(d, cur.at), |d| + 1, ls, n - 1)
  {
  }

  lemma SpellsLabel(d: Bytes, cur: Cursor, ls: seq<Bytes>, n: nat)
    requires !AtPointer(d, cur) && Look(d, cur).Label?
    ensures var s := Look(d, cur);
      Spells(d, cur.at, cur.max, ls, n) <==>
        ls != [] && ls[0] == d[s.start..s.start + s.len] && Spells(d, s.next.at, s.next.max, ls[1..], n)
  {
  }

  lemma SpellsNoLabel(d: Bytes, cur: Cursor, ls: seq<Bytes>, n: nat)
    requires !AtPointer(d, cur) && !Look(d, cur).Label?
    ensures Look(d, cur).Root? ==> (Spells(d, cur.at, cur.max, ls, n) <==> ls == [] && n == 0)
    ensures Spells(d, cur.at, cur.max, ls, n) && !Look(d, cur).Root? ==>
      ls != [] && cur.namelen + |ls[0]| + (if cur.namelen > 0 then 1 else 0) > MAX_DOMAIN
  {
  }

  /** The walk finds every name the standard defines that is not too long. */
  lemma {:induction false} WalkFindsName(d: Bytes, cur: Cursor, ls: seq<Bytes>, n: nat)
    requires Spells(d, cur.at, cur.max, ls, n) && NameLength(ls, cur.namelen) <= MAX_DOMAIN && cur.namelen <= MAX_DOMAIN
    ensures Walk(d, cur).labels == ls && Walk(d, cur).stop.AtEnd?
    decreases |ls| + n
  {
    hide Spells, Walk, Look, AtPointer;
    if AtPointer(d, cur) {
      WalkHop(d, cur);
      SpellsHop(d, cur, ls, n);
      WalkFindsName(d, Hop(d, cur), ls, n - 1);
    } else {
      if ls != [] { LengthGrows(ls[1..], cur.namelen + |ls[0]| + if cur.namelen > 0 then 1 else 0); }
      if Look(d, cur).Label? {
        WalkLabel(d, cur);
        SpellsLabel(d, cur, ls, n);
        WalkFindsName(d, Look(d, cur).next, ls[1..], n);
        assert ls == [ls[0]] + ls[1..];
      } else {
        WalkNoLabel(d, cur);
        SpellsNoLabel(d, cur, ls, n);
      }
    }
  }

  lemma WalkSettles(d: Bytes, cur: Cursor)
    requires cur.namelen <= MAX_DOMAIN && Walk(d, cur).stop.AtEnd?
    ensures Settles(d, cur)
  {
  }

  lemma {:induction false} WalkIsNameAfter(d: Bytes, cur: Cursor, k: nat) returns (n: nat)
    requires cur.namelen <= MAX_DOMAIN && Walk(d, cur).stop.AtEnd? && EndsIn(d, cur, k)
    ensures NameLength(Walk(d, cur).labels, cur.namelen) <= MAX_DOMAIN
    ensures Spells(d, cur.at, cur.max, Walk(d, cur).labels, n)
    decreases MAX_DOMAIN - cur.namelen, k
  {
    hide Spells, Walk, Look, AtPointer, Next;
    var ls := Walk(d, cur).labels;
    if AtPointer(d, cur) {
      WalkHop(d, cur);
      n := WalkIsNameAfter(d, Hop(d, cur), k - 1);
      n := n + 1;
      SpellsHop(d, cur, ls, n);
    } else if Look(d, cur).Label? {
      WalkLabel(d, cur);
      var next := Look(d, cur).next;
      WalkSettles(d, next);
      n := WalkIsNameAfter(d, next, |d| + 1);
      assert ls[1..] == Walk(d, next).labels;
      SpellsLabel(d, cur, ls, n);
    } else {
      n := 0;
      WalkNoLabel(d, cur);
      SpellsNoLabel(d, cur, ls, 0);
    }
  }

  /** Whatever the walk finds is the name the standard defines, and not too long. */
  lemma WalkIsName(d: Bytes, cur: Cursor) returns (n: nat)
    requires cur.namelen <= MAX_DOMAIN && Walk(d, cur).stop.AtEnd?
    ensures NameLength(Walk(d, cur).labels, cur.namelen) <= MAX_DOMAIN
    ensures Spells(d, cur.at, cur.max, Walk(d, cur).labels, n)
  {
    n := WalkIsNameAfter(d, cur, |d| + 1);
  }

  /** A place in a datagram has at most one name. */
  lemma {:induction false} OneName(d: Bytes, c: nat, max: nat, ls: seq<Bytes>, n: nat, ms: seq<Bytes>, m: nat)
    requires Spells(d, c, max, ls, n) && Spells(d, c, max, ms, m)
    ensures ls == ms && n == m
    decreases |ls| + n
  {
    if d[c] >= 0x40 {
      OneName(d, Target(d, c), |d| + 1, ls, n - 1, ms, m - 1);
    } else if d[c] != 0 {
      OneName(d, c + 1 + d[c] as int, max, ls[1..], n, ms[1..], m);
      assert ls == [ls[0]] + ls[1..] && ms == [ms[0]] + ms[1..];
    }
  }

  // ---- The walker ----

  datatype Status = Ok | InvalidResponse | UnknownFormatStatus | AnswerDomainTooLong | AnswerDomainInvalid | OutOfMemory

  /** What the loop finds where there is no whole pointer. */
  lemma LookHere(d: Bytes, cur: Cursor)
    requires !AtPointer(d, cur)
    ensures Next(d, cur) == Look(d, cur)
    ensures cur.at >= |d| ==> Look(d, cur) == Truncated
    ensures cur.at < |d| && cur.at >= cur.max ==> Look(d, cur) == BadResponse
    ensures cur.at < |d| && cur.at < cur.max && 64 <= d[cur.at] < 192 ==> Look(d, cur) == UnknownFormat
    ensures cur.at < |d| && cur.at < cur.max && d[cur.at] >= 192 ==> Look(d, cur) == if cur.at + 1 >= |d| then Truncated else BadResponse
  {
    NextHere(d, cur);
  }

  /** findlabel_state */
  class FindLabel {
    const dgram: Bytes
    var max: nat
    var cbyte: nat
    var namelen: nat
    var dmend: Option<nat>   // what has been stored through the caller's pointer
    var storing: bool        // the caller's pointer has not been dropped yet

    ghost predicate Valid()
      reads this
    {
      storing <==> dmend == None
    }

    ghost function View(): Cursor
      reads this
    {
      Cursor(cbyte, max, namelen, dmend)
    }

    constructor (d: Bytes, begin: nat, limit: nat)
      ensures dgram == d && View() == Start(d, begin, limit) && Valid()
    {
      dgram, max, cbyte, namelen, dmend, storing := d, limit, begin, 0, None, true;
    }

    /** The loop of adns__findlabel_next, which follows pointers: if it does not
        return, the length byte of a label has just been read. */
    method ReadLength() returns (st: Status, lablen: int, done: bool, ghost here: Cursor)
      requires Valid() && Settles(dgram, View())
      modifies this
      ensures !AtPointer(dgram, here) && Next(dgram, old(View())) == Look(dgram, here) && Valid()
      ensures if done then
          match Look(dgram, here)
          case Truncated => st == Ok && lablen == -1
          case BadResponse => st == InvalidResponse
          case UnknownFormat => st == UnknownFormatStatus
          case _ => false
        else here.at < |dgram| && here.at < here.max && st == Ok && lablen == dgram[here.at] as int < 64 && View() == here.(at := here.at + 1)
    {
      hide Next, Look;
      ghost var was := View();
      ghost var n: nat := |dgram| + 1;
      while true
        invariant Valid() && EndsIn(dgram, View(), n) && Next(dgram, View()) == Next(dgram, was)
        decreases n
      {
        here := View();
        if !AtPointer(dgram, here) { LookHere(dgram, here); }
        if cbyte >= |dgram| { return Ok, -1, true, here; }
        if cbyte >= max { return InvalidResponse, 0, true, here; }
        lablen := dgram[cbyte] as int;
        cbyte := cbyte + 1;
        if lablen < 64 { return Ok, lablen, false, here; }
        if lablen < 192 { return UnknownFormatStatus, lablen, true, here; }
        if cbyte >= |dgram| { return Ok, -1, true, here; }
        if cbyte >= max { return InvalidResponse, lablen, true, here; }
        var jumpto: nat := (lablen % 64) * 256 + dgram[cbyte] as int;
        cbyte := cbyte + 1;
        if storing { dmend := Some(cbyte); }
        cbyte := jumpto;
        storing, max := false, |dgram| + 1;
        NextHop(dgram, here);
        assert View() == Hop(dgram, here);
        n := n - 1;
      }
    }

    /** adns__findlabel_next: lablen is -1 if the datagram is truncated. */
    method NextLabel() returns (st: Status, lablen: int, labstart: nat)
      requires Valid() && Settles(dgram, View())
      modifies this
      ensures match Next(dgram, old(View()))
              case Label(start, len, next) => st == Ok && lablen == len && labstart == start && View() == next && Valid()
              case Root(end) => st == Ok && lablen == 0 && dmend == Some(end)
              case Truncated => st == Ok && lablen == -1
              case BadResponse => st == InvalidResponse
              case UnknownFormat => st == UnknownFormatStatus
              case TooLong => st == AnswerDomainTooLong
              case Endless => false
    {
      hide Next, Settles, EndsIn;
      var done: bool;
      ghost var here: Cursor;
      st, lablen, done, here := ReadLength();
      labstart := cbyte;
      if done { return; }
      if lablen > 0 {
        if namelen > 0 { namelen := namelen + 1; }
        namelen := namelen + lablen;
        if namelen > MAX_DOMAIN { return AnswerDomainTooLong, lablen, labstart; }
        cbyte := cbyte + lablen;
        if cbyte > |dgram| { return Ok, -1, labstart; }
        if cbyte > max { return InvalidResponse, lablen, labstart; }
      } else if storing {
        dmend := Some(cbyte);
      }
    }
  }
}
