/**
 The agent's schedule: a queue of events in the order they are due, with the time
 to wait for the first and the pass that runs what is due.
 */
module Schedule {
  import opened Common
  import opened Timeval

  // ---- Times ----

  /** SOONER */
  predicate Sooner(a: Timeval, b: Timeval) {
    b.sec > a.sec || (b.sec == a.sec && b.usec > a.usec)
  }

  /** C division and remainder, which round towards zero. */
  function Quot(a: int, b: nat): int
    requires b > 0
  {
    if a >= 0 then a / b else -(-a / b)
  }

  function Rem(a: int, b: nat): int
    requires b > 0
  {
    a - Quot(a, b) * b
  }

  /** sched_settime: the carry is taken only above a million microseconds. */
  function SetTime(now: Timeval, when: int): Timeval {
    var sec := now.sec + Quot(when, 1000);
    var usec := now.usec + Rem(when, 1000) * 1000;
    if usec > 1000000 then Timeval(sec + 1, usec - 1000000) else Timeval(sec, usec)
  }

  /** A stamp as the schedule makes them, a whole second of microseconds included. */
  predicate Stamp(t: Timeval) { 0 <= t.usec <= 1000000 }

  /** All that sched_settime makes of a clock reading and a delay. */
  predicate Made(t: Timeval) { -1000000 < t.usec <= 1000000 }

  lemma SetTimeExact(now: Timeval, when: int)
    requires Normal(now)
    ensures Micros(SetTime(now, when)) == Micros(now) + when * 1000 && Made(SetTime(now, when))
    ensures Stamp(SetTime(now, when)) <==> now.usec + Rem(when, 1000) * 1000 >= 0
    ensures when >= 0 ==> Stamp(SetTime(now, when))
  {
  }

  /** Among stamps, sooner never means later in real time. */
  lemma SoonerIsEarlier(a: Timeval, b: Timeval)
    requires Stamp(a) && Stamp(b)
    ensures Sooner(a, b) ==> Micros(a) <= Micros(b)
    ensures Micros(a) < Micros(b) ==> Sooner(a, b)
  {
  }

  /** a is never sorted against real time among stamps. */
  ghost predicate SortsRight(a: Timeval) {
    forall b :: Stamp(b) ==>
      && (Sooner(a, b) ==> Micros(a) <= Micros(b))
      && (Sooner(b, a) ==> Micros(b) <= Micros(a))
  }

  /** What is set for a delay sorts rightly exactly if the microseconds of the clock and
      of the delay do not add to less than zero; so it always does for a delay above zero. */
  lemma SortsRightExactly(now: Timeval, when: int)
    requires Normal(now)
    ensures SortsRight(SetTime(now, when)) <==> now.usec + Rem(when, 1000) * 1000 >= 0
    ensures when >= 0 ==> SortsRight(SetTime(now, when))
  {
    var a := SetTime(now, when);
    if a.usec < 0 {
      var b := Timeval(a.sec - 1, 1000000);
      assert Stamp(b) && Sooner(b, a) && Micros(a) < Micros(b);
    }
  }

  /** The delay of -999 ms at ten seconds sharp makes a time of 9.001 seconds that sorts
      behind 9.5 seconds. */
  lemma NegativeDelayMisorders()
    ensures var a, late := SetTime(Timeval(10, 0), -999), Timeval(9, 500000);
            Stamp(late) && Sooner(late, a) && Micros(a) < Micros(late)
  {
  }

  /** What runq asks of the head: that it is sooner than the clock and a millisecond. */
  predicate Due(when: Timeval, now: Timeval) { Sooner(when, Timeval(now.sec, now.usec + 1000)) }

  /** Everything due by now is run, and nothing a millisecond or more away. */
  lemma DueWithinAMillisecond(when: Timeval, now: Timeval)
    requires Stamp(when) && Normal(now)
    ensures Micros(when) <= Micros(now) ==> Due(when, now)
    ensures Due(when, now) ==> Micros(when) < Micros(now) + 1000
  {
  }

  /** An event set for a time from the same clock reading is due at once exactly if
      its delay is not above zero. */
  lemma SetTimeDue(now: Timeval, when: int)
    requires Normal(now)
    ensures Due(SetTime(now, when), now) <==> when <= 0
  {
  }

  // ---- Waiting ----

  const INT_RANGE: nat := 0x1_0000_0000

  /** A value stored in a 32-bit int. */
  function Int32(v: int): (r: int)
    ensures -0x8000_0000 <= r < 0x8000_0000
    ensures -0x8000_0000 <= v < 0x8000_0000 ==> r == v
  {
    (v + 0x8000_0000) % INT_RANGE - 0x8000_0000
  }

  /** The milliseconds computed by cheops_sched_wait, before they are stored. */
  function WaitMillis(when: Timeval, now: Timeval): int {
    (when.sec - now.sec) * 1000 + Quot(when.usec - now.usec, 1000)
  }

  /** The event's second has not come although its time has: its microseconds are below
      zero by more than the clock lacks to the next second. */
  predicate SecondAhead(when: Timeval, now: Timeval) { when.sec > now.sec && Micros(when) <= Micros(now) }

  /** The wait is not above zero exactly if runq would run the head, unless the head's
      second is ahead of its time. */
  lemma WaitAgreesExactly(when: Timeval, now: Timeval)
    requires Made(when) && Normal(now)
    ensures (WaitMillis(when, now) <= 0 <==> Due(when, now)) <==> !SecondAhead(when, now)
  {
  }

  lemma WaitAgrees(when: Timeval, now: Timeval)
    requires Stamp(when) && Normal(now)
    ensures WaitMillis(when, now) <= 0 <==> Due(when, now)
  {
  }

  /** So they agree for every delay, one below zero too, at every reading of the clock
      from the one the event was set at on. */
  lemma AgreesFromMakingOn(made: Timeval, when: int, now: Timeval)
    requires Normal(made) && Normal(now) && Micros(made) <= Micros(now)
    ensures !SecondAhead(SetTime(made, when), now)
    ensures WaitMillis(SetTime(made, when), now) <= 0 <==> Due(SetTime(made, when), now)
  {
    SetTimeExact(made, when);
    WaitAgreesExactly(SetTime(made, when), now);
  }

  /** If the clock is set back after an event was set with a delay below zero, the schedule
      may say not to wait and yet run nothing: set at ten seconds, read a microsecond before. */
  lemma ClockSetBackSpins()
    ensures var when, now := SetTime(Timeval(10, 0), -999), Timeval(9, 999999);
            SecondAhead(when, now) && WaitMillis(when, now) <= 0 && !Due(when, now)
  {
  }

  /** Two stores to an int come to one. */
  lemma WrapTwice(a: int, b: int)
    ensures Int32(Int32(a) + b) == Int32(a + b)
  {
  }

  /** An event set at an earlier reading of the clock is never too far ahead for an int. */
  lemma NoWrapAhead(made: Timeval, when: int, now: Timeval)
    requires Normal(made) && Normal(now) && 0 < when < 0x8000_0000 && Micros(made) <= Micros(now)
    ensures WaitMillis(SetTime(made, when), now) < 0x8000_0000
  {
    SetTimeExact(made, when);
  }

  function OverdueMillis(when: Timeval, now: Timeval): int { -WaitMillis(when, now) }

  /** The head is overdue by a number of milliseconds that an int takes for a wait: by more
      than 2^31 (24.8 days) and less than 2^32, or that and some whole times 2^32. */
  predicate Overslept(when: Timeval, now: Timeval) {
    OverdueMillis(when, now) > 0 && OverdueMillis(when, now) % INT_RANGE > 0x8000_0000
  }

  predicate InWindow(o: int, k: nat) { 0x8000_0000 + INT_RANGE * k < o < INT_RANGE + INT_RANGE * k }

  lemma OversleptWindows(when: Timeval, now: Timeval)
    ensures Overslept(when, now) <==>
            exists k: nat :: InWindow(OverdueMillis(when, now), k)
  {
    var o := OverdueMillis(when, now);
    if Overslept(when, now) {
      assert o == INT_RANGE * (o / INT_RANGE) + o % INT_RANGE;
      assert InWindow(o, o / INT_RANGE);
    }
    if k: nat :| InWindow(o, k) {
      assert o / INT_RANGE == k;
    }
  }

  lemma Int32Positive(m: int)
    requires m < 0x8000_0000
    ensures Int32(m) > 0 <==> m > 0 || (m < 0 && -m % INT_RANGE > 0x8000_0000)
  {
    if m < 0 {
      var q, r := -m / INT_RANGE, -m % INT_RANGE;
      assert -m == INT_RANGE * q + r;
      assert m + 0x8000_0000 == INT_RANGE * (-q) + (0x8000_0000 - r);
      assert r <= 0x8000_0000 ==> (m + 0x8000_0000) / INT_RANGE == -q;
      assert r > 0x8000_0000 ==> (m + 0x8000_0000) / INT_RANGE == -q - 1;
    }
  }

  /** What Wait returns for a head not too far ahead is zero exactly if runq at the same
      clock would run it, unless the head was overslept or its second is ahead of its time. */
  lemma WaitZeroExactly(when: Timeval, now: Timeval)
    requires Made(when) && Normal(now) && WaitMillis(when, now) < 0x8000_0000
    ensures (Int32(WaitMillis(when, now)) <= 0 <==> Due(when, now)) <==> !Overslept(when, now) && !SecondAhead(when, now)
  {
    Int32Positive(WaitMillis(when, now));
    WaitAgreesExactly(when, now);
    assert SecondAhead(when, now) ==> WaitMillis(when, now) > -2000;
    hide Int32;
  }

  /** Overdue by a millisecond more than an int holds, a head that would be run is waited
      for another 24.8 days. */
  lemma OversleptWaits()
    ensures var when, now := Timeval(0, 0), Timeval(2147483, 649000);
            Due(when, now) && Overslept(when, now) && Int32(WaitMillis(when, now)) == 2147483647
  {
  }

  // ---- The queue ----

  datatype Entry = Entry(id: int, when: Timeval, resched: int, data: nat)

  ghost predicate InOrder(q: seq<Entry>) {
    forall i, j :: 0 <= i < j < |q| ==> !Sooner(q[j].when, q[i].when)
  }

  /** e was put into q at k, behind everything not later than it. */
  ghost predicate InsertedAt(q: seq<Entry>, e: Entry, r: seq<Entry>, k: nat) {
    && k <= |q| && r == q[..k] + [e] + q[k..]
    && (forall i :: 0 <= i < k ==> !Sooner(e.when, q[i].when))
    && (forall i :: k <= i < |q| ==> Sooner(e.when, q[i].when))
  }

  ghost predicate Inserted(q: seq<Entry>, e: Entry, r: seq<Entry>) { exists k: nat :: InsertedAt(q, e, r, k) }

  lemma InsertedInOrder(q: seq<Entry>, e: Entry, r: seq<Entry>)
    requires InOrder(q) && Inserted(q, e, r)
    ensures InOrder(r)
  {
  }

  /** What a callback does to the schedule, and whether it is to be run again. */
  datatype Act = AddEvent(when: int, data: nat, memory: bool) | DelEvent(id: int)
  datatype Reaction = Reaction(acts: seq<Act>, again: bool)

  ghost predicate OwnIds(q: seq<Entry>, limit: int) {
    && (forall i, j :: 0 <= i < j < |q| ==> q[i].id != q[j].id)
    && (forall i :: 0 <= i < |q| ==> q[i].id < limit)
  }

  /** The events of r that are due at now are events of q; those of q that are not in
      r have been deleted. */
  ghost predicate Kept(q: seq<Entry>, r: seq<Entry>, now: Timeval, deleted: set<int>) {
    && (forall e :: e in r && Due(e.when, now) ==> e in q)
    && (forall e :: e in q ==> e in r || e.id in deleted)
    && (forall e :: e in r && e !in q ==> Stamp(e.when) && e.resched > 0)
  }

  lemma InsertedMembers(q: seq<Entry>, e: Entry, r: seq<Entry>)
    requires Inserted(q, e, r)
    ensures |r| == |q| + 1 && forall x :: x in r <==> x in q || x == e
  {
    var k: nat :| InsertedAt(q, e, r, k);
    assert r == q[..k] + [e] + q[k..];
    hide InsertedAt;
    assert q == q[..k] + q[k..];
  }

  lemma InsertedIds(q: seq<Entry>, e: Entry, r: seq<Entry>, limit: int)
    requires Inserted(q, e, r) && OwnIds(q, limit) && e.id < limit && forall x :: x in q ==> x.id != e.id
    ensures OwnIds(r, limit)
  {
    var k: nat :| InsertedAt(q, e, r, k);
    assert r == q[..k] + [e] + q[k..];
    hide InsertedAt, Inserted;
    assert forall i :: 0 <= i < |q| ==> q[i] in q;
  }

  lemma KeptInserted(q: seq<Entry>, e: Entry, r: seq<Entry>, now: Timeval)
    requires Inserted(q, e, r) && !Due(e.when, now) && Stamp(e.when) && e.resched > 0
    ensures Kept(q, r, now, {})
  {
    InsertedMembers(q, e, r);
    hide Inserted, Due, Stamp;
  }

  lemma KeptThen(q: seq<Entry>, r: seq<Entry>, s: seq<Entry>, now: Timeval, d1: set<int>, d2: set<int>)
    requires Kept(q, r, now, d1) && Kept(r, s, now, d2)
    ensures Kept(q, s, now, d1 + d2)
  {
  }

  lemma KeptTame(q: seq<Entry>, r: seq<Entry>, now: Timeval, gone: set<int>)
    requires q != [] && Kept(q[1..], r, now, gone) && forall e :: e in q ==> Stamp(e.when) && e.resched > 0
    ensures forall e :: e in r ==> Stamp(e.when) && e.resched > 0
  {
  }

  /** Of the events of q0, those in ran have been run, in order, and all that are in q
      and still due are later and have not. */
  ghost predicate Progress(q0: seq<Entry>, q: seq<Entry>, ran: seq<Entry>, deleted: set<int>, now: Timeval) {
    && NoDup(ran) && InOrder(ran)
    && (forall e :: e in ran ==> e in q0 && Due(e.when, now))
    && (forall e :: e in q && Due(e.when, now) ==> e in q0 && e !in ran && forall r :: r in ran ==> !Sooner(e.when, r.when))
    && (forall e :: e in q0 ==> e in q || e in ran || e.id in deleted)
  }

  lemma NoProgress(q: seq<Entry>, now: Timeval)
    ensures Progress(q, q, [], {}, now)
  {
  }

  lemma CardinalLess<T>(a: set<T>, b: set<T>)
    requires a < b
    ensures |a| < |b|
  {
    assert b == a + (b - a);
  }

  /** The pass stops where nothing is due. */
  lemma AllDone(q0: seq<Entry>, q: seq<Entry>, ran: seq<Entry>, deleted: set<int>, now: Timeval)
    requires Progress(q0, q, ran, deleted, now) && InOrder(q) && (q == [] || !Due(q[0].when, now))
    ensures NoDup(ran) && InOrder(ran) && forall e :: e in ran ==> e in q0 && Due(e.when, now)
    ensures forall e :: e in q ==> !Due(e.when, now)
    ensures forall e :: e in q0 && Due(e.when, now) ==> e in ran || e.id in deleted
    ensures forall e :: e in q0 && !Due(e.when, now) ==> e in q || e.id in deleted
  {
    forall e | e in q ensures !Due(e.when, now) {
      var i :| 0 <= i < |q| && q[i] == e;
      assert i > 0 ==> !Sooner(q[i].when, q[0].when);
    }
  }

  lemma DeletedAt(q: seq<Entry>, k: nat)
    requires k < |q| && InOrder(q) && forall i, j :: 0 <= i < j < |q| ==> q[i].id != q[j].id
    ensures InOrder(q[..k] + q[k + 1..])
    ensures forall e :: e in q[..k] + q[k + 1..] <==> e in q && e.id != q[k].id
  {
    assert q == q[..k] + [q[k]] + q[k + 1..];
  }

  lemma HeadTaken(q: seq<Entry>, limit: int)
    requires q != [] && InOrder(q) && OwnIds(q, limit)
    ensures InOrder(q[1..]) && OwnIds(q[1..], limit)
    ensures forall i :: 0 <= i < |q| - 1 ==> q[1..][i].id != q[0].id
    ensures forall e :: e in q <==> e == q[0] || e in q[1..]
  {
    assert q == [q[0]] + q[1..];
  }

  ghost function DueIn(q: seq<Entry>, now: Timeval): set<Entry> { set e | e in q && Due(e.when, now) }

  lemma StepProgress(q0: seq<Entry>, q: seq<Entry>, r: seq<Entry>, ran: seq<Entry>, deleted: set<int>, gone: set<int>, now: Timeval)
    requires Progress(q0, q, ran, deleted, now) && q != [] && Due(q[0].when, now) && InOrder(q)
    requires forall i :: 0 <= i < |q| - 1 ==> q[1..][i].id != q[0].id
    requires Kept(q[1..], r, now, gone)
    ensures Progress(q0, r, ran + [q[0]], deleted + gone, now)
    ensures DueIn(r, now) < DueIn(q, now)
  {
    var h := q[0];
    assert q == [h] + q[1..];
    assert h in q && h in DueIn(q, now) && h !in q[1..] && h !in DueIn(r, now);
    forall e | e in q[1..] ensures !Sooner(e.when, h.when) {
      var i :| 0 <= i < |q[1..]| && q[1..][i] == e;
      assert q[i + 1] == e;
    }
  }

  class Scheduler {
    var queue: seq<Entry>
    var eventcnt: int
    var schedcnt: int

    ghost predicate Valid()
      reads this
    {
      InOrder(queue) && OwnIds(queue, eventcnt) && schedcnt == |queue|
    }

    constructor ()
      ensures Valid() && queue == [] && eventcnt == 1
    {
      queue, eventcnt, schedcnt := [], 1, 0;
    }

    /** schedule */
    method Enter(e: Entry)
      requires InOrder(queue)
      modifies this`queue, this`schedcnt
      ensures Inserted(old(queue), e, queue) && InOrder(queue) && schedcnt == old(schedcnt) + 1
    {
      var k := 0;
      while k < |queue| && !Sooner(e.when, queue[k].when)
        invariant 0 <= k <= |queue|
        invariant forall i :: 0 <= i < k ==> !Sooner(e.when, queue[i].when)
      {
        k := k + 1;
      }
      ghost var was := queue;
      queue := queue[..k] + [e] + queue[k..];
      schedcnt := schedcnt + 1;
      assert InsertedAt(was, e, queue, k);
      InsertedInOrder(was, e, queue);
    }

    /** cheops_sched_add. There is no clock reading if gettimeofday fails. */
    method Add(clock: Option<Timeval>, when: int, data: nat, memory: bool) returns (id: int)
      requires Valid()
      modifies this
      ensures Valid()
      ensures if when == 0 || !memory || clock == None then id == -1 && queue == old(queue)
              else id == old(eventcnt) && Inserted(old(queue), Entry(id, SetTime(clock.value, when), when, data), queue)
      ensures eventcnt == old(eventcnt) + if when == 0 || !memory then 0 else 1
    {
      if when == 0 { return -1; }
      if !memory { return -1; }
      id := eventcnt;
      eventcnt := eventcnt + 1;
      if clock == None { return -1; }
      var e := Entry(id, SetTime(clock.value, when), when, data);
      ghost var was := queue;
      assert forall x :: x in was ==> x.id < id;
      Enter(e);
      InsertedIds(was, e, queue, eventcnt);
      InsertedMembers(was, e, queue);
    }

    /** cheops_sched_del */
    method Delete(id: int) returns (r: int)
      requires Valid()
      modifies this`queue, this`schedcnt
      ensures Valid() && (r == 0 || r == -1)
      ensures r == 0 <==> exists e :: e in old(queue) && e.id == id
      ensures r == -1 ==> queue == old(queue)
      ensures forall e :: e in queue <==> e in old(queue) && e.id != id
    {
      var k := 0;
      while k < |queue|
        invariant 0 <= k <= |queue| && forall i :: 0 <= i < k ==> queue[i].id != id
      {
        if queue[k].id == id {
          assert queue[k] in queue;
          ghost var was := queue;
          queue := queue[..k] + queue[k + 1..];
          schedcnt := schedcnt - 1;
          DeletedAt(was, k);
          return 0;
        }
        k := k + 1;
      }
      r := -1;
    }

    /** cheops_sched_wait */
    method Wait(clock: Option<Timeval>) returns (ms: int)
      ensures ms == if queue == [] then -1 else if clock == None then 0
                    else var m := Int32(WaitMillis(queue[0].when, clock.value)); if m < 0 then 0 else m
      ensures queue != [] && clock != None && Made(queue[0].when) && Normal(clock.value)
              && WaitMillis(queue[0].when, clock.value) < 0x8000_0000 ==>
                ((ms == 0 <==> Due(queue[0].when, clock.value))
                 <==> !Overslept(queue[0].when, clock.value) && !SecondAhead(queue[0].when, clock.value))
    {
      hide Overslept, SecondAhead, Due, Made;
      if queue == [] { return -1; }
      if clock == None { return 0; }
      var tv := clock.value;
      ms := Int32((queue[0].when.sec - tv.sec) * 1000);
      ms := Int32(ms + Quot(queue[0].when.usec - tv.usec, 1000));
      WrapTwice((queue[0].when.sec - tv.sec) * 1000, Quot(queue[0].when.usec - tv.usec, 1000));
      if Made(queue[0].when) && Normal(tv) && WaitMillis(queue[0].when, tv) < 0x8000_0000 {
        WaitZeroExactly(queue[0].when, tv);
      }
      if ms < 0 { ms := 0; }
    }

    /** What a callback does while the clock shows now. */
    method Apply(acts: seq<Act>, now: Timeval) returns (ghost deleted: set<int>)
      requires Valid() && Normal(now) && forall a :: a in acts && a.AddEvent? ==> a.when >= 0
      modifies this
      ensures Valid() && Kept(old(queue), queue, now, deleted) && eventcnt >= old(eventcnt)
      ensures forall e :: e in queue ==> e in old(queue) || e.id >= old(eventcnt)
    {
      deleted := {};
      for i := 0 to |acts|
        invariant Valid() && Kept(old(queue), queue, now, deleted) && eventcnt >= old(eventcnt)
        invariant forall e :: e in queue ==> e in old(queue) || e.id >= old(eventcnt)
      {
        ghost var was := queue;
        ghost var gone: set<int> := {};
        assert acts[i] in acts;
        match acts[i] {
          case AddEvent(when, data, memory) =>
            var id := Add(Some(now), when, data, memory);
            if when != 0 && memory {
              var e := Entry(id, SetTime(now, when), when, data);
              SetTimeDue(now, when);
              SetTimeExact(now, when);
              KeptInserted(was, e, queue, now);
              InsertedMembers(was, e, queue);
            }
          case DelEvent(id) =>
            var _ := Delete(id);
            gone := {id};
        }
        KeptThen(old(queue), was, queue, now, deleted, gone);
        deleted := deleted + gone;
      }
    }

    ghost predicate Tame()
      reads this
    {
      forall e :: e in queue ==> Stamp(e.when) && e.resched > 0
    }

    /** The head is taken off the queue and run, and put back if it asks for it. */
    method RunHead(now: Timeval, react: Entry -> Reaction) returns (ghost gone: set<int>)
      requires Valid() && Tame() && Normal(now) && queue != []
      requires forall e, a :: a in react(e).acts && a.AddEvent? ==> a.when >= 0
      modifies this
      ensures Valid() && Kept(old(queue[1..]), queue, now, gone)
    {
      hide Sooner, Kept, Due, Stamp, Inserted, SetTime, InOrder;
      var current := queue[0];
      HeadTaken(queue, eventcnt);
      queue := queue[1..];
      schedcnt := schedcnt - 1;
      ghost var rest := queue;
      var reaction := react(current);
      gone := Apply(reaction.acts, now);
      ghost var after := queue;
      if reaction.again {
        var again := current.(when := SetTime(now, current.resched));
        SetTimeDue(now, current.resched);
        SetTimeExact(now, current.resched);
        Enter(again);
        KeptInserted(after, again, queue, now);
        InsertedIds(after, again, queue, eventcnt);
        InsertedMembers(after, again, queue);
        KeptThen(rest, after, queue, now, gone, {});
        assert gone + {} == gone;
      }
    }

    /** cheops_sched_runq while the clock shows now throughout, for callbacks that ask
        for no delay below zero. */
    method RunQueue(now: Timeval, react: Entry -> Reaction) returns (x: nat, ghost ran: seq<Entry>, ghost deleted: set<int>)
      requires Valid() && Tame() && Normal(now)
      requires forall e, a :: a in react(e).acts && a.AddEvent? ==> a.when >= 0
      modifies this
      ensures Valid() && Tame() && x == |ran|
      ensures NoDup(ran) && InOrder(ran) && forall e :: e in ran ==> e in old(queue) && Due(e.when, now)
      ensures forall e :: e in old(queue) && Due(e.when, now) ==> e in ran || e.id in deleted
      ensures forall e :: e in queue ==> !Due(e.when, now)
      ensures forall e :: e in old(queue) && !Due(e.when, now) ==> e in queue || e.id in deleted
    {
      hide Sooner, Kept, Due, Stamp, InOrder, Progress, OwnIds;
      x, ran, deleted := 0, [], {};
      NoProgress(queue, now);
      while queue != []
        invariant Valid() && Tame() && x == |ran|
        invariant Progress(old(queue), queue, ran, deleted, now)
        decreases |DueIn(queue, now)|
      {
        if !Due(queue[0].when, now) { break; }
        ghost var was := queue;
        HeadTaken(was, eventcnt);
        ghost var gone := RunHead(now, react);
        KeptTame(was, queue, now, gone);
        StepProgress(old(queue), was, queue, ran, deleted, gone, now);
        CardinalLess(DueIn(queue, now), DueIn(was, now));
        ran := ran + [was[0]];
        deleted := deleted + gone;
        x := x + 1;
      }
      AllDone(old(queue), queue, ran, deleted, now);
    }
  }
}
