/**
 A version probe: an object registered with the table of descriptors, for sending
 and for receiving, and with the schedule, for its time limit. It ends by receiving
 or by its time running out, whichever is first.

 The table and the schedule are seen here as maps, as the table's contents and the
 schedule's queue are.
 */
module Probing {
  import opened Common
  import IoTable
  import Schedule
  import Timeval

  datatype Direction = Out | In
  datatype Watch = Watch(probe: nat, direction: Direction)

  /** probe_data. None is a failed or forgotten registration. */
  datatype Probe = Probe(tid: Option<nat>, soid: Option<nat>, siid: Option<nat>, sent: bool)

  type Table = map<nat, Watch>
  type Timers = map<nat, nat>      // the probe an entry of the schedule is for
  type Probes = map<nat, Probe>    // the probe_data that have not been freed

  datatype How = Received | TimedOut
  datatype End = End(probe: nat, how: How)

  // ---- Who refers to whom ----

  /** The registrations of probe p are there, and its own. */
  ghost predicate Registered(table: Table, schedule: Timers, p: nat, pd: Probe) {
    && (pd.soid.Some? ==> pd.soid.value in table && table[pd.soid.value] == Watch(p, Out))
    && (pd.siid.Some? ==> pd.siid.value in table && table[pd.siid.value] == Watch(p, In))
    && (pd.tid.Some? ==> pd.tid.value in schedule && schedule[pd.tid.value] == p)
    && (pd.sent ==> pd.soid == None)
  }

  /** The entry h of the table is for a live probe that has it as its own. */
  ghost predicate Known(table: Table, probes: Probes, h: nat)
    requires h in table
  {
    && table[h].probe in probes
    && (if table[h].direction == Out then probes[table[h].probe].soid else probes[table[h].probe].siid) == Some(h)
  }

  ghost predicate Timed(schedule: Timers, probes: Probes, t: nat)
    requires t in schedule
  {
    schedule[t] in probes && probes[schedule[t]].tid == Some(t)
  }

  /** Table, schedule and probes refer to one another and to nothing freed. */
  ghost predicate Linked(table: Table, schedule: Timers, probes: Probes) {
    && (forall p :: p in probes ==> Registered(table, schedule, p, probes[p]))
    && (forall h :: h in table ==> Known(table, probes, h))
    && (forall t :: t in schedule ==> Timed(schedule, probes, t))
  }

  /** Every number in use is below the next to be given out. */
  ghost predicate Numbered(table: Table, schedule: Timers, probes: Probes, handles: nat, timers: nat, started: nat) {
    && (forall h :: h in table ==> h < handles)
    && (forall t :: t in schedule ==> t < timers)
    && (forall p :: p in probes ==> p < started)
  }

  ghost predicate Ended(ends: seq<End>, p: nat) { exists i :: 0 <= i < |ends| && ends[i].probe == p }

  /** Every probe that was started is either alive or has ended, once. */
  ghost predicate Accounted(probes: Probes, started: nat, ends: seq<End>) {
    && (forall i, j :: 0 <= i < j < |ends| ==> ends[i].probe != ends[j].probe)
    && (forall i :: 0 <= i < |ends| ==> ends[i].probe < started)
    && (forall p: nat :: p < started ==> (p in probes) != Ended(ends, p))
  }

  /** A probe with the registrations that were made for it. */
  lemma StartLinks(table: Table, schedule: Timers, probes: Probes, table2: Table, schedule2: Timers, p: nat, pd: Probe)
    requires Linked(table, schedule, probes) && p !in probes && !pd.sent
    requires forall h :: h in table2 <==> h in table || pd.soid == Some(h) || pd.siid == Some(h)
    requires forall h :: h in table ==> table2[h] == table[h] && pd.soid != Some(h) && pd.siid != Some(h)
    requires forall t :: t in schedule2 <==> t in schedule || pd.tid == Some(t)
    requires forall t :: t in schedule ==> schedule2[t] == schedule[t] && pd.tid != Some(t)
    requires Registered(table2, schedule2, p, pd)
    ensures Linked(table2, schedule2, probes[p := pd])
  {
    var probes2 := probes[p := pd];
    forall q | q in probes2 ensures Registered(table2, schedule2, q, probes2[q]) {
      if q != p { assert Registered(table, schedule, q, probes[q]); }
    }
    forall h | h in table2 ensures Known(table2, probes[p := pd], h) {
      if h in table { assert Known(table, probes, h); }
    }
    forall t | t in schedule2 ensures Timed(schedule2, probes[p := pd], t) {
      if t in schedule { assert Timed(schedule, probes, t); }
    }
  }

  /** A probe is freed with all that refers to it. */
  lemma EndLinks(table: Table, schedule: Timers, probes: Probes, p: nat, table2: Table, schedule2: Timers)
    requires Linked(table, schedule, probes) && p in probes
    requires forall h :: h in table2 <==> h in table && probes[p].soid != Some(h) && probes[p].siid != Some(h)
    requires forall h :: h in table2 ==> table2[h] == table[h]
    requires forall t :: t in schedule2 <==> t in schedule && probes[p].tid != Some(t)
    requires forall t :: t in schedule2 ==> schedule2[t] == schedule[t]
    ensures Linked(table2, schedule2, probes - {p})
  {
    forall q | q in probes - {p} ensures Registered(table2, schedule2, q, (probes - {p})[q]) {
      assert Registered(table, schedule, q, probes[q]) && Registered(table, schedule, p, probes[p]);
    }
    forall h | h in table2 ensures Known(table2, probes - {p}, h) { assert Known(table, probes, h); }
    forall t | t in schedule2 ensures Timed(schedule2, probes - {p}, t) { assert Timed(schedule, probes, t); }
  }

  lemma EndAccounts(probes: Probes, started: nat, ends: seq<End>, p: nat, how: How)
    requires Accounted(probes, started, ends) && p in probes && p < started
    ensures Accounted(probes - {p}, started, ends + [End(p, how)])
  {
    var e := ends + [End(p, how)];
    assert e[|ends|].probe == p && !Ended(ends, p);
    forall q: nat | q < started ensures q in probes - {p} <==> !Ended(e, q) {
      if Ended(ends, q) {
        var i :| 0 <= i < |ends| && ends[i].probe == q;
        assert e[i].probe == q;
      }
      if Ended(e, q) && q != p {
        var i :| 0 <= i < |e| && e[i].probe == q;
        assert ends[i].probe == q;
      }
    }
  }

  lemma StartAccounts(probes: Probes, started: nat, ends: seq<End>, pd: Probe)
    requires Accounted(probes, started, ends)
    ensures Accounted(probes[started := pd], started + 1, ends)
  {
    assert !Ended(ends, started);
  }

  /** Nothing refers to a probe that has ended. */
  lemma NothingLeft(table: Table, schedule: Timers, probes: Probes, started: nat, ends: seq<End>, p: nat)
    requires Linked(table, schedule, probes) && Accounted(probes, started, ends) && Ended(ends, p)
    ensures p !in probes
    ensures forall h :: h in table ==> table[h].probe != p
    ensures forall t :: t in schedule ==> schedule[t] != p
  {
    forall h | h in table ensures table[h].probe != p { assert Known(table, probes, h); }
    forall t | t in schedule ensures schedule[t] != p { assert Timed(schedule, probes, t); }
  }

  // ---- What table and schedule ask of callbacks ----

  /** What the callback of an entry for w answers cheops_io_wait. */
  function IoReaction(w: Watch, probes: Probes): IoTable.Reaction {
    IoTable.Reaction([], false, w.direction == In && w.probe in probes && !probes[w.probe].sent)
  }

  /** What timeout_cb answers cheops_sched_runq. */
  const TIMED_OUT := Schedule.Reaction([], false)

  /** h's entry is gone unless it stays, and no other is touched. */
  ghost predicate OwnOnly(table: Table, table2: Table, h: nat, r: IoTable.Reaction) {
    r.adds == [] && table2 == if IoTable.Stays(r) then table else table - {h}
  }

  /** Callbacks that add nothing are all that Wait asks for, whatever is ready. */
  lemma MeetsWait(t: IoTable.Table, react: IoTable.Handle -> IoTable.Reaction)
    requires t.Valid() && forall h :: react(h).adds == []
    ensures t.enlarged + IoTable.Product(0, t.fdcnt) < IoTable.LIMIT
    ensures forall h :: h in t.contents ==> |react(h).adds| <= 0
  {
  }

  /** And RunQueue asks no more of timeout_cb. */
  lemma MeetsRunQueue()
    ensures forall a :: a in TIMED_OUT.acts && a.AddEvent? ==> a.when >= 0
  {
  }

  /** The table of descriptors and the agent's map of it, entry h as number id(h), are still
      of the same entries after a pass in which the callbacks answered in the same way. */
  lemma InStep(contents: map<IoTable.Handle, IoTable.Entry>, contents2: map<IoTable.Handle, IoTable.Entry>,
               called: seq<IoTable.Handle>, react: IoTable.Handle -> IoTable.Reaction, id: IoTable.Handle -> nat,
               table: Table, table2: Table, reactions: map<nat, IoTable.Reaction>)
    requires IoTable.AllServed(contents, contents2, called, react) && forall h :: h in called ==> h in contents
    requires forall h :: h in contents ==> id(h) in table
    requires forall h, g :: h in contents && g in contents && id(h) == id(g) ==> h == g
    requires reactions.Keys == set h | h in called :: id(h)
    requires forall h :: h in called ==> reactions[id(h)] == react(h)
    requires table2 == map n | n in table && (n in reactions ==> IoTable.Stays(reactions[n])) :: table[n]
    ensures forall h :: h in contents ==> (h in contents2 <==> id(h) in table2)
  {
    forall h | h in contents ensures h in contents2 <==> id(h) in table2 {
      assert id(h) in reactions <==> h in called;
    }
  }

  // ---- The agent ----

  /** What is left to chance when a probe is started. */
  datatype Luck = Luck(socket: bool, timer: bool, out: bool, inn: bool)

  datatype Event = Start(luck: Luck) | Ready(handle: nat) | Fires(timer: nat)

  lemma SameAccounts(probes: Probes, probes2: Probes, started: nat, ends: seq<End>)
    requires Accounted(probes, started, ends) && probes2.Keys == probes.Keys
    ensures Accounted(probes2, started, ends)
  {
  }

  lemma TimedProbe(table: Table, schedule: Timers, probes: Probes, t: nat)
    requires Linked(table, schedule, probes) && t in schedule
    ensures schedule[t] in probes && probes[schedule[t]].tid == Some(t)
  {
    assert Timed(schedule, probes, t);
  }

  lemma SentLinks(table: Table, schedule: Timers, probes: Probes, h: nat, table2: Table, probes2: Probes)
    requires Linked(table, schedule, probes) && h in table && table[h].direction == Out && table[h].probe in probes
    requires table2 == map g | g in table && g != h :: table[g]
    requires probes2 == probes[table[h].probe := probes[table[h].probe].(soid := None, sent := true)]
    ensures Linked(table2, schedule, probes2)
  {
    assert Known(table, probes, h);
    forall q | q in probes2 ensures Registered(table2, schedule, q, probes2[q]) { assert Registered(table, schedule, q, probes[q]); }
    forall g | g in table2 ensures Known(table2, probes2, g) { assert Known(table, probes, g); }
    forall t | t in schedule ensures Timed(schedule, probes2, t) { assert Timed(schedule, probes, t); }
  }

  class Agent {
    var table: Table
    var schedule: Timers
    var probes: Probes
    var handles: nat
    var timers: nat
    var started: nat
    ghost var ends: seq<End>

    ghost predicate Valid()
      reads this
    {
      && Linked(table, schedule, probes) && Numbered(table, schedule, probes, handles, timers, started)
      && Accounted(probes, started, ends)
    }

    constructor ()
      ensures Valid() && ends == [] && started == 0
    {
      table, schedule, probes := map[], map[], map[];
      handles, timers, started := 0, 0, 0;
      ends := [];
    }

    /** The registrations of a new probe p, as far as they succeed. */
    method Register(p: nat, luck: Luck) returns (pd: Probe)
      requires (forall h :: h in table ==> h < handles) && forall t :: t in schedule ==> t < timers
      modifies this`table, this`schedule, this`handles, this`timers
      ensures (forall h :: h in table ==> h < handles) && forall t :: t in schedule ==> t < timers
      ensures !pd.sent && (pd.tid.Some? <==> luck.timer) && (pd.soid.Some? <==> luck.out) && (pd.siid.Some? <==> luck.inn)
      ensures Registered(table, schedule, p, pd)
      ensures forall h :: h in table <==> h in old(table) || pd.soid == Some(h) || pd.siid == Some(h)
      ensures forall h :: h in old(table) ==> table[h] == old(table)[h] && pd.soid != Some(h) && pd.siid != Some(h)
      ensures forall t :: t in schedule <==> t in old(schedule) || pd.tid == Some(t)
      ensures forall t :: t in old(schedule) ==> schedule[t] == old(schedule)[t] && pd.tid != Some(t)
    {
      pd := Probe(None, None, None, false);
      if luck.timer {
        schedule := schedule[timers := p];
        pd := pd.(tid := Some(timers));
        timers := timers + 1;
      }
      if luck.out {
        table := table[handles := Watch(p, Out)];
        pd := pd.(soid := Some(handles));
        handles := handles + 1;
      }
      if luck.inn {
        table := table[handles := Watch(p, In)];
        pd := pd.(siid := Some(handles));
        handles := handles + 1;
      }
    }

    /** get_version, when there is a probe for the port and memory for its data. */
    method GetVersion(luck: Luck)
      requires Valid()
      modifies this`table, this`schedule, this`probes, this`handles, this`timers, this`started
      ensures Valid()
      ensures if !luck.socket then probes == old(probes) && table == old(table) && schedule == old(schedule) && started == old(started)
              else exists pd: Probe ::
                && started == old(started) + 1 && probes == old(probes)[old(started) := pd] && !pd.sent
                && (pd.tid.Some? <==> luck.timer) && (pd.soid.Some? <==> luck.out) && (pd.siid.Some? <==> luck.inn)
    {
      hide Linked, Accounted, Registered;
      if !luck.socket { return; }
      var p := started;
      started := started + 1;
      var pd := Register(p, luck);
      StartLinks(old(table), old(schedule), probes, table, schedule, p, pd);
      StartAccounts(probes, p, ends, pd);
      probes := probes[p := pd];
    }

    /** send_cb: it is not kept in the table, and the probe forgets its handle. */
    method SendCb(h: nat) returns (keep: bool)
      requires Valid() && h in table && table[h].direction == Out
      modifies this`probes
      ensures !keep && probes == old(probes)[table[h].probe := old(probes)[table[h].probe].(soid := None, sent := true)]
      ensures table[h].probe in old(probes)
    {
      assert Known(table, probes, h);
      var p := table[h].probe;
      probes := probes[p := probes[p].(soid := None, sent := true)];
      keep := false;
    }

    /** recieve_cb, for a probe with a receive function and a callback: without a send
        before it there is nothing to be done; otherwise the probe ends. */
    method ReceiveCb(h: nat) returns (keep: bool)
      requires Valid() && h in table && table[h].direction == In
      modifies this`schedule, this`probes, this`ends
      ensures table[h].probe in old(probes) && keep == !old(probes)[table[h].probe].sent
      ensures keep ==> probes == old(probes) && schedule == old(schedule) && ends == old(ends)
      ensures !keep ==>
        && probes == old(probes) - {table[h].probe} && ends == old(ends) + [End(table[h].probe, Received)]
        && schedule == map t | t in old(schedule) && old(probes)[table[h].probe].tid != Some(t) :: old(schedule)[t]
    {
      assert Known(table, probes, h);
      var p := table[h].probe;
      var pd := probes[p];
      assert Registered(table, schedule, p, pd);
      if !pd.sent { return true; }
      if pd.tid.Some? { schedule := map t | t in schedule && t != pd.tid.value :: schedule[t]; }
      // A probe that has sent has no handle for sending any more, so none is removed here.
      assert pd.soid == None;
      ends := ends + [End(p, Received)];
      probes := probes - {p};
      keep := false;
    }

    /** cheops_io_wait for a descriptor ready for sending. */
    method Sendable(h: nat)
      requires Valid() && h in table && table[h].direction == Out
      modifies this`table, this`probes
      ensures Valid() && table == old(table) - {h}
    {
      hide Accounted;
      assert Known(table, probes, h);
      var keep := SendCb(h);
      table := map g | g in table && g != h :: table[g];
      SentLinks(old(table), schedule, old(probes), h, table, probes);
      SameAccounts(old(probes), probes, started, ends);
    }

    /** And for one ready for receiving: an entry not kept is removed. */
    method Receivable(h: nat)
      requires Valid() && h in table && table[h].direction == In
      modifies this`table, this`schedule, this`probes, this`ends
      ensures Valid() && old(table[h].probe in probes)
      ensures if old(probes[table[h].probe].sent) then table == old(table) - {h} && ends == old(ends) + [End(old(table[h].probe), Received)]
              else table == old(table) && ends == old(ends)
    {
      hide Accounted;
      assert Known(table, probes, h) && Registered(table, schedule, table[h].probe, probes[table[h].probe]);
      var p := table[h].probe;
      var keep := ReceiveCb(h);
      if !keep {
        table := map g | g in table && g != h :: table[g];
        EndLinks(old(table), old(schedule), old(probes), p, table, schedule);
        EndAccounts(old(probes), started, old(ends), p, Received);
      }
    }

    /** cheops_io_wait for one ready descriptor: an entry not kept is removed. */
    method Dispatch(h: nat)
      requires Valid() && h in table
      modifies this
      ensures Valid() && started == old(started)
      ensures old(table[h].direction) == Out ==> ends == old(ends) && h !in table
      ensures old(table[h].direction) == In ==>
        ends == old(ends) + if old(table[h].probe in probes && probes[table[h].probe].sent) then [End(old(table[h].probe), Received)] else []
      ensures OwnOnly(old(table), table, h, IoReaction(old(table)[h], old(probes)))
    {
      hide Linked, Accounted, Numbered;
      if table[h].direction == Out { Sendable(h); } else { Receivable(h); }
    }

    /** The registrations of pd in the table are taken back. */
    method Withdraw(pd: Probe)
      modifies this`table
      ensures forall h :: h in table <==> h in old(table) && pd.soid != Some(h) && pd.siid != Some(h)
      ensures forall h :: h in table ==> table[h] == old(table)[h]
    {
      if pd.soid.Some? { table := map h | h in table && h != pd.soid.value :: table[h]; }
      if pd.siid.Some? { table := map h | h in table && h != pd.siid.value :: table[h]; }
    }

    /** timeout_cb, run from the schedule, which has taken its entry off already. */
    method Fire(t: nat)
      requires Valid() && t in schedule
      modifies this
      ensures Valid() && started == old(started) && ends == old(ends) + [End(old(schedule[t]), TimedOut)]
      ensures schedule == old(schedule) - {t}
    {
      hide Linked, Accounted;
      TimedProbe(table, schedule, probes, t);
      var p := schedule[t];
      var pd := probes[p];
      schedule := map u | u in schedule && u != t :: schedule[u];
      Withdraw(pd);
      ends := ends + [End(p, TimedOut)];
      probes := probes - {p};
      EndLinks(old(table), old(schedule), old(probes), p, table, schedule);
      EndAccounts(old(probes), started, old(ends), p, TimedOut);
    }

    /** The entries called in one pass of cheops_io_wait, in any order: each answers so as
        to leave the others alone. So Wait's account of who is gone holds of the table. */
    method DispatchAll(called: seq<nat>) returns (reactions: map<nat, IoTable.Reaction>)
      requires Valid() && NoDup(called) && forall h :: h in called ==> h in table
      modifies this
      ensures Valid() && started == old(started) && reactions.Keys == set h | h in called
      ensures forall h :: h in reactions ==> reactions[h].adds == []
      ensures table == map h | h in old(table) && (h in reactions ==> IoTable.Stays(reactions[h])) :: old(table)[h]
    {
      hide Linked, Accounted, Numbered;
      reactions := map[];
      for i := 0 to |called|
        invariant Valid() && started == old(started) && reactions.Keys == set h | h in called[..i]
        invariant forall h :: h in reactions ==> reactions[h].adds == []
        invariant table == map h | h in old(table) && (h in reactions ==> IoTable.Stays(reactions[h])) :: old(table)[h]
      {
        var h := called[i];
        assert h !in called[..i];
        var r := IoReaction(table[h], probes);
        Dispatch(h);
        reactions := reactions[h := r];
      }
      assert called[..|called|] == called;
    }

    /** Any run: of what is not there nothing happens. */
    method Run(events: seq<Event>)
      requires Valid()
      modifies this
      ensures Valid() && old(ends) <= ends && started >= old(started)
      ensures forall p: nat :: p < started && Ended(ends, p) ==>
        && p !in probes && (forall h :: h in table ==> table[h].probe != p) && (forall t :: t in schedule ==> schedule[t] != p)
    {
      hide Linked, Accounted, Numbered;
      for i := 0 to |events|
        invariant Valid() && old(ends) <= ends && started >= old(started)
      {
        match events[i] {
          case Start(luck) => GetVersion(luck);
          case Ready(h) => if h in table { Dispatch(h); }
          case Fires(t) => if t in schedule { Fire(t); }
        }
      }
      forall p: nat | p < started && Ended(ends, p)
        ensures p !in probes && (forall h :: h in table ==> table[h].probe != p) && (forall t :: t in schedule ==> schedule[t] != p)
      {
        NothingLeft(table, schedule, probes, started, ends, p);
      }
    }
  }
}
