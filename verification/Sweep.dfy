/**
 A discover request: every address of a range is pinged in turn, as often as there
 are retries and once more, one per call of the schedule.
 */
module Sweep {
  import opened NetMask

  datatype Action = Pinged | Skipped | Replied | Known

  /** What was done when an address had its turn. */
  datatype Visit = Visit(retry: nat, address: nat, action: Action)

  // ---- Addresses not to be pinged ----

  function Octet(a: u32, i: nat): nat
    requires i < 4
  {
    if i == 0 then a / 0x100_0000 else if i == 1 then a / 0x1_0000 % 256 else if i == 2 then a / 256 % 256 else a % 256
  }

  predicate Ends(a: u32, from: nat, v: nat)
    requires from < 4
  {
    forall i :: from <= i < 4 ==> Octet(a, i) == v
  }

  /** A directed broadcast of the address's class: the host part all ones or all zeros. */
  predicate Broadcast(a: u32) {
    var first := Octet(a, 0);
    if first < 0x80 then Ends(a, 1, 255) || Ends(a, 1, 0)
    else if first < 0xC0 then Ends(a, 2, 255) || Ends(a, 2, 0)
    else if first < 0xE0 then Ends(a, 3, 255) || Ends(a, 3, 0)
    else false
  }

  // ---- The order of visits ----

  /** The turn after that of address in round retry. */
  function Succ(start: nat, end: nat, retry: nat, address: nat): (nat, nat) {
    if address == end then (retry + 1, start) else (retry, address + 1)
  }

  function NextTurn(visits: seq<Visit>, start: nat, end: nat): (nat, nat) {
    if visits == [] then (0, start) else Succ(start, end, visits[|visits| - 1].retry, visits[|visits| - 1].address)
  }

  /** From the first address in round zero, each turn is followed by the next. */
  ghost predicate InTurn(visits: seq<Visit>, start: nat, end: nat) {
    forall k :: 0 <= k < |visits| ==> (visits[k].retry, visits[k].address) == NextTurn(visits[..k], start, end)
  }

  /** The number of turns in the first r rounds of n. */
  function Turns(n: nat, r: nat): nat { if r == 0 then 0 else n + Turns(n, r - 1) }

  lemma {:induction false} TurnsGrow(n: nat, a: nat, b: nat)
    requires a <= b
    ensures Turns(n, a) <= Turns(n, b) && (a < b ==> Turns(n, a) + n <= Turns(n, b))
    decreases b
  {
    if a < b { TurnsGrow(n, a, b - 1); }
  }

  lemma {:induction false} TurnIndex(visits: seq<Visit>, start: nat, end: nat, k: nat)
    requires InTurn(visits, start, end) && start <= end && k <= |visits|
    ensures var (r, a) := NextTurn(visits[..k], start, end);
      start <= a <= end && k == Turns(end - start + 1, r) + (a - start)
  {
    if k > 0 {
      TurnIndex(visits, start, end, k - 1);
      assert visits[..k][k - 1] == visits[k - 1];
      assert (visits[k - 1].retry, visits[k - 1].address) == NextTurn(visits[..k - 1], start, end);
    }
  }

  /** A sweep is over when the last address has had its turn in the last round. */
  ghost predicate Complete(visits: seq<Visit>, start: nat, end: nat, retries: nat) {
    InTurn(visits, start, end) && NextTurn(visits, start, end) == (retries + 1, start)
  }

  /** In a complete sweep every address of the range has had exactly one turn in every
      round up to the last, in order. */
  lemma CompleteVisitsAll(visits: seq<Visit>, start: nat, end: nat, retries: nat, retry: nat, address: nat)
    requires Complete(visits, start, end, retries) && start <= end && retry <= retries && start <= address <= end
    ensures var n := end - start + 1;
      && |visits| == Turns(n, retries + 1)
      && var k := Turns(n, retry) + (address - start);
      && k < |visits| && visits[k].retry == retry && visits[k].address == address
  {
    var n := end - start + 1;
    assert visits[..|visits|] == visits;
    TurnIndex(visits, start, end, |visits|);
    TurnsGrow(n, retry, retries + 1);
    var k := Turns(n, retry) + (address - start);
    TurnIndex(visits, start, end, k);
    var r := visits[k].retry;
    assert (r, visits[k].address) == NextTurn(visits[..k], start, end);
    if r < retry { TurnsGrow(n, r, retry); }
    if r > retry { TurnsGrow(n, retry, r); }
  }

  // ---- A request ----

  /** The rest of the world during a call: what is in the cache, and whether the n-th
      attempt to send succeeds. */
  datatype World = World(force: bool, cached: nat -> bool, sends: nat -> bool)

  function Due(w: World, address: u32, retry: nat): Action {
    if w.force || !w.cached(address) then if Broadcast(address) then Skipped else Pinged
    else if retry == 0 then Replied else Known
  }

  /** How often a failed send is tried again within a call. */
  const TRIES: nat := 4

  ghost predicate DidDue(w: World, v: Visit) { v.address < 0x1_0000_0000 && v.action == Due(w, v.address, v.retry) }

  /** Every new visit did what was due. */
  ghost predicate Did(w: World, before: seq<Visit>, visits: seq<Visit>) {
    before <= visits && forall k :: |before| <= k < |visits| ==> DidDue(w, visits[k])
  }

  ghost predicate Quiet(visits: seq<Visit>, from: nat, to: nat) {
    to <= |visits| && forall k :: from <= k < to ==> visits[k].action != Pinged
  }

  /** Of the new visits the last was a ping, and no other. */
  ghost predicate OnePing(before: seq<Visit>, visits: seq<Visit>) {
    |visits| > |before| && visits[|visits| - 1].action == Pinged && Quiet(visits, |before|, |visits| - 1)
  }

  lemma NothingDone(w: World, visits: seq<Visit>)
    ensures Did(w, visits, visits) && Quiet(visits, |visits|, |visits|)
  {
  }

  lemma DueAction(w: World, address: u32, retry: nat)
    ensures Due(w, address, retry) == Pinged <==> (w.force || !w.cached(address)) && !Broadcast(address)
  {
  }

  lemma OneMore(w: World, before: seq<Visit>, visits: seq<Visit>, v: Visit)
    requires Did(w, before, visits) && Quiet(visits, |before|, |visits|) && DidDue(w, v)
    ensures Did(w, before, visits + [v])
    ensures if v.action == Pinged then OnePing(before, visits + [v]) else Quiet(visits + [v], |before|, |visits| + 1)
  {
  }

  class Request {
    const start: u32
    const end: u32
    var current: u32
    var retry: nat
    var removed: bool
    ghost var visits: seq<Visit>

    ghost predicate Valid()
      reads this
    {
      start <= current <= end && InTurn(visits, start, end) && NextTurn(visits, start, end) == (retry, current)
    }

    /** handle_discover_request, for a range it accepts. */
    constructor (s: u32, e: u32)
      requires s <= e
      ensures Valid() && start == s && end == e && visits == [] && !removed
    {
      start, end, current, retry, removed, visits := s, e, s, 0, false, [];
    }

    /** The step at the end of the loop. */
    method Advance(ghost action: Action)
      requires Valid()
      modifies this`current, this`retry, this`visits
      ensures Valid() && visits == old(visits) + [Visit(old(retry), old(current), action)]
      ensures if old(current) == end then retry == old(retry) + 1 && current == start else retry == old(retry) && current == old(current) + 1
    {
      ghost var v := visits + [Visit(retry, current, action)];
      assert v[..|visits|] == visits;
      assert forall k :: 0 <= k < |visits| ==> v[..k] == visits[..k];
      visits := v;
      if current == end {
        current := start;
        retry := retry + 1;
      } else {
        current := current + 1;
      }
    }

    /** No turn is left over, or the rounds are not over. */
    ghost predicate Before(retries: nat)
      reads this`retry, this`current
    {
      retry <= retries || (retry == retries + 1 && current == start)
    }

    /** ping_send, for a fixed number of retries: it goes on until it has sent one ping,
        or removes the request because every round is over. */
    method PingSend(retries: nat, w: World)
      requires Valid() && !removed && Before(retries)
      modifies this
      ensures Valid() && Before(retries) && Did(w, old(visits), visits)
      ensures if removed then retry > retries && Quiet(visits, |old(visits)|, |visits|) else OnePing(old(visits), visits)
    {
      hide InTurn, NextTurn, Did, Quiet, OnePing, Broadcast, Due;
      var sentSomething := false;
      var negativeRetry, attempt: nat := 0, 0;
      NothingDone(w, visits);
      while !sentSomething
        invariant Valid() && Before(retries) && !removed && Did(w, old(visits), visits)
        invariant if sentSomething then OnePing(old(visits), visits) else Quiet(visits, |old(visits)|, |visits|) && negativeRetry <= TRIES
        decreases !sentSomething, retries + 1 - retry, end - current, TRIES - negativeRetry
      {
        if retry > retries {
          removed := true;
          return;
        }
        ghost var action := Due(w, current, retry);
        DueAction(w, current, retry);
        if w.force || !w.cached(current) {
          if !Broadcast(current) {
            sentSomething := true;
            var ok := w.sends(attempt);
            attempt := attempt + 1;
            if !ok {
              negativeRetry := negativeRetry + 1;
              if negativeRetry <= TRIES {
                sentSomething := false;
                continue;
              }
            }
          }
        }
        OneMore(w, old(visits), visits, Visit(retry, current, action));
        Advance(action);
      }
    }

    lemma Left(retries: nat)
      requires Valid() && Before(retries)
      ensures |visits| <= Turns(end - start + 1, retries + 1)
    {
      var n := end - start + 1;
      assert visits[..|visits|] == visits;
      TurnIndex(visits, start, end, |visits|);
      if retry <= retries { TurnsGrow(n, retry, retries + 1); }
    }

    /** All the calls of a request's life: the whole range is visited in order, once
        more than there are retries, and then the request is removed. */
    method Live(retries: nat, worlds: nat -> World)
      requires Valid() && !removed && visits == []
      modifies this
      ensures removed && Complete(visits, start, end, retries)
    {
      hide InTurn, Did, Quiet, Turns;
      var i := 0;
      Left(retries);
      while !removed
        invariant Valid() && Before(retries) && (removed ==> retry > retries)
        invariant |visits| <= Turns(end - start + 1, retries + 1)
        decreases !removed, Turns(end - start + 1, retries + 1) - |visits|
      {
        PingSend(retries, worlds(i));
        Left(retries);
        i := i + 1;
      }
    }
  }

  /** handle_discover_request: what is refused. */
  method HandleRequest(s: u32, e: u32) returns (r: Request?)
    ensures r == null <==> s == 0 || e == 0 || s > e
    ensures r != null ==> fresh(r) && r.Valid() && r.start == s && r.end == e && r.visits == [] && !r.removed
  {
    var error := false;
    if s == 0 || e == 0 { error := true; }
    if s > e { error := true; }
    if error { return null; }
    r := new Request(s, e);
  }
}
