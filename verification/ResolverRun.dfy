/**
 Whole runs: any sequence of submissions, replies, timeout passes, connection
 events, cancellations and checks.
 */
module ResolverRun {
  import opened Common
  import opened Timeval
  import opened ResolverState
  import opened ResolverEnv
  import opened ResolverSteps
  import opened ResolverTcp
  import opened ResolverFlow
  import opened ResolverEvents
  import opened ResolverObject
  import opened ResolverPurge
  import opened ResolverLoop
  import opened ResolverTimeouts

  datatype Event =
    | Submitted(req: Request, owner: bool)
    | Replied(x: Handle, reply: Reply)
    | TimePassed
    | CameUp
    | Lost
    | Transferred(send: nat, recv: nat, skip: nat)
    | Cancelled(x: Handle)
    | Checked(want: Option<Handle>)

  /** Dangling, Hung and Died: a freed entry is used, the loop over the connection does not
      end, an assertion fails. */
  datatype Outcome = Nothing | New(x: Handle) | Gone(x: Handle) | Handed(x: Handle) | Dangling | Hung | Died

  /** The queries the caller has outstanding. */
  ghost function Callers(s: State): set<Handle> {
    set x | x in s.queries && s.queries[x].parent.None?
  }

  lemma FollowsKeepsCallers(s: State, r: State, now: Timeval)
    requires Follows(s, r, now)
    ensures Callers(r) == Callers(s)
  {
  }

  lemma AllCallersKnown(s: State)
    requires Inv(s, {})
    ensures forall x :: x in Callers(s) ==> x < s.next
  {
  }

  /** What one event does to the caller's queries. */
  ghost predicate Ledger(s: State, r: State, o: Outcome) {
    && s.next <= r.next
    && match o {
         case New(x) => x == s.next && x < r.next && Callers(r) == Callers(s) + {x}
         case Gone(x) => x in Callers(s) && Callers(r) == Callers(s) - {x}
         case Handed(x) => x in Callers(s) && x in s.output && Callers(r) == Callers(s) - {x}
         case _ => Callers(r) == Callers(s)
       }
  }

  /** Bytes moved over an open connection. */
  lemma TransferKeepsInv(s: State, send: nat, recv: nat, skip: nat)
    requires Inv(s, {}) && s.net.tcp == Connected && skip <= recv
    ensures var r := s.(net := s.net.(sendUsed := send, recvUsed := recv, recvSkip := skip));
            Inv(r, {}) && Callers(r) == Callers(s)
  {
    var r := s.(net := s.net.(sendUsed := send, recvUsed := recv, recvSkip := skip));
    assert RetriesOk(r) by {
      forall x | x in s.tcpw
        ensures x in r.queries && RetryOk(r.cfg, r.net, r.queries[x].retries, r.queries[x].joined, false)
      {
        assert RetryOk(s.cfg, s.net, s.queries[x].retries, s.queries[x].joined, false);
      }
    }
    hide QueriesOk;
    OnlyRetriesKeepsQueues(s, r, {});
    NetOnlyKeepsQueries(s, r);
  }

  lemma OnlyRetriesKeepsCallers(s: State, r: State)
    requires OnlyRetries(s, r)
    ensures Callers(r) == Callers(s)
  {
  }

  lemma SubmitLedger(s: State, req: Request, owner: bool, env: Env)
    requires Inv(s, {}) && EnvOk(env)
    ensures Ledger(s, Submit(s, req, owner, env), New(s.next))
  {
    var s1 := AddQuery(s, CallerQuery(req, owner));
    AllCallersKnown(s);
    assert Callers(s1) == Callers(s) + {s.next};
    FollowsKeepsCallers(s1, Submit(s, req, owner, env), env.now);
  }

  lemma TreeGoneLedger(s: State, x: Handle)
    requires x in Callers(s) && s.next <= CancelTree(s, x).next
    requires x !in CancelTree(s, x).queries
    requires forall y :: y in Callers(s) && y != x ==> y in CancelTree(s, x).queries
    ensures Ledger(s, CancelTree(s, x), Gone(x))
  {
    hide Tree;
  }

  lemma CancelTreeNext(s: State, x: Handle)
    ensures CancelTree(s, x).next == s.next
  {
  }

  lemma CancelLedger(s: State, x: Handle)
    requires Inv(s, {}) && x in Callers(s)
    ensures Inv(CancelTree(s, x), {}) && Ledger(s, CancelTree(s, x), Gone(x))
  {
    hide Inv, CancelTree, Ledger;
    CancelKeepsInv(s, x);
    CancelTreeNext(s, x);
    TreeGoneLedger(s, x);
  }

  lemma OutputKnown(s: State)
    requires Inv(s, {})
    ensures forall x :: x in s.output ==> x in s.queries
  {
  }

  lemma OutputIsCallers(s: State, x: Handle)
    requires Inv(s, {}) && x in s.output
    ensures x in Callers(s)
  {
    assert PhaseOk(s.cfg, s.queries[x]);
  }

  lemma SameLedger(s: State, o: Outcome)
    requires o == Nothing || o == Died
    ensures Ledger(s, s, o)
  {
  }

  lemma HandBackLedger(s: State, x: Handle)
    requires x in Callers(s) && x in s.output
    ensures Ledger(s, HandBack(s, x), Handed(x))
  {
  }

  lemma CheckResults(s: State, want: Option<Handle>)
    requires forall x :: x in s.output ==> x in s.queries
    requires want.Some? ==> want.value in s.queries
    ensures var (res, r) := InternalCheck(s, want); r == if res.Got? then HandBack(s, res.x) else s
  {
    hide HandBack;
  }

  lemma CheckLedger(s: State, want: Option<Handle>)
    requires Inv(s, {}) && (want.Some? ==> want.value in s.queries)
    ensures forall x :: x in s.output ==> x in s.queries
    ensures var (res, r) := InternalCheck(s, want);
            Inv(r, {}) && Ledger(s, r, if res.Got? then Handed(res.x) else Nothing)
  {
    hide *;
    OutputKnown(s);
    CheckIsExact(s, want);
    CheckResults(s, want);
    var (res, r) := InternalCheck(s, want);
    SameLedger(s, Nothing);
    if res.Got? {
      OutputIsCallers(s, res.x);
      HandBackLedger(s, res.x);
    }
  }

  lemma InCallers(s: State, x: Handle)
    requires x in s.queries && s.queries[x].parent.None?
    ensures x in Callers(s)
  {
  }

  lemma FollowedLedger(s: State, r: State, now: Timeval, o: Outcome)
    requires Follows(s, r, now) && (o == Nothing || o == Dangling || o == Hung || o == Died)
    ensures Ledger(s, r, o)
  {
    FollowsKeepsCallers(s, r, now);
  }

  // ---- One event ----

  function OutcomeOf(how: Ending): Outcome {
    match how
    case Settled => Nothing
    case PlaceLost => Dangling
    case Spinning => Hung
  }

  /** What an event does. One that names a query it cannot happen to is ignored. */
  ghost function Happened(s: State, ev: Event, env: Env, calm: nat): (State, Outcome)
    requires Inv(s, {}) && EnvOk(env) && (ev.TimePassed? ==> WearsOut(env, calm))
  {
    InvTcpw(s);
    OutputKnown(s);
    match ev
    case Submitted(req, owner) => (Submit(s, req, owner, env), New(s.next))
    case Replied(x, reply) =>
      if !(x in s.queries && (x in s.udpw || x in s.tcpw)) then (s, Nothing)
      else
        var r := ProcessReply(s, x, reply, env);
        (r.s, if r.Aborted? then Died else Nothing)
    case TimePassed =>
      var (r, how) := ActingPass(s, env, calm);
      (r, OutcomeOf(how))
    case CameUp => (if s.net.tcp == Connecting then TcpUp(s, env) else s, Nothing)
    case Lost => (if s.net.Open() then TcpBreak(s) else s, Nothing)
    case Transferred(send, recv, skip) =>
      (if s.net.tcp == Connected && skip <= recv
       then s.(net := s.net.(sendUsed := send, recvUsed := recv, recvSkip := skip)) else s, Nothing)
    case Cancelled(x) =>
      if x in s.queries && s.queries[x].parent.None? then (CancelTree(s, x), Gone(x)) else (s, Nothing)
    case Checked(want) =>
      if want.Some? && want.value !in s.queries then (s, Nothing)
      else
        var (res, r) := InternalCheck(s, want);
        (r, if res.Got? then Handed(res.x) else Nothing)
  }

  lemma ReachedLedger(s: State, r: State)
    requires Inv(s, {}) && OnlyRetries(s, r)
    ensures Ledger(s, r, Nothing)
  {
    OnlyRetriesKeepsCallers(s, r);
  }

  lemma TransferLedger(s: State, send: nat, recv: nat, skip: nat)
    requires Inv(s, {}) && s.net.tcp == Connected && skip <= recv
    ensures var r := s.(net := s.net.(sendUsed := send, recvUsed := recv, recvSkip := skip));
            Inv(r, {}) && Ledger(s, r, Nothing)
  {
    TransferKeepsInv(s, send, recv, skip);
    hide Inv;
  }

  /** Every event keeps the caller's account, and, unless it ends the process, the invariant. */
  lemma HappenedKeeps(s: State, ev: Event, env: Env, calm: nat)
    requires Inv(s, {}) && EnvOk(env) && (ev.TimePassed? ==> WearsOut(env, calm))
    ensures var (r, o) := Happened(s, ev, env, calm); (o != Died ==> Inv(r, {})) && Ledger(s, r, o)
  {
    hide Inv, Follows, Submit, ProcessReply, CancelTree, OnlyRetries, Callers, Ledger, ActingPass, TcpUp, TcpBreak, InternalCheck, WearsOut, Held;
    var (r, o) := Happened(s, ev, env, calm);
    SameLedger(s, Nothing);
    match ev
    case Submitted(req, owner) => SubmitLedger(s, req, owner, env);
    case Replied(x, reply) =>
      if x in s.queries && (x in s.udpw || x in s.tcpw) { FollowedLedger(s, r, env.now, o); }
    case TimePassed =>
      ActingPassKeeps(s, env, calm);
      FollowedLedger(s, r, env.now, o);
    case CameUp =>
      if s.net.tcp == Connecting {
        TcpUpKeepsInv(s, {}, env);
        ReachedLedger(s, r);
      }
    case Lost =>
      if s.net.Open() {
        InvFromEnd(s, {}, |s.tcpw|);
        BreakKeepsInv(s, {}, |s.tcpw|);
        ReachedLedger(s, r);
      }
    case Transferred(send, recv, skip) =>
      if s.net.tcp == Connected && skip <= recv { TransferLedger(s, send, recv, skip); }
    case Cancelled(x) =>
      if x in s.queries && s.queries[x].parent.None? {
        InCallers(s, x);
        CancelLedger(s, x);
      }
    case Checked(want) =>
      if want.None? || want.value in s.queries { CheckLedger(s, want); }
  }

  /** An event of the connection. */
  method ConnectionEvent(r: Resolver, ev: Event, env: Env)
    requires Inv(r.View(), {}) && EnvOk(env) && (ev.CameUp? || ev.Lost? || ev.Transferred?)
    modifies r
    ensures (r.View(), Nothing) == Happened(old(r.View()), ev, env, 0)
  {
    InvTcpw(r.View());
    hide Inv, TcpUp, TcpBreak;
    match ev
    case CameUp =>
      if r.tcpstate == Connecting { r.TcpConnected(env); }
    case Lost =>
      if r.tcpstate == Connecting || r.tcpstate == Connected { r.BreakTcp(); }
    case Transferred(send, recv, skip) =>
      if r.tcpstate == Connected && skip <= recv {
        r.sendUsed, r.recvUsed, r.recvSkip := send, recv, skip;
      }
  }

  lemma CheckedCases(s: State, want: Option<Handle>, env: Env)
    requires Inv(s, {}) && EnvOk(env)
    ensures forall x :: x in s.output ==> x in s.queries
    ensures Happened(s, Checked(want), env, 0) ==
            if want.Some? && want.value !in s.queries then (s, Nothing)
            else
              var (res, r) := InternalCheck(s, want);
              (r, if res.Got? then Handed(res.x) else Nothing)
    ensures want == None ==>
      var (res, _) := InternalCheck(s, want);
      if s.output == [] then !res.Got? else res.Got? && res.x == s.output[0]
  {
    CheckShape(s);
    hide Inv, HandBack, InternalCheck;
    if want.None? || want.value in s.queries { CheckCases(s, want); }
  }

  /** The caller asks for a finished query, any or this one. */
  method HandOut(r: Resolver, want: Option<Handle>, env: Env) returns (o: Outcome)
    requires Inv(r.View(), {}) && EnvOk(env)
    modifies r
    ensures (r.View(), o) == Happened(old(r.View()), Checked(want), env, 0)
    ensures want == None ==> if old(r.output) == [] then o == Nothing else o == Handed(old(r.output)[0])
  {
    hide Inv, Happened, EnvOk, InternalCheck;
    CheckedCases(r.View(), want, env);
    if want.Some? && want.value !in r.queries { return Nothing; }
    var res := r.Check(want);
    o := if res.Got? then Handed(res.x) else Nothing;
  }

  /** The caller submits a query or cancels one. */
  method CallerEvent(r: Resolver, ev: Event, env: Env) returns (o: Outcome)
    requires Inv(r.View(), {}) && EnvOk(env) && (ev.Submitted? || ev.Cancelled?)
    modifies r
    ensures (r.View(), o) == Happened(old(r.View()), ev, env, 0)
    ensures ev.Submitted? ==> o == New(old(r.next))
  {
    hide Inv, Submit, CancelTree;
    o := Nothing;
    match ev
    case Submitted(req, owner) =>
      var x := r.SubmitQuery(req, owner, env);
      o := New(x);
    case Cancelled(x) =>
      if x in r.queries && r.queries[x].parent.None? {
        r.CancelQuery(x);
        o := Gone(x);
      }
  }

  /** One event happens to the resolver. */
  method Step(r: Resolver, ev: Event, env: Env, ghost calm: nat) returns (o: Outcome)
    requires Inv(r.View(), {}) && EnvOk(env) && (ev.TimePassed? ==> WearsOut(env, calm))
    modifies r
    ensures (r.View(), o) == Happened(old(r.View()), ev, env, calm)
    ensures (o != Died ==> Inv(r.View(), {})) && Ledger(old(r.View()), r.View(), o)
    ensures ev.Submitted? ==> o == New(old(r.next))
    ensures ev == Checked(None) ==> if old(r.output) == [] then o == Nothing else o == Handed(old(r.output)[0])
  {
    ghost var s := r.View();
    HappenedKeeps(s, ev, env, calm);
    hide Inv, Follows, Submit, ProcessReply, CancelTree, Ledger, ActingPass, TcpUp, TcpBreak, InternalCheck, WearsOut, Held;
    o := Nothing;
    match ev
    case Replied(x, reply) =>
      if x in r.queries && (x in r.udpw || x in r.tcpw) {
        var aborted := r.TakeReply(x, reply, env);
        o := if aborted then Died else Nothing;
      }
    case TimePassed =>
      var how := ProcessTimeouts(r, env, calm);
      o := OutcomeOf(how);
    case CameUp => ConnectionEvent(r, ev, env);
    case Lost => ConnectionEvent(r, ev, env);
    case Transferred(_, _, _) => ConnectionEvent(r, ev, env);
    case Submitted(_, _) => o := CallerEvent(r, ev, env);
    case Cancelled(_) => o := CallerEvent(r, ev, env);
    case Checked(want) => o := HandOut(r, want, env);
  }

  // ---- Whole runs ----

  /** The caller's books after some events, and how the last of them stopped the run. */
  datatype Book = Book(state: State, submitted: set<Handle>, handed: seq<Handle>, cancelled: set<Handle>,
                       taken: nat, stop: Option<Outcome>)

  ghost predicate Playable(script: seq<(Event, Env)>, calm: nat) {
    forall i :: 0 <= i < |script| ==> EnvOk(script[i].1) && (script[i].0.TimePassed? ==> WearsOut(script[i].1, calm))
  }

  /** The books after an event with this outcome. */
  function Noted(b: Book, r: State, o: Outcome): Book {
    b.(state := r, taken := b.taken + 1, stop := if o == Dangling || o == Hung || o == Died then Some(o) else None,
       submitted := if o.New? then b.submitted + {o.x} else b.submitted,
       handed := if o.Handed? then b.handed + [o.x] else b.handed,
       cancelled := if o.Gone? then b.cancelled + {o.x} else b.cancelled)
  }

  ghost function Entered(b: Book, ev: Event, env: Env, calm: nat): Book
    requires Inv(b.state, {}) && EnvOk(env) && (ev.TimePassed? ==> WearsOut(env, calm))
  {
    var (r, o) := Happened(b.state, ev, env, calm);
    Noted(b, r, o)
  }

  /** The books of a run, which goes on until an event stops it. */
  ghost function BookOf(s: State, script: seq<(Event, Env)>, calm: nat): (b: Book)
    requires Inv(s, {}) && Playable(script, calm)
    ensures (b.stop != Some(Died) ==> Inv(b.state, {})) && b.taken <= |script|
    decreases |script|
  {
    if script == [] then Book(s, {}, [], {}, 0, None)
    else
      var n := |script| - 1;
      var b := BookOf(s, script[..n], calm);
      if b.stop.Some? then b
      else
        HappenedKeeps(b.state, script[n].0, script[n].1, calm);
        hide Inv;
        Entered(b, script[n].0, script[n].1, calm)
  }

  function Submissions(script: seq<(Event, Env)>): nat
    decreases |script|
  {
    if script == [] then 0
    else Submissions(script[..|script| - 1]) + if script[|script| - 1].0.Submitted? then 1 else 0
  }

  function SetOf(q: seq<Handle>): set<Handle> { set x | x in q }

  /** whole is made of three parts that have nothing in common. */
  ghost predicate Parts(whole: set<Handle>, a: set<Handle>, b: set<Handle>, c: set<Handle>) {
    whole == a + b + c && a !! b && a !! c && b !! c
  }

  lemma PartGrows(whole: set<Handle>, a: set<Handle>, b: set<Handle>, c: set<Handle>, x: Handle)
    requires Parts(whole, a, b, c) && x !in whole
    ensures Parts(whole + {x}, a + {x}, b, c)
  {
  }

  lemma PartMoves(whole: set<Handle>, a: set<Handle>, b: set<Handle>, c: set<Handle>, x: Handle)
    requires Parts(whole, a, b, c) && x in a
    ensures Parts(whole, a - {x}, b + {x}, c) && Parts(whole, a - {x}, b, c + {x})
  {
    assert whole == (a - {x}) + (b + {x}) + c;
    assert whole == (a - {x}) + b + (c + {x});
  }

  /** Every query the caller submitted is outstanding, or was cancelled, or was handed
      back, one of these, and handed back once. */
  ghost predicate Balanced(b: Book) {
    && NoDup(b.handed)
    && Parts(b.submitted, Callers(b.state), b.cancelled, SetOf(b.handed))
    && forall x :: x in b.submitted ==> x < b.state.next
  }

  lemma OneMoreHanded(b: Book, x: Handle)
    requires Balanced(b) && x in Callers(b.state)
    ensures NoDup(b.handed + [x]) && SetOf(b.handed + [x]) == SetOf(b.handed) + {x}
  {
    hide Callers;
    assert x !in SetOf(b.handed);
  }

  lemma NotedBalances(b: Book, r: State, o: Outcome)
    requires Balanced(b) && Ledger(b.state, r, o)
    ensures Balanced(Noted(b, r, o))
    ensures |Noted(b, r, o).submitted| == |b.submitted| + if o.New? then 1 else 0
  {
    hide Callers, Parts;
    match o
    case New(x) => PartGrows(b.submitted, Callers(b.state), b.cancelled, SetOf(b.handed), x);
    case Gone(x) => PartMoves(b.submitted, Callers(b.state), b.cancelled, SetOf(b.handed), x);
    case Handed(x) =>
      PartMoves(b.submitted, Callers(b.state), b.cancelled, SetOf(b.handed), x);
      OneMoreHanded(b, x);
    case _ =>
  }

  lemma OutcomeKind(s: State, ev: Event, env: Env, calm: nat)
    requires Inv(s, {}) && EnvOk(env) && (ev.TimePassed? ==> WearsOut(env, calm))
    ensures Happened(s, ev, env, calm).1.New? <==> ev.Submitted?
  {
    hide Inv, Submit, ProcessReply, ActingPass, TcpUp, TcpBreak, InternalCheck;
  }

  lemma EnteredBalances(b: Book, ev: Event, env: Env, calm: nat)
    requires Inv(b.state, {}) && EnvOk(env) && (ev.TimePassed? ==> WearsOut(env, calm)) && Balanced(b)
    ensures Balanced(Entered(b, ev, env, calm))
    ensures |Entered(b, ev, env, calm).submitted| == |b.submitted| + if ev.Submitted? then 1 else 0
  {
    HappenedKeeps(b.state, ev, env, calm);
    OutcomeKind(b.state, ev, env, calm);
    hide Inv, Happened, Balanced, Ledger, Noted;
    var (r, o) := Happened(b.state, ev, env, calm);
    NotedBalances(b, r, o);
  }

  lemma EnteredTakes(b: Book, ev: Event, env: Env, calm: nat)
    requires Inv(b.state, {}) && EnvOk(env) && (ev.TimePassed? ==> WearsOut(env, calm))
    ensures Entered(b, ev, env, calm).taken == b.taken + 1
  {
    hide Inv, Happened;
  }

  lemma NothingBalances(s: State)
    requires s.queries == map[]
    ensures Balanced(Book(s, {}, [], {}, 0, None))
  {
  }

  lemma {:induction false} BookBalances(s: State, script: seq<(Event, Env)>, calm: nat)
    requires Inv(s, {}) && s.queries == map[] && Playable(script, calm)
    ensures var b := BookOf(s, script, calm);
            && Balanced(b) && b.taken <= |script| && |b.submitted| == Submissions(script[..b.taken])
            && (b.stop == None ==> b.taken == |script|)
    decreases |script|
  {
    hide Inv, Balanced, Entered, Callers;
    if script == [] {
      NothingBalances(s);
    } else {
      var n := |script| - 1;
      BookBalances(s, script[..n], calm);
      var b := BookOf(s, script[..n], calm);
      if b.stop.Some? {
        assert script[..n][..b.taken] == script[..b.taken];
      } else {
        EnteredBalances(b, script[n].0, script[n].1, calm);
        EnteredTakes(b, script[n].0, script[n].1, calm);
        assert script[..n][..n] == script[..n] && script[..n + 1] == script;
      }
    }
  }

  /** Why a run stops: a pass over the connection came to a spent query whose end freed
      the entry after it, or had no socket for queries that wait for one; or a name error
      by TCP made the search send. */
  ghost predicate StopsAt(s: State, r: State, ev: Event, env: Env, why: Outcome)
  {
    match why
    case Dangling => ev.TimePassed? && LostPlace(s, r, env) && !Content(env)
    case Hung => ev.TimePassed? && NoWayOut(r, env)
    case Died =>
      && ev.Replied? && ev.reply.NextNameWanted? && ev.x in s.tcpw && ev.x in s.queries
      && SearchEnd(s.queries[ev.x], ev.x, s.cfg.nsearch, env).None? && Held(r, ev.x)
    case _ => false
  }

  lemma HappenedStops(s: State, ev: Event, env: Env, calm: nat)
    requires Inv(s, {}) && EnvOk(env) && (ev.TimePassed? ==> WearsOut(env, calm))
    ensures var (r, o) := Happened(s, ev, env, calm);
            o == Dangling || o == Hung || o == Died ==> StopsAt(s, r, ev, env, o)
  {
    hide Inv, Submit, ProcessReply, ActingPass, TcpUp, TcpBreak, InternalCheck, LostPlace, Content, SearchEnd, Held, WearsOut, NoWayOut;
    match ev
    case TimePassed => ActingPassStops(s, env, calm);
    case Replied(x, reply) =>
      if x in s.queries && (x in s.udpw || x in s.tcpw) { ReplyAbortsExactly(s, x, reply, env); }
    case _ =>
  }

  lemma {:induction false} TakenAll(s: State, script: seq<(Event, Env)>, calm: nat)
    requires Inv(s, {}) && Playable(script, calm)
    ensures BookOf(s, script, calm).stop == None ==> BookOf(s, script, calm).taken == |script|
    decreases |script|
  {
    hide Inv, Happened;
    if script != [] { TakenAll(s, script[..|script| - 1], calm); }
  }

  /** A run stops early only for one of these reasons. */
  lemma {:induction false} RunStops(s: State, script: seq<(Event, Env)>, calm: nat) returns (s1: State)
    requires Inv(s, {}) && Playable(script, calm) && BookOf(s, script, calm).stop.Some?
    ensures var b := BookOf(s, script, calm);
            && 0 < b.taken <= |script| && Inv(s1, {})
            && StopsAt(s1, b.state, script[b.taken - 1].0, script[b.taken - 1].1, b.stop.value)
    decreases |script|
  {
    hide Inv, StopsAt, Happened;
    var n := |script| - 1;
    var b := BookOf(s, script[..n], calm);
    if b.stop.Some? {
      s1 := RunStops(s, script[..n], calm);
    } else {
      s1 := b.state;
      HappenedStops(s1, script[n].0, script[n].1, calm);
      TakenAll(s, script[..n], calm);
    }
  }

  /** Nothing is entered after a stop. */
  lemma {:induction false} StoppedStays(s: State, script: seq<(Event, Env)>, n: nat, calm: nat)
    requires Inv(s, {}) && Playable(script, calm) && n <= |script|
    requires n == |script| || BookOf(s, script[..n], calm).stop.Some?
    ensures BookOf(s, script, calm) == BookOf(s, script[..n], calm)
    decreases |script|
  {
    hide Inv, Happened;
    if n == |script| {
      assert script[..n] == script;
    } else {
      var m := |script| - 1;
      assert script[..m][..n] == script[..n];
      StoppedStays(s, script[..m], n, calm);
    }
  }

  /** Every run keeps the library's check of itself and the caller's books. */
  method Run(r: Resolver, script: seq<(Event, Env)>, ghost calm: nat)
    returns (submitted: set<Handle>, handed: seq<Handle>, cancelled: set<Handle>, taken: nat, stop: Option<Outcome>)
    requires Inv(r.View(), {}) && r.queries == map[] && Playable(script, calm)
    modifies r
    ensures Book(r.View(), submitted, handed, cancelled, taken, stop) == BookOf(old(r.View()), script, calm)
    ensures stop != Some(Died) ==> Inv(r.View(), {}) && Consistency(r.View())
    ensures Balanced(Book(r.View(), submitted, handed, cancelled, taken, stop))
    ensures taken <= |script| && |submitted| == Submissions(script[..taken])
    ensures stop == None ==> taken == |script|
  {
    hide Inv, Happened, Balanced, Consistency, Ledger;
    ghost var s := r.View();
    submitted, handed, cancelled, taken, stop := {}, [], {}, 0, None;
    while taken < |script| && stop == None
      invariant taken <= |script| && (stop != Some(Died) ==> Inv(r.View(), {}))
      invariant Book(r.View(), submitted, handed, cancelled, taken, stop) == BookOf(s, script[..taken], calm)
      decreases |script| - taken
    {
      assert script[..taken + 1][..taken] == script[..taken];
      var o := Step(r, script[taken].0, script[taken].1, calm);
      match o {
        case New(x) => submitted := submitted + {x};
        case Gone(x) => cancelled := cancelled + {x};
        case Handed(x) => handed := handed + [x];
        case Nothing =>
        case _ => stop := Some(o);
      }
      taken := taken + 1;
    }
    StoppedStays(s, script, taken, calm);
    BookBalances(s, script, calm);
    if stop != Some(Died) { InvImpliesConsistency(r.View(), {}); }
  }
}
