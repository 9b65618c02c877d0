/**
 What happens to the resolver: queries are submitted, walk the search list,
 are answered, cancelled and handed back. Each event is a function on states
 that keeps the invariant.
 */
module ResolverEvents {
  import opened Common
  import opened Timeval
  import opened ResolverState
  import opened ResolverEnv
  import opened ResolverSteps
  import opened ResolverFlow
  import opened ResolverDone

  /** x has been taken off its queue and is ready to go out. */
  ghost predicate Ready(s: State, x: Handle) {
    && Inv(s, {x}) && x in s.queries && Attached(s, x)
    && s.queries[x].phase == ToSend && s.queries[x].children == []
  }

  /** x has been taken off udpw or tcpw. */
  ghost predicate Held(s: State, x: Handle) {
    && Inv(s, {x}) && x in s.queries && Attached(s, x)
    && (s.queries[x].phase == ToSend || s.queries[x].phase == TcpWait) && s.queries[x].children == []
  }

  lemma SendsOnlyFollows(s: State, r: State, x: Handle, now: Timeval)
    requires SendsOnly(s, r, x, now) && forall y :: y in s.queries ==> y < s.next
    ensures Follows(s, r, now)
    ensures x in r.queries && !Later(now, r.queries[x].timeout)
  {
  }

  lemma SentFollows(s: State, x: Handle, how: SendBy, env: Env)
    requires Ready(s, x) && s.queries[x].id >= 0 && EnvOk(env)
    ensures Follows(s, SentBy(s, x, how, env), env.now)
    ensures x in SentBy(s, x, how, env).queries && !Later(env.now, SentBy(s, x, how, env).queries[x].timeout)
  {
    SentByFrame(s, {x}, x, how, env);
    BelowNext(s, {x}, x);
    hide *;
    SendsOnlyFollows(s, SentBy(s, x, how, env), x, env.now);
  }

  /** What comes of a step that may send: the state afterwards, or the state in which an
      assertion ended the process. */
  datatype Sending = Went(s: State) | Aborted(s: State)

  /** x, held, is sent on its way, or the process ends with x still held. */
  ghost predicate SentOrStuck(s: State, x: Handle, r: Sending, now: Timeval) {
    && Follows(s, r.s, now)
    && if r.Went? then Inv(r.s, {}) else Held(r.s, x) && r.s.queries[x].phase == TcpWait
  }

  lemma HeldPhase(s: State, x: Handle)
    requires Held(s, x)
    ensures x in s.queries && Inv(s, {x}) && Attached(s, x)
    ensures s.queries[x].phase == ToSend || s.queries[x].phase == TcpWait
    ensures s.queries[x].phase == ToSend ==> Ready(s, x)
    ensures forall y :: y in s.queries ==> y < s.next
  {
  }

  lemma HeldFollows(s: State, now: Timeval)
    requires forall y :: y in s.queries ==> y < s.next
    ensures Follows(s, s, now)
  {
  }

  /** adns__query_send: only a query in state tosend may be sent, by UDP while retries
      remain, or by TCP. */
  ghost function QuerySend(s: State, x: Handle, how: SendBy, env: Env): (r: Sending)
    requires Held(s, x) && s.queries[x].id >= 0 && EnvOk(env)
    ensures SentOrStuck(s, x, r, env.now)
    ensures r.Aborted? <==> s.queries[x].phase == TcpWait
    ensures r.Went? && x in r.s.queries && r.s.queries[x].phase != Done ==> !Later(env.now, r.s.queries[x].timeout)
  {
    HeldPhase(s, x);
    HeldFollows(s, env.now);
    hide Inv, Attached, Follows, QueryFail, SentBy;
    if s.queries[x].phase != ToSend then Aborted(s)
    else if how.ByUdp? && s.queries[x].retries >= UDPMAXRETRIES then
      Went(QueryFail(s, x, StTimeout, env))
    else
      SentByKeepsInv(s, {x}, x, how, env);
      assert {x} - {x} == {};
      SentFollows(s, x, how, env);
      Went(SentBy(s, x, how, env))
  }

  lemma NetInOrder(s: State, x: Handle)
    requires Ready(s, x)
    ensures s.cfg.nservers > 0 && NoDup(s.tcpw) && x !in s.tcpw
    ensures forall y :: y in s.tcpw ==> y in s.queries
    ensures s.net.Open() ==> |s.net.attempts| > 0
  {
  }

  lemma HeldRanges(s: State, x: Handle)
    requires Held(s, x)
    ensures RangesOk(s.cfg, s.queries[x])
    ensures forall y :: y in s.queries ==> y < s.next
  {
  }

  lemma UnlinkKeepsTable(s: State, x: Handle)
    requires x in s.queries
    ensures Unlink(s, x).queries == s.queries && Unlink(s, x).cfg == s.cfg
  {
  }

  lemma ZapRanges(q: Query, st: Status, cfg: Config)
    ensures RangesOk(cfg, q) ==> RangesOk(cfg, Zap(q, st))
    ensures Zap(q, st).children == [] && Zap(q, st).id == q.id
  {
  }

  // ---- The search list ----

  /** The next name adns__search_next tries, if any is left, and the query's
      note of where it is. */
  function NextName(q: Query, nsearch: nat): (r: (Option<Candidate>, Query)) {
    if q.searchAbs < 0 then (Some(Absolute), q.(searchAbs := 1))
    else if q.searchPos >= nsearch then
      if q.searchAbs != 0 then (None, q) else (Some(Absolute), q.(searchAbs := 1))
    else (Some(Entry(q.searchPos)), q.(searchPos := q.searchPos + 1))
  }

  function NamesLeft(q: Query, nsearch: nat): nat {
    (if q.searchPos < nsearch then nsearch - q.searchPos else 0) + (if q.searchAbs <= 0 then 1 else 0)
  }

  /** All the names the search will try, in order. */
  function Names(q: Query, nsearch: nat): seq<Candidate>
    decreases NamesLeft(q, nsearch)
  {
    var (c, q') := NextName(q, nsearch);
    if c.None? then [] else [c.value] + Names(q', nsearch)
  }

  function Entries(from: nat, nsearch: nat): seq<Candidate>
    decreases nsearch - from
  {
    if from >= nsearch then [] else [Entry(from)] + Entries(from + 1, nsearch)
  }

  lemma {:induction false} NamesAfterAbsolute(q: Query, nsearch: nat)
    requires q.searchAbs == 1 && q.searchPos <= nsearch
    ensures Names(q, nsearch) == Entries(q.searchPos, nsearch)
    decreases nsearch - q.searchPos
  {
    if q.searchPos < nsearch { NamesAfterAbsolute(q.(searchPos := q.searchPos + 1), nsearch); }
  }

  lemma {:induction false} NamesBeforeAbsolute(q: Query, nsearch: nat)
    requires q.searchAbs == 0 && q.searchPos <= nsearch
    ensures Names(q, nsearch) == Entries(q.searchPos, nsearch) + [Absolute]
    decreases nsearch - q.searchPos
  {
    if q.searchPos < nsearch {
      NamesBeforeAbsolute(q.(searchPos := q.searchPos + 1), nsearch);
    } else {
      assert Names(q.(searchAbs := 1), nsearch) == [];
    }
  }

  /** The search tries the name itself once, first if it has dots enough and
      last otherwise, and every entry of the list once in order. */
  lemma SearchOrder(q: Query, nsearch: nat)
    requires q.searchPos == 0 && (q.searchAbs == -1 || q.searchAbs == 0)
    ensures Names(q, nsearch) ==
            if q.searchAbs < 0 then [Absolute] + Entries(0, nsearch) else Entries(0, nsearch) + [Absolute]
  {
    if q.searchAbs < 0 {
      NamesAfterAbsolute(q.(searchAbs := 1), nsearch);
    } else {
      NamesBeforeAbsolute(q, nsearch);
    }
  }

  lemma NextNameMoves(q: Query, cfg: Config)
    ensures var (name, r) := NextName(q, cfg.nsearch);
            && r == q.(searchPos := r.searchPos, searchAbs := r.searchAbs)
            && (RangesOk(cfg, q) ==> RangesOk(cfg, r))
            && (name.Some? ==> NamesLeft(r, cfg.nsearch) < NamesLeft(q, cfg.nsearch))
  {
  }

  /** How the search ends if no name is left to send, starting with this name. */
  function NameEnd(q: Query, x: Handle, name: Candidate, nsearch: nat, env: Env): Option<Status>
    decreases NamesLeft(q, nsearch), 1
  {
    match env.message(x, name)
    case NoMemory => Some(StNoMemory)
    case Unbuilt(st) => if st == StTooLong && q.search then SearchEnd(q, x, nsearch, env) else Some(st)
    case Built(_) => None
  }

  /** The same, starting with the next name of the search list. */
  function SearchEnd(q: Query, x: Handle, nsearch: nat, env: Env): Option<Status>
    decreases NamesLeft(q, nsearch), 0
  {
    var (name, q') := NextName(q, nsearch);
    if name.None? then Some(StNxDomain) else NameEnd(q', x, name.value, nsearch, env)
  }

  /** A query in hand whose record changes stays in hand. */
  lemma StillHeld(s: State, x: Handle, q: Query, now: Timeval)
    requires Held(s, x) && RangesOk(s.cfg, q)
    requires q == s.queries[x].(id := q.id, searchPos := q.searchPos, searchAbs := q.searchAbs)
    ensures Held(s.(queries := s.queries[x := q]), x) && Follows(s, s.(queries := s.queries[x := q]), now)
  {
    SetBusyKeepsInv(s, {x}, x, q);
    BelowNext(s, {x}, x);
    SetRecordFollows(s, x, q, now);
    hide Follows, QueriesOk;
  }

  lemma StuckLater(s: State, s1: State, x: Handle, r: Sending, now: Timeval)
    requires Follows(s, s1, now) && SentOrStuck(s1, x, r, now)
    ensures SentOrStuck(s, x, r, now)
  {
    FollowsTransitive(s, s1, r.s, now);
    hide Inv, Follows, Held;
  }

  /** query_simple, for the name the search has come to. */
  ghost function QuerySimple(s: State, x: Handle, name: Candidate, env: Env): (r: Sending)
    requires Held(s, x) && EnvOk(env)
    ensures SentOrStuck(s, x, r, env.now)
    decreases NamesLeft(s.queries[x], s.cfg.nsearch), 2
  {
    HeldPhase(s, x);
    HeldRanges(s, x);
    hide Inv, Attached, Follows, QueryFail, RangesOk, KidsOk, Held;
    match env.message(x, name)
    case NoMemory => Went(QueryFail(s, x, StNoMemory, env))
    case Unbuilt(st) =>
      if st == StTooLong && s.queries[x].search then SearchNext(s, x, env) else Went(QueryFail(s, x, st, env))
    case Built(id) =>
      var q := s.queries[x].(id := id);
      StillHeld(s, x, q, env.now);
      var s1 := s.(queries := s.queries[x := q]);
      var r := QuerySend(s1, x, env.how(x), env);
      StuckLater(s, s1, x, r, env.now);
      r
  }

  /** adns__search_next */
  ghost function SearchNext(s: State, x: Handle, env: Env): (r: Sending)
    requires Held(s, x) && EnvOk(env)
    ensures SentOrStuck(s, x, r, env.now)
    decreases NamesLeft(s.queries[x], s.cfg.nsearch), 1
  {
    HeldPhase(s, x);
    HeldRanges(s, x);
    hide Inv, Attached, Follows, QueryFail, RangesOk, KidsOk, Held;
    NextNameMoves(s.queries[x], s.cfg);
    var (name, q) := NextName(s.queries[x], s.cfg.nsearch);
    if name.None? then Went(QueryFail(s, x, StNxDomain, env))
    else
      StillHeld(s, x, q, env.now);
      var s1 := s.(queries := s.queries[x := q]);
      var r := QuerySimple(s1, x, name.value, env);
      StuckLater(s, s1, x, r, env.now);
      r
  }

  /** s with another record for x. */
  function WithRecord(s: State, x: Handle, q: Query): State { s.(queries := s.queries[x := q]) }

  lemma SearchNextUnfolds(s: State, x: Handle, env: Env)
    requires Held(s, x) && EnvOk(env) && x in s.queries
    ensures var (name, q) := NextName(s.queries[x], s.cfg.nsearch);
            var s1 := WithRecord(s, x, q);
            && q == s.queries[x].(searchPos := q.searchPos, searchAbs := q.searchAbs)
            && if name.None? then
                 SearchNext(s, x, env) == Went(QueryFail(s, x, StNxDomain, env)) && SearchEnd(s.queries[x], x, s.cfg.nsearch, env) == Some(StNxDomain)
               else
                 && Held(s1, x) && NamesLeft(q, s.cfg.nsearch) < NamesLeft(s.queries[x], s.cfg.nsearch)
                 && NameEnd(q, x, name.value, s.cfg.nsearch, env) == SearchEnd(s.queries[x], x, s.cfg.nsearch, env)
                 && SearchNext(s, x, env) == QuerySimple(s1, x, name.value, env)
  {
    HeldRanges(s, x);
    NextNameMoves(s.queries[x], s.cfg);
    hide Inv, Attached, QueryFail, Follows, QuerySimple, RangesOk, KidsOk, NameEnd;
    var (name, q) := NextName(s.queries[x], s.cfg.nsearch);
    if name.Some? { StillHeld(s, x, q, env.now); }
  }

  lemma QuerySimpleUnfolds(s: State, x: Handle, name: Candidate, env: Env)
    requires Held(s, x) && EnvOk(env) && x in s.queries
    ensures Inv(s, {x}) && Attached(s, x) && s.queries[x].phase != Done
    ensures match env.message(x, name)
      case NoMemory => QuerySimple(s, x, name, env) == Went(QueryFail(s, x, StNoMemory, env))
      case Unbuilt(st) =>
        QuerySimple(s, x, name, env) ==
          if st == StTooLong && s.queries[x].search then SearchNext(s, x, env) else Went(QueryFail(s, x, st, env))
      case Built(id) =>
        var s1 := WithRecord(s, x, s.queries[x].(id := id));
        Held(s1, x) && s1.queries[x].id >= 0 && QuerySimple(s, x, name, env) == QuerySend(s1, x, env.how(x), env)
  {
    HeldPhase(s, x);
    HeldRanges(s, x);
    hide Inv, Attached, QueryFail, Follows, RangesOk, KidsOk, Held, SearchNext, QuerySend;
    match env.message(x, name)
    case Built(id) => StillHeld(s, x, s.queries[x].(id := id), env.now);
    case _ =>
  }

  lemma {:induction false} SimpleAbortsExactly(s: State, x: Handle, name: Candidate, env: Env)
    requires Held(s, x) && EnvOk(env) && x in s.queries
    ensures QuerySimple(s, x, name, env).Aborted? <==>
              s.queries[x].phase == TcpWait && NameEnd(s.queries[x], x, name, s.cfg.nsearch, env).None?
    decreases NamesLeft(s.queries[x], s.cfg.nsearch), 2
  {
    hide Inv, Attached, QueryFail, Follows, SearchNext, QuerySend, SearchEnd;
    var m := env.message(x, name);
    if m.Unbuilt? && m.st == StTooLong && s.queries[x].search { SearchAbortsExactly(s, x, env); }
  }

  /** The search runs into the assertion of adns__query_send exactly if the query is still
      in state tcpw and the search comes to a name that can be sent. */
  lemma {:induction false} SearchAbortsExactly(s: State, x: Handle, env: Env)
    requires Held(s, x) && EnvOk(env) && x in s.queries
    ensures SearchNext(s, x, env).Aborted? <==>
              s.queries[x].phase == TcpWait && SearchEnd(s.queries[x], x, s.cfg.nsearch, env).None?
    decreases NamesLeft(s.queries[x], s.cfg.nsearch), 1
  {
    SearchNextUnfolds(s, x, env);
    hide Held, QueryFail, QuerySimple, NextName, SearchNext, NamesLeft, SearchEnd, NameEnd;
    var (name, q) := NextName(s.queries[x], s.cfg.nsearch);
    if name.Some? { SimpleAbortsExactly(WithRecord(s, x, q), x, name.value, env); }
  }

  lemma RecordAgain(s: State, x: Handle, q1: Query, q2: Query)
    ensures WithRecord(WithRecord(s, x, q1), x, q2) == WithRecord(s, x, q2)
    ensures x in s.queries ==> WithRecord(s, x, s.queries[x]) == s
  {
    assert s.queries[x := q1][x := q2] == s.queries[x := q2];
    if x in s.queries { assert s.queries[x := s.queries[x]] == s.queries; }
  }

  /** A search that comes to no name it can send fails the query with the status
      it ends in; only the query's note of where it is has moved. */
  lemma {:induction false} SearchEndsInFailure(s: State, x: Handle, env: Env) returns (q: Query)
    requires Held(s, x) && EnvOk(env) && x in s.queries
    requires SearchEnd(s.queries[x], x, s.cfg.nsearch, env).Some?
    ensures q == s.queries[x].(searchPos := q.searchPos, searchAbs := q.searchAbs)
    ensures Held(WithRecord(s, x, q), x)
    ensures SearchNext(s, x, env)
         == Went(QueryFail(WithRecord(s, x, q), x, SearchEnd(s.queries[x], x, s.cfg.nsearch, env).value, env))
    decreases NamesLeft(s.queries[x], s.cfg.nsearch), 1
  {
    SearchNextUnfolds(s, x, env);
    var (name, q1) := NextName(s.queries[x], s.cfg.nsearch);
    if name.None? {
      q := s.queries[x];
      RecordAgain(s, x, q, q);
    } else {
      var s1 := WithRecord(s, x, q1);
      assert s1.queries[x] == q1 && s1.cfg == s.cfg;
      hide Held, QueryFail, QuerySimple, NextName, SearchNext, NamesLeft, SearchEnd, WithRecord;
      q := NameEndsInFailure(s1, x, name.value, env);
      RecordAgain(s, x, q1, q);
    }
  }

  lemma {:induction false} NameEndsInFailure(s: State, x: Handle, name: Candidate, env: Env) returns (q: Query)
    requires Held(s, x) && EnvOk(env) && x in s.queries
    requires NameEnd(s.queries[x], x, name, s.cfg.nsearch, env).Some?
    ensures q == s.queries[x].(searchPos := q.searchPos, searchAbs := q.searchAbs)
    ensures Held(WithRecord(s, x, q), x)
    ensures QuerySimple(s, x, name, env)
         == Went(QueryFail(WithRecord(s, x, q), x, NameEnd(s.queries[x], x, name, s.cfg.nsearch, env).value, env))
    decreases NamesLeft(s.queries[x], s.cfg.nsearch), 2
  {
    hide Inv, Attached, QueryFail, Follows, SearchNext, QuerySend, WithRecord;
    var m := env.message(x, name);
    if m.Unbuilt? && m.st == StTooLong && s.queries[x].search {
      q := SearchEndsInFailure(s, x, env);
    } else {
      q := s.queries[x];
      RecordAgain(s, x, q, q);
    }
  }

  // ---- Submitting ----

  /** What adns_submit makes of its arguments. dots: the name has as many dots as
      the configuration asks for before it is tried as it stands. */
  datatype Request = Invalid(st: Status) | Search(dots: bool) | Plain

  /** query_alloc for the caller's query, with the search fields adns_submit sets. */
  function CallerQuery(req: Request, owner: bool): Query {
    VirginQuery(-2, req.Search?, owner).(searchAbs := if req == Search(true) then -1 else 0)
  }

  /** adns_submit; the new query's handle is s.next. */
  ghost function Submit(s: State, req: Request, owner: bool, env: Env): (r: State)
    requires Inv(s, {}) && EnvOk(env)
    ensures Inv(r, {}) && Follows(AddQuery(s, CallerQuery(req, owner)), r, env.now)
  {
    var q := CallerQuery(req, owner);
    AddQueryKeepsInv(s, {}, q);
    assert {} + {s.next} == {s.next};
    var s1 := AddQuery(s, q);
    assert Held(s1, s.next);
    match req
    case Invalid(st) => QueryFail(s1, s.next, st, env)
    case Search(_) =>
      SearchAbortsExactly(s1, s.next, env);
      SearchNext(s1, s.next, env).s
    case Plain =>
      SimpleAbortsExactly(s1, s.next, Absolute, env);
      QuerySimple(s1, s.next, Absolute, env).s
  }

  // ---- Replies ----

  /** What adns__procdgram makes of a reply. */
  datatype Reply =
    | Answered(st: Status, nrrs: nat, allocs: nat, interim: nat)
    | Rejected(st: Status)
    | NeedsChildren(kids: seq<SendBy>)
    | NextNameWanted
    | Restart(kids: seq<SendBy>, how: SendBy)

  /** The reply's records and the memory that holds them. */
  function Filled(q: Query, st: Status, nrrs: nat, allocs: nat, interim: nat): Query {
    q.(status := st, nrrs := nrrs, allocs := allocs, interim := interim)
  }

  lemma TakenOff(s: State, x: Handle, now: Timeval)
    requires Inv(s, {}) && x in s.queries
    ensures Inv(Unlink(s, x), {x}) && Attached(Unlink(s, x), x) && Follows(s, Unlink(s, x), now)
    ensures s.queries[x].phase != Done ==> s.queries[x].id >= 0
    ensures s.queries[x].phase != ChildWait ==> s.queries[x].children == []
    ensures RangesOk(s.cfg, s.queries[x])
  {
    UnlinkKeepsInv(s, {}, x);
    assert {} + {x} == {x};
    BelowNext(s, {}, x);
    assert PhaseOk(s.cfg, s.queries[x]);
  }

  /** A query waiting for the network whose record changes under processing. */
  lemma Reworked(s: State, x: Handle, q: Query, now: Timeval)
    requires Inv(s, {x}) && x in s.queries && Attached(s, x) && RangesOk(s.cfg, q)
    requires q.parent == s.queries[x].parent && q.children == s.queries[x].children && q.phase != Done
    requires (q.phase == s.queries[x].phase && q.timeout == s.queries[x].timeout) || q.phase == ChildWait || !Later(now, q.timeout)
    ensures Inv(s.(queries := s.queries[x := q]), {x}) && Attached(s.(queries := s.queries[x := q]), x)
    ensures Follows(s, s.(queries := s.queries[x := q]), now)
  {
    SetBusyKeepsInv(s, {x}, x, q);
    BelowNext(s, {x}, x);
  }

  /** The query after a reply: back to the start, to be sent again. */
  function Restarted(q: Query, now: Timeval): Query {
    q.(phase := ToSend, retries := 0, timeout := now)
  }

  lemma NowReady(s: State, x: Handle)
    requires Inv(s, {x}) && x in s.queries && Attached(s, x)
    requires s.queries[x].phase == ToSend && s.queries[x].children == []
    ensures Ready(s, x)
  {
  }

  /** A query to be sent again; the children its reply had already begun are cancelled. */
  ghost function RestartQuery(s: State, x: Handle, kids: seq<SendBy>, how: SendBy, env: Env): (r: State)
    requires Inv(s, {x}) && x in s.queries && Attached(s, x) && EnvOk(env)
    requires s.queries[x].phase != Done && s.queries[x].id >= 0 && RangesOk(s.cfg, s.queries[x])
    ensures Inv(r, {}) && Follows(s, r, env.now)
  {
    hide Inv, Attached, Follows, Ready;
    SubmitAllKeepsInv(s, x, kids, env);
    var s1 := SubmitAll(s, x, kids, env);
    ResetKeepsInv(s1, x, s.queries[x].status, env.now);
    var s2 := Reset(s1, x, s.queries[x].status);
    var q := Restarted(s2.queries[x], env.now);
    assert !Later(env.now, env.now);
    Reworked(s2, x, q, env.now);
    var s3 := s2.(queries := s2.queries[x := q]);
    NowReady(s3, x);
    var r := QuerySend(s3, x, how, env).s;
    FollowsTransitive(s, s1, s2, env.now);
    FollowsTransitive(s, s2, s3, env.now);
    FollowsTransitive(s, s3, r, env.now);
    r
  }

  lemma NowHeld(s: State, x: Handle)
    requires Inv(s, {x}) && x in s.queries && Attached(s, x)
    requires (s.queries[x].phase == ToSend || s.queries[x].phase == TcpWait) && s.queries[x].children == []
    ensures Held(s, x)
  {
  }

  /** With children the query waits for them, without it is done. */
  ghost function WaitOrDone(s: State, x: Handle, env: Env): (r: State)
    requires Inv(s, {x}) && x in s.queries && Attached(s, x) && EnvOk(env)
    requires s.queries[x].phase != Done && s.queries[x].id >= 0 && RangesOk(s.cfg, s.queries[x])
    ensures Inv(r, {}) && Follows(s, r, env.now)
  {
    hide Inv, Attached, Follows;
    if s.queries[x].children == [] then QueryDone(s, x, env)
    else
      var q := s.queries[x].(phase := ChildWait);
      Reworked(s, x, q, env.now);
      var s1 := s.(queries := s.queries[x := q]);
      WaitAgain(s1, x, env.now);
      FollowsTransitive(s, s1, LinkTail(s1, x), env.now);
      LinkTail(s1, x)
  }

  /** The processing of a reply to x, which is off its queue. */
  ghost function Processed(s: State, x: Handle, reply: Reply, env: Env): (r: Sending)
    requires Held(s, x) && EnvOk(env) && s.queries[x].id >= 0
    ensures SentOrStuck(s, x, r, env.now)
    ensures if reply.NextNameWanted? then r == SearchNext(s, x, env) else r.Went?
  {
    HeldPhase(s, x);
    HeldRanges(s, x);
    hide Inv, Attached, Follows, Ready, Held, SearchNext, QueryDone, QueryFail, SubmitAll, WaitOrDone, RestartQuery;
    match reply
    case Answered(st, nrrs, allocs, interim) =>
      var q := Filled(s.queries[x], st, nrrs, allocs, interim);
      Reworked(s, x, q, env.now);
      var s1 := s.(queries := s.queries[x := q]);
      var r := QueryDone(s1, x, env);
      FollowsTransitive(s, s1, r, env.now);
      Went(r)
    case Rejected(st) => Went(QueryFail(s, x, st, env))
    case NeedsChildren(kids) =>
      SubmitAllKeepsInv(s, x, kids, env);
      var s1 := SubmitAll(s, x, kids, env);
      var r := WaitOrDone(s1, x, env);
      FollowsTransitive(s, s1, r, env.now);
      Went(r)
    case NextNameWanted => SearchNext(s, x, env)
    case Restart(kids, how) => Went(RestartQuery(s, x, kids, how, env))
  }

  lemma TakenOffHeld(s: State, x: Handle, now: Timeval)
    requires Inv(s, {}) && x in s.queries && (x in s.udpw || x in s.tcpw)
    ensures Held(Unlink(s, x), x) && Follows(s, Unlink(s, x), now)
    ensures Unlink(s, x).queries == s.queries && Unlink(s, x).cfg == s.cfg && s.queries[x].id >= 0
  {
    TakenOff(s, x, now);
    UnlinkKeepsTable(s, x);
    EveryQueryOnItsQueue(s);
    hide Inv, Follows, Unlink;
    assert x in QueueOf(s, ToSend) || x in QueueOf(s, TcpWait);
    NowHeld(Unlink(s, x), x);
  }

  /** The processing of a reply to x, which is on udpw or tcpw. */
  ghost function ProcessReply(s: State, x: Handle, reply: Reply, env: Env): (r: Sending)
    requires Inv(s, {}) && EnvOk(env) && x in s.queries && (x in s.udpw || x in s.tcpw)
    ensures SentOrStuck(s, x, r, env.now)
  {
    TakenOffHeld(s, x, env.now);
    hide Inv, Follows, Unlink, Held;
    var s1 := Unlink(s, x);
    var r := Processed(s1, x, reply, env);
    StuckLater(s, s1, x, r, env.now);
    r
  }

  /** A name error by TCP leaves the query in state tcpw, which adns__query_send does not
      take. So a reply ends the process exactly if it is a name error for a query from
      tcpw whose search comes to a name that can be sent. */
  lemma ReplyAbortsExactly(s: State, x: Handle, reply: Reply, env: Env)
    requires Inv(s, {}) && EnvOk(env) && x in s.queries && (x in s.udpw || x in s.tcpw)
    ensures ProcessReply(s, x, reply, env).Aborted? <==>
              && reply.NextNameWanted? && x in s.tcpw
              && SearchEnd(s.queries[x], x, s.cfg.nsearch, env).None?
  {
    hide Inv, Follows, Unlink, Held, SearchNext, Processed, SearchEnd, EnvOk;
    TakenOffHeld(s, x, env.now);
    EveryQueryOnItsQueue(s);
    assert x in QueueOf(s, TcpWait) <==> s.queries[x].phase == TcpWait;
    SearchAbortsExactly(Unlink(s, x), x, env);
  }

  // ---- A case in which it does ----

  /** One server and one entry to search; a query that has come to its own name by TCP. */
  function AskedByTcp(): State {
    var q := Query(TcpWait, None, [], 0, 0, 0, 0, 5, 0, 0, {}, 0, 1, true, false, ZERO, StOk, 0);
    State(Config(1, 1), map[0 := q], [], [0], [], [], Net(Connected, true, 0, 0, 0, 0, ZERO, [0]), 1)
  }

  lemma NameErrorAborts(env: Env)
    requires EnvOk(env) && env.message(0, Entry(0)).Built?
    ensures Inv(AskedByTcp(), {}) && ProcessReply(AskedByTcp(), 0, NextNameWanted, env).Aborted?
  {
    var s := AskedByTcp();
    assert s.tcpw[0] == 0;
    assert Inv(s, {});
    hide Inv;
    ReplyAbortsExactly(s, 0, NextNameWanted, env);
  }

  // ---- Cancelling and handing back ----

  /** adns_cancel of a caller's query: it and all its descendants go. */
  ghost function CancelTree(s: State, x: Handle): State { Without(s, Tree(s, x)) }

  lemma CancelKeepsInv(s: State, x: Handle)
    requires Inv(s, {}) && x in s.queries && s.queries[x].parent.None?
    ensures Inv(CancelTree(s, x), {})
    ensures x !in CancelTree(s, x).queries
    ensures forall y :: y in s.queries && s.queries[y].parent.None? && y != x ==> y in CancelTree(s, x).queries
  {
    assert Under(s, x, x);
    forall h | h in s.queries && s.queries[h].parent.Some?
      ensures s.queries[h].parent.value in Tree(s, x) ==> h in Tree(s, x)
      ensures h in Tree(s, x) ==> s.queries[h].parent.value in Tree(s, x)
    {
      assert Under(s, h, x) <==> h == x || Under(s, s.queries[h].parent.value, x);
      assert QueriesOk(s, {}) && Attached(s, h);
    }
    WithoutKeepsInv(s, {}, Tree(s, x));
  }

  /** What a check for a finished query answers. */
  datatype CheckResult = Again | NoneOutstanding | Got(x: Handle, st: Status)

  /** The caller takes the finished query x away. */
  function HandBack(s: State, x: Handle): State {
    s.(queries := map h | h in s.queries && h != x :: s.queries[h], output := Remove(s.output, {x}))
  }

  /** adns__internal_check: any finished query, or the one named, is handed back
      and forgotten. */
  function InternalCheck(s: State, want: Option<Handle>): (r: (CheckResult, State))
    requires forall x :: x in s.output ==> x in s.queries
    requires want.Some? ==> want.value in s.queries
  {
    if want.None? && s.output == [] then
      (if s.udpw != [] || s.tcpw != [] then Again else NoneOutstanding, s)
    else
      var x: Handle := if want.Some? then want.value else s.output[0];
      if want.Some? && s.queries[x].id >= 0 then (Again, s) else (Got(x, s.queries[x].status), HandBack(s, x))
  }

  lemma HandBackKeepsQuery(s: State, x: Handle, y: Handle)
    requires QueriesOk(s, {}) && x in s.queries && s.queries[x].phase == Done
    requires y in s.queries && y != x
    ensures var r := HandBack(s, x);
            RangesOk(r.cfg, r.queries[y]) && KidsOk(r, y) && PhaseOk(r.cfg, r.queries[y]) && Attached(r, y)
  {
    assert KidsOk(s, y) && Attached(s, y) && PhaseOk(s.cfg, s.queries[y]);
    assert PhaseOk(s.cfg, s.queries[x]);
  }

  lemma HandBackKeepsQueues(s: State, x: Handle)
    requires QueuesOk(s, {}) && x in s.queries && s.queries[x].phase == Done
    ensures QueuesOk(HandBack(s, x), {})
  {
    RemoveNoDup(s.output, {x});
  }

  lemma HandBackKeepsInv(s: State, x: Handle)
    requires Inv(s, {}) && x in s.output
    ensures Inv(HandBack(s, x), {})
  {
    var r := HandBack(s, x);
    HandBackKeepsQueues(s, x);
    assert QueriesOk(r, {}) by {
      forall y | y in r.queries
        ensures RangesOk(r.cfg, r.queries[y]) && KidsOk(r, y) && PhaseOk(r.cfg, r.queries[y]) && Attached(r, y)
      {
        HandBackKeepsQuery(s, x, y);
      }
    }
    hide QueriesOk, QueuesOk;
  }

  /** A finished query is told from the others by its id. */
  lemma FinishedById(s: State, x: Handle)
    requires Inv(s, {}) && x in s.queries
    ensures s.queries[x].id < 0 <==> x in s.output
  {
    assert PhaseOk(s.cfg, s.queries[x]);
  }

  lemma CheckShape(s: State)
    requires Inv(s, {})
    ensures forall x :: x in s.output ==> x in s.queries
  {
  }

  /** What adns__internal_check answers, case by case. */
  lemma CheckCases(s: State, want: Option<Handle>)
    requires forall x :: x in s.output ==> x in s.queries
    requires want.Some? ==> want.value in s.queries
    ensures var (res, r) := InternalCheck(s, want);
            && (res == NoneOutstanding <==> want.None? && s.output == [] && s.udpw == [] && s.tcpw == [])
            && (res.Got? ==> res.x in s.queries && s.queries[res.x].status == res.st && r == HandBack(s, res.x))
            && (!res.Got? ==> r == s)
            && (want.Some? ==> (res.Got? <==> s.queries[want.value].id < 0) && (res.Got? ==> res.x == want.value))
            && (want.None? ==> (res.Got? <==> s.output != []) && (res.Got? ==> res.x == s.output[0]))
  {
    hide HandBack;
  }

  lemma HandBackTakes(s: State, x: Handle)
    ensures x !in HandBack(s, x).queries && HandBack(s, x).queries.Keys == s.queries.Keys - {x}
  {
  }

  /** ESRCH is answered exactly when nothing at all is outstanding, and a query
      is handed back exactly when it has finished. */
  lemma CheckIsExact(s: State, want: Option<Handle>)
    requires Inv(s, {})
    requires want.Some? ==> want.value in s.queries
    ensures var (res, r) := InternalCheck(s, want);
            && Inv(r, {})
            && (res == NoneOutstanding <==> s.queries == map[])
            && (res.Got? ==> res.x in s.output && res.x !in r.queries && s.queries[res.x].status == res.st
                             && r.queries.Keys == s.queries.Keys - {res.x})
            && (!res.Got? ==> r == s)
            && (want.Some? ==> (res.Got? <==> want.value in s.output) && (res.Got? ==> res.x == want.value))
            && (want.None? ==> (res.Got? <==> s.output != []) && (res.Got? ==> res.x == s.output[0]))
  {
    hide *;
    CheckShape(s);
    QuiescentMeansEmpty(s);
    CheckCases(s, want);
    var (res, r) := InternalCheck(s, want);
    if want.Some? { FinishedById(s, want.value); }
    if res.Got? {
      HandBackKeepsInv(s, res.x);
      HandBackTakes(s, res.x);
    }
  }
}
