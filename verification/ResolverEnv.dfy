/**
 What the kernel, the allocator, the parser and the type-specific callbacks
 decide during one step of the resolver.
 */
module ResolverEnv {
  import opened Timeval
  import opened ResolverState

  /** How a query goes out. */
  datatype SendBy = ByUdp(server: nat, nextServer: nat) | ByTcp

  /** What a child-completion callback asks for its parent. */
  datatype Verdict = Finish | Abort(st: Status) | Continue(kids: seq<SendBy>)

  datatype MemFault = NoFault | OwnerFault | SortFault | FinalFault

  /** What comes of handing a query to the open connection: no memory for its bytes, some
      bytes left to be sent later, or an error of the connection. */
  datatype Write = NoRoom | Written(left: nat) | Failed

  /** A name to look up: the one given, or the one given under an entry of the
      search list. */
  datatype Candidate = Absolute | Entry(i: nat)

  /** Building the query message, and the memory it needs. */
  datatype Message = Built(id: nat) | Unbuilt(st: Status) | NoMemory

  datatype Connect = InProgress | Success | ImmediateFail | NoSocket

  /** The outside world during one step. Connection attempts are numbered by
      their place in the history; a query is written at most once per attempt. */
  datatype Env = Env(
    now: Timeval,
    verdict: (Handle, Handle) -> Verdict,
    fault: Handle -> MemFault,
    write: (Handle, nat) -> Write,
    message: (Handle, Candidate) -> Message,
    how: Handle -> SendBy,
    connect: nat -> Connect)

  /** The clock reads a time after the epoch, and connect does not refuse at once. */
  ghost predicate EnvOk(env: Env) {
    && Normal(env.now) && env.now.sec >= 0
    && forall i :: env.connect(i) != ImmediateFail
  }
}
