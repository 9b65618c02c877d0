# Cheops: a verified model

Cheops draws a network: an agent finds hosts, probes and scans them, and a user
interface shows them as a page of linked objects. This project models the parts of it
whose correctness is hardest to see, and proves what they are for.

* **The resolver** (`Resolver*.dfy`, `DList.dfy`, `Timeval.dfy`): the engine of the adns
  library. Queries move between four queues, form trees of parents and children, and
  share one TCP connection. `ResolverState` has the state and the inductive invariant;
  its consequence is the library's own run-time consistency check. Each operation is a
  function on states, proved to keep the invariant, and a method of class `Resolver`,
  with the loops, the recursion and the lists that change under them, proved to compute
  that function. `ResolverLoss` says what the end of a query takes with it,
  `ResolverPurge` what that does to the loop over spent queries, `ResolverLoop` how the loop
  over the connection ends. `ResolverTimeouts` has the passes that act on time and the ones
  that report it, `ResolverRun` whole runs. The outside world (clock, memory, the answers of
  connect, what a callback asks for) is an `Env` value given to each step.
* **TCP framing** (`TcpFraming.dfy`): putting messages together from any cut of the stream.
* **Names and records** (`DomainName.dfy`, `DomainText.dfy`, `DomainParse.dfy`,
  `RecordOwner.dfy`, `VBufs.dfy`): the label walker that follows compression pointers, the
  quoted text, the comparison of two names in step, the record header.
* **Answer memory** (`AnswerMemory.dfy`, `RecordSort.dfy`): the counters of allocated
  memory, the packing of the answer into one buffer, and the sort of its records.
* **The merge graph** (`MergeGraph.dfy`, `MergeMoves.dfy`, `MergePage.dfy`): hosts merged
  into groups drawn as one, and the links between them. The methods of `NetPage` work on
  the objects; the lemmas are about the graph the objects form.
* **The agent's event core** (`Schedule.dfy`, `IoTable.dfy`, `Probing.dfy`): the schedule, the
  table of descriptors with its swap-remove, and a probe registered in both.
* **Two data paths** (`OsScan.dfy`, `OsScanIo.dfy`; `NetMask.dfy`, `Sweep.dfy`,
  `Checksum.dfy`): the OS scan reply from writer to reader, and a netmask to the sweep of
  its addresses.

Where code and documentation differ the model follows the code. `adns.h:147-152`
promises a backslash and three decimal digits for a byte that is not printable;
`parse.c:39` prints octal ones. `DomainText.DecimalReaderExactly` says which names a
reader of the documentation still gets right. The comments of `io.c:110-115` describe a
test for room that the code makes the other way round; `IoTable.GrowsAlways` and
`IoTable.CapacityExactly` say what follows.

Properties that turned out not to hold of the code, each with the exact condition under
which they do and a case in which they fail:

* that the purge of spent queries keeps its place in tcpw. The end of a query frees
  exactly what is below the highest ancestor that its callbacks finish or fail
  (`ResolverPurge.FreedExactly`), as a PTR query with two addresses to look up does when
  the first fails (`types.c:691-697`); the walk is lost exactly if, going from query to
  query and from state to state as the code does, it comes to a spent one whose end frees
  the entry after it (`PurgeLostExactly`). It never is if every spent query is the only
  one of its caller's query on tcpw (`AloneNeverLost`) or if callbacks neither finish nor
  fail a parent with children left (`ContentNeverLost`). `PurgeLosesItsPlace` is a case;
* that a name error by TCP takes a search on. The query is still in state tcpw, and
  `transmit.c:229` asserts that it is not: a reply ends the process exactly if it is a name
  error for a query on tcpw whose search comes to a name that can be sent
  (`ResolverEvents.ReplyAbortsExactly`, `NameErrorAborts`); otherwise the query fails
  (`SearchEndsInFailure`);
* the retries check on tcpw when `connect` refuses at once
  (`ResolverTcp.TryConnectKeepsCheckExactly`, whatever it answers after that;
  `RefusalsBreakCheck`);
* an end to the loop over the connection. It goes on for ever exactly if it comes to a
  state in which queries wait and there is no socket to be had
  (`ResolverLoop.LoopEndsExactly`, `SpinsForEver`), for callbacks that ask for no more
  children or connections that stop coming through; so then it ends for every other answer
  of `connect` (`EndsWithSockets`). With callbacks that replace every child that fails and
  connections that break as soon as they are up it goes on for ever, too (`NeverWearsOut`).
  `NoSocketNoEnd` and `EndlessNoEnd` are cases;
* a valid graph after merging with a host that is not its group's primary
  (`MergePage.NetPage.Merge`, `StaleEnd`), and after merging a selection: exactly those
  that `MergeMoves.SelectionOk` describes can be taken in turn (`SelectionUnfolds`). A
  selection with a host of the first one's own group closes a ring that is walked for ever
  (`RingNeverEnds`);
* text that a decimal reader understands (`DomainText.DecimalReaderExactly`, `SpaceMisread`);
* the order of the schedule for delays below zero (`Schedule.SortsRightExactly`,
  `NegativeDelayMisorders`);
* that no wait means something to run. For every delay it does at every clock reading from
  the one the event was set at on (`Schedule.AgreesFromMakingOn`); it fails exactly if the
  clock has been set back and the event's second is ahead of its time (`WaitAgreesExactly`,
  `ClockSetBackSpins`), or if the event was overslept by what an int takes for a wait
  (`WaitZeroExactly`, `OversleptWindows`, `OversleptWaits`);
* room in the descriptor table after 2^23 additions (`IoTable.CapacityExactly`);
* that every ready descriptor is served in one pass: missed are exactly those that were last
  when a caller went and took its place, at most one for each (`IoTable.PassMissesExactly`,
  `PassMissesFew`, `TwoReady`);
* an end to following pointers. It comes within as many steps as the datagram has bytes or
  never (`DomainName.SettlesExactly`), and a whole walk ends exactly if every place it comes
  to is such (`WalkStopsExactly`); `SelfPointerNeverSettles` is a case;
* a checksum without overflow (`Checksum.LongerOverflows`, for either byte order).

## Model

| member | source | states |
|---|---|---|
| `DList.List.LinkTail` | adns-1.0/src/dlist.h:42-48 | Linking at the tail keeps the links right both ways and appends the node to the contents. |
| `DList.List.Unlink` | adns-1.0/src/dlist.h:34-40 | Unlinking any member keeps the links right both ways, takes exactly that member out of the contents and leaves the node's own links alone. |
| `DList.UnlinkIsRemove` | adns-1.0/src/dlist.h:34-40 | On a list without repetition taking out one place is the removal the resolver's queues are modelled with. |
| `Timeval.TimevalAdd` | adns-1.0/src/tvarith.h:31-39 | A normal timeval moved on by milliseconds is normal and denotes exactly that much later. |
| `ResolverState.InvImpliesConsistency` | adns-1.0/src/check.c:54-199 | The inductive invariant, whichever queries are being processed, implies the run-time check of the queues, the tree and the connection, and for every query not being processed that it is on the queue of its state. |
| `ResolverState.EveryQueryOnItsQueue` | adns-1.0/src/internal.h:226-243 | Every query is on the queue of its state and on no other, and the queues hold nothing else. |
| `ResolverState.WaitingParentHasNetworkDescendant` | adns-1.0/src/check.c:132-145 | A query on childw has a descendant on udpw or tcpw. |
| `ResolverState.QuiescentMeansEmpty` | adns-1.0/src/event.c:657-665 | Nothing on udpw, tcpw and output if and only if no query exists at all. |
| `ResolverSteps.WithoutKeepsInv` | adns-1.0/src/query.c:400-407 | Removing a set of queries closed under descent keeps the invariant. |
| `ResolverSteps.CancelKidsKeepsInv` | adns-1.0/src/query.c:400-407 | Cancelling all children of a query being processed keeps the invariant. |
| `ResolverSteps.UnlinkKeepsInv` | adns-1.0/src/dlist.h:34-40 | Taking a query off its queue for processing keeps the invariant for the others. |
| `ResolverSteps.LinkTailKeepsInv` | adns-1.0/src/dlist.h:42-48 | A processed query that fits its state goes back on that state's queue and the invariant is restored. |
| `ResolverSteps.SetBusyKeepsInv` | adns-1.0/src/internal.h:240-243 | The record of a query being processed may change, its family apart, without breaking the invariant. |
| `ResolverCancel.AllTrees` | adns-1.0/src/query.c:400-407 | The trees of a query's children are together exactly its descendants. |
| `ResolverCancel.CancelComposes` | adns-1.0/src/query.c:429-455 | Unlinking a query, cancelling below it and freeing it removes exactly its tree from queues, parent and table. |
| `ResolverEvents.CancelKeepsInv` | adns-1.0/src/query.c:429-455 | Cancelling a caller's query keeps the invariant, removes it, and leaves every other caller's query. |
| `ResolverObject.Resolver.Cancel` | adns-1.0/src/query.c:429-455 | The recursive cancel, walking children it frees as it goes, leaves the state with exactly the query's tree removed; the check holds at the entry and exit of every call, with its ancestors off their queues. |
| `ResolverObject.Resolver.CancelChildren` | adns-1.0/src/query.c:400-407 | The loop over children that disappear under it removes exactly the descendants. |
| `ResolverTcp.BreakKeepsInv` | adns-1.0/src/event.c:55-72 | A broken connection or attempt keeps the invariant and changes only the connection and the retries of the queries on tcpw. |
| `ResolverTcp.SendAllKeepsInv` | adns-1.0/src/event.c:79-83 | Handing over the queries on tcpw one by one keeps the invariant wherever the connection breaks or memory is short. |
| `ResolverTcp.TcpUpKeepsInv` | adns-1.0/src/event.c:74-84 | Coming up and sending what waits keeps the invariant. |
| `ResolverTcp.TryConnectKeepsInv` | adns-1.0/src/event.c:86-136 | One call that makes connection attempts keeps the invariant, whatever connect answers, if every waiting query has retries left for the refusals in a row; so without a refusal it always does. |
| `ResolverTcp.GoingRound` | adns-1.0/src/event.c:70-71 | Attempts that go round the servers one by one have met every server once as many have been made as there are servers. |
| `ResolverTcp.AllServersTried` | adns-1.0/src/event.c:230-233 | A query on tcpw with more retries than servers has seen an attempt to every server since it joined. |
| `ResolverTcp.RetryBounds` | adns-1.0/src/check.c:120-130 | Retries on tcpw never exceed the number of servers by more than one, and by nothing while there is no connection or it is being made. |
| `ResolverTcp.AfterRefusals` | adns-1.0/src/event.c:91-135 | The loop goes straight from one refused attempt to the next, at most one per server, and then does what the first answer that is no refusal says. |
| `ResolverTcp.TryConnectCounts` | adns-1.0/src/event.c:86-136 | Whatever connect answers, one call counts for every query on tcpw the refusals in a row, and one more for exactly those handed over to a connection that then comes through. |
| `ResolverTcp.TryConnectKeepsCheckExactly` | adns-1.0/src/event.c:86-136 | The check on tcpw survives a call if and only if for every waiting query its retries, the refusals in a row and the hand-over stay within the number of servers and one. |
| `ResolverTcp.RefusalsBreakCheck` | adns-1.0/src/event.c:86-136 | A state in order, with three servers, from which one call whose three attempts are all refused breaks the check on tcpw. |
| `ResolverObject.Resolver.CloseTcp` | adns-1.0/src/event.c:46-53 | Closing clears the buffers and changes nothing else. |
| `ResolverObject.Resolver.BreakTcp` | adns-1.0/src/event.c:55-72 | Breaking counts a retry for each waiting query if and only if the connection was being made, and moves on to the next server. |
| `ResolverObject.Resolver.TcpConnected` | adns-1.0/src/event.c:74-84 | The loop with a saved next entry hands over every waiting query until the connection breaks. |
| `ResolverObject.Resolver.ConnectTcp` | adns-1.0/src/event.c:86-136 | The connection loop does what the specification of repeated attempts says, whatever connect answers. |
| `ResolverFlow.AddQueryKeepsInv` | adns-1.0/src/query.c:40-88 | A newly allocated query is in no queue and breaks nothing. |
| `ResolverFlow.AdoptKeepsInv` | adns-1.0/src/internal.h:401-427 | Linking a new child to the parent being processed keeps the invariant. |
| `ResolverFlow.SentByUdpKeepsInv` | adns-1.0/src/transmit.c:232-258 | Sending by UDP moves the query to udpw with a deadline and keeps the invariant. |
| `ResolverFlow.SentByTcpKeepsInv` | adns-1.0/src/transmit.c:163-222 | Sending by TCP moves the query to tcpw, hands it over if the connection is up, attempts one if there is none, and keeps the invariant. |
| `ResolverFlow.SubmitChildKeepsInv` | adns-1.0/src/query.c:110-124 | Submitting a child adds it, already sent, to the end of its parent's children and keeps the invariant. |
| `ResolverDone.QueryDone` | adns-1.0/src/query.c:502-544 | Finishing a query, with all its parents' callbacks in turn, keeps the invariant and never adds or loses a caller's query; the query itself is on output if it is the caller's, and gone if it is a child. |
| `ResolverDone.QueryFail` | adns-1.0/src/query.c:546-550 | Failing a query has the same effect on queues and invariant. |
| `ResolverObject.Resolver.Finish` | adns-1.0/src/query.c:502-544 | The recursion through parents, including a failure for want of memory, terminates and computes the specified state. |
| `ResolverObject.Resolver.Fail` | adns-1.0/src/query.c:546-550 | Resetting the record, setting the status and finishing computes the specified state. |
| `ResolverBroken.DoneWhileBroken` | adns-1.0/src/query.c:502-544 | While the connection is broken, finishing a query starts no attempt and gives no query on tcpw new retries. |
| `ResolverBroken.FailWhileBroken` | adns-1.0/src/query.c:546-550 | The same for failing one. |
| `ResolverEvents.SearchOrder` | adns-1.0/src/query.c:154-169 | The search tries the name itself exactly once, first or last by its dots, and every list entry once in order. |
| `ResolverEvents.Submit` | adns-1.0/src/query.c:203-268 | Submission keeps the invariant and adds exactly one query of the caller's, also when it fails at once. |
| `ResolverEvents.SearchNext` | adns-1.0/src/query.c:150-187 | Every step of the search leaves the query sent, waiting or finished with the invariant kept, or ends the process with the query still in state tcpw and the invariant kept for all others. |
| `ResolverEvents.SearchAbortsExactly` | adns-1.0/src/transmit.c:224-229 | The search runs into the assertion if and only if the query is in state tcpw and the search comes to a name that can be sent. |
| `ResolverEvents.SearchEndsInFailure` | adns-1.0/src/query.c:126-187 | A search that comes to no name it can send fails the query with the status it ends in, whatever state the query is in. |
| `ResolverEvents.ProcessReply` | adns-1.0/src/internal.h:503-512 | Whatever a reply leads to (an answer, children, another try, the next name) keeps the invariant, or ends the process with only the query itself off its queue. |
| `ResolverEvents.ReplyAbortsExactly` | adns-1.0/src/reply.c:256-265 | A reply ends the process if and only if it is a name error for a query on tcpw whose search comes to a name that can be sent. |
| `ResolverEvents.NameErrorAborts` | adns-1.0/src/reply.c:256-265 | A case, in a state in order: one server, one entry to search, a query that has asked for its own name by TCP. |
| `ResolverEvents.CheckIsExact` | adns-1.0/src/event.c:651-675 | With no query named ESRCH is answered exactly when nothing is outstanding; a query is handed back exactly when it has finished, and is then forgotten. |
| `ResolverEvents.HandBackKeepsInv` | adns-1.0/src/event.c:669-673 | Handing a finished query back keeps the invariant. |
| `ResolverObject.Resolver.NextSearch` | adns-1.0/src/query.c:150-187 | The mutual recursion of the search terminates and computes the specified state, or tells that the assertion fails. |
| `ResolverObject.Resolver.SubmitQuery` | adns-1.0/src/query.c:203-268 | Submission computes the specified state and names the new query. |
| `ResolverObject.Resolver.HandleReply` | adns-1.0/src/internal.h:503-512 | Handling of a reply computes the specified state, or tells that the assertion fails. |
| `ResolverObject.Resolver.Check` | adns-1.0/src/event.c:651-675 | The check computes the specified answer and keeps the invariant. |
| `ResolverTimeouts.ExpireQueue` | adns-1.0/src/event.c:196-216 | The acting pass that starts again from the head after each action terminates, computes the specified state, leaves nothing overdue in the queue, and does nothing if nothing was. |
| `ResolverLoss.DoneFate` | adns-1.0/src/query.c:502-544 | After the end of a query exactly what is below the highest ancestor that ended with it is gone, and what appeared is a child of the parent at which the climb stopped. |
| `ResolverPurge.Drop` | adns-1.0/src/event.c:227-234 | A query fails for want of servers only after an attempt to every one since it joined tcpw; the state afterwards is the specified one. |
| `ResolverPurge.FreedExactly` | adns-1.0/src/event.c:227-234 | Failing a spent query frees another exactly if that one is below the highest ancestor that the callbacks on the way up finish or fail, or is that ancestor and a child. |
| `ResolverPurge.DropSpent` | adns-1.0/src/event.c:227-234 | The walk with a saved next entry terminates and does exactly what its specification says, place by place; it reports a lost place exactly if the end of a spent query freed the next entry, and else has failed every spent query. |
| `ResolverPurge.PurgeLost` | adns-1.0/src/event.c:227-234 | A walk that lost its place came to a spent query whose end frees the one after it, and its state is what dropping that query left. |
| `ResolverPurge.PurgeLostExactly` | adns-1.0/src/event.c:227-234 | The walk is lost if and only if, going on from each spent query in the state its end leaves, it comes to a spent query whose end frees the one after it. |
| `ResolverPurge.AloneNeverLost` | adns-1.0/src/event.c:227-234 | If every spent query is the only one of its caller's query on tcpw, the walk never loses its place. |
| `ResolverPurge.ContentNeverLost` | adns-1.0/src/event.c:227-234 | Nor does it if callbacks neither finish nor fail a parent that has children left. |
| `ResolverPurge.PurgeLosesItsPlace` | adns-1.0/src/types.c:685-714 | A case in which it does: one server, two spent children of one parent, and a callback that fails the parent. |
| `ResolverLoop.Turn` | adns-1.0/src/event.c:223-269 | One turn of the loop keeps the invariant and every caller's query. |
| `ResolverLoop.PurgeBudget` | adns-1.0/src/event.c:227-234 | If no callback asks for more children the purge leaves no more retries to come than there were. |
| `ResolverLoop.UpBudget` | adns-1.0/src/transmit.c:163-197 | A connection that comes through and breaks at once has used up a retry of some waiting query. |
| `ResolverLoop.SpinsForEver` | adns-1.0/src/event.c:91-112 | With queries waiting and no socket to be had a turn changes nothing, however often it is taken. |
| `ResolverLoop.LoopEndsExactly` | adns-1.0/src/event.c:223-269 | No number of turns ends the loop if and only if it comes to such a state; otherwise it ends as specified, for callbacks that ask for no more children or connections that stop coming through. |
| `ResolverLoop.EndsWithSockets` | adns-1.0/src/event.c:223-269 | So it ends for every answer of connect but the want of a socket. |
| `ResolverLoop.NeverWearsOut` | adns-1.0/src/event.c:223-269 | Without that condition it need not: if every connection comes through and breaks at the first write, and every callback asks for another child, no number of turns ends it once a child waits. |
| `ResolverLoop.NoSocketNoEnd` | adns-1.0/src/event.c:223-269 | A concrete state in order that a missing socket keeps turning for ever. |
| `ResolverLoop.EndlessNoEnd` | adns-1.0/src/event.c:223-269 | A concrete state in order that such callbacks and connections keep turning for ever. |
| `ResolverLoop.LoopSettles` | adns-1.0/src/event.c:223-269 | A loop that returns leaves nothing the connection still wants done now, and a settled connection is left alone. |
| `ResolverLoop.TcpEvents` | adns-1.0/src/event.c:218-272 | The loop terminates and does exactly what its specification says turn by turn: it returns, tells that the purge lost its place, or tells that it would go on for ever without a socket. |
| `ResolverTimeouts.ProcessTimeouts` | adns-1.0/src/event.c:274-280 | The acting pass is both queues and then the connection: no query is overdue afterwards, the connection is settled unless the purge lost its place or there was no socket, and if there was nothing to do the state is unchanged. |
| `ResolverTimeouts.ActingPassStops` | adns-1.0/src/event.c:218-280 | A pass that stops short had come, keeping the caller's queries and the invariant, to a spent query on a broken connection whose end freed the entry after it, or to queries waiting without a socket to be had; and the first never if callbacks neither finish nor fail a parent that has children left. |
| `ResolverTimeouts.ReportQueue` | adns-1.0/src/event.c:196-216 | The looking pass over a queue lowers the time to exactly the least wait of its queries. |
| `ResolverTimeouts.ReportTcp` | adns-1.0/src/event.c:218-272 | The looking pass over the connection lowers the time to exactly what the connection adds, starting at most the idle timer. |
| `ResolverTimeouts.FirstTimeout` | adns-1.0/src/event.c:282-288 | The reported time is exactly the least of the caller's limit and max(0, deadline - now) over both queues and the connection. |
| `ResolverTimeouts.BeforePoll` | adns-1.0/src/poll.c:43-67 | The poll form is that time rounded up by less than a millisecond, never beyond the caller's, and -1 exactly when there is no wait. |
| `ResolverTimeouts.NothingBeforeReportedTime` | adns-1.0/src/event.c:153-280 | Up to the reported time the acting pass has nothing to do. |
| `ResolverTimeouts.SomethingAfterReportedTime` | adns-1.0/src/event.c:153-280 | Just after it, unless it was the caller's limit, there is something to do. |
| `ResolverRun.Step` | adns-1.0/src/check.c:159-199 | Each kind of event does exactly what its specification says, keeps the invariant unless it ends the process, and changes the caller's queries only as its outcome says: a submission always yields the next new query, a check for any query the first on output. |
| `ResolverRun.HappenedKeeps` | adns-1.0/src/check.c:159-199 | Every event keeps the caller's account, and the invariant unless it ends the process. |
| `ResolverRun.Run` | adns-1.0/src/check.c:159-199 | Over every run the consistency check holds, unless the process ended; there are as many submitted queries as submissions in the script taken, and each is outstanding, cancelled or handed back, exactly one of these, and handed back once; the run takes the whole script unless an event stops it. |
| `ResolverRun.BookBalances` | adns-1.0/src/check.c:159-199 | The same of the books of any script, by which the run is specified. |
| `ResolverRun.RunStops` | adns-1.0/src/event.c:218-280 | A run stops early only when a purge has lost its place, queries wait without a socket to be had, or a name error by TCP made a search send. |
| `MergeGraph.SplicedOk` | gui-canvas.c:892-894 | A host joining a chain behind its primary keeps the groups disjoint chains that name their heads. |
| `MergeGraph.JoinedOk` | gui-canvas.c:826-838 | Hanging a whole chain at the end of another does too, and all its hosts are now named by the other primary. |
| `MergeGraph.DissolvedOk` | gui-canvas.c:664-704 | Taking a group apart leaves each of its hosts on its own and every other group as it was. |
| `MergeGraph.SplitOk` | gui-canvas.c:737-757 | A secondary leaving a chain leaves the rest of it in order. |
| `MergeGraph.RedrawnExactly` | gui-canvas.c:849-867 | The loop that takes the first of four matches draws a link right if and only if the link does not join the primary to a host of its own group. |
| `MergeGraph.RedrawnAll` | gui-canvas.c:801-820 | The loop that looks at all four places draws every link right. |
| `MergeGraph.SameGroupsSameGraph` | gui-canvas.c:654-771 | Two well-formed graphs with the same groups and real links have the same lists up to order and the same drawn ends. |
| `MergeMoves.MergeUnmergeRestores` | gui-canvas.c:654-771 | Merging a host on its own and unmerging it, or the primary that was on its own, restores groups, lists up to order and drawn ends. |
| `MergeMoves.LeftOk` | gui-canvas.c:674-700 | When a host leaves its group with its links, filing and drawing are right again for the new groups. |
| `MergeMoves.RegroupedTwice` | gui-canvas.c:410-411 | Taking the new primary out and merging the old one into it gives the old group under the new name. |
| `MergePage.NetPage.Merge` | gui-canvas.c:786-928 | Merging a host with the named first of another group moves every link once per end, keeps groups, filing and one link per pair, and leaves a valid graph if and only if the host was its group's primary or on its own, or no link joins its primary within its group. |
| `MergePage.StaleEnd` | gui-canvas.c:841-885 | On a page with a valid graph of three hosts, a group with a link inside and a host on its own, merging leaves the graph no longer valid. |
| `MergePage.NetPage.MergeSelected` | gui-canvas.c:930-948 | Merging a selection host by host keeps the graph valid and draws exactly the selected groups as the first host. |
| `MergeMoves.SelectionUnfolds` | gui-canvas.c:930-948 | After a first merge the rest of a selection can be taken exactly if the whole could: each host is mergeable and no two are of one group. |
| `MergeMoves.RingNeverEnds` | gui-canvas.c:826-838 | Merging with a host of the first one's own group would hang the chain behind itself, where following merge for any number of steps stays inside it. |
| `MergeMoves.NamedIsNotNext` | gui-canvas.c:786-799 | In a valid graph no host's merge leads to a host that names itself, as it would after merging with a first host from inside a chain. |
| `MergePage.NetPage.MergeSingle` | gui-canvas.c:887-921 | The branch for a host on its own: chain order, lists and drawn ends. |
| `MergePage.NetPage.MergePrimary` | gui-canvas.c:800-840 | The branch for the primary of a group. |
| `MergePage.NetPage.MergeMember` | gui-canvas.c:841-885 | The branch for any other host of a group. |
| `MergePage.NetPage.LastMerge` | gui-canvas.c:773-784 | The walk finds the last host of a chain, or none if the chain is a single host. |
| `MergePage.NetPage.Unmerge` | gui-canvas.c:654-771 | Unmerging keeps the graph valid: of a primary's group every host is on its own again, of a secondary only it; without a group only a complaint is made. |
| `MergePage.NetPage.MoveBack` | gui-canvas.c:674-700 | The loop that starts again after every move terminates and moves exactly the leaving host's links, each once, resetting exactly its drawn ends. |
| `MergePage.NetPage.TakeOut` | gui-canvas.c:738-748 | The walk to the chain's end takes exactly the given host out. |
| `MergePage.NetPage.SetMergePrimary` | gui-canvas.c:393-417 | Changing the primary keeps every group's membership and every real link; only the name of that group changes, and only if the new primary is in it. |
| `MergePage.NetPage.LinkGet` | gui-canvas.c:494-528 | A link of the two hosts is found if and only if there is one, though only their primaries' lists are searched. |
| `MergePage.NetPage.LinkDestroy` | gui-canvas.c:435-488 | Destroying a link takes it off both lists, or twice off the same, and keeps the graph valid. |
| `MergePage.NetPage.MapPageObjects` | gui-canvas.c:962-1008 | Linking two hosts replaces their old link by one new one and keeps the graph valid. |
| `TcpFraming.FramesOfStream` | adns-1.0/src/event.c:343-349 | The messages a sender framed come out again, with the incomplete rest left over. |
| `TcpFraming.StreamOfFrames` | adns-1.0/src/event.c:343-349 | Messages and rest put together again are the stream. |
| `TcpFraming.FramesAppend` | adns-1.0/src/event.c:342-380 | Splitting as the stream arrives gives the same as splitting it whole. |
| `TcpFraming.Receiver.TakeMessage` | adns-1.0/src/event.c:343-357 | A complete message is handed on and skipped; otherwise nothing changes and the room its next part needs is named. |
| `TcpFraming.Receiver.ReadMore` | adns-1.0/src/event.c:358-379 | There is always room to read; the stream loses nothing, and each kind of end is reported as such. |
| `TcpFraming.Receiver.ProcessReadable` | adns-1.0/src/event.c:337-381 | For every way the stream is cut into reads, what is delivered is exactly its messages in order, what is buffered exactly the rest, and the skip counter is zero; only a message that breaks the connection leaves others undelivered. |
| `TcpFraming.Receiver.Deliver` | adns-1.0/src/internal.h:503-512 | Handling a message may break the connection, which empties the buffer. |
| `VBufs.VBuf.Ensure` | adns-1.0/src/general.c:112-120 | Room is made without losing contents, or memory was refused. |
| `VBufs.VBuf.Append` | adns-1.0/src/general.c:127-142 | Data is appended, or two enlargements have been refused and nothing changed. |
| `DomainName.NextHop` | adns-1.0/src/parse.c:76-89 | Following a pointer does not change what the walk finds next, nor whether it finds anything. |
| `DomainName.BackwardsSettles` | adns-1.0/src/parse.c:76-89 | If pointers aim backwards, following them ends. |
| `DomainName.BackwardsStops` | adns-1.0/src/parse.c:70-108 | And so does the whole walk. |
| `DomainName.SettlesExactly` | adns-1.0/src/parse.c:76-89 | Following pointers ends if and only if it ends within one step more than the datagram has bytes. |
| `DomainName.WalkStopsExactly` | adns-1.0/src/parse.c:70-108 | The whole walk ends if and only if every place it comes to settles in that way. |
| `DomainName.SelfPointerNeverSettles` | adns-1.0/src/parse.c:76-89 | A pointer to itself is followed for ever. |
| `DomainName.WalkFindsName` | adns-1.0/src/parse.c:70-108 | Every name RFC 1035 section 4.1.4 defines, if not longer than 255, is found by the walk. |
| `DomainName.WalkIsName` | adns-1.0/src/parse.c:70-108 | Whatever the walk finds is that name and not longer. |
| `DomainName.OneName` | adns-1.0/src/parse.c:70-108 | A place in a datagram has at most one name. |
| `DomainName.FindLabel.NextLabel` | adns-1.0/src/parse.c:70-118 | One call finds the next label, the end, truncation or the error that is there, reading only inside the datagram, if the pointers there settle. |
| `DomainText.OctalRoundTrip` | adns-1.0/src/parse.c:30-53 | The printed text of a name, read with octal numbers, is exactly its labels. |
| `DomainText.TextInjective` | adns-1.0/src/parse.c:30-53 | Different names are printed differently. |
| `DomainText.DecimalReaderExactly` | adns-1.0/src/adns.h:147-152 | Read as the documentation promises, with decimal numbers, it is the labels if and only if no byte is printed as a number above 7. |
| `DomainText.SpaceMisread` | adns-1.0/src/adns.h:147-152 | A concrete name, a space, that is then misread. |
| `DomainParse.AppendQuoted` | adns-1.0/src/parse.c:30-53 | The loop over runs of plain bytes appends the quoted label, or memory ran out. |
| `DomainParse.ParseDomainMore` | adns-1.0/src/parse.c:130-157 | Labels are appended with dots between, and each outcome of the walk, a bad host label and want of memory is reported as such, if the walk ends or comes to a label that is not a host's before. |
| `DomainParse.ParseDomain` | adns-1.0/src/parse.c:120-128 | The text read back is the name the standard defines, if and only if there is one not too long; the cursor is just past the uncompressed part. |
| `DomainParse.WalkNameAt` | adns-1.0/src/parse.c:70-108 | The walk ends at a name if and only if the standard defines it there. |
| `DomainParse.WalkEnds` | adns-1.0/src/parse.c:86-102 | The end stored is just past the first pointer or the empty label. |
| `RecordOwner.CompareLabels` | adns-1.0/src/parse.c:193-197 | Two labels match exactly if they are equal up to ASCII case. |
| `RecordOwner.CompareOwner` | adns-1.0/src/parse.c:176-201 | The walk of two names in step reports a match exactly if the names are the same up to case, wherever either is compressed. |
| `RecordOwner.FindRecord` | adns-1.0/src/parse.c:159-221 | A record is found exactly if owner, ten fixed bytes and data fit; its fields, capped TTL, match and end are those of the datagram. |
| `AnswerMemory.Round` | adns-1.0/src/internal.h:699-701 | The least multiple of the alignment that is enough. |
| `AnswerMemory.Account.AllocCounted` | adns-1.0/src/query.c:330-359 | An allocation is added to the list and its rounded size to the counter (and, preserved, to both); of nothing, or without memory, nothing changes. |
| `AnswerMemory.Account.AllocMine` | adns-1.0/src/query.c:361-363 | An allocation of one's own is not counted; one of nothing is none. |
| `AnswerMemory.Account.TransferTo` | adns-1.0/src/query.c:365-382 | A transfer conserves the counters of the two queries together, keeps both right, and lowers the expiry. |
| `AnswerMemory.Account.ResetPreserved` | adns-1.0/src/query.c:409-415 | A reset leaves exactly the preserved blocks counted. |
| `AnswerMemory.TotalOfSome` | adns-1.0/src/query.c:384-398 | Distinct counted blocks never need more than was counted. |
| `AnswerMemory.BackedFits` | adns-1.0/src/query.c:466-500 | So what is made final fits the buffer. |
| `AnswerMemory.Account.MakeFinal` | adns-1.0/src/query.c:552-572 | One block is copied to the next free place and nothing else in the buffer changes. |
| `AnswerMemory.Account.MakeFinalAll` | adns-1.0/src/query.c:480-491 | All copies are aligned, inside the buffer, equal to the originals and disjoint, and the counter never becomes negative. |
| `AnswerMemory.Account.MakeFinalQuery` | adns-1.0/src/query.c:466-500 | The answer keeps its fixed part and gets the packed copies, or, if memory is refused, forgets all of them. |
| `RecordSort.SortedPermutes` | adns-1.0/src/general.c:315-331 | Sorting keeps every record. |
| `RecordSort.SortedOrdered` | adns-1.0/src/general.c:315-331 | No record is before one it should come after. |
| `RecordSort.SortedStable` | adns-1.0/src/general.c:315-331 | Records that tie keep their order. |
| `RecordSort.Isort` | adns-1.0/src/general.c:315-331 | The in-place insertion sort computes that order. |
| `Schedule.SetTimeExact` | sched.c:169-183 | The stamp is exactly the delay later; its microseconds are within range if and only if the clock's and the delay's do not add to less than zero. |
| `Schedule.SoonerIsEarlier` | sched.c:42-43 | Among stamps, a whole second of microseconds included, field-wise order agrees with real time. |
| `Schedule.SortsRightExactly` | sched.c:169-183 | What is set sorts rightly among all stamps if and only if the microseconds of clock and delay do not add to less than zero; for a delay not below zero it always does. |
| `Schedule.NegativeDelayMisorders` | sched.c:169-183 | A concrete delay below zero whose stamp sorts behind a later one. |
| `Schedule.DueWithinAMillisecond` | sched.c:304-307 | All that is due by now is run, and nothing a millisecond or more away. |
| `Schedule.SetTimeDue` | sched.c:304-307 | An event set at a clock reading is due at it if and only if its delay is not above zero. |
| `Schedule.WaitAgrees` | sched.c:118-141 | The milliseconds to wait are not above zero exactly if runq would run the head. |
| `Schedule.WaitAgreesExactly` | sched.c:118-141 | For whatever sched_settime makes this agrees if and only if the event's second is not ahead of its time. |
| `Schedule.AgreesFromMakingOn` | sched.c:118-141 | So for every delay, also below zero, it agrees at every clock reading from the one the event was set at on. |
| `Schedule.WaitZeroExactly` | sched.c:118-141 | With the value kept in a 32-bit int this agrees if and only if the head was not overslept and its second is not ahead of its time. |
| `Schedule.OversleptWindows` | sched.c:118-141 | Overslept is overdue by more than 2^31 and less than 2^32 milliseconds, or that and whole multiples of 2^32. |
| `Schedule.OversleptWaits` | sched.c:118-141 | A concrete head, due but overslept by one millisecond, that is waited for another 2^31 - 1. |
| `Schedule.NoWrapAhead` | sched.c:118-141 | An event set at an earlier reading is never too far ahead for the int. |
| `Schedule.ClockSetBackSpins` | sched.c:118-141 | With a delay below zero and a clock set back by a microsecond after the event was set, the wait is zero while nothing is run. |
| `Schedule.InsertedInOrder` | sched.c:144-167 | Insertion behind all that is not later keeps the queue in order, first come first served among equal stamps. |
| `Schedule.Scheduler.Add` | sched.c:185-213 | An event is inserted with a new id, or refused for a delay of zero, want of memory or a clock failure. |
| `Schedule.Scheduler.Delete` | sched.c:215-244 | Exactly the event with the id goes, or nothing if there is none. |
| `Schedule.Scheduler.Wait` | sched.c:118-141 | The wait in the int the code keeps it in, clamped at zero; it is zero if and only if the head would be run, unless overslept or with its second ahead. |
| `Schedule.Scheduler.RunQueue` | sched.c:283-347 | At one clock reading every event due is run exactly once, in order, or has been deleted by a callback; nothing else is run, what callbacks add or ask to run again included, and the pass terminates. |
| `IoTable.CapacityExactly` | io.c:52-54 | The arrays have room for every entry as long as they have grown fewer than 2^23 times; the 2^23rd asks for none. |
| `IoTable.GrowsAlways` | io.c:112-118 | The test for room is always true, so every addition enlarges the arrays. |
| `IoTable.Table.Grow` | io.c:68-102 | Enlarging keeps every entry, also when only one of the arrays could grow. |
| `IoTable.Table.Add` | io.c:104-137 | A new handle maps to the new entry and all others are as before, or nothing is added. |
| `IoTable.Table.Change` | io.c:139-152 | Exactly the given fields of exactly that entry change. |
| `IoTable.Table.Shrink` | io.c:154-176 | Moving the last entry into the gap removes exactly one handle from the map and keeps every cell equal to its index. |
| `IoTable.Table.Remove` | io.c:178-198 | Removal takes the handle out, or only marks it while its own callback runs. |
| `IoTable.Table.Wait` | io.c:200-232 | Each entry is called at most once and only if ready, in the order the pass and its removals make; every ready entry is called or was last and moved into a place already passed, at most one for each caller that went, none if all stay; exactly those called that do not want to stay are gone. |
| `IoTable.OverReachesAll` | io.c:212-231 | A pass that is over has called every ready entry except those moved into a place already passed, of which there are at most as many as callers that went. |
| `IoTable.PassMissesExactly` | io.c:212-231 | A ready entry is missed by a pass if and only if it was the last row when a caller went and took that caller's place. |
| `IoTable.TwoReady` | io.c:212-231 | Of two ready entries the second is missed when the first goes. |
| `Probing.Agent.GetVersion` | probe.c:404-440 | A started probe and its registrations refer to one another, whichever of them failed. |
| `Probing.Agent.SendCb` | probe.c:365-376 | Sending ends the sending registration only. |
| `Probing.Agent.ReceiveCb` | probe.c:327-363 | Receiving before sending does nothing; after it the probe ends, removing no handle but its own. |
| `Probing.Agent.Dispatch` | io.c:217-229 | The table after a callback refers to live probes only. |
| `Probing.Agent.Fire` | probe.c:378-402 | Running out of time ends the probe and removes every registration. |
| `Probing.Agent.DispatchAll` | probe.c:327-376 | The callbacks of one pass, in any order, add no entry and leave every entry but their own. |
| `Probing.InStep` | io.c:212-231 | So after a pass the table of descriptors and the agent's map still have the same entries. |
| `Probing.MeetsWait` | io.c:200-232 | Such callbacks meet what the pass asks of memory, with any number of ready entries. |
| `Probing.MeetsRunQueue` | probe.c:378-402 | The time limit's callback asks the schedule for nothing, as the pass over it requires. |
| `Probing.NothingLeft` | probe.c:378-402 | Neither table nor schedule refers to a probe that has ended. |
| `Probing.Agent.Run` | probe.c:327-440 | Over every run each started probe is alive or has ended, exactly once. |
| `OsScan.OptBack` | cheops-osscan.h:28-55 | Every option is read back where it was written, with its length. |
| `OsScan.AllBack` | gui-handlers.c:577-631 | A list of options is read back whole, and the walk by lengths ends exactly where it does. |
| `OsScan.FoldOptions` | gui-handlers.c:581-629 | Applied in order they give the scan's data with the ports reversed and missing strings empty. |
| `OsScan.EndToEnd` | gui-handlers.c:556-643 | Any scan that fits the buffer is known to the interface from its encoded reply. |
| `OsScanIo.PutPort` | agent-osscan.c:172-215 | A port option is written byte for byte as specified, length filled in last. |
| `OsScanIo.SendReply` | agent-osscan.c:144-263 | The buffer holds header, reply head and all options, and the header's length is their sum. |
| `OsScanIo.HandleReply` | gui-handlers.c:556-643 | The walk over options computes the specified data. |
| `OsScanIo.SendAndHandle` | agent-osscan.c:144-263 | What is sent and handled gives back the scan, and exactly the event is read. |
| `NetMask.AllOnes` | ip_utils.c:109-117 | A mask is accepted exactly if it is ones followed by zeros. |
| `NetMask.RangeIsNetwork` | gui-handlers.c:237-239 | From base and mask to base or not mask is exactly the addresses that share the prefix. |
| `NetMask.PrefixIsMask` | gui-handlers.c:232-234 | Shifting makes the mask with the given number of leading ones. |
| `NetMask.NetworkRange` | gui-handlers.c:211-257 | A netmask is refused exactly if neither form is usable; otherwise the range is the network of the base. |
| `Sweep.HandleRequest` | agent-discover.c:102-161 | Exactly ranges with a zero end or in the wrong order are refused. |
| `Sweep.Request.PingSend` | agent-discover.c:291-418 | A call terminates having sent exactly one ping, what came before it skipped or answered from the cache, or removes the request because every round is over. |
| `Sweep.CompleteVisitsAll` | agent-discover.c:407-416 | In a complete sweep every address has had one turn in each of the rounds, in order. |
| `Sweep.Request.Live` | agent-discover.c:291-418 | Successive calls complete the sweep and then remove the request. |
| `Checksum.FoldIsResidue` | ip_utils.c:138-140 | Two folds of a 32-bit sum give the one's-complement sum. |
| `Checksum.InetChecksum` | ip_utils.c:119-142 | If the signed sum does not overflow the result is the complement of the one's-complement sum. |
| `Checksum.WithinLimit` | ip_utils.c:119-142 | It does not for up to 65536 bytes, or 65537 in little-endian order. |
| `Checksum.LongerOverflows` | ip_utils.c:121-131 | For every number of bytes: no packet of that length overflows the sum if and only if the length is within the limit of the byte order. |
| `Checksum.SelfVerifying` | ip_utils.c:119-142 | With the result filled into the aligned field that was zero the checksum is zero. |
| `Checksum.ByteOrderFree` | ip_utils.c:119-142 | Machines of either byte order leave the same two bytes. |

## Left out

- NextLabel: asks that the pointers at the cursor settle, which can be told from the datagram beforehand; the code has no counter and a call in a ring of pointers does not return (`SelfPointerNeverSettles`). RFC 1035 section 4.1.4 allows only pointers to prior occurrences, for which `BackwardsStops` proves the condition.
- ParseDomainMore: asks that the walk come to no such place, or to a label that is no host's before it; otherwise the call does not return unless memory runs out first.
- ParseDomain: asks the same, from the start of the name.
- CompareOwner: asks that neither walk come to pointers that do not settle.
- FindRecord: asks the same of the owner, and that the name compared with be whole, as `internal.h:607` does.
- InvImpliesConsistency: the assertions about allocation lists, the UDP socket, the sort list and the search list speak of what the state does not hold (`AnswerMemory` has the allocations).
- SubmitChildKeepsInv: running out of memory for the child's own record is not an outcome; it would leave the parent without that child.
- Step: when time passes, it assumes that connect does not refuse at once, and that callbacks ask for no more children or that connections stop coming through from some attempt on (`WearsOut`). `NeverWearsOut` shows a loop without end for callbacks and connections that are not so.
- TcpEvents: assumes the same; ProcessTimeouts, ActingPassStops and Run, for the events in which time passes, do too. Without a socket the code goes on asking; the model ends the loop there and reports it.
- TryConnectKeepsInv: asks that no waiting query runs out of retries by refusals alone, as the invariant bounds them; `TryConnectKeepsCheckExactly` has the exact bound of the check.
- DropSpent: when the entry the loop had saved has been freed, the code goes on from freed memory. In the model the walk ends there and reports it.
- Merge: asks for a host of another group than the first, which names itself. Merging with a host of the same group would make a ring (`RingNeverEnds`); with a first host inside a chain there is no valid graph to come to (`NamedIsNotNext`).
- MergeSelected: asks that the selection be mergeable host by host (`SelectionOk`), which is exactly when each step leaves a valid graph to the next.
- SetMergePrimary: asks that the first host be the primary of a group, as the only caller passes.
- LinkDestroy: the call with a host that is going away, which leaves that host's own list to its caller.
- RunQueue: the clock shows one reading for the whole pass, and callbacks ask for no delay below zero; with one the pass need not end (`SetTimeDue`).
- Wait: in `IoTable`, for callbacks that remove no entry but their own, and fewer than 2^23 enlargements. A callback that removes another entry can move its own, and the loop would then drop the wrong one.
- ReceiveCb: for a probe with a receive function and a callback; without them it could remove a second handle while the table is walked.
- TransferTo: asks for a block that was allocated with a size above zero; of an empty one the code has only a stand-in address and would unlink a node that is not there. The same goes for empty blocks among those made final.
- MakeFinalAll: copies each block as it is; that a record type then turns pointers inside the copies to the copies is not modelled.
- MakeFinalQuery: likewise.
- SendReply: asks that the reply fit the buffer; the code does not test it.
- HandleReply: in `OsScanIo`, asks that the event hold the options it announces; the code does not test it.
- Live: for a fixed number of retries, over calls; when the calls are made, and the delays computed for them, are not modelled (an elapsed time of exactly the interval gives a delay of zero, which the schedule refuses).
- InetChecksum: for packets whose sum fits a signed int, which `LongerOverflows` shows to be all those up to the limit of the byte order.
- Most of `reply.c` and `types.c` of adns, and making messages: these enter by the contracts `internal.h` gives for processing a datagram and for callbacks. A refused connect is part of single calls only, not of whole runs.
- A child query's record is freed just before its parent's callback runs, not after; the callback's result is part of the environment. The id becomes -1 when a query goes on output.
- `adns_globalsystemfailure`, which fails queries still linked on their queue.
- UDP reception, the contents of messages, and the diagnostics of the resolver.
- Deleting a host from a page and `net_page_unmap_all`, which visit a link within a group twice while freeing widgets; adding hosts; everything that only draws.
- The agent protocol's framing in the top-level `event.c`, which resets the expected length of a partly buffered message, so that independence of how the stream is cut does not hold there.
- The mailbox between scan thread and timer (`agent-osscan.c:338-356`), where a second reply may replace an unsent one.
- The free list of schedule entries, thread locks, and event numbers beyond an int.
- The allocations of the schedule, the cache of addresses and the sockets of the sweep, which are answers of its environment.
- Caches, service and script lists, the XML reader, the monitoring tree and the client programs, which would only add easy members.
