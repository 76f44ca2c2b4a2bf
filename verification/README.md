# FlashReduce: the proxy executor and the collective controller, verified

This project models the two concurrent components of the repository and a numeric kernel, and
proves what they promise over all inputs and all interleavings.

* **The proxy executor** (`csrc/proxy.cc`, `csrc/proxy.h`). Clients take `ProxyArgs` cells from a
  slab allocator and append them; a persistent thread walks a circular list whose members head
  FIFO chains, calls each operation's `progress`, unlinks the finished ones and recycles their
  cells. `ProxyModel` is the executor as a state machine over a ring of queues, one per tail cell.
  `ProxyHeap` is the C++ code on explicit links; `ProxyLinks` holds the proof that each of its lock
  sections performs exactly one step of the machine. `ProxyRuns`, `ProxyProgress`,
  `ProxyLiveness` and `ProxyLaps` are about whole runs, and `ProxyThread` performs the thread's
  loop, and any run of clients and thread, on the links.
* **The controller** (`controller/controller.py`). `Barrier`, `Broadcast` and `RdmaSession` are
  collective calls of n clients on one server. `ControllerModel` has one step per lock section,
  per access outside the lock, and per wait; a run is a sequence of client numbers, since every
  client has exactly one possible step. `ControllerServer` is the class with the fields of the
  source, whose methods do what the steps do. `ControllerSync`, `ControllerRounds`, `ControllerCasts`,
  `ControllerRows`, `ControllerAgreement`, `ControllerSessions`, `ControllerProgress`, `ControllerPacing`,
  `ControllerLimits` and `ControllerStuck` prove lockstep, who waits, agreement, exchange, deadlock
  freedom, and exactly where agreement and progress end.
* **A callback and the clock fit.** `SendBenchmark` is the callback of
  `examples/proxy_send_recv.cc` and what it means for the executor; `ClockFit` is the regression of
  `csrc/get_clock.cc` over the exact reals.

`dafny verify dfyconfig.toml` checks the whole project.

## What the model assumes

* Memory is sequentially consistent, and a lock section is one step. A condition variable may wake
  its waiter without a signal.
* The handler starts zeroed: `ProxyCreate` does not set `pool`, `pools` or `proxyThread`.
* A client stores `state`, `progress` and `proxyTail` before it appends a cell, and appends only
  cells that `allocateArgs` gave it. `allocateArgs` resets only the two links. A callback changes
  only its own operation's fields, never a link.
* The clients of the controller make the same calls in the same order, one at a time, with the same
  number of workers, with ranks and roots in bounds (`csrc/grpc_client.cc:71-73` checks this), and
  use a session id for one session.
* In the code and in the model a call holds a row index across a wait and reads by it after the
  lock is released. That back-to-back Broadcasts can therefore return the wrong value is proved
  (`ControllerLimits.WrongRun`), with the exact condition under which they cannot
  (`ControllerLimits.AgreementIffShielded`), and so is that they can end in an exception and leave the
  clients stuck (`ControllerStuck.PairStops`, `ControllerStuck.ProgressIff`).
* The answer to a Broadcast is the Python value. `BroadcastResponse(value=None)` leaves the field
  unset, and the client reads an unset number as 0 (`proto/flashreduce.proto:56`), so agreement is
  stated for the value and, where it fails, for the number on the wire as well.

## Model

| member | source | states |
|---|---|---|
| `ProxyModel.StepKeepsInv` | csrc/proxy.cc:27-94 | Every step of the thread or of a client keeps the ring free of duplicates, its members exactly the tail cells with a non-empty queue, the cursor and `ops` members or null, `idleSpin` below ten, and the cells conserved |
| `ProxyRuns.SpliceQueue` | csrc/proxy.cc:57-81 | The splice moves the finished operation after the cursor, if there is one, from the head of its queue to the head of the free list; every other queue, and what clients hold, stays as it is |
| `ProxyRuns.AppendQueue` | csrc/proxy.cc:125-141 | An append puts its operation last in the queue of its tail cell, leaves every other queue and the free list as they are, and takes it from the client |
| `ProxyModel.Separation` | csrc/proxy.cc:77-82 | From the counting invariant: no cell is in two of free list, client hands and queues, nor twice in one, nor in the queues of two peers, and every slab cell is in one of them |
| `ProxyLinks.CycleReplace` | csrc/proxy.cc:60-64 | Relinking the second ring member to its successor in the chain leaves a circular list with that successor in its place |
| `ProxyLinks.CycleDropRotate` | csrc/proxy.cc:70-72 | Taking the second ring member out and advancing leaves a circular list of the others that starts at the third |
| `ProxyLinks.CycleInsert` | csrc/proxy.cc:132-133 | Inserting after a member leaves a circular list with the new cell behind that member |
| `ProxyLinks.AppendFirst` | csrc/proxy.cc:127-135 | With no ring: the links written make the cell a ring of one, its tail cell naming it, and represent the appended state |
| `ProxyLinks.AppendToRing` | csrc/proxy.cc:131-135 | With a ring but no queue for the tail cell: the links written represent the state with a new ring member right after `ops` |
| `ProxyLinks.AppendToQueue` | csrc/proxy.cc:136-138 | With a queue for the tail cell: the links written represent the state with the operation last in that queue |
| `ProxyLinks.SpliceNothing` | csrc/proxy.cc:57-58 | The next operation is not finished: the unchanged links represent the advanced state |
| `ProxyLinks.SpliceReplaceMany` | csrc/proxy.cc:60-64 | Ring of several, peer successor: after the two link writes and the push on the pool the links represent the state after the splice |
| `ProxyLinks.SpliceReplaceOne` | csrc/proxy.cc:65-67 | Ring of one, peer successor: the successor becomes a ring of one |
| `ProxyLinks.SpliceUnlinkMany` | csrc/proxy.cc:68-72 | Ring of several, last of its queue: the member leaves, its tail cell becomes null, `ops` moves if it named the freed cell |
| `ProxyLinks.SpliceUnlinkLast` | csrc/proxy.cc:73-78 | Ring of one, last of its queue: ring, cursor and `ops` become empty |
| `ProxyLinks.ArrivalTest` | csrc/proxy.cc:82-83 | The comparison of the cursor with `ops` on the links says exactly that the cursor has completed a lap |
| `ProxyLinks.TailFacts` | csrc/proxy.cc:127-137 | A tail cell is null exactly if it has no ring member, and otherwise names a linked cell that no client holds |
| `ProxyHeap.ProxyHandler.constructor` | csrc/proxy.cc:105-114 | The zeroed handler represents the empty executor |
| `ProxyHeap.ProxyHandler.Prepare` | examples/proxy_send_recv.cc:95-98 | What the client stores in a cell it holds changes nothing in the executor and no other cell or tail cell |
| `ProxyHeap.ProxyHandler.ProxyArgsAppend` | csrc/proxy.cc:125-141 | The links afterwards represent exactly the state with the operation appended; no tail cell goes out of use |
| `ProxyHeap.ProxyHandler.FetchOrWait` | csrc/proxy.cc:36-46 | Takes the cursor from `ops`, or goes to wait, or leaves exactly if there is no work and `stop` is set; `ProxyLiveness.ComesToRest` and `ProxyRuns.WakesUp` say over runs when the thread sleeps and when it does not |
| `ProxyHeap.ProxyHandler.WakeUp` | csrc/proxy.cc:44-48 | When the wait returns, signalled or not, the thread has no operation yet and looks again |
| `ProxyHeap.ProxyHandler.LeaveOnAbort` | csrc/proxy.cc:34-35 | The thread returns at the abort flag, wherever its cursor is |
| `ProxyHeap.ProxyHandler.CallProgress` | csrc/proxy.cc:49-53 | Calls an unfinished operation, which is not one that a client holds and changes its own state only, and accumulates `idle` |
| `ProxyHeap.ProxyHandler.Advance` | csrc/proxy.cc:57-82 | All five cases of the splice, by statement on the links, perform the splice of the machine |
| `ProxyHeap.ProxyHandler.SpliceAndAdvance` | csrc/proxy.cc:54-92 | The whole lock section, with the spin counter, is the splice step, and it yields exactly when the machine says so |
| `ProxyHeap.ProxyHandler.ProxyStart` | csrc/proxy.cc:183-190 | Clears `stop` and signals if there is work, and else does nothing |
| `ProxyHeap.ProxyHandler.ProxyDestroy` | csrc/proxy.cc:200-204 | Sets `stop` and signals |
| `ProxyHeap.ProxyHandler.AllocateArgs` | csrc/proxy.cc:153-173 | Hands out the first free cell, of the pool or of a new slab, with both links cleared; `proxyTail` and `state` of every old cell stay |
| `ProxyHeap.ProxyHandler.CallocSlab` | csrc/proxy.cc:157-163 | The loop links the 32 zeroed cells of a slab in order and touches no other cell |
| `ProxyRuns.RunKeepsInv` | csrc/proxy.cc:27-94 | The invariant holds in every reachable state |
| `ProxyRuns.PeerFifo` | csrc/proxy.cc:127-139 | For every peer and every run: what was queued and then appended is what was recycled and then is still queued, in order |
| `ProxyRuns.RecycledPrefix` | csrc/proxy.cc:77-81 | From an empty handler, what was recycled of a peer is a prefix of what was appended, and its queue is the rest |
| `ProxyRuns.CallsTheOldest` | csrc/proxy.cc:49-52 | `progress` is only called on the oldest operation of its peer that is not recycled |
| `ProxyRuns.EmptyMeansAllDone` | csrc/proxy.cc:217-221 | `ops` is null exactly if every operation appended by anyone has been recycled, so a returned wait means all earlier work is done |
| `ProxyRuns.OnePlace` | csrc/proxy.cc:153-173 | In every reachable state each slab cell is in exactly one place, no queue holds it twice, and there are 32 cells per slab |
| `ProxyRuns.AllocatesUnreachable` | csrc/proxy.cc:168-172 | The cell handed out is in no queue, in nobody's hands, and not free afterwards |
| `ProxyRuns.SlabsForPeak` | csrc/proxy.cc:153-167 | The pool grows only when it must: after any run there are just as many slabs of 32 as the most cells ever in use at a time need |
| `ProxyRuns.WakesUp` | csrc/proxy.cc:36-46 | No lost wakeup: a thread asleep with no signal under way has not been told to stop, and has no work or work that no `ProxyStart` followed |
| `ProxyRuns.StopsOnlyWhenDone` | csrc/proxy.cc:39-43 | If nothing is appended after `ProxyDestroy`, the thread leaves through `stop` only when everything has been recycled |
| `ProxyRuns.StartWakes` | csrc/proxy.cc:183-190 | After any run: with work, `ProxyStart` withdraws a stop and leaves no thread asleep without a signal; without work it changes nothing; it never touches the operations |
| `ProxyRuns.AbortIsFinal` | csrc/proxy.cc:34-35 | The abort flag ends the thread at once and for good: however the run goes on, nothing more is recycled |
| `ProxyProgress.DrainBound` | csrc/proxy.cc:49-92 | Without appends, W calls and N operations take at most 2(W+N)+1 iterations, one less if the cursor is at an unfinished operation; a run that makes as many as the measure allows leaves the ring empty |
| `ProxyProgress.DrainSteps` | csrc/proxy.cc:49-92 | Every completed iteration uses up one of the measure behind it, also an iteration that visits a finished operation and neither calls nor frees anything |
| `ProxyProgress.RoundRobin` | csrc/proxy.cc:57-82 | An unfinished operation at the head of its peer is called within its distance from the cursor plus the ring insertions plus one visits, whatever is removed or replaced meanwhile |
| `ProxyLaps.OncePerLap` | csrc/proxy.cc:53-91 | Between two arrivals at `ops` no member is visited twice, and each one in the ring throughout is visited |
| `ProxyLaps.YieldsAfterTenIdleLaps` | csrc/proxy.cc:83-91 | The thread yields only after ten laps in a row in which every visited operation reported itself idle |
| `ProxyLaps.IdleLapsAddUp` | csrc/proxy.cc:83-91 | And it does yield then: idle laps without a yield add up in `idleSpin`, which stays below ten |
| `ProxyThread.PersistentThread` | csrc/proxy.cc:32-93 | With any callbacks that make headway and no client in between, the loop on the links is a run of the machine, makes at most 2(W+N)+1 iterations and ends with `ops` null |
| `ProxyThread.Perform` | csrc/proxy.cc:27-206 | Every step of a client or of the thread that the machine can take is taken by the statements on the links, and what a client has stored for a cell it holds stays, unless the step appends that cell |
| `ProxyThread.PerformRun` | csrc/proxy.cc:27-206 | So every run, with clients in between, performed on the links from any handler, ends with links that represent the state in which the machine ends |
| `ProxyThread.PerformAll` | csrc/proxy.cc:27-206 | In particular every run from a new handler |
| `ProxyThread.AppendAfterOthers` | csrc/proxy.cc:125-173 | A client that is interrupted between storing its state and appending, by any run of other clients and the thread, appends its operation last in its queue |
| `ProxyLiveness.WaitReturns` | csrc/proxy.cc:217-221 | If every append was followed by a `ProxyStart`, then however a run without appends goes on, the thread by its own steps, and without a spurious wakeup, gets to a state with `ops` null and everything recycled, within the bound on its iterations |
| `ProxyLiveness.RunsDry` | csrc/proxy.cc:32-93 | Whatever the callbacks do, as long as they make headway, no run of the thread's own steps is longer than eight times the load plus seven, and without work than three: the thread never spins |
| `ProxyLiveness.ComesToRest` | csrc/proxy.cc:32-48 | A run of the thread's own steps that none of them extends has emptied the ring, and has ended through `stop` if that is set and sleeps in the wait if it is not |
| `ProxyLiveness.JoinReturns` | csrc/proxy.cc:200-206 | After `ProxyDestroy`, unless a `ProxyStart` follows, the thread has ended or gets by its own steps to leave through `stop`, so the join returns |
| `ProxyLiveness.AbortSoon` | csrc/proxy.cc:33-35 | A thread that is not asleep gets to return at the abort flag within one step of its own, and calls nothing before it does |
| `ProxyThread.PointersTell` | csrc/proxy.cc:217-221 | After any run a tail cell is null exactly if all its operations are recycled, and else names the last one appended; `ops` is null exactly if that holds for all tail cells |
| `SendBenchmark.SendArgs.SendBenchmark` | examples/proxy_send_recv.cc:11-38 | The statements of the callback compute the call on values |
| `SendBenchmark.CreditsConserved` | examples/proxy_send_recv.cc:22-33 | Whatever the device answers, credits are never negative and credits plus outstanding posts stay the same; every call brings the end nearer |
| `SendBenchmark.CreditLedger` | examples/proxy_send_recv.cc:18-33 | Over any calls: credits are the initial ones less the posts plus what the polls brought back, outstanding posts likewise, `iterations` counts posts and polls, and a poll brings back at most 32 |
| `SendBenchmark.PostsInTenCalls` | examples/proxy_send_recv.cc:18-37 | Ten calls or more make ten posts and polls; the posts are the initial credits plus the polled completions less the credits left over |
| `SendBenchmark.EagerPosts` | examples/proxy_send_recv.cc:22-33 | With a device that has always completed everything, ten calls post 10 - 10 / (credits + 1) times |
| `SendBenchmark.Finishes` | examples/proxy_send_recv.cc:18-37 | From Ready with `iterations` 0 it is finished after ten calls exactly if the tenth posts, and else after eleven |
| `SendBenchmark.PostsFromCredits` | examples/proxy_send_recv.cc:22-33 | All ten working calls post exactly if there were ten credits |
| `SendBenchmark.MeetsContract` | examples/proxy_send_recv.cc:11-38 | Each call needs fewer calls after it, none exactly when the state is None, and never reports itself idle |
| `SendBenchmark.SendsKeepTrack` | examples/proxy_send_recv.cc:11-38 | In any run in which every operation is a send, the work the executor counts is what the fields of the sends say; so without appends every such run drains |
| `SendBenchmark.SendsDrain` | examples/proxy_send_recv.cc:11-38 | k queued sends not called yet, after any run of sends from an empty handler, and no further appends: the thread is done with all of them within 24k iterations, whatever credits they start with, however they are spread over the peers and whatever the device answers |
| `ControllerSync.StepKeepsSync` | controller/controller.py:42-61 | Every step keeps every client in the open round or the one before, the open round's counter equal to its arrivals, and the ledger of closed rounds |
| `ControllerSync.Lockstep` | controller/controller.py:42-61 | No client has finished its k-th Barrier or session before all have begun theirs, finished counts differ by at most one, and the k-th call is in round k |
| `ControllerSync.NoneBehind` | controller/controller.py:110-138 | By positions: a client past a Barrier or session finds every other client there or beyond |
| `ControllerSync.CounterAccounting` | controller/controller.py:46-61 | A closed round's counter is n less the exits through the wait, its entry is gone exactly if all n left that way, and whoever still looks at a round finds its entry, despite the unlocked check |
| `ControllerRounds.CheckPasses` | controller/controller.py:55-56 | In any run, a client that looks at the counter without the lock is past the round, answered or about to read its session, exactly if the round is closed and nobody has left it through the wait; otherwise it waits |
| `ControllerRounds.WaitLeaves` | controller/controller.py:56-63 | A waiting client is released exactly when its round is closed, counts itself out, and is past the round |
| `ControllerRounds.LastArrivalPasses` | controller/controller.py:48-55 | The client whose arrival fills the round, if it goes straight on, never waits |
| `ControllerRounds.SkippedStays` | controller/controller.py:55-61 | Whoever passes a round without waiting leaves its counter above zero and its entries undeleted in every later state |
| `ControllerRounds.AnswerKinds` | controller/controller.py:38-161 | In any run a completed Barrier has an empty answer, a Broadcast a value or None, an RdmaSession an endpoint |
| `ControllerCasts.CleanTable` | controller/controller.py:68-73 | The marks of each client are on a prefix of the rows, so the cleanup removes exactly a prefix |
| `ControllerCasts.FindTable` | controller/controller.py:75-80 | The scan finds the row whose number is the number of Broadcasts the client has behind it |
| `ControllerCasts.MarkTable` | controller/controller.py:101-103 | Setting a mark in a posted row keeps every row's marks, value and event consistent with the clients' progress |
| `ControllerCasts.PostTable` | controller/controller.py:88-91 | The root's post and mark do so too, and set the event of that row alone |
| `ControllerCasts.JoinTable` | controller/controller.py:67-103 | A Broadcast gets the row of its own number, and waits exactly if it is not the root and the root has not posted |
| `ControllerCasts.StepKeepsCast` | controller/controller.py:65-105 | Every step that deletes no row under a held index keeps every held index on the row of its holder's Broadcast |
| `ControllerRows.EntersBroadcast` | controller/controller.py:66-103 | In any reachable state, displaced indices or not, the entry into a Broadcast removes the complete rows and no others, keeps the order, takes the first row without the client's mark or else a new last one, and changes that row only: a root posts and marks, others mark a posted row and wait for one that is not |
| `ControllerRows.RootGetsItsOwn` | controller/controller.py:88-105 | In any run a root that goes straight on gets the value it sent |
| `ControllerRows.WaitsForRow` | controller/controller.py:95-101 | In any run a waiting client is released exactly when its own row is posted, marks the row that has its index by then, and raises an exception if there is none |
| `ControllerRows.ReadsAtIndex` | controller/controller.py:105 | In any run the answer is what the row at the index holds at the read, and an exception if there is none |
| `ControllerAgreement.ReadsValue` | controller/controller.py:105 | The read after the lock is released finds the value of the reader's root |
| `ControllerAgreement.StableAgreement` | controller/controller.py:65-105 | While no row is deleted under a held index, every client's j-th Broadcast, back to back or not, has the j-th row ever created and returns the j-th root's value |
| `ControllerAgreement.StableIffNamed` | controller/controller.py:95-105 | The condition is exact: a step takes the row away from a held index if and only if it deletes rows while another client holds one |
| `ControllerAgreement.SeparatedAgreement` | controller/controller.py:38-105 | With a Barrier or session between any two Broadcasts the condition always holds, all answers are right, and at most one row is ever live |
| `ControllerSessions.Collected` | controller/controller.py:140-161 | Whoever collects finds everyone registered; there is an answer exactly if someone plays the other part |
| `ControllerSessions.OrderIsRegistered` | controller/controller.py:114-119 | The key order of a session's workers is the order in which they registered |
| `ControllerSessions.RootIsLast` | controller/controller.py:116-117 | The root entry of a session is that of the root that registered last |
| `ControllerSessions.SessionExchange` | controller/controller.py:107-161 | For all numbers of roots and workers: an answer is the endpoint of a client of the other part: a root has that of the worker that registered first, a worker that of the root that registered last |
| `ControllerSessions.WorkersGetTheRoot` | controller/controller.py:152-161 | With one root every worker gets the root's endpoint |
| `ControllerSessions.PairSwaps` | controller/controller.py:140-161 | Two participants swap endpoints |
| `ControllerSessions.CollectFails` | controller/controller.py:140-161 | The final read raises an exception exactly if nobody plays the other part |
| `ControllerProgress.RunBound` | controller/controller.py:38-161 | No run takes more than four steps per call and client |
| `ControllerProgress.SomeoneMoves` | controller/controller.py:88-103 | Whatever is blocked, the client that is furthest behind, or the one it waits for, can take a step |
| `ControllerProgress.NeverStuck` | controller/controller.py:13 | With at most ten clients and two-sided sessions, no run in which no row is deleted under a held index ends before everyone has made all calls; which schedules have other runs, `ControllerStuck.ProgressIff` says |
| `ControllerProgress.Completes` | controller/controller.py:38-161 | In a separated schedule, with at most ten clients, every run can be completed, within the bound, and then all Broadcasts have answered right |
| `ControllerLimits.OverfullStops` | controller/controller.py:13 | With more clients than threads, whatever the first call is, ten clients can come to wait for one that gets no thread |
| `ControllerStuck.IndexError` | controller/controller.py:101-105 | With two clients or more, wherever two Broadcasts in a row can be reached, in some run a handler marks or reads a row that is out of range and raises an exception |
| `ControllerStuck.RunsOut` | controller/controller.py:38-161 | Every run comes to an end where nobody can step, and a client whose handler raised an exception stays where it is |
| `ControllerStuck.PairStops` | controller/controller.py:65-105 | Such a pair of Broadcasts can leave the clients stuck, not all through and nobody able to step |
| `ControllerStuck.OneSidedStops` | controller/controller.py:140-161 | So does a session without a root or without a worker |
| `ControllerStuck.ProgressIff` | controller/controller.py:13 | For any number of clients and any schedule that is not empty: everyone is through or someone can step in every state that can be reached, exactly if there are at most ten clients, no two Broadcasts follow each other unless there is one client, and every session has a root and a worker |
| `ControllerStuck.TwiceGetsStuck` | examples/grpc_test.cc:14-20 | The smallest case: two clients and two Broadcasts of 42 without a Barrier can get stuck |
| `ControllerPacing.PacedFromStart` | controller/controller.py:38-161 | If nothing before it holds the clients up (a Barrier or session with more clients than threads, a session without a root or a worker), any Broadcast of any schedule can be reached, with any client the last to read its value, and any but its root the last to begin it |
| `ControllerLimits.Overtaken` | controller/controller.py:95-105 | At any two Broadcasts in a row that can be reached, any client can overtake any other, which then reads for the first what the overtaker put into the row of the second |
| `ControllerLimits.WrongRun` | controller/controller.py:95-105 | With two clients or more, wherever two Broadcasts in a row can be reached, whatever their roots and values, some run answers one of them with something else than its root's value |
| `ControllerLimits.WrongOnWire` | controller/controller.py:95-105 | And the number that the client receives is wrong as well, unless both roots send 0, which is also what a missing value is read as |
| `ControllerLimits.ArrivesRight` | proto/flashreduce.proto:56 | In every run without displaced indices, and so in every run of a separated or shielded schedule or of one client, the number that arrives for a Broadcast is the one its root sent, 0 included |
| `ControllerLimits.AgreementIffShielded` | controller/controller.py:65-105 | For any number of clients and any schedule: all runs agree exactly if there is one client or no two Broadcasts in a row can be reached |
| `ControllerLimits.AgreementIffSeparated` | controller/controller.py:65-105 | In particular, with two to ten clients and two-sided sessions: all runs agree exactly if no two Broadcasts follow each other |
| `ControllerLimits.TwiceGoesWrong` | examples/grpc_test.cc:14-20 | The smallest case: two clients and two Broadcasts of 42 without a Barrier; the root itself gets nothing for its first, which it receives as 0 |
| `ControllerServer.Controller.BarrierEnter` | controller/controller.py:42-53 | The statements on the fields perform the arrival |
| `ControllerServer.Controller.LeaveRound` | controller/controller.py:57-61 | The statements on the fields perform the exit |
| `ControllerServer.Controller.DeleteCompleted` | controller/controller.py:69-73 | The backward loop over the three lists deletes exactly the completed rows |
| `ControllerServer.Controller.Scan` | controller/controller.py:76-80 | The forward loop finds the first row without the rank's mark, or answers -1 |
| `ControllerServer.Controller.BroadcastEnter` | controller/controller.py:67-103 | The lock section up to its release, on the fields, is the join of the machine |
| `ControllerServer.Controller.SessionEnter` | controller/controller.py:110-130 | The statements on the fields arrive and register |
| `ControllerServer.Controller.SessionAnswer` | controller/controller.py:140-161 | The reads answer what the entry of the session says |
| `ControllerServer.Controller.Serve` | controller/controller.py:38-161 | The handlers, cut at the lock and the wait, do to the fields what the client's step does to the server, and keep one mark for each client in every row |
| `ControllerServer.ServeRun` | controller/controller.py:38-161 | A server that serves any legal run, step by step, ends with the fields, and its clients with the answers, of the machine |
| `ClockFit.Accumulate` | csrc/get_clock.cc:101-109 | The loop computes the five sums of all samples |
| `ClockFit.ErrorsSign` | csrc/get_clock.cc:71 | The squared errors of a line are zero exactly if every sample is on it |
| `ClockFit.SpreadXSign` | csrc/get_clock.cc:111 | The denominator of the slope is positive unless all x values are the same, and then it is zero |
| `ClockFit.Optimal` | csrc/get_clock.cc:111-112 | The computed line has the least squared errors of all lines, and is the only one that has |
| `ClockFit.Explained` | csrc/get_clock.cc:120-122 | r^2 is the share of the deviations of y that the line explains, lies in [0, 1], and is 1 exactly if all samples are on the line |
| `ClockFit.SampleGetCpuMhz` | csrc/get_clock.cc:101-131 | The procedure computes that line and that r^2, and returns its slope exactly if the line leaves at most a tenth of the squared deviations of y from its mean, otherwise 0, and not a number when all x are the same |

## Left out

- ProxyHeap.ProxyHandler.ProxyArgsAppend: cells are addresses and each field of `ProxyArgs` is a map from addresses, not an object of its own; aliasing of cells is captured, overlap of other C++ memory is not.
- ProxyThread.PersistentThread: the method runs the loop without clients in between; with clients in between the same sections are run by ProxyThread.PerformRun, one at a time.
- ControllerProgress.NeverStuck: is about runs in which no row is deleted under a held index. ControllerStuck.IndexError shows a failing run wherever there can be others, and ControllerStuck.ProgressIff says exactly for which schedules all runs proceed.
- ClockFit.SampleGetCpuMhz: exact reals instead of floating point, any number of samples instead of 200, and no time measurement.
- SendBenchmark.SendsDrain: assumes that posting a send succeeds, as the callback does, which ignores the return value, and that each send has an endpoint of its own.
- The abort flag is only a step by which the thread may return where the loop reads it.
- Freeing the slabs after the join in `ProxyDestroy`, and using a handler after that.
- Weak-memory effects of the unlocked read of `ops` in `ProxyWaitAllOpFinished`.
- In the controller the return of a wait and the lock section after it are one step, and so are the reads at the end of `RdmaSession`; an Event object is its number.
- Clients with different worker counts, several groups on one controller, and session ids used again: the source does not keep these apart.
- `recv_benchmark`, the `main` functions, sockets, verbs, generated protocol code and the thin RPC client.
- `controller/controller_.py`, which repeats Barrier and Broadcast and needs modules that the repository does not contain.
