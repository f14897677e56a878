# An asio-style RDMA library, modelled in Dafny

The repository is an asio-style RDMA library with an ibverbs backend (`ibv`), a NetworkDirect
backend (`nd`), and the benchmark, stress and ctest programs around it. This project models its
concurrent protocols and its trickiest algorithms and proves what they promise.
`dafny verify dfyconfig.toml` checks everything.

**Connector teardown** (`ConnectorModel`, `ConnectorInvariant`, `ConnectorTheorems`,
`ConnectorCodes`, `ConnectorProgress`, `ConnectorRuns`). One connector is an atomic `connect_state_`, a `peer_closed_`
latch, a read queue on the rdma_cm event channel, and the threads that race on them: connect and
accept operations, any number of `disconnect()` calls, per-operation cancellation, disconnect
watchers, rdma_cm itself, and destruction. Every atomic load, compare-exchange, store, foreign call,
arming and cancellation is one action of a labelled transition system, so the window between
publishing `connecting` and `start_op` and the window between a cancellation and `do_complete` are
there. Theorems are about every run. The documented law "whoever acts second performs the single
rdma_disconnect" is proved in both halves: never twice, and never missed, with the exact exceptions.
So are the progress of a connect and an accept, the origin of every error code, and the latch.

**Completion delivery** (`CqPoller`, `SmallSgList`, `PostPath`, `PollQueue`). The event-mode poller
with an edge-triggered reactor; the small-buffer SGE list as a class over its two arrays; the
bounded-arithmetic SGE builder; the four posting functions on their general and single-buffer paths;
the poll-mode completion queue with handlers that initiate more work while it drains.

**Benchmark window and echo server** (`Pacing`, `BandwidthWindow`, `EchoServer`). The rolling
queue-depth loop with warmup, measured window, drain and margin trim, over two clocks given as
arbitrary monotone sequences of readings; and the windowed echo server as an interleaving of atomic
steps of its callbacks on any number of threads.

**Algorithms** (`CommandLine`, `AdapterGrouping`). Windows command-line quoting against the reader
of Microsoft's "Parsing C command-line arguments"; sort-by then chunk-by as a partition by key.

## Where the code does less than its comments or the obvious law

* `ibv_op_accept.hpp:126-127` and `ibv_op_connect.hpp:150-154` say an aborted completion never
  clobbers `connected`. It does when `modify_qp`, or the opening or pre-binding that refuses an
  initiation, fails with a code that compares equal to `operation_aborted`: `CompletionOverConnected`
  says it happens exactly when one of those two calls returned it, `AbortedModifyAbandons` is a run.
* An established connection can end closed without any `rdma_disconnect` when a watcher armed
  before establishment consumes ESTABLISHED, when the drain stops on a hard error, or by the
  clobbering above. `AbandonedExactly` is the exact condition; `EarlyWatcherAbandons`,
  `FailedDrainAbandons` and `AbortedModifyAbandons` are complete runs.
* An accept or connect that completes with `operation_aborted` after its connector was destroyed
  still stores `closed` through `state_`: `LateStore` says exactly when.
* `small_sglist` loses entries when it is reused after having spilled: `List.Append` states
  the exact case, `ReuseLosesEntries` shows it. Every posting path uses a fresh list.
* The echo server may call `done_` before the last `++completed_`: `CleanFinish` says exactly when
  the count is complete, `DoneMayPrecedeLastCount` is a run. With one thread running the callbacks
  (`SerialFinish`), or once all of them have returned (`SettledFinish`), it always is.
* The command-line quoter counts backslashes in 32 bits: `RoundTrip` is an if-and-only-if over the
  arguments that survive.
* The bandwidth loop waits forever when no operation at all is planned: `RunBandwidthWindow` is
  `Blocked` exactly then. The command line of the benchmark rejects 0 iterations.
* Margin trimming works in 64-bit cycles. `MarginsExact` says exactly when a pair is judged wrongly:
  the opening plus the margin wraps, the margin exceeds the last stamp, and the pair lies past the
  wrapped bound. `WrappedMarginKeepsPair` is an instance.

## Model

| member | source | states |
|---|---|---|
| `ConnectorInvariant.Keep` | include/rdma/ibv/detail/ibv_service_connector.hpp:349-541 | every action of every party keeps the inductive invariant: the shared state agrees with the owning op's program point, ESTABLISHED is in one place, every rdma_disconnect is accounted for |
| `ConnectorInvariant.RunKeeps` | include/rdma/ibv/detail/ibv_impl_types.hpp:118-140 | the invariant holds after every run from a state that has it |
| `ConnectorTheorems.Reachable` | include/rdma/ibv/detail/ibv_service_connector.hpp:349-541 | every reachable state of a fresh connector satisfies the invariant |
| `ConnectorTheorems.RunForward` | include/rdma/ibv/detail/ibv_op_connect.hpp:84-97 | on every run the state only moves forward idle, addr_resolve, addr_route, connecting, connected, closed, and the peer_closed_ latch is never reset |
| `ConnectorTheorems.IssuedOnce` | include/rdma/ibv/detail/ibv_service_connector.hpp:448-520 | at most one resolve_addr or accept is ever issued on one connector |
| `ConnectorTheorems.OthersLeave` | include/rdma/ibv/detail/ibv_op_cm.hpp:13-40 | all another party can do to an op is cancel it while it is armed |
| `ConnectorTheorems.FateStep` | include/rdma/ibv/detail/ibv_op_accept.hpp:82-103 | the one ESTABLISHED event moves only from the channel to an op or the drain and from there to won, torn down or eaten by a watcher |
| `ConnectorTheorems.RunEaten` | include/rdma/ibv/detail/impl/ibv_op_wait_disconnect.ipp:27-43 | the event is lost to a watcher in exactly the runs in which a watcher handles ESTABLISHED |
| `ConnectorTheorems.AtMostOneDisconnect` | include/rdma/ibv/detail/ibv_service_connector.hpp:336-389 | in every run rdma_disconnect is issued at most once, and only after ESTABLISHED was delivered |
| `ConnectorTheorems.DiscsAccount` | include/rdma/ibv/detail/ibv_service_connector.hpp:367-388 | exactly one rdma_disconnect has been issued iff the op tore down, the drain did, or the disconnect() that took connected to closed has returned |
| `ConnectorTheorems.AbandonedExactly` | include/rdma/ibv/detail/ibv_service_connector.hpp:522-541 | after destruction an established connection was disconnected exactly once iff it was not eaten by a watcher, left by a failed drain, never closed, or clobbered |
| `ConnectorTheorems.RunLate` | include/rdma/ibv/detail/impl/ibv_op_wait_disconnect.ipp:17-44 | watchers armed only after ESTABLISHED was taken and dealt with never handle it, in any run |
| `ConnectorTheorems.RunPlain` | include/rdma/ibv/detail/ibv_op_accept.hpp:126-130 | unless a foreign call fails with a code equal to operation_aborted, the store on an aborted completion never overwrites connected, in any run |
| `ConnectorTheorems.RunDrained` | include/rdma/ibv/detail/impl/ibv_ops_cm.ipp:195-219 | a drain that stops on an empty channel leaves no ESTABLISHED behind |
| `ConnectorTheorems.NoneAbandoned` | include/rdma/ibv/detail/ibv_ops_cm.hpp:59-70 | if ESTABLISHED was delivered and the connector ends closed, exactly one rdma_disconnect was issued by the end of close_for_destruction, given that no watcher handled the event, the drain did not fail and no foreign call returned an aborted code |
| `ConnectorCodes.SuccessIsTrue` | include/rdma/ibv/detail/impl/ibv_op_connect.ipp:163-218 | a connect or accept reports success only if that op itself performed connecting to connected (that it can, and advances on its events, is stated by the rows of ConnectorProgress and ConnectorRuns) |
| `ConnectorCodes.RefusalIsNeutral` | include/rdma/ibv/detail/ibv_service_connector.hpp:216-241 | an initiation refused by a guard takes no step but its completion, which changes the state iff its code equals operation_aborted |
| `ConnectorCodes.CompletionOverConnected` | include/rdma/ibv/detail/ibv_op_connect.hpp:150-157 | in every run, a completion overwrites connected iff it is owned and its op was refused by a guard, or won and then failed in modify_qp, with a code equal to operation_aborted earlier in that run |
| `ConnectorCodes.ClobberNeedsAbortedCode` | include/rdma/ibv/detail/ibv_op_connect.hpp:150-157 | whenever connected was overwritten, such a code was returned earlier in the run |
| `ConnectorCodes.ClosedAborts` | include/rdma/ibv/detail/ibv_op_connect.hpp:101-106 | once the state is closed, an op in flight, even one armed after the cancel sweep, comes strictly closer to its end with each step of its own whatever the others do, ends after at most five of them, and only with operation_aborted, unless the channel itself fails it |
| `ConnectorCodes.EventAborts` | include/rdma/ibv/detail/impl/ibv_op_connect.ipp:95-218 | once the state is closed, every CM event a connect or accept op holds retires it with operation_aborted after at most two steps of its own in every interleaving, and the next of these steps is always enabled |
| `ConnectorCodes.LateStore` | include/rdma/ibv/detail/ibv_op_accept.hpp:126-130 | once the connector is destroyed only completions are left, and one still stores closed iff it is an owned connect or accept that ended with operation_aborted |
| `ConnectorCodes.WatcherIsNeutral` | include/rdma/ibv/detail/ibv_op_wait_disconnect.hpp:19-37 | no step of a watcher changes connect_state_ or the disconnect count; nothing but the two ending events moves the latch |
| `ConnectorCodes.CancelIsNeutral` | include/rdma/ibv/detail/ibv_op_cm.hpp:13-40 | cancelling one op by key changes neither the state nor the latch nor the disconnect count |
| `ConnectorCodes.LevelTriggered` | include/rdma/ibv/detail/ibv_service_connector.hpp:391-427 | a wait begun after the latch was set or the connector closed is never armed and completes with disconnected in every continuation |
| `ConnectorCodes.FlushAfterPeerClosed` | include/rdma/ibv/detail/ibv_service_connector.hpp:377-384 | from every reachable connected state, latched or not and whatever the reactor is performing, the reactor lets go and disconnect() run through issues the one rdma_disconnect and leaves closed |
| `ConnectorCodes.DisconnectReturns` | include/rdma/ibv/detail/ibv_service_connector.hpp:336-389 | in every run, a disconnect() that has returned finds the connector closed, and the one that took connected to closed has issued the one rdma_disconnect |
| `ConnectorCodes.DisconnectRuns` | include/rdma/ibv/detail/ibv_service_connector.hpp:349-389 | the uninterrupted call from a started state leads to exactly this state: closed, every queued op cancelled, rdma_disconnect next iff it was connected |
| `ConnectorProgress.EventAdvances` | include/rdma/ibv/detail/impl/ibv_op_connect.ipp:95-190 | an op that holds the event of its stage in a connector nobody closed advances: addr_route and QP creation, connecting and rdma_connect, connected as the winner |
| `ConnectorProgress.EventFailsOp` | include/rdma/ibv/detail/impl/ibv_op_connect.ipp:119-217 | any other event makes a connect or accept claim closed with the error that event stands for |
| `ConnectorProgress.ErrorsAreTold` | include/rdma/ibv/detail/impl/ibv_op_connect.ipp:68-218 | in every run, a connect or accept that ends with an error other than operation_aborted met exactly that error: a refusing guard, a failed call of its own, or an event it was not waiting for |
| `ConnectorProgress.MetIsReported` | include/rdma/ibv/detail/impl/ibv_op_connect.ipp:68-218 | the converse: an error a connect or accept met is the one it reports in every continuation, unless it was aborted |
| `ConnectorProgress.ClaimsAreCaused` | include/rdma/ibv/detail/ibv_op_accept.hpp:57-71 | in every run, an op that claims closed, or is about to store closed, has met such an error before |
| `ConnectorProgress.RunResolves` | include/rdma/ibv/detail/ibv_op_accept.hpp:59-71 | from there on, in every continuation, it reports that error or operation_aborted, and the connector is closed by then |
| `ConnectorProgress.FailureCloses` | include/rdma/ibv/detail/ibv_service_connector.hpp:448-520 | in every run, a connect or accept that failed before winning leaves the connector closed, unless the event channel itself failed it |
| `ConnectorProgress.AbortCloses` | include/rdma/ibv/detail/ibv_op_accept.hpp:126-130 | an owned completion of a connect or accept with operation_aborted leaves the connector closed |
| `ConnectorProgress.RunFinished` | include/rdma/ibv/detail/ibv_op_connect.hpp:144-177 | a code once decided is the code reported, in every continuation |
| `ConnectorProgress.WatcherAnswers` | include/rdma/ibv/detail/impl/ibv_op_wait_disconnect.ipp:27-43 | a peer disconnect and a device removal latch peer_closed_ and retire the watcher with disconnected and device_removed; any other event leaves it armed |
| `ConnectorProgress.RunLatched` | include/rdma/ibv/detail/ibv_op_wait_disconnect.hpp:19-37 | peer_closed_ is set in exactly the runs in which a watcher took one of the two events |
| `ConnectorProgress.PeerCloseLasts` | include/rdma/ibv/detail/ibv_service_connector.hpp:391-411 | after that, every wait begun later completes with disconnected without being armed, whatever happens in between and after |
| `ConnectorProgress.RunWarranted` | include/rdma/ibv/detail/ibv_service_connector.hpp:391-411 | a wait reports disconnected only if the latch is set or the connector closed, and device_removed only if the latch is set, unless the channel itself returned the code |
| `ConnectorProgress.CancelRetires` | include/rdma/ibv/detail/ibv_op_cm.hpp:13-40 | an op cancelled by key is retired with operation_aborted and off the queue; the others stay as they were, in order |
| `ConnectorProgress.SweepRetires` | include/rdma/ibv/detail/ibv_service_connector.hpp:373-382 | disconnect() empties the queue and retires every queued op with operation_aborted, and touches no other |
| `ConnectorProgress.RunChannel` | include/rdma/ibv/detail/impl/ibv_op_cm.ipp:10-17 | CM events are taken in the order they were reported, each once, by an op or the drain |
| `ConnectorRuns.ConnectSucceeds` | include/rdma/ibv/detail/impl/ibv_op_connect.ipp:95-200 | from every reachable idle connector with nothing queued, a connect whose calls succeed and whose events arrive ends connected and reports success |
| `ConnectorRuns.AcceptSucceeds` | include/rdma/ibv/detail/ibv_op_accept.hpp:83-102 | the same of an accept |
| `ConnectorRuns.EarlyWatcherAbandons` | include/rdma/ibv/detail/impl/ibv_op_wait_disconnect.ipp:40-43 | a complete run: a watcher armed before the accept eats ESTABLISHED and no rdma_disconnect is ever issued |
| `ConnectorRuns.AbortedModifyAbandons` | include/rdma/ibv/detail/ibv_op_accept.hpp:94-130 | a complete run: modify_qp fails with operation_aborted, the completion overwrites connected, no rdma_disconnect is issued |
| `ConnectorRuns.FailedDrainAbandons` | include/rdma/ibv/detail/impl/ibv_ops_cm.ipp:207-211 | a complete run: disconnect() cancels the accept, it completes, ESTABLISHED arrives, and the destructor's drain stops on a hard error before it; no rdma_disconnect is issued |
| `ConnectorRuns.CleanDrainQualifies` | include/rdma/ibv/detail/ibv_service_connector.hpp:527-532 | the same race with a drain that runs to the end meets every proviso of the no-abandonment law, and the drain issues the one rdma_disconnect |
| `CqPoller.NoLostWakeup` | include/rdma/ibv/detail/ibv_service_io_completion.hpp:28-41 | in every run there is exactly one poller iff ensure_poller_started was called, and if it waits while the CQ is non-empty an event and its readiness report are pending |
| `CqPoller.RunStarts` | include/rdma/ibv/detail/impl/ibv_service_io_completion.ipp:66-74 | the poller is started in exactly the runs in which someone called ensure_poller_started |
| `CqPoller.DispatchedInOrder` | include/rdma/ibv/detail/impl/ibv_service_io_completion.ipp:105-161 | every completion that arrived is dispatched, pending in the poller's queue or in the CQ, once, in arrival order |
| `CqPoller.AloneProgresses` | include/rdma/ibv/detail/impl/ibv_service_io_completion.ipp:76-95 | a poller that is not idle always has a step of its own that gets closer to an empty CQ, bounded batches and stale events included |
| `CqPoller.PollToIdle` | include/rdma/ibv/detail/impl/ibv_service_io_completion.ipp:125-161 | without further arrivals the poller's own steps bring every arrived completion to its handler and end idle |
| `CqPoller.EnsuredDispatches` | include/rdma/ibv/detail/impl/ibv_service_io_completion.ipp:66-161 | after any run with a call of ensure_poller_started, the poller's own steps lead to a state in which everything that arrived is dispatched |
| `SmallSgList.List.Reserve` | include/rdma/detail/small_sglist.hpp:38-53 | contents and storage kind are unchanged; a larger block, if needed, holds a copy |
| `SmallSgList.List.Append` | include/rdma/detail/small_sglist.hpp:74-89 | contents gain the element, except exactly when a full inline array hides an allocated block; growth from fresh keeps the copy bound |
| `SmallSgList.FillFresh` | include/rdma/detail/small_sglist.hpp:38-89 | from a fresh list n appends leave exactly what was written, nothing allocated up to 8, fewer than 2n copies, heap used iff n exceeds 8 (n at least 1) |
| `SmallSgList.ReuseLosesEntries` | include/rdma/detail/small_sglist.hpp:77-86 | a spilled list, cleared and refilled with nine ones, reads back eight stale zeros |
| `PostPath.BuildNativeSglist` | include/rdma/ibv/ibv_buffer.hpp:25-61 | the flags, count, total and all_empty are those of the verdict of the earliest bad index; on a fresh list the SGEs are the buffers before it, spilled iff more than 8 |
| `PostPath.JudgedOnce` | include/rdma/ibv/ibv_buffer.hpp:36-50 | a buffer sequence has one verdict: too many entries, too large, or fits |
| `PostPath.FitsIsLossless` | include/rdma/ibv/ibv_buffer.hpp:33-55 | where it fits, every 32-bit length is exact, the total is at most 2^32-1, and the count respects the limit |
| `PostPath.PostSequence` | include/rdma/ibv/detail/ibv_service_verbs.hpp:203-360 | general path of all four verbs: route, code, posted bytes and SGEs are the declared answer for the sequence |
| `PostPath.PostSingle` | include/rdma/ibv/detail/ibv_service_verbs.hpp:203-360 | fast path: gives the declared answer for the one-element sequence |
| `PostPath.OneAnswer` | include/rdma/ibv/detail/ibv_service_verbs.hpp:181-360 | the answer is unique, so fast and general path agree on route, code, byte count and SGEs for every verb, buffer and limit |
| `PostPath.AnswerSays` | include/rdma/ibv/detail/ibv_service_verbs.hpp:181-360 | the answer outright: the first bad buffer is refused for its position past the verb's own limit or for its size, all-empty buffers succeed at once, anything else is handed over exactly and ends as the hardware says, sends and writes counting their bytes |
| `PostPath.ImmediateReportsNothing` | include/rdma/detail/rdma_op_send.hpp:37-44 | an op on the immediate route reports 0 bytes |
| `PollQueue.PollCq.Initiate` | include/rdma/ibv/detail/ibv_service_verbs.hpp:76-124 | an initiation adds one op in hardware or ready queue as its answer says, and fires no handler |
| `PollQueue.PlacedHolds` | include/rdma/ibv/detail/ibv_service_verbs.hpp:361-369 | placing a new op keeps every op in exactly one place |
| `PollQueue.FiredWcHolds` | include/rdma/ibv/detail/impl/ibv_op_complete.ipp:24-43 | dispatching a work completion moves its op to fired and tells the truth about it: success iff it succeeded, operation_aborted for a flush, connection_reset otherwise, no bytes on failure, byte_len for a receive or read, all posted bytes for a send or write |
| `PollQueue.PollCq.DrainReady` | include/rdma/ibv/impl/ibv_completion_queue.ipp:102-117 | completes exactly the ops queued on entry, in order, with their code and 0 bytes, whatever handlers push; what remains was initiated since |
| `PollQueue.PollCq.Dispatch` | include/rdma/ibv/impl/ibv_completion_queue.ipp:93-98 | one handler call per work completion of the batch, in order, told its code and byte count as above, while handlers initiate more |
| `PollQueue.PollCq.ReapAll` | include/rdma/ibv/impl/ibv_completion_queue.ipp:43-57 | the polling loop: every call but the last takes an entry, the last fails, sees nothing or finds the CQ empty; reports follow the CQ from its front |
| `PollQueue.PollCq.Poll` | include/rdma/ibv/impl/ibv_completion_queue.ipp:40-59 | fires the ready ops of entry, then CQ entries in order from the front, never an op pushed meanwhile, and returns their number; polling stops only at a call that failed, saw nothing or found the CQ empty, failed tells which, and entries the calls see are all reported |
| `PollQueue.PollCq.PollOne` | include/rdma/ibv/impl/ibv_completion_queue.ipp:70-87 | fires at most one handler, a ready op first, else the oldest CQ entry; fails iff nothing is ready and the poll fails |
| `PollQueue.OnePlace` | include/rdma/ibv/ibv_completion_queue.hpp:58-69 | conservation: each initiated op is in exactly one of hardware, completions, ready queue, fired |
| `PollQueue.FiresOnce` | include/rdma/ibv/impl/ibv_completion_queue.ipp:100-117 | no op's handler fires twice, even in the middle of a drain or a batch |
| `PollQueue.QuietMeansAllFired` | include/rdma/ibv/ibv_completion_queue.hpp:22-29 | with nothing ready, posted or completed, every initiated op's handler has fired |
| `Pacing.OnePerSlot` | tests/benchmark/rdma_perftest_engine.hpp:51-67 | in a paced log every wait is on a slot holding exactly one outstanding op and every post on a free slot |
| `Pacing.NextSlots` | tests/benchmark/rdma_perftest_engine.hpp:54-67 | the occupancy of the next slot to post to and of the next to wait on follows from the round robin |
| `BandwidthWindow.WindowController.NotePost` | tests/benchmark/rdma_bench_common.hpp:521-526 | counts, sorted stamps, window opening and post-before-completion order are kept; a stamp, the latest cycle reading, is added iff past warmup |
| `BandwidthWindow.WindowController.NoteCompleteBw` | tests/benchmark/rdma_bench_common.hpp:527-535 | the same for completions, and stamps of one op stay ordered |
| `BandwidthWindow.WindowController.BwArrays` | tests/benchmark/rdma_bench_common.hpp:608-624 | margin trimming keeps exactly the pairs within the bounds, as one contiguous aligned slice; everything outside duration mode |
| `BandwidthWindow.MarginsExact` | tests/benchmark/rdma_bench_common.hpp:616-621 | for stamps after the opening, the 64-bit bounds judge a pair as intended iff opening plus margin fits, or the margin is at most the last stamp, or the pair precedes the wrapped bound |
| `BandwidthWindow.TrimmedExactly` | tests/benchmark/rdma_bench_common.hpp:616-623 | in every state the loop leads to, the stamps satisfy what that takes, so trimming keeps exactly the pairs clear of the margins outside the doubly wrapped case |
| `BandwidthWindow.WrappedMarginKeepsPair` | tests/benchmark/rdma_bench_common.hpp:616-618 | a concrete wrap that keeps a pair it should trim |
| `BandwidthWindow.Units` | tests/benchmark/rdma_bench_common.hpp:586-616 | whole seconds of margin on a clock of whole megahertz are that many million cycles, and of duration that many thousand million nanoseconds |
| `BandwidthWindow.Prime` | tests/benchmark/rdma_perftest_engine.hpp:16-23 | primes a full queue, or all that is planned, one op per slot |
| `BandwidthWindow.Turn` | tests/benchmark/rdma_perftest_engine.hpp:55-60 | one turn waits on the oldest op, reposts its slot, and restores the full queue or finds the deadline passed |
| `BandwidthWindow.Roll` | tests/benchmark/rdma_perftest_engine.hpp:54-61 | the loop terminates; it blocks iff nothing is planned, else ends with the window open and, in iterations mode, everything posted and completed |
| `BandwidthWindow.RunBandwidthWindow` | tests/benchmark/rdma_perftest_engine.hpp:34-75 | the whole run is paced over at most `slots` ops with k-th post and wait on slot k mod slots, the queue full at every wait before the drain; posted equals completed, and warmup plus iterations in iterations mode; the reported stamps are those of the measured ops, or with a margin exactly the ops within it of opening and last completion; in duration mode the deadline after the opening has passed; the measured ops are all waited for before the drain but the warmup; the window opens once |
| `EchoServer.PickWindow` | tests/stress/rdma/shared_cq.cpp:34-39 | the window never exceeds the budget, is at least 2 iff the budget is, and below the budget is the queue depth or 2 |
| `EchoServer.RunKeeps` | tests/stress/rdma/shared_cq.cpp:78-125 | the credit invariant (posted, echoed, re-post credits, completions, finish) survives every interleaving |
| `EchoServer.ServerIsSafe` | tests/stress/rdma/shared_cq.cpp:114-125 | in every interleaving at most target receives are posted, the over-budget branch is unreachable, done_ runs at most once |
| `EchoServer.CleanFinish` | tests/stress/rdma/shared_cq.cpp:117-120 | after a clean finish exactly target echoes were made, and completed_ is target iff no callback stands between its two increments |
| `EchoServer.EchoesAreEarned` | tests/stress/rdma/shared_cq.cpp:104-117 | in every interleaving there are no more echoes than successful sends nor than successful receives, so a clean finish took target of each |
| `EchoServer.FailureIsNoticed` | tests/stress/rdma/shared_cq.cpp:104-116 | after a failed completion, once all callbacks have returned, the server has finished and called done_ once |
| `EchoServer.ErrorsAreReal` | tests/stress/rdma/shared_cq.cpp:78-83 | an error is counted only if some completion failed |
| `EchoServer.ServerEnds` | tests/stress/rdma/shared_cq.cpp:114-125 | once nothing is outstanding and all callbacks have returned, done_ has been called exactly once (for a budget of at least 1) |
| `EchoServer.SettledFinish` | tests/stress/rdma/shared_cq.cpp:114-125 | once every callback has returned, a clean finish has completed_ equal to target |
| `EchoServer.SerialFinish` | tests/stress/rdma/shared_cq.cpp:114-125 | with callbacks that do not interleave, a clean finish has completed_ equal to target from the call of done_ on |
| `EchoServer.NeverRunsDry` | tests/stress/rdma/shared_cq.cpp:121-124 | while echoes remain and nobody finished, some receive or send is outstanding or its callback running |
| `EchoServer.DoneMayPrecedeLastCount` | tests/stress/rdma/shared_cq.cpp:117-120 | a run of two slots where done_ is called with completed_ one short |
| `CommandLine.QuoteWindowsArg` | tests/ctest/rdma_ctest_runner.cpp:289-312 | the quoting loop produces the quoted form, 32-bit backslash counter included |
| `CommandLine.MakeWindowsCommandLine` | tests/ctest/rdma_ctest_runner.cpp:314-322 | the command line is the quoted arguments joined by single blanks |
| `CommandLine.ReadsBack` | tests/ctest/rdma_ctest_runner.cpp:289-322 | for every argument list, parsing the line returns each argument, shortened only in overlong runs of backslashes |
| `CommandLine.RoundTrip` | tests/ctest/rdma_ctest_runner.cpp:289-322 | for every list of NUL-free strings, parsing returns the original list iff no quoted argument has a run of 2^31 backslashes before a quote or at its end, or 2^32 elsewhere |
| `CommandLine.ShortFits` | tests/ctest/rdma_ctest_runner.cpp:295-309 | every argument shorter than 2^31 characters survives the round trip |
| `AdapterGrouping.ChunkBy` | include/rdma/nd/detail/nd_device_impl.hpp:109-138 | the chunks concatenate to the input, are non-empty, related inside and unrelated at every cut |
| `AdapterGrouping.ChunkingUnique` | include/rdma/nd/detail/nd_device_impl.hpp:109-138 | the input and the relation determine the chunks |
| `AdapterGrouping.GroupsByKey` | include/rdma/nd/detail/nd_device_impl.hpp:100-138 | sorted by key and chunked by key equality, the chunks are a permutation of the input, none is empty, and two elements share a chunk iff their keys are equal |

## Left out

- The connector, the event-mode poller and the echo server are state machines on values, not classes: their interleavings are the subject, and an object with sequential methods would hide them.
- Memory ordering: atomics are sequentially consistent steps.
- Object lifetime: an op that outlives its connector, an op freed by a poller while its initiator still reads it, and moving a connector with an op in flight.
- The nd connector: nd_op_accept.hpp stores `connected` unconditionally and nd_op_connect.hpp stores `closed` on any error, so the forward-only and guard-neutral laws are not that code's.
- Serialized initiations and ESTABLISHED at most once per cm_id are assumptions on the caller and on rdma_cm, built into `Enabled`.
- Private data, reply copying, timeouts and connection parameters of connect and accept; a wait on a connector that is not open.
- Error codes of foreign calls are arbitrary values; only equality with success and with operation_aborted is kept.
- Failures of ibv_req_notify_cq and ibv_poll_cq in event mode, work completions without an op, and shutdown of the poller.
- Polling from inside a handler, and two threads polling one queue.
- PollQueue.PollCq.Poll: the results of successive ibv_poll_cq calls are given as a finite list, because a poll that keeps finding completions need not return.
- `small_sglist::resize`, and allocation failure.
- ConnectorCodes.ClosedAborts: excludes a hard error from the event channel, which retires the op with that error whatever the state.
- BandwidthWindow.RunBandwidthWindow: `posted` and `completed` do not wrap at 2^64 in duration mode, `post` and `wait` are log entries, and neither throws.
- ConnectorRuns.ConnectSucceeds: needs an empty event queue and read queue; a watcher armed before the connect takes its events, as in `EarlyWatcherAbandons`.
- EchoServer.ServerEnds: for a budget of 0 `begin()` posts nothing and `done_` is never called; the command line rejects 0 iterations.
- The latency loop, floating-point reporting, CPU metrics beyond the count of snapshots, JSON, CLI parsing.
- BandwidthWindow.WindowController.BwArrays: a margin of 2^64 cycles or more is reduced modulo 2^64, where the source's conversion is undefined.
- `start()` of the echo server before `begin()`, the client side, and 2^64 wrap of its counters.
- The program-name rule for argv[0] of the Microsoft reader, and code pages.
- The library sort of sort_by is any stable or unstable reordering that is sorted by key; what happens to a chunk after grouping is not modelled.
- Device discovery, configuration derivation, listeners, memory regions and handler allocation: mostly foreign calls or easy members.
