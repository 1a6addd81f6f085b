# Verified model of the libdd-rc dispatch, teardown and trust protocols

This project models the parts of libdd-rc in which goroutines, Rust tasks and an untrusted
certificate cache interact, and proves what holds in every interleaving and for every input.
`dafny verify dfyconfig.toml` checks all of it.

| file | models |
|---|---|
| `InvokePool.dfy` | the Go invoke pool: queue, eight workers, timeout watchers, WaitGroup, shutdown |
| `PoolRuns.dfy` | what runs of the pool can come to |
| `NativeConnection.dfy` | the Rust `FFIConnection` under any sequence of host calls |
| `Lifecycle.dfy` | the Go guards in front of the native calls |
| `Bridge.dfy` | one connection end to end: Go `Connection`, its pool, the native connection, the I/O and dispatch tasks |
| `BridgeHistory.dfy`, `BridgeClose.dfy` | what the labels of a run say about a connection; how its Close proceeds |
| `ContextRegistry.dfy` | `X509Context` and all connections created from it |
| `Interconnect.dfy` | the Rust dispatch interconnect: two bounded queues, self-reported errors, the weak sender |
| `CertChain.dfy`, `TrustStore.dfy` | chain building, the cache, validation, fetch-and-retry |
| `Reconnect.dfy` | backoff and the client's reconnect loop |
| `EventLoop.dfy`, `Client.dfy` | the Rust connection event loop and the Go client that feeds it |

Concurrent code is a state with labelled transitions, one per atomic action (a critical section, a channel
operation, a compare-and-swap, a WaitGroup operation, the start and the end of a call). `Reaches(s, ls, t)` says
that the run `ls` leads from `s` to `t`; theorems quantify over all runs. Sequential code is a class or a method
with a loop, proved against a specification function.

What cannot be seen is a parameter or a free choice: the jitter factor, session lengths, what the cache evicts and
what it holds at each lookup, which outcome a handler has and when, which events arrive, when shutdown is signalled.
Correlation ids are only ever passed through by the code, so `Bridge.dfy` numbers payloads instead.

## Findings

- **The WaitGroup can go negative.** `enqueue` sends the job before it calls `wg.Add(1)`
  (`ffi-hosts/go/internal/libddrcffi/invokepool.go:119-120`). A worker can take, answer and release the job in
  between; Go then panics. `WaitGroupCanGoNegative` gives the run and `CrashesIff` the step that does it; by
  `CanCrashIff` it can still happen exactly as long as the pool accepts jobs. In the model a negative WaitGroup ends
  the run; every other statement is about states before that.
- **Leaked handlers can hold up shutdown.** The comment at `invokepool.go:131-134` says that a handler which ignores
  its context leaks its goroutine rather than holding up shutdown. With all eight workers leaked, a job queued behind
  them is never taken and `shutdown` waits for it. `LeakedHandlersBlockShutdown` gives the run, `ShutdownBlockedIff`
  the situation, and by `CanBlockIff` a shutdown that has begun can get there exactly if more jobs are queued and
  running than there are workers.
- **A reply slot is not always free.** The comment at `lib/rc-x509-client/src/dispatch.rs:276-279` says that bounding
  the reply queue by the request queue plus one guarantees a slot as long as replies are one to one. The request queue
  frees a slot when the host takes a request, so more than 256 dispatches can be outstanding.
  `SlotIsNotAlwaysFree` gives a run with a reply waiting, `CanWaitIffOverfull` the exact condition. `Connection.Close`
  waits for such a reply too: `CloseCanHang` gives the run, and by `CanReturnUnaidedIff` Close can return without a
  reply being consumed exactly if the queue has room for every result still to come.
- **Order.** `invokepool.go:50-52` speaks of FIFO delivery per handler. With eight workers only the order in which
  jobs are taken up is kept (`TakenInOrder`): `LaterJobAnsweredFirst` gives a run in which a later job is answered
  and an earlier one is not, and by `OvertakesIff` a job can still be overtaken by another exactly while it is
  unanswered.
- **A panic may be reported as a timeout.** `cancel` runs before the recovering closure
  (`invokepool.go:211-226`), so after a panic the watcher may win the race. `PanicReportedAsTimeout` gives the run; by
  `TimesOutEarlyIff` a handler that has ended can be reported as timed out before its deadline exactly when it
  ended in a panic.

## Model

| member | source | states |
|---|---|---|
| InvokePool.JobStepKeepsOk | ffi-hosts/go/internal/libddrcffi/invokepool.go:183-259 | each step of a job's worker, handler or watcher keeps: at most one side owns the answer, a side that lost leaves it to the owner, the watcher owns only after the deadline or a panic, a call is made once and by the owner, and only a Done gives up the job's unit of the WaitGroup |
| InvokePool.StepKeepsInv | ffi-hosts/go/internal/libddrcffi/invokepool.go:110-259 | every action of every goroutine keeps wg + owed add = queued + started and not done, an owed add only while jobs are accepted, the FIFO queue, the worker-to-job link and the shutdown order |
| InvokePool.AnsweredAtMostOnce | ffi-hosts/go/internal/libddrcffi/invokepool.go:183-259 | in every interleaving a job gets at most one sink call, and one exactly if a call was begun; a result in it is what its handler ended with in that run; a timeout implies that its deadline passed or its handler panicked in that run |
| InvokePool.StateFollowsHistory | ffi-hosts/go/internal/libddrcffi/invokepool.go:110-259 | every reachable state is what the labels of its run say: which jobs were accepted, in which order and with which id, how many were taken up, what each handler ended with, which deadlines passed, which answers were begun, handed over and released, and how far shutdown is |
| PoolRuns.AcceptsIff | ffi-hosts/go/internal/libddrcffi/invokepool.go:110-125 | a job is accepted if and only if shutdown has not begun and not 100 jobs are queued |
| PoolRuns.QueueFills | ffi-hosts/go/internal/libddrcffi/invokepool.go:110-125 | up to 100 jobs can be queued with none taken |
| PoolRuns.RaceOpenIff | ffi-hosts/go/internal/libddrcffi/invokepool.go:183-259 | a job taken up can still be answered with its handler's result if and only if the watcher has not won, and still be timed out if and only if the worker has not won |
| PoolRuns.HandlerMayEnd | ffi-hosts/go/internal/libddrcffi/invokepool.go:183-259 | a handler of a job taken up may end, with any outcome, if and only if it has not ended |
| PoolRuns.IdleWorkerSelects | ffi-hosts/go/internal/libddrcffi/invokepool.go:147-174 | a looping idle worker can take a job if and only if one is queued, and see stop if and only if it is closed, in either order |
| PoolRuns.WorkersExit | ffi-hosts/go/internal/libddrcffi/invokepool.go:147-174 | when a stopped pool has come to rest every worker has exited or is in a handler that has not returned |
| PoolRuns.PanicReportedAsTimeout | ffi-hosts/go/internal/libddrcffi/invokepool.go:211-226 | a concrete run reports a panic as a timeout with no deadline passed |
| PoolRuns.TimesOutEarlyIff | ffi-hosts/go/internal/libddrcffi/invokepool.go:183-259 | a job whose handler has ended, not yet claimed by either side and before its deadline, can be reported as timed out without the deadline passing if and only if the handler panicked |
| InvokePool.ShutdownAnswersAll | ffi-hosts/go/internal/libddrcffi/invokepool.go:127-142 | when shutdown has returned, every job ever accepted was answered exactly once, no answer call is running, and the queue is empty |
| InvokePool.SinkUntouchedAfterShutdown | ffi-hosts/go/internal/libddrcffi/invokepool.go:67-76 | whatever still runs after shutdown returned, the sink is never called again and no job is accepted |
| InvokePool.TakenInOrder | ffi-hosts/go/internal/libddrcffi/invokepool.go:147-174 | jobs are taken up in the order they were accepted |
| PoolRuns.LaterJobAnsweredFirst | ffi-hosts/go/internal/libddrcffi/invokepool.go:50-52 | a concrete run answers the second job accepted while the first is unanswered |
| PoolRuns.OvertakesIff | ffi-hosts/go/internal/libddrcffi/invokepool.go:147-174 | from any reachable state and for any two jobs, some run answers the one while the other is unanswered if and only if the other is unanswered now |
| InvokePool.ExitedWorkerMeansEmptyQueue | ffi-hosts/go/internal/libddrcffi/invokepool.go:159-174 | once any worker has exited the queue is empty and stays refused |
| PoolRuns.WaitGroupCanGoNegative | ffi-hosts/go/internal/libddrcffi/invokepool.go:118-125 | a concrete run drives the WaitGroup below zero |
| InvokePool.CrashesIff | ffi-hosts/go/internal/libddrcffi/invokepool.go:110-125 | a step drives the WaitGroup below zero if and only if it is the Done of the only job in the pool while an enqueue still owes its Add |
| PoolRuns.CanCrashIff | ffi-hosts/go/internal/libddrcffi/invokepool.go:110-125 | from any reachable state some continuation drives the WaitGroup below zero if and only if the pool still accepts jobs, so shutdown itself cannot |
| InvokePool.StoppedRunsAreBounded | ffi-hosts/go/internal/libddrcffi/invokepool.go:135-174 | once stop is closed, no run is longer than a measure of the queued jobs, jobs in flight and live workers |
| InvokePool.ShutdownBlockedIff | ffi-hosts/go/internal/libddrcffi/invokepool.go:127-142 | while shutdown waits, the pool can always move by itself, except if and only if all eight workers are in handlers and jobs are queued behind them |
| InvokePool.StuckWorkersAreInHandlers | ffi-hosts/go/internal/libddrcffi/invokepool.go:131-134 | in that situation each worker's own job has already been answered with a timeout |
| InvokePool.OneFreeWorkerSuffices | ffi-hosts/go/internal/libddrcffi/invokepool.go:127-142 | a stopped pool that can no longer move by itself has shut down if any one worker is not in a handler that has not returned, so leaked handlers on the other seven do not hold it up |
| PoolRuns.LeakedHandlersBlockShutdown | ffi-hosts/go/internal/libddrcffi/invokepool.go:131-134 | a concrete run leaves shutdown waiting with no step left: eight handlers that outlived their deadline and one job behind them |
| PoolRuns.CanBlockIff | ffi-hosts/go/internal/libddrcffi/invokepool.go:127-142 | once jobs are refused, some continuation leaves shutdown waiting that way if and only if jobs queued plus handlers running exceed eight |
| NativeConnection.EveryHostFollowsLifecycle | lib/rc-x509-ffi/src/connection.rs:742-1041 | for every sequence of host calls the events are a prefix of Init, Connected, Disconnected, Release or of Init, Release, and each call succeeds exactly when the events so far allow it and, to connect, a send callback was set |
| NativeConnection.StepKeepsTrace | lib/rc-x509-ffi/src/connection.rs:807-1041 | a call keeps the events in step with the state, and an InvalidState return changes neither |
| NativeConnection.FFIConnection.constructor | lib/rc-x509-ffi/src/connection.rs:742-762 | a new connection is in Init and has published exactly Init |
| NativeConnection.FFIConnection.SendCallback | lib/rc-x509-ffi/src/connection.rs:986-1015 | succeeds, repeatedly, if and only if nothing but Init has been published; publishes nothing |
| NativeConnection.FFIConnection.Connect | lib/rc-x509-ffi/src/connection.rs:807-897 | success takes the published events from Init to Init, Connected; a refusal changes nothing |
| NativeConnection.FFIConnection.Receive | lib/rc-x509-ffi/src/connection.rs:373-399 | an empty payload always succeeds, another if and only if Connected is the last event published |
| NativeConnection.FFIConnection.Disconnect | lib/rc-x509-ffi/src/connection.rs:942-976 | succeeds if and only if Connected is the last event published, and publishes Disconnected; otherwise the replaced state is restored and nothing changes |
| NativeConnection.FFIConnection.Release | lib/rc-x509-ffi/src/connection.rs:1029-1041 | refused without change if and only if Connected is the last event published; otherwise frees and completes one of the two lifecycles |
| Lifecycle.ConnLifecycle.TryConnect | ffi-hosts/go/internal/libddrcffi/lifecycle.go:17-26 | succeeds if and only if neither connect nor close was called before, says already connected if and only if only connect was, and a refusal changes nothing |
| Lifecycle.ConnLifecycle.TryClose | ffi-hosts/go/internal/libddrcffi/lifecycle.go:32-39 | succeeds if and only if close was not called before, and then reports whether connect was |
| Lifecycle.ConnLifecycle.TryRecv | ffi-hosts/go/internal/libddrcffi/lifecycle.go:42-50 | allowed if and only if connect and not close was called before; closed is reported if and only if close was |
| Lifecycle.AnswersAreEntitled | ffi-hosts/go/internal/libddrcffi/lifecycle.go:17-50 | in every sequence of calls each answer is decided by which calls came before it, whatever their answers |
| Lifecycle.SucceedsAtMostOnce | ffi-hosts/go/internal/libddrcffi/lifecycle.go:17-50 | connect and close succeed at most once each, nothing succeeds after a successful close, and no connect after a successful recv |
| Bridge.StepKeepsInv | ffi-hosts/go/internal/libddrcffi/connection.go:118-264 | every action of Connected, Recv, Close, the pool and both tasks keeps the relation between the Go flags, the native state, the tasks and the results owed per payload |
| Bridge.NeverFaults | ffi-hosts/go/internal/libddrcffi/connection.go:118-264 | in no interleaving does a native call return InvalidState, a dispatch result reach a connection that is not connected, a send hit the closed outgoing channel, or anything use a freed connection |
| Bridge.GoRefinesNative | ffi-hosts/go/internal/libddrcffi/connection.go:118-214 | open and not connected is Configured, open and connected is Connected, closed is freed; disconnect and free each happen at most once, in that order; the events follow the lifecycle, and Disconnected is published only after both tasks have exited |
| Bridge.SinkCallFindsConnected | lib/rc-x509-ffi/src/connection.rs:773-787 | whenever the pool begins or completes an answer, the native connection is connected and not freed, so the arm that drops results is never reached |
| Bridge.CloseAnswersEveryPayload | lib/rc-x509-ffi/src/connection.rs:1122-1229 | when Close has returned, every payload ever passed to the dispatch callback, accepted or refused, also during the teardown, has had exactly one result sent, and it was delivered if the receiver is alive |
| Bridge.AtMostOneResult | ffi-hosts/go/internal/libddrcffi/ffi.go:151-195 | at no point has a payload had two results |
| BridgeHistory.AtMostOneCallbackAfterStop | lib/rc-x509-ffi/src/connection.rs:1046-1229 | after the stop tokens are cancelled each task begins at most one more callback in any continuation, and only if it had already taken a payload |
| BridgeHistory.StateFollowsHistory | lib/rc-x509-ffi/src/connection.rs:1046-1229 | every reachable state is what the labels of its run say: each task has exited if and only if its stop was seen, its stream ended or, in turn, a reply went to a dropped receiver or a send callback failed; the flags, payloads, received payloads, disconnects and frees are those of the calls made |
| BridgeHistory.DispatchGoesOnIff | lib/rc-x509-ffi/src/connection.rs:1130-1229 | on an open connection with a live receiver another dispatch callback can be made if and only if the dispatch stream has not ended |
| BridgeHistory.SendGoesOnIff | lib/rc-x509-ffi/src/connection.rs:1046-1120 | on an open connection another send callback can be made if and only if the stream has not ended and no send callback failed |
| BridgeHistory.StreamEndEndsTasks | lib/rc-x509-ffi/src/connection.rs:1046-1229 | a concrete run leaves a connection open with both tasks gone |
| BridgeHistory.CallbackBeforeFree | ffi-hosts/go/internal/libddrcffi/connection.go:150-185 | no part of a callback runs after rc_conn_free or after the outgoing channel was closed |
| BridgeHistory.FaultsAreRecorded | ffi-hosts/go/internal/libddrcffi/connection.go:150-185 | in any state, reachable or not, a step that breaks the contract between the two sides records it |
| BridgeHistory.HostCallsAnswered | ffi-hosts/go/internal/libddrcffi/connection.go:118-214 | Connected, Recv and Close are answered whenever no Close is under way; after a Close they change nothing; Connected connects the first time, and Recv passes a payload on if and only if connected |
| BridgeHistory.LibraryMayMove | lib/rc-x509-client/src/dispatch.rs:256-281 | the client library can consume if and only if a reply is queued, report a failure itself if and only if not 256 are, and drop its receiver at any time |
| BridgeHistory.CallbacksMayFail | ffi-hosts/go/internal/libddrcffi/ffi.go:151-219 | a running send callback may fail, and a running dispatch callback may be refused for each of its reasons |
| BridgeHistory.QueueFullIff | ffi-hosts/go/internal/libddrcffi/ffi.go:186-194 | a dispatch is refused as queue full if and only if the pool refuses jobs or 100 are queued, and accepted otherwise |
| BridgeHistory.PoolRun | ffi-hosts/go/internal/libddrcffi/connection.go:89-106 | the pool of a connection only ever makes runs of the pool by itself, with the same steps on the same jobs |
| BridgeHistory.PoolRunsFreely | ffi-hosts/go/internal/libddrcffi/invokepool.go:147-259 | the pool's goroutines are held up by the connection only where an answer waits for a slot |
| BridgeHistory.AnswersAreHandlers | ffi-hosts/go/internal/libddrcffi/connection.go:216-264 | over every run of a connection a result sent is what the job's handler ended with, and a timeout follows its deadline or a panic |
| BridgeHistory.RepliesAreConserved | lib/rc-x509-client/src/dispatch.rs:200-254 | while the receiver lives, replies queued plus consumed equal results handed over, refusals answered and failures self-reported |
| BridgeHistory.NothingDeliveredAfterDrop | lib/rc-x509-ffi/src/connection.rs:773-787 | once the receiver is gone no payload is delivered any more |
| Bridge.NoCallbackAfterDisconnect | lib/rc-x509-ffi/src/connection.rs:942-976 | once the disconnect has returned, no callback runs and none ever starts |
| BridgeClose.CloseMovesOn | ffi-hosts/go/internal/libddrcffi/connection.go:150-185 | Close never deadlocks: a step that waits for nobody outside is always available, unless a result waits for a slot in the full reply queue or the pool's shutdown is stuck as characterised above |
| BridgeClose.CloseReturns | ffi-hosts/go/internal/libddrcffi/connection.go:150-185 | from Close on, with no new calls or payloads, every run is bounded by a measure of the pool, both tasks, the stages of Close and the replies queued; where no step of its own is left and the pool has not crashed, Close has returned if and only if no result waits for a slot and shutdown is not stuck |
| BridgeClose.CloseIsBounded | ffi-hosts/go/internal/libddrcffi/connection.go:150-185 | once the stop channel is closed, no run at all has more steps of the pool and the teardown than a measure of the state, whatever payloads, replies and host calls it is mixed with |
| BridgeClose.CanReturnUnaidedIff | lib/rc-x509-ffi/src/connection.rs:773-787 | a Close that has begun can return with no reply consumed and the receiver not dropped if and only if the receiver is already gone or replies queued plus results still owed, by the pool and the dispatch task, are at most 256 |
| BridgeClose.CloseCanHang | lib/rc-x509-ffi/src/connection.rs:1215-1225 | a concrete run of refused payloads with unread replies after which Close cannot return without the client library |
| ContextRegistry.StepKeepsInv | ffi-hosts/go/internal/libddrcffi/context.go:84-123 | every critical section keeps: freed exactly when past the free, registered until forgotten, everything not freed is in the snapshot being closed |
| ContextRegistry.RcFreeFindsAllFreed | ffi-hosts/go/internal/libddrcffi/context.go:84-115 | when rc_free is called every connection ever created from the context has been freed exactly once |
| ContextRegistry.FreedAtMostOnce | ffi-hosts/go/internal/libddrcffi/connection.go:150-185 | no connection is freed twice and rc_free is called at most once |
| ContextRegistry.AlreadyClosedMeansFreed | ffi-hosts/go/internal/libddrcffi/context.go:99-108 | a connection that reports itself closed to the context's Close has already been freed |
| ContextRegistry.NothingNativeAfterRcFree | ffi-hosts/go/internal/libddrcffi/connection.go:73-106 | after rc_free no connection is created or freed |
| ContextRegistry.StateFollowsHistory | ffi-hosts/go/internal/libddrcffi/context.go:84-123 | the registry is what the labels of the run say: which connections were created, begun to close, unlocked, freed and forgotten, and how often rc_free was called |
| ContextRegistry.ContextCloseReturns | ffi-hosts/go/internal/libddrcffi/context.go:84-115 | once the context's Close has begun every run is bounded, and where no step is left but users closing connections, rc_free has been called |
| ContextRegistry.PickedAtMostOnce | ffi-hosts/go/internal/libddrcffi/context.go:93-108 | the context's Close takes up no connection twice and none that was forgotten before |
| ContextRegistry.PickWaitsForLock | ffi-hosts/go/internal/libddrcffi/connection.go:150-185 | it takes up a connection if and only if no Close of it is between taking and releasing the connection lock |
| ContextRegistry.CallsAllowedIff | ffi-hosts/go/internal/libddrcffi/connection.go:73-81 | a connection can be created and the context closed if and only if it was not closed before; a connection can be closed if and only if it exists and was not |
| Interconnect.StepKeepsInv | lib/rc-x509-client/src/dispatch.rs:174-297 | every operation keeps conservation, the sender count, the capacities and the order of both queues |
| Interconnect.PublishedIsConserved | lib/rc-x509-client/src/dispatch.rs:174-195 | id by id, published = request queue + host + failed and reporting + reply queue + consumed + given up; nothing goes unreported while a responder lives; both queues deliver in order |
| Interconnect.StateFollowsHistory | lib/rc-x509-client/src/dispatch.rs:174-254 | what was published, how much was taken and consumed, and which ends are gone are what the labels of the run say |
| Interconnect.PublishRefusedIff | lib/rc-x509-client/src/dispatch.rs:174-184 | a publish is refused if and only if the task has exited or 255 requests are queued, and is queued last otherwise |
| Interconnect.RequestsQueueUp | lib/rc-x509-client/src/dispatch.rs:280-281 | any 255 dispatches published in a row are queued in order, and the next is refused |
| Interconnect.RefusedIsReportedIff | lib/rc-x509-client/src/dispatch.rs:185-192 | a refused publish is reported if and only if a responder or another report is alive |
| Interconnect.EndsMayGo | lib/rc-x509-client/src/dispatch.rs:197-254 | each end can go at any time, and exactly what it had queued is lost |
| Interconnect.EverythingGetsThrough | lib/rc-x509-client/src/dispatch.rs:174-254 | with nothing more published every run of the host answering and the library consuming is bounded, and ends with every id published consumed, lost with an end, or unreported |
| Interconnect.StrongSenders | lib/rc-x509-client/src/dispatch.rs:149-157 | strong senders are those of the connected state, the dispatch task and reports in progress, so the publisher does not keep the reply stream open |
| Interconnect.NoSenderComesBack | lib/rc-x509-client/src/dispatch.rs:185-192 | once the last strong sender is gone none returns, and an ended stream stays ended |
| Interconnect.SlotIsNotAlwaysFree | lib/rc-x509-client/src/dispatch.rs:273-281 | a run in which the host answers every dispatch at once, one to one, ends with a reply waiting for a slot |
| Interconnect.CanWaitIffOverfull | lib/rc-x509-client/src/dispatch.rs:273-281 | while the receiver and a responder live, in the task or the connected state, the host can come to wait for a slot, without more being published or consumed, if and only if more than 256 dispatches are outstanding |
| Interconnect.NoWaitWithinCapacity | lib/rc-x509-client/src/dispatch.rs:245-254 | while published exceeds consumed by at most 256, no reply waits |
| CertChain.BuildUnverifiedChainFor | lib/rc-x509-trust/src/chain/build_unverified.rs:92-148 | the loop returns what the walk specification says, whatever the cache holds at each lookup |
| CertChain.BuildCharacterised | lib/rc-x509-trust/src/chain/build_unverified.rs:103-147 | each of the three results holds if and only if the walk, described without a loop, ends that way |
| CertChain.CollectedIsPrefixOfTrail | lib/rc-x509-trust/src/chain/build_unverified.rs:103-145 | the walk is deterministic: every partial walk is a prefix of the longest, and equal to it exactly when it cannot go on |
| CertChain.BuiltChainIsLinked | lib/rc-x509-trust/src/chain/build_unverified.rs:92-148 | under any changes of the cache a returned chain is linked issuer to subject, has at most six entries, none a root's id, and ends at a configured root |
| CertChain.BuildIgnoresRootOrder | lib/rc-x509-trust/src/trust_store/root_set.rs:33-40 | permuting roots with distinct ids changes no result |
| CertChain.Find | lib/rc-x509-trust/src/trust_store/root_set.rs:33-40 | finds a root with the id if there is one |
| CertChain.FindIsFirst | lib/rc-x509-trust/src/trust_store/root_set.rs:33-40 | finds the first such root |
| CertChain.BuiltChainIsAcyclic | lib/rc-x509-trust/src/chain/build_unverified.rs:100-147 | over a fixed cache a returned chain has pairwise distinct ids, none a root's, none the cached leaf's |
| CertChain.LoopIsTooLong | lib/rc-x509-trust/src/chain/build_unverified.rs:111-121 | a walk caught in issuers that avoid the roots is reported as excessively long |
| CertChain.OffTrailChangesNothing | lib/rc-x509-trust/src/chain/build_unverified.rs:123-144 | certificates off the walk never change the result |
| CertChain.EvictionOnlyHides | lib/rc-x509-trust/src/trust_store/cache.rs:35-54 | eviction never turns a result into another, except into a missing id that was evicted |
| TrustStore.MemoryCertCache.Insert | lib/rc-x509-trust/src/trust_store/cache.rs:69-79 | stores under the certificate's own id, replacing a duplicate, minus what is evicted |
| TrustStore.MemoryCertCache.Get | lib/rc-x509-trust/src/trust_store/cache.rs:81-96 | returns the entry, and it has the id asked for, so the assertion never fires |
| TrustStore.MemoryCertCache.Remove | lib/rc-x509-trust/src/trust_store/cache.rs:98-101 | removes that entry and nothing else |
| TrustStore.Store.Add | lib/rc-x509-trust/src/trust_store/store.rs:69-81 | the batch insert equals inserting one by one |
| TrustStore.AddAllKeepsKeys | lib/rc-x509-trust/src/trust_store/store.rs:69-81 | every entry stays under its own id and comes from the batch or was there before |
| TrustStore.Store.ValidateSigner | lib/rc-x509-trust/src/trust_store/store.rs:86-115 | reports a missing leaf, or the result of building from the cached leaf over whatever the shared cache holds at each later lookup |
| TrustStore.ValidatedChainIsLinked | lib/rc-x509-trust/src/trust_store/store.rs:86-115 | however the cache changes during validation, a chain it builds leads from a certificate with the signer's id, issuer to subject, through at most six others to a configured root |
| TrustStore.AddedChainValidates | lib/rc-x509-trust/src/trust_store/store.rs:170-192 | a linked chain and its leaf, added in any order among certificates that reuse no id, validate to exactly that chain if it has at most 6 intermediates, and to excessively long if it has more |
| TrustStore.RoundMakesProgress | lib/rc-x509-trust/src/trust_store/store.rs:228-250 | fetching the id reported missing, with nothing resolved so far lost, gets validation strictly further |
| TrustStore.InsertMakesRound | lib/rc-x509-trust/src/trust_store/store.rs:228-250 | inserting any certificate with the id reported missing is such a fetch |
| TrustStore.RetriesConverge | lib/rc-x509-trust/src/trust_store/store.rs:86-115 | after seven such fetches nothing is reported missing, whatever was fetched |
| TrustStore.FetchingConverges | lib/rc-x509-trust/src/trust_store/store.rs:86-115 | from any cache, a client that inserts what a source returns for each id reported missing stops after at most seven inserts, with nothing reported missing |
| Reconnect.Backoff.Next | ffi-hosts/go/rcx509/backoff.go:44-52 | the delay is half the capped exponential base plus the random share of the other half, so between half of it and all of it, and the attempt advances |
| Reconnect.Backoff.Reset | ffi-hosts/go/rcx509/backoff.go:57-59 | the attempt count is zero again |
| Reconnect.BaseIsMonotone | ffi-hosts/go/rcx509/backoff.go:44-48 | the base never decreases between resets and never exceeds the cap |
| Reconnect.Run | ffi-hosts/go/rcx509/client.go:241-278 | every wait of the loop is the jittered base that its number of waits since the last healthy session gives |
| Reconnect.BackoffWithoutReset | ffi-hosts/go/rcx509/client.go:231-235 | any k >= 5 consecutive waits, none but possibly the first after a healthy session, take at least 15.5 + 15 (k - 5) seconds |
| Reconnect.WaitAfterAttempt | ffi-hosts/go/rcx509/client.go:258-277 | the wait is between 0.5 and 1 second first and after any session of 5 seconds or more, and otherwise in the range twice as high as before, up to 30 seconds |
| Reconnect.AttemptRateIsBounded | ffi-hosts/go/rcx509/client.go:231-235 | n turns, with sessions and resets in any pattern, take at least 17n/6 - 5 seconds |
| Reconnect.AttemptRateIsAttained | ffi-hosts/go/rcx509/client.go:270-272 | that rate is attained, by a backend whose sessions last just long enough to reset |
| EventLoop.HandleConnectionEvents | lib/rc-x509-client/src/entrypoint.rs:147-252 | for any event stream and shutdown point every actor spawned is joined once, in order, before the loop returns; a live actor is replaced if and only if the stream has two connections up at a time |
| Client.StepKeepsInv | ffi-hosts/go/rcx509/client.go:161-278 | every action of Start, Close and the run loop keeps the WaitGroup, ownership of the open connection, the cancellation and the published events in step |
| Client.OneConnectionAtATime | ffi-hosts/go/rcx509/session.go:229-248 | at most one FFI connection is open, and none when the next is created |
| Client.ContextClosedOnceAndLast | ffi-hosts/go/rcx509/client.go:193-215 | the FFI context is closed at most once, with no connection open, no run loop active and none startable |
| Client.LifecyclesAreSequential | ffi-hosts/go/rcx509/session.go:138-193 | the published events are whole connection lifecycles, one after another |
| Client.LifecyclesOneAtATime | lib/rc-x509-client/src/entrypoint.rs:159-163 | such streams never have two connections up |
| Client.WaitingLoopIsCancelled | ffi-hosts/go/rcx509/client.go:173-180 | Close never waits for a run loop it has not cancelled |
| Client.LoopEndsOnlyIfCancelled | ffi-hosts/go/rcx509/client.go:241-278 | the run loop ends only after Close cancelled it |
| Client.ClientKeepsReconnecting | ffi-hosts/go/rcx509/client.go:224-240 | as long as Close was not called, from every reachable state some continuation gets to a session over a new connection |
| Client.AttemptsAreSpaced | ffi-hosts/go/rcx509/client.go:231-278 | in every run each attempt but the first has a wait of its own before it |
| Client.ClientCanAlwaysClose | ffi-hosts/go/rcx509/client.go:188-215 | Close can be called in every reachable state, started or not, and can then close the FFI context |
| Client.NineStepsAfterCancel | ffi-hosts/go/rcx509/client.go:303-319 | a concrete run takes all nine steps after the cancel, a whole session included |
| Client.CloseReturns | ffi-hosts/go/rcx509/client.go:193-215 | once Close has cancelled the run loop at most nine steps are left in any interleaving, and where only the network can move, Close has returned or the loop is in a dial or a session that has not ended |
| Client.EventLoopOverClient | lib/rc-x509-client/src/entrypoint.rs:159-163 | fed by any run of the client, the event loop never replaces a live actor and never has two alive |

## Left out

- The invoke pool, `Connection`, `X509Context`, the interconnect and `Client` are values stepped by transitions, because several goroutines and tasks change them; pointer identity and aliasing of these objects are not captured.
- Weak memory: each atomic action takes effect at once.
- `runtime.Goexit` inside a handler, and time itself: a deadline may pass at any moment after its job started.
- Bridge.CloseAnswersEveryPayload: takes marshalling of a response to succeed and be non-empty, as `connection.go:240-257` expects.
- Reconnect.Backoff.Next: ideal reals; the truncation of `time.Duration` and floating point rounding are not modelled.
- Debug-build panics of the Rust library: the release behaviour is modelled.
- Payload contents on the outgoing, incoming and `ffi2lib` channels, the session's read worker, select loop and final drain: plumbing around the calls that are modelled.
- Signature and path verification, DER and protobuf encoding, hashing, certificate requests: library code, and `validate` itself stops after building the chain.
- The connection actor, its handshake state machine and message delegate: an arbitrary publisher and consumer here.
- Which entries the cache evicts: a free choice, since the eviction policy belongs to a library.
- Logging, metrics, HTTP options, URL parsing, hex rendering, error-code mappings: would only add easy members.
