# A verified model of the grpcgcp library

`grpcgcp` puts a pool of gRPC subconnections behind one channel, binds affinity keys to subconnections, refreshes
unresponsive ones, and fails over between named lists of endpoints. This project models its stateful pieces and
proves what every run of them keeps.

| piece | value and steps | proofs about all runs | the objects, updated in place |
|---|---|---|---|
| channel pool: `gcp_balancer.go`, `gcp_picker.go` | `PoolSpec` | `PoolIndex`, `PoolPublication`, `PoolRefs`, `PoolBackoff`, `PoolPending`, `PoolCounters`, `PoolEffects`, `PoolFallback`, `PoolLookups`, `PoolSize`, `PoolPicks`, `PoolRoundRobin`, `PoolWait`, `PoolConfig`, `PoolLimits`, `PoolFailures` (from the runs in `PoolStages` and `PoolReach`) | `GcpBalancer`, `GcpPicker` (with `PoolSound`), whose calls are runs by `GcpSteps` and have the outcomes of `GcpCalls` |
| method table: `gcp_balancer.go` | `MethodTable` | `MethodTable` | the loop in `MethodTable` |
| affinity keys: `gcp_picker.go` | `AffinityKeys` | `AffinityKeys` | the loop in `AffinityKeys` |
| one list of endpoints: `multiendpoint.go` | `FailoverSpec` | `FailoverProofs`, `FailoverTheorems`, `FailoverRecovery`, `FailoverLimits` | `MultiEndpoint` |
| many named lists: `gcp_multiendpoint.go` | `GcpMultiEndpoint` | `GcpMultiEndpoint` | `GcpMultiEndpoint` |
| lazy client stream: `gcp_interceptor.go` | `ClientStream` | `ClientStream` | `ClientStream` |

Each piece is a state machine. A step is one method that the source runs under a mutex, or one atomic update; timers
that fire, callbacks that run late, and picks that are split between a size check and a creation are steps of their own.
A `Run` is any finite sequence of enabled steps, so a lemma about `run.Final()` speaks of every reachable state. The
classes have the fields of the source's structs and their loops, and every method is proved to take the object's value to the
value that the machine's function of the same name computes. `GcpBalancer` keeps that value in the ghost field
`pool`, tied to the real fields by `Valid()`.

Time is a number that never decreases, `cc.NewSubConn` hands out the next number as a fresh handle, and a parameter `ok`
says whether a creation succeeds.

Where the code and its documentation disagree, the model follows the code:

- `grpc_gcp.proto` (lines 29-37) says that calls go to existing channels until all of them are at the watermark, that then
  a new channel is spun out, that calls hang once `max_size` channels are at the watermark, and that `max_size` 0 means
  an unlimited pool. The code looks at the ready channels only, adds none while another is idle or connecting
  (gcp_balancer.go:322-328), takes the least busy ref of a full pool (gcp_picker.go:214-216), and replaces 0 by 4
  (gcp_balancer.go:245-247). `PoolConfig.PickIsDocumentedIff` says exactly which picks are as documented,
  `PoolConfig.LimitIsKeptIff` which limits are. Every configuration has runs to a pick that is not:
  `PoolFailures.UnlimitedIsLimited` and `PoolFailures.FullDoesNotHang`; `PoolFailures.GrowthCanStall` is another.
- `grpc_gcp.proto` (lines 43-45) says that a watermark outside 1 to 100 is ignored; the code ignores 0 only
  (`PoolConfig.WatermarkIsDocumentedIff`).
- `grpc_gcp.proto` (lines 98-100) says that the first matching configuration of a method takes precedence and that patterns
  match; in the code the last one decides, by name only (gcp_balancer.go:253-261). `MethodTable.PrecedenceIsDocumentedIff`
  is the exact condition; `MethodTable.FirstIsNotLast` and `MethodTable.PatternsAreNotMatched` are lists that fail.
- `multiendpoint.go` describes current as the best available endpoint. With a delay of zero it is; with any other delay there are
  runs in which it stays on a worse one although no switch is outstanding (`FailoverLimits.SettlesOnBestIff`).

A refresh that cannot create its replacement marks the ref for good: it is never refreshed again
(`PoolPending.StuckForGood`). A refresh does not rewrite the affinity map: a key stays mapped to the replaced subconnection, after which unbinding it
dereferences nil (`PoolLimits.UnbindAfterRefreshCrashes`; `PoolCounters.CrashesOnlyOnDeadHandles` says exactly when a
command does, `PoolLimits.AffinityOutlivesRunsIff` which configurations have such runs). With the fallback to ready
subconnections, and only with it (`PoolFailures.LookupsFailIff`), a lookup can fail: it takes another picker for a
gcpPicker, indexes an empty slice, or takes a mutex that its own goroutine holds. Such a lookup is made by a pick on a
picker that has been replaced since. An update of the addresses locks up once all subconnections are shut down, which
can happen to every pool (`PoolReach.EveryPoolCanBeEmptied`). `PoolFallback.LookupOutcome` and
`GcpBalancers.GcpBalancer.UpdateClientConnState` are the exact conditions.

## Model

| member | source | states |
|---|---|---|
| PoolPublication.PublicationIsCurrent | grpcgcp/gcp_balancer.go:441-549 | in every reachable state the last published state and picker are what recomputing them from all subconns would give: the aggregate, and either exactly the ready refs, each once, or the error picker exactly on TransientFailure; before the first publication none is ready and the state is Idle or Connecting |
| PoolPublication.CountersAreExact | grpcgcp/gcp_balancer.go:126-151 | the three wrap-around uint64 counters are the numbers of live subconns in each state, through replacement and shutdown |
| PoolPublication.CountersNeverUnderflow | grpcgcp/gcp_balancer.go:130-142 | adding 2^64 - 1 never takes a counter below zero: the counter of a live subconn's state is positive |
| PoolPublication.IndexesAgree | grpcgcp/gcp_balancer.go:457-573 | scRefs and scStates have the same keys, refs point back to theirs, a ref has at most one pending replacement, and pending handles are not live |
| PoolPublication.ListedOnce | grpcgcp/gcp_balancer.go:333-350 | every live ref is in scRefList exactly once |
| PoolIndex.ActionKeepsIndex | grpcgcp/gcp_balancer.go:267-573 | every step keeps the maps, the list and the pending replacements consistent |
| PoolPublication.ActionKeepsSteady | grpcgcp/gcp_balancer.go:437-549 | every step keeps counters and publication in line with the states, although only some steps publish |
| PoolBackoff.WindowDoublesIff | grpcgcp/gcp_picker.go:124-127 | the window is ms * 2^r exactly if that fits a uint32, and zero from r = 32 on |
| PoolBackoff.RefreshesAreEarned | grpcgcp/gcp_picker.go:129-151 | every refresh of a run came after at least UnresponsiveCalls timeouts of calls started no earlier than the last response or replacement, and after more than the window of the refreshes since the last response |
| PoolBackoff.RefreshesBackOff | grpcgcp/gcp_picker.go:124-151 | n refreshes without a response in between take more than ms * (2^n - 1) milliseconds while the windows fit a uint32; twice as long if a replacement was pending at the last response |
| PoolBackoff.EarnedRefreshHappens | grpcgcp/gcp_picker.go:129-151 | the converse: when a call that started no earlier than the last response or replacement times out on a ref that is not being refreshed, the ref is refreshed exactly if enough calls have timed out since and it has been silent for more than ms * 2^n milliseconds, n being the refreshes since the last response (while those fit; the wrap-around condition is given as well) |
| PoolPending.PendingIsExact | grpcgcp/gcp_balancer.go:553-573 | in every run a ref has a handle that is not in use yet exactly if that one is its pending replacement |
| PoolPending.ReplacementStaysPending | grpcgcp/gcp_balancer.go:457-485 | in every part of every run a pending replacement stays pending for its ref until it is reported ready, and with that report it serves the ref, which may be refreshed again |
| PoolPending.RefreshAsks | grpcgcp/gcp_balancer.go:553-573 | a refresh makes the subconn it creates the pending replacement; if it creates none, the ref is stuck |
| PoolPending.StuckForGood | grpcgcp/gcp_balancer.go:553-573 | a stuck ref keeps its subconn and its mark in every run |
| PoolBackoff.ActionIsNoted | grpcgcp/gcp_balancer.go:471-485 | lastResp, deCalls, refreshing and refreshCnt of a ref reflect what an observer of the run has seen: responses, timeouts, refreshes and replacements |
| PoolCounters.CountsAreConserved | grpcgcp/gcp_picker.go:93-118 | streamsCnt is the number of calls whose Done has not run, across pickers and replacement; affinityCnt is at least the number of keys mapped to the ref's subconn |
| PoolCounters.DoneFindsItsStream | grpcgcp/gcp_picker.go:95-96 | a call that is done decrements a positive count |
| PoolEffects.CallsBegan | grpcgcp/gcp_picker.go:153-173 | every call under way was begun by a pick, on its ref and at the time it remembers, and its Done has not run |
| PoolEffects.ActionOnAffinity | grpcgcp/gcp_balancer.go:415-435 | the affinity count of a ref goes up with each bind to its live subconn, down with each unbinding of a key bound to it, and with nothing else |
| PoolCounters.CrashesOnlyOnDeadHandles | grpcgcp/gcp_balancer.go:415-435 | binding succeeds exactly for live subconns, unbinding exactly for keys that are unbound or bound to live ones |
| PoolCounters.AffinityIsSticky | grpcgcp/gcp_balancer.go:415-435 | a bound key stays bound to its first subconn across every step until it is unbound; a key that is not bound becomes so by a bind, to the live subconn it names, and by nothing else |
| PoolLimits.UnbindAfterRefreshCrashes | grpcgcp/gcp_balancer.go:471-485 | for every configuration that detects unresponsive connections: a run without shutdowns after which a ref is ready and unbinding its key dereferences nil |
| PoolLimits.AffinityOutlivesRunsIff | grpcgcp/gcp_balancer.go:471-485 | without shutdowns, the subconn of every bound key stays live in all runs of a configuration exactly if it does not detect unresponsive connections |
| PoolFailures.LookupCanFindErrorPicker | grpcgcp/gcp_balancer.go:368 | for every configuration with fallback: a run that loses all subconns, after which a lookup takes the error picker for a gcpPicker |
| PoolFailures.LookupCanFindEmptyPicker | grpcgcp/gcp_picker.go:190 | for every configuration with fallback: a run whose only ready subconn reconnects, after which a lookup indexes an empty slice |
| PoolFailures.LookupCanDeadlock | grpcgcp/gcp_balancer.go:308-311 | for every configuration with fallback: a run after which a lookup, which holds gb.mu, asks for the size of the pool under gb.mu |
| PoolFailures.LookupsFailIff | grpcgcp/gcp_balancer.go:364-372 | lookups panic in some run of a configuration, and deadlock in some run of it, exactly if it asks for fallback |
| PoolReach.EveryPoolCanBeEmptied | grpcgcp/gcp_balancer.go:506-509 | whatever a balancer has done, it can go on to a state without subconns |
| PoolFailures.PoolCanBeEmptied | grpcgcp/gcp_balancer.go:289-292 | for every configuration: a run that leaves a configured balancer without subconns, whose next update locks up |
| PoolConfig.ConfigIsAsked | grpcgcp/gcp_balancer.go:226-250 | in every run the configuration in force is the first one asked for, with its defaults |
| PoolConfig.FirstUpdate | grpcgcp/gcp_balancer.go:226-271 | the first update brings the pool to max(MinSize, 1) subconns, listed as created, and puts in force what was asked for, with 4 and 100 in place of zeros |
| PoolConfig.LimitIsKeptIff | grpcgcp/grpc_gcp/grpc_gcp.proto:35-37 | the limit asked for is the one in force exactly if it is not 0; 0 stands for 4 |
| PoolConfig.AskedLimitHolds | grpcgcp/gcp_picker.go:204-212 | the bound of PoolSize.PoolIsBounded for the configuration as it was asked for: also a pool that is to be unlimited stays within max(MinSize, 4) |
| PoolConfig.WatermarkIsDocumentedIff | grpcgcp/grpc_gcp/grpc_gcp.proto:42-45 | the watermark in force is the documented one exactly if the one asked for is at most 100 |
| PoolConfig.PickIsDocumentedIff | grpcgcp/grpc_gcp/grpc_gcp.proto:29-34 | in every reachable state the pick of the published picker takes a free ref, takes a busy one, creates a subconn or waits as documented exactly if one of its refs is free, or else all subconns are at the watermark, the pool is below its limit and none is idle or connecting (for a picker with refs and a watermark of at most 100; for all others the condition is given as well) |
| PoolFailures.UnlimitedIsLimited | grpcgcp/grpc_gcp/grpc_gcp.proto:35-37 | for every configuration with max_size 0: a run after which all subconns are ready and at the watermark, and a pick takes a busy one, where a new one is promised |
| PoolFailures.FullDoesNotHang | grpcgcp/grpc_gcp/grpc_gcp.proto:29-34 | for every other configuration: such a run to a pick that takes a busy ref, where waiting is promised |
| PoolFailures.GrowthCanStall | grpcgcp/gcp_balancer.go:322-328 | a run after which all subconns are at the watermark below the limit, and a pick waits for one that reconnects, where a new one is promised |
| PoolFallback.LookupOutcome | grpcgcp/gcp_balancer.go:355-379 | the result of a lookup in every reachable state, case by case: the bound ref whenever it is ready, the mapped fallback, a least busy ready ref; a panic exactly if none is ready, a deadlock exactly if all ready ones are at the watermark |
| PoolFallback.LookupIsReady | grpcgcp/gcp_balancer.go:355-379 | whatever ref a lookup returns is ready |
| PoolFallback.FallbackTargetsAreReady | grpcgcp/gcp_balancer.go:510-525 | a live fallback target is ready; with detection off all targets are live |
| PoolFallback.FallbackIsStable | grpcgcp/gcp_balancer.go:362-379 | a key keeps its fallback across every step after which the target is still ready and the bound subconn still is not |
| PoolLookups.LookupRemembers | grpcgcp/gcp_balancer.go:362-374 | a lookup that finds a new fallback maps the key to the subconn of the ref it returns; no lookup changes any other mapping |
| PoolLookups.LookupsAgree | grpcgcp/gcp_balancer.go:362-379 | two lookups of a key return the same ref whenever, in every state between them, its subconn is ready and the one the key is bound to is not |
| PoolLookups.FallbackEndsIff | grpcgcp/gcp_balancer.go:510-525 | in every run a key gives up its fallback exactly when the subconn of that stops being ready, or its own becomes ready |
| PoolSize.PoolIsBounded | grpcgcp/gcp_picker.go:204-212 | with at most n picks between size check and creation, live subconns plus admitted creations stay within max(MinSize, MaxSize) + n - 1, plus one for every revival of a ref whose subconn had been shut down |
| PoolSize.RevivalsNeedShutdowns | grpcgcp/gcp_balancer.go:462-509 | refs without a live subconn are exactly the shutdowns not made up for by revivals; so without shutdowns there are no revivals |
| PoolSize.AtomicPicksRespectTheLimit | grpcgcp/gcp_balancer.go:267-329 | with atomic picks and no shutdown the pool never exceeds max(MinSize, MaxSize) |
| PoolSize.RoundRobinFindsARef | grpcgcp/gcp_balancer.go:381-385 | scRefList is empty exactly before the balancer is configured |
| PoolSize.GrowthIsOneAtATime | grpcgcp/gcp_balancer.go:315-329 | in every run, of all subconns that picks have added at most one has not been anything but idle or connecting yet |
| PoolEffects.GrowsIff | grpcgcp/gcp_balancer.go:315-329 | in every reachable state the growth of a pick adds its ref, idle, exactly if every subconn is ready or failing and creation succeeds, and changes nothing otherwise |
| PoolEffects.ListOnlyGrows | grpcgcp/gcp_balancer.go:333-350 | a ref keeps its place in scRefList, and so its turns, in every part of every run |
| PoolPicks.LeastBusyChooses | grpcgcp/gcp_picker.go:189-217 | the pick is a ref with the fewest streams, is refused exactly if all are at the watermark and the pool may grow, and below MaxSize never lifts a count above the watermark |
| PoolPicks.SpreadIsBounded | grpcgcp/gcp_picker.go:153-173 | in every part of every run the spread of streams between the refs of a picker stays within max(1, initial spread), plus one for every pick that was bound or in turn and every call that ended |
| PoolPicks.CountsFollowPicks | grpcgcp/gcp_picker.go:189-202 | where no such step comes in between, the counts of a picker's refs are those that its least-busy picks alone lead to |
| PoolPicks.FullRoundsAreEven | grpcgcp/gcp_picker.go:189-202 | in a part of a run that starts with idle refs, k undisturbed least-busy picks per ref load every ref with exactly k streams |
| PoolRoundRobin.FairWithoutWrap | grpcgcp/gcp_balancer.go:385 | k * n consecutive tickets that do not cross the uint32 wrap go exactly k times to each of n positions |
| PoolRoundRobin.FairAcrossWrapIff | grpcgcp/gcp_balancer.go:385 | across the wrap they do exactly if n divides 2^32 or the tickets after the wrap are a multiple of n |
| PoolRoundRobin.TicketsArePositions | grpcgcp/gcp_balancer.go:78-78 | the counter's tickets are consecutive, and a new balancer starts at position 0 |
| PoolWait.AwaitReady | grpcgcp/gcp_balancer.go:387-412 | over looks at the states of any run: the wait ends with the ref in turn at the first look that finds its subconn of that moment ready, which then is in the published picker, or at which the context ends; otherwise it goes on |
| PoolWait.GoneUntilReplaced | grpcgcp/gcp_balancer.go:387-412 | a ref whose subconn has been shut down becomes ready exactly by the step in which a replacement takes over |
| PoolWait.ShutdownLeavesOnlyTheContext | grpcgcp/gcp_balancer.go:387-412 | so in every run a wait for it ends ready only after such a step, and otherwise only with the context |
| GcpBalancers.ConnectivityStateEvaluator.RecordTransition | grpcgcp/gcp_balancer.go:126-151 | the loop takes one off the old state's counter and adds one to the new state's, modulo 2^64, and returns the aggregate |
| GcpBalancers.LeastBusyOf | grpcgcp/gcp_picker.go:190-197 | the scan finds the first ref with the fewest streams |
| GcpBalancers.GcpBalancer.AddSubConn | grpcgcp/gcp_balancer.go:333-350 | a fresh subconn and its ref are entered in every map and the list, unless creation fails |
| GcpBalancers.GcpBalancer.NewSubConn | grpcgcp/gcp_balancer.go:317-329 | a subconn is added exactly if none is idle or connecting and creation succeeds |
| GcpBalancers.GcpBalancer.EnforceMinSize | grpcgcp/gcp_balancer.go:267-271 | creations, which may fail, are tried exactly until MinSize is reached; the loop is not over while they fail |
| GcpBalancers.GcpBalancer.InitializeConfig | grpcgcp/gcp_balancer.go:226-265 | defaults are filled in and the pool is brought to MinSize |
| GcpBalancers.GcpBalancer.UpdateClientConnState | grpcgcp/gcp_balancer.go:273-301 | the first call configures, unless the configuration has another type, and stays in its loop while creations fail; later calls change nothing, and lock up exactly if no subconn is left |
| GcpBalancers.GcpBalancer.GetReadySubConnRef | grpcgcp/gcp_balancer.go:355-379 | a lookup returns what PoolSpec says, and maps the fallback it chose |
| GcpBalancers.GcpBalancer.NextInTurn | grpcgcp/gcp_balancer.go:385 | the next ticket is drawn with wrap-around and stands for a ref of the list |
| GcpBalancers.GcpBalancer.BindSubConn | grpcgcp/gcp_balancer.go:416-424 | a key keeps its first subconn, the count goes up, and a dead handle is a nil dereference |
| GcpBalancers.GcpBalancer.UnbindSubConn | grpcgcp/gcp_balancer.go:427-435 | the key is removed and the count goes down; a dead handle is a nil dereference |
| GcpBalancers.GcpBalancer.TakeOver | grpcgcp/gcp_balancer.go:471-484 | a ready replacement takes over the ref and the old state, and the old subconn leaves all maps |
| GcpBalancers.GcpBalancer.DropFallbacksTo | grpcgcp/gcp_balancer.go:510-517 | exactly the fallbacks to the broken subconn are deleted |
| GcpBalancers.GcpBalancer.DropFallbacksOf | grpcgcp/gcp_balancer.go:518-525 | exactly the fallbacks of the keys bound to the recovered subconn are deleted |
| GcpBalancers.GcpBalancer.RegeneratePicker | grpcgcp/gcp_balancer.go:441-455 | the picker becomes the error picker on TransientFailure, otherwise it lists the ready refs, each once |
| GcpBalancers.GcpBalancer.Transit | grpcgcp/gcp_balancer.go:491-549 | a state is entered, counted, and published if the ready set or the failure status changed |
| GcpBalancers.GcpBalancer.UpdateSubConnState | grpcgcp/gcp_balancer.go:457-549 | every state change is a possible step of the machine and has its effect, and keeps counters and publication current |
| GcpBalancers.GcpBalancer.Refresh | grpcgcp/gcp_balancer.go:553-573 | a replacement is asked for once; a failed creation leaves the ref marked |
| GcpPickers.GcpPicker.DetectUnresponsive | grpcgcp/gcp_picker.go:129-151 | a response resets the ref, a client-side timeout is counted unless the call is too old, and a silent ref is refreshed |
| GcpPickers.GcpPicker.GetLeastBusySubConnRef | grpcgcp/gcp_picker.go:189-217 | the least busy ref is returned, or a subconn is created when all are busy and the pool may grow |
| GcpPickers.GcpPicker.GetAndIncrementSubConnRef | grpcgcp/gcp_picker.go:153-186 | a round-robin bind takes its turn, wait included; otherwise the bound or else the least busy ref gains a stream |
| GcpPickers.GcpPicker.AwaitTurn | grpcgcp/gcp_balancer.go:387-412 | the wait on the object, with state changes of others between the looks: it ends at the first look that finds the ref ready or the context ended |
| GcpPickers.GcpPicker.PickInTurn | grpcgcp/gcp_picker.go:154-161 | a round-robin pick draws a ticket and waits; the ref in turn gains a stream in the state the wait ended in, where it is ready and, if counters and publication were current before, in the published picker, unless the context has ended |
| GcpPickers.GcpPicker.Pick | grpcgcp/gcp_picker.go:55-119 | a BOUND or UNBIND call with a request is for the first value its path reaches there, fails exactly if a value is no key, and panics if there is none; every other call is for no key; the Done callback carries that key, the ref, the start of the call and the configuration of its method, and the subconn is the ref's; every other outcome by its cause |
| GcpPickers.RequestIsReached | grpcgcp/gcp_picker.go:72-82 | which key that is, in terms of the values the path reaches |
| GcpCalls.PickOutcome | grpcgcp/gcp_picker.go:153-217 | in every reachable state: a bound key gets the ref of its subconn whenever that is ready, else its fallback or a least busy ready ref or none; any other pick gets a least busy ref, or none exactly if all are busy and the pool may grow; a subconn is created exactly in that case, if none is idle or connecting |
| GcpCalls.PickEffect | grpcgcp/gcp_picker.go:162-186 | the ref gains the call, which starts now; the pool gains the subconn that was created, and no binding changes |
| GcpCalls.TurnOutcome | grpcgcp/gcp_picker.go:154-161 | a round-robin pick takes the ref of the next ticket once that is ready or the context has ended, in either case with a new stream, and waits otherwise |
| GcpCalls.ResultTells | grpcgcp/gcp_picker.go:84-93 | the result of a pick tells which ref was found for the key, or why none was |
| GcpPickers.GcpPicker.Finish | grpcgcp/gcp_picker.go:95-113 | Done takes the stream back, runs detection, and after a success binds the keys of the reply or unbinds the key; it dereferences nil exactly if that command does or a BIND call has no gcp context |
| GcpCalls.ResponseOrTimeout | grpcgcp/gcp_picker.go:129-146 | a failed call counts as a timeout exactly if it ended by the deadline of its own context and no earlier, and started no earlier than the last response; unless it ended so, it is a response |
| GcpCalls.SuccessIsResponse | grpcgcp/gcp_picker.go:129-141 | so is a success |
| GcpCalls.BindRemembers | grpcgcp/gcp_picker.go:99-109 | the success of a BIND call binds exactly the keys its path reaches in the reply, to the subconn of its ref unless they were bound; none if a value is no key |
| GcpCalls.UnbindForgets | grpcgcp/gcp_picker.go:110-112 | the success of an UNBIND call unbinds its key and no other |
| GcpCalls.OthersLeaveBindings | grpcgcp/gcp_picker.go:97-113 | failed calls, BOUND calls and calls of other methods change no binding |
| GcpCalls.FinishCrashesIff | grpcgcp/gcp_picker.go:97-113 | Done dereferences nil exactly after the success of a BIND call without gcp context or with keys for a subconn that is not live, or of an UNBIND call whose key is bound to such a one |
| GcpCalls.UnbindRoundTrip | grpcgcp/gcp_picker.go:55-113 | pick and success of an UNBIND call, whatever lies between: the first key of the request is not bound afterwards |
| GcpCalls.BindRoundTrip | grpcgcp/gcp_picker.go:55-113 | pick and success of a BIND call: every key of the reply is bound afterwards, new ones to the picked ref |
| GcpSteps.PickIsSteps | grpcgcp/gcp_picker.go:153-217 | what a pick does to the balancer, as contracted by GetAndIncrementSubConnRef, is a sequence of possible steps of the machine |
| GcpSteps.FinishIsSteps | grpcgcp/gcp_picker.go:93-118 | so is what Done does, detection, refresh and affinity command included |
| GcpSteps.ConfigureIsStep | grpcgcp/gcp_balancer.go:226-271 | and the first update |
| GcpSteps.LedRun | grpcgcp/gcp_picker.go:55-119 | so after each of them the object is again in the final state of a run, of which everything proved of runs holds |
| MethodTable.MethodConfigs | grpcgcp/gcp_balancer.go:251-262 | the table holds for every method the affinity of the last entry that names it, and nothing else |
| MethodTable.LastDecides | grpcgcp/gcp_balancer.go:253-261 | the entry that decides is the last one |
| MethodTable.PrecedenceIsDocumentedIff | grpcgcp/grpc_gcp/grpc_gcp.proto:97-101 | over every list, a method has the affinity of the first entry that matches exactly if that agrees with the last entry that names it, and patterns cover no method that no entry names |
| MethodTable.FirstIsNotLast | grpcgcp/grpc_gcp/grpc_gcp.proto:98-100 | two entries for one method: the first is promised, the second is in the table |
| MethodTable.PatternsAreNotMatched | grpcgcp/grpc_gcp/grpc_gcp.proto:98-100 | a pattern covers a method, and the table has nothing for it |
| AffinityKeys.KeysFromMessage | grpcgcp/gcp_picker.go:219-249 | the recursion over pointers, structs and slices computes the depth-first walk |
| AffinityKeys.KeysAreReachedValues | grpcgcp/gcp_picker.go:219-249 | the keys are the values the path reaches, flattened from left to right level by level; extraction fails exactly if a value on the way is no struct or a value at the end no string |
| AffinityKeys.SingularGivesOneKey | grpcgcp/gcp_picker.go:236-238 | without a repeated field on the path there is exactly one key |
| AffinityKeys.PointersAreFollowed | grpcgcp/gcp_picker.go:219-228 | a pointer or interface stands for what it holds; nil and chains of them have no keys |
| AffinityKeys.FieldsAreNamed | grpcgcp/gcp_picker.go:233-249 | a name leads to the field of its title; a missing one is an error, an empty slice has no keys |
| AffinityKeys.GetAffinityKeysFromMessage | grpcgcp/gcp_picker.go:253-263 | the same for a dotted locator |
| AffinityKeys.Split | grpcgcp/gcp_picker.go:257 | splitting at dots is undone by joining, and never gives an empty list |
| FailoverTheorems.CurrentIsUsable | grpcgcp/multiendpoint/multiendpoint.go:48-55 | for all settings and interleavings: while some endpoint is available, current is not unavailable; if it recovers, and timers are prompt, it has for at most the recovery timeout |
| FailoverTheorems.CurrentIsBestChoice | grpcgcp/multiendpoint/multiendpoint.go:179-207 | with no switching delay, current is the top available endpoint or a recovering one of higher priority |
| FailoverTheorems.EveryStepMovesWell | grpcgcp/multiendpoint/multiendpoint.go:146-247 | for all settings, current stays in the list, every step moves it to an available endpoint, or to the top one when the old one was removed and none is available, and only upward switches to available endpoints are delayed |
| FailoverTheorems.SetEndpointsRelists | grpcgcp/multiendpoint/multiendpoint.go:140-173 | the list becomes the given one by last positions, kept endpoints keep their states, new ones start afresh |
| FailoverTheorems.EmptyListChangesNothing | grpcgcp/multiendpoint/multiendpoint.go:146-151 | an empty list is refused in every run, and changes nothing |
| FailoverTheorems.OneLiveTimer | grpcgcp/multiendpoint/multiendpoint.go:258-306 | each recovering endpoint has one live timer, due one recovery timeout after the recovery began |
| FailoverTheorems.CallbackIsHarmless | grpcgcp/multiendpoint/multiendpoint.go:293-306 | a callback that lost against Stop changes no status; one that marks an endpoint finds it in the same recovering episode |
| FailoverTheorems.RepeatedSignalChangesNothing | grpcgcp/multiendpoint/multiendpoint.go:269-271 | a repeated unavailable signal never restarts or extends a recovery |
| FailoverRecovery.StepOnStatus | grpcgcp/multiendpoint/multiendpoint.go:249-306 | with a recovery timeout, across every step: an endpoint becomes available by a report only, an available one that is reported unavailable recovers, and a recovering one becomes unavailable exactly by the callback of its own timer, one recovery timeout after it began or later |
| FailoverRecovery.RecoveryIsGranted | grpcgcp/multiendpoint/multiendpoint.go:269-306 | so in every run an endpoint that was available and is unavailable has recovered since the report, for at least the recovery timeout |
| FailoverRecovery.CurrentWaits | grpcgcp/multiendpoint/multiendpoint.go:192-207 | meanwhile it stays current, as long as it is listed, no available endpoint precedes it, and no delayed switch lands |
| FailoverRecovery.StepSchedules | grpcgcp/multiendpoint/multiendpoint.go:228-247 | with a switching delay a switch is scheduled exactly if current is usable and an available endpoint precedes it; it is to the top one and due one delay later |
| FailoverRecovery.SwitchesAreDelayed | grpcgcp/multiendpoint/multiendpoint.go:228-247 | in every run current leaves a listed endpoint that has not been given up no earlier than one delay after the switch was scheduled |
| FailoverTheorems.RunKeepsBest | grpcgcp/multiendpoint/multiendpoint.go:175-207 | without a delay every step of every run leaves the best choice |
| FailoverProofs.TopIsUnique | grpcgcp/multiendpoint/multiendpoint.go:183-190 | the endpoint the scan finds does not depend on the order of the map |
| FailoverProofs.ListedIsDistinct | grpcgcp/multiendpoint/multiendpoint.go:115-118 | priorities are distinct even for lists with duplicates |
| FailoverProofs.RunKeeps | grpcgcp/multiendpoint/multiendpoint.go:104-306 | lists, objects and timers stay consistent in every run |
| FailoverLimits.CallbacksSpareAvailableIff | grpcgcp/multiendpoint/multiendpoint.go:293-306 | late callbacks spare available endpoints in all runs exactly if the recovery timeout is not negative |
| FailoverLimits.SettlesOnBestIff | grpcgcp/multiendpoint/multiendpoint.go:239-246 | current settles on the best choice in all runs exactly if the switching delay is zero |
| MultiEndpoints.MultiEndpoint.NewMultiEndpoint | grpcgcp/multiendpoint/multiendpoint.go:104-121 | an empty list is refused; otherwise the object is the machine's initial state |
| MultiEndpoints.MultiEndpoint.NewEndpoint | grpcgcp/multiendpoint/multiendpoint.go:209-223 | a new endpoint recovers, with a timer, if the timeout is positive, and is unavailable otherwise |
| MultiEndpoints.MultiEndpoint.FindTops | grpcgcp/multiendpoint/multiendpoint.go:180-190 | the scan finds the top available and the top endpoint |
| MultiEndpoints.MultiEndpoint.MaybeUpdateCurrent | grpcgcp/multiendpoint/multiendpoint.go:179-207 | current is updated as the machine does |
| MultiEndpoints.MultiEndpoint.SwitchFromTo | grpcgcp/multiendpoint/multiendpoint.go:228-247 | the switch happens at once or is handed to a timer |
| MultiEndpoints.MultiEndpoint.SetEndpoints | grpcgcp/multiendpoint/multiendpoint.go:146-173 | an empty list is refused; otherwise the object takes the machine's step |
| MultiEndpoints.MultiEndpoint.SetEndpointAvailability | grpcgcp/multiendpoint/multiendpoint.go:250-280 | a signal takes the machine's step |
| MultiEndpoints.MultiEndpoint.SetState | grpcgcp/multiendpoint/multiendpoint.go:285-291 | the pending timer is stopped if it still can be, and status and change time are set |
| MultiEndpoints.MultiEndpoint.ScheduleUnavailable | grpcgcp/multiendpoint/multiendpoint.go:294-306 | a timer is armed with the change time it will compare |
| MultiEndpoints.MultiEndpoint.RunCallback | grpcgcp/multiendpoint/multiendpoint.go:240-246 | a fired callback takes the machine's step |
| GcpMultiEndpoints.GcpMultiEndpoint.UpdateMultiEndpoints | grpcgcp/gcp_multiendpoint.go:296-377 | with any timers running before each store, every store of an update, early returns included, leaves a default and an open pool for every endpoint a pick could resolve to; a success gives exactly the requested names, lists and pools, keeps retained connections, and leaves endpoints available exactly if their sampled state is ready, where the recovery timeout is not negative; it fails exactly for the stated causes, and then keeps the default name, all MultiEndpoints and all pools |
| GcpMultiEndpoints.GcpMultiEndpoint.New | grpcgcp/gcp_multiendpoint.go:192-216 | a new object exists exactly if its first update succeeds, and then readers are safe |
| GcpMultiEndpoints.GcpMultiEndpoint.Fire | grpcgcp/multiendpoint/multiendpoint.go:293-306 | a due timer of a MultiEndpoint starts, as its machine does; lists stay and readers stay safe |
| GcpMultiEndpoints.GcpMultiEndpoint.RunCallback | grpcgcp/multiendpoint/multiendpoint.go:228-306 | its callback runs, as its machine does, in time or late; lists stay, and readers stay safe before and after |
| GcpMultiEndpoints.SplitReadsResolveIff | grpcgcp/gcp_multiendpoint.go:138-145 | during a successful update, a current endpoint read at one store still has its open pool at every later one exactly if the update wants it |
| GcpMultiEndpoints.ReadAcrossUpdate | grpcgcp/gcp_multiendpoint.go:138-145 | a current endpoint read before an update that replaces it has no pool after it |
| GcpMultiEndpoints.GcpMultiEndpoint.LetTimersRun | grpcgcp/multiendpoint/multiendpoint.go:228-306 | any timers, due or late, keep the lists, the safety of readers and, unless the recovery timeout is negative, what is available |
| GcpMultiEndpoints.SafeResolves | grpcgcp/gcp_multiendpoint.go:138-145 | in a safe state a pick gets the open connection of the current endpoint of the MultiEndpoint that the context names, or of the default one if it names none that exists |
| GcpMultiEndpoints.SafeIffCovered | grpcgcp/gcp_multiendpoint.go:326-367 | after a successful update readers are safe exactly if no silently rejected empty list kept an endpoint that nobody else wants |
| GcpMultiEndpoints.GcpMultiEndpoint.PickAfterUpdate | grpcgcp/gcp_multiendpoint.go:138-145 | without delays a pick after an update gets the pool of the highest-priority ready endpoint when there is one |
| GcpMultiEndpoints.GcpMultiEndpoint.PickConn | grpcgcp/gcp_multiendpoint.go:138-145 | the pool of the current endpoint of the named, or else the default, MultiEndpoint |
| GcpMultiEndpoints.GcpMultiEndpoint.AddPools | grpcgcp/gcp_multiendpoint.go:310-323 | missing pools are dialed one by one until an error |
| GcpMultiEndpoints.GcpMultiEndpoint.UpdateMes | grpcgcp/gcp_multiendpoint.go:325-342 | existing names are relisted, new ones created, until a new name has no endpoints |
| GcpMultiEndpoints.GcpMultiEndpoint.DropMes | grpcgcp/gcp_multiendpoint.go:345-353 | exactly the obsolete names are deleted |
| GcpMultiEndpoints.GcpMultiEndpoint.DropPools | grpcgcp/gcp_multiendpoint.go:355-367 | exactly the obsolete pools are closed and deleted |
| GcpMultiEndpoints.GcpMultiEndpoint.TriggerStatus | grpcgcp/gcp_multiendpoint.go:369-375 | every MultiEndpoint hears of the state of every pool, whatever timers run in between |
| GcpMultiEndpoints.GcpMultiEndpoint.Notify | grpcgcp/gcp_multiendpoint.go:253-263 | every MultiEndpoint hears of the state of one endpoint, and readers stay safe |
| GcpMultiEndpoints.WantedPools | grpcgcp/gcp_multiendpoint.go:303-308 | the wanted pools are the union of all lists |
| ClientStreams.NoLostWakeup | grpcgcp/gcp_interceptor.go:98-130 | for any number of goroutines: a receiver still waiting after the stream resolved will be woken by a sender on its way to Broadcast |
| ClientStreams.OneStreamNeverNil | grpcgcp/gcp_interceptor.go:98-130 | at most one real stream is created, and no call uses a nil stream |
| ClientStreams.StuckOnlyBeforeFirstSend | grpcgcp/gcp_interceptor.go:117-123 | only receivers can be stuck, and only while no SendMsg has resolved the stream |
| ClientStreams.CallsRunOut | grpcgcp/gcp_interceptor.go:98-130 | once resolved, all calls end: without new calls, the steps that follow are no more than the sum of the distances of the goroutines under way |
| ClientStreams.OutcomeIsFinal | grpcgcp/gcp_interceptor.go:101-111 | the stream is never replaced and an init error never withdrawn |
| ClientStreams.RecvOutcome | grpcgcp/gcp_interceptor.go:117-130 | RecvMsg returns the init error if there ever was one, and otherwise reaches the stream |
| ClientStreams.SendOutcome | grpcgcp/gcp_interceptor.go:98-115 | SendMsg goes on to the stream exactly unless it found none and could not create one, and wakes every waiting receiver in either case |
| ClientStreams.ErrorHasCause | grpcgcp/gcp_interceptor.go:103-108 | an init error comes from a SendMsg that found no stream and could not create one |
| ClientStreams.GcpClientStream.SendMsgLocked | grpcgcp/gcp_interceptor.go:99-112 | the locked part of SendMsg takes the machine's step |
| ClientStreams.GcpClientStream.BroadcastAll | grpcgcp/gcp_interceptor.go:107-113 | Broadcast wakes exactly the receivers that wait |
| ClientStreams.GcpClientStream.RecvMsgLocked | grpcgcp/gcp_interceptor.go:120-128 | one test of the waiting loop takes the machine's step |

## Left out

- GcpBalancers.GcpBalancer.InitializeConfig: the method table is computed by MethodTable.MethodConfigs and passed to each pick as the method's affinity; it is not a field of the object.
- GcpBalancers.GcpBalancer.UpdateClientConnState: addresses, `UpdateAddresses` and `Connect` are not modelled.
- GcpBalancers.GcpBalancer.NextInTurn: scRefList is not empty, as PoolSize.RoundRobinFindsARef shows of every configured balancer.
- PoolWait.AwaitReady: when the looks happen and when the context ends is given; the ticker and stateSignal only decide when to look again, so a bound on the wait is not claimed.
- GcpPickers.GcpPicker.AwaitTurn: what happens between the looks on the object are state changes and the passing of time, which are all the wait depends on; any interleaving of all steps is in PoolWait.AwaitReady.
- GcpPickers.GcpPicker.Pick: as for AwaitTurn and NextInTurn.
- GcpPickers.GcpPicker.Finish: after a failed affinity command nothing is said about the object, since the process has crashed.
- AffinityKeys.KeysFromMessage: the keys collected before a failure, which no caller uses, are not returned; promoted fields of embedded structs are not looked up; strings.Title is a parameter.
- GcpMultiEndpoints.GcpMultiEndpoint.UpdateMultiEndpoints: monitors notify between updates, not between the stores of one; with a negative recovery timeout nothing is said of what is available, since a late callback may take an available endpoint back (FailoverLimits.CallbacksSpareAvailableIff); an error of conn.Close is only logged by the source.
- GcpMultiEndpoints.GcpMultiEndpoint.Notify: as for UpdateMultiEndpoints, of a negative recovery timeout only the lists are known after other timers have run.
- GcpMultiEndpoints.GcpMultiEndpoint.PickConn: one look at `mes` and `pools`; what reads at different stores find is in GcpMultiEndpoints.SplitReadsResolveIff.
- PoolSize.PoolIsBounded: in runs the first configuration is complete; creations that fail in its loop leave no trace and are in EnforceMinSize.
- Runs of the pool stop short of the 2^64th handle, of nil dereferences and of deadlocks; when those happen is proved separately.
- streamsCnt and affinityCnt are unbounded; the wrap of int32 after 2^31 streams of one ref is not modelled, whereas that of deCalls, refreshCnt, rrRefId and the state counters is.
- Methods run under a mutex are atomic; data races on fields that the source reads without one (lastResp, refreshCnt, mes) are not modelled.
- The network, dialing, resolvers, health checks, logging, OpenTelemetry, service configuration and protobuf parsing are library calls.
- grpcgcp/gcp_fallback.go, a one-way latch with two counters, would only add easy members.
- The unary interceptor, probers, Firestore and Cloud Storage examples and generated code are plumbing.
