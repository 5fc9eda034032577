# A verified model of BandMaster's boot and shutdown

BandMaster boots and shuts down services that depend on each other: one goroutine per
service, synchronised only through error channels that every service hands out. This
project models that protocol, the state machine and the channels under it, and the graph
checks in front of it, and proves what they promise for all graphs, all outcomes of the
services' own `Start` and `Stop`, and all interleavings.

## How the model is built

- `errors.dfy`, `collections.dfy`, `channels.dfy`: the errors, ranging over a map in an
  arbitrary order, and buffered channels, both as values carrying their whole history and
  as heap objects on which closing twice or sending after a close is a proof obligation.
- `services.dfy`: `ServiceBase`. Boot and shutdown mirror each other, so one set of
  functions over a direction (`Boot`, `Shut`) says what `start`/`stop` and
  `Started`/`Stopped` do to a base; the class is proved against these functions.
- `graphs.dfy`, `maestro.dfy`: walks, cycles and ranks, independent of any search; the
  registry, `hasMissingDeps`, and the depth-first `hasCircularDeps` proved exact.
- `retries.dfy`: the retry loop with its 64-bit delays.
- `worlds.dfy`, `protocol.dfy`: the shared state and the step relation. A call is `StartAll`
  or `StopAll`; each goroutine has a program counter; steps on a base are the functions
  that the class is proved against. A failure is sent to one subscriber at a time, with the
  base locked until the last one has it. Clients may subscribe and receive at any time, the
  context may be cancelled at any time, and a guard's select takes any ready case. A call
  carries an arbitrary table of which attempt of which service succeeds, fixed when the
  call begins, so proving something for all tables proves it for all outcomes.
- `invariants.dfy`, `worldproofs.dfy`, `callproofs.dfy`, `reachability.dfy`: the invariant
  and its preservation by every step.
- `runs.dfy`, `lifetime.dfy`, `outcomes.dfy`, `calls.dfy`, `progress.dfy`,
  `termination.dfy`, `returns.dfy`, `restart.dfy`, `hangs.dfy`: the theorems about all
  reachable states and all runs.
- `promises.dfy`: what happens, read from outside. These theorems speak of the actions that
  were taken, the fields of the bases, the events of the log and the constructors of the
  errors, not of the functions that the steps are made of.

## What turned out to be false

`StartAll` and `StopAll` are documented as blocking and then closing their channel, but they
do not always return. The goroutines always run out of moves (`Termination.RunsEnd`), and
two theorems say, from what is known when the call begins, whether it has returned by then:

- `Returns.ReturnsIff`: a call that is not cancelled is sure to return iff every service
  that the sequential reading does not bring to its goal has failed fewer than 32 times in a
  row before, and nobody who has to be brought there waits for it.
- `Returns.ReturnsEvenIfCancelledIff`: a call that may be cancelled on the way is sure to
  return iff nobody who has to be brought to the goal waits for another such service, and
  none of the failing ones has 32 failures in a row behind it. (A call whose context is
  cancelled beforehand always returns: `Restart.CancelledBeforehand`.)

Calls that do not return, each of them in a reachable state that no continuation leaves:

- A dependent that subscribes after its dependency failed receives nothing
  (`Hangs.LateSubscriberHangs`, and `Hangs.StopAllHangs` for shutdown): the stored error is
  never consulted, and the failure was pushed to earlier subscribers only.
- A dependency that returns on a cancelled context publishes nothing, contrary to the comment
  that every failed start attempt pushes an error (`Hangs.CancellationHangs`).
- The guard of `start` subscribes and drops the channel. The channel stays listed while the
  service fails, fills up, and blocks the 33rd failure in a row, with the base locked
  (`Hangs.ThirtyThirdFailureHangs`, and `Lifetime.PublishBlocksIff` for exactly when).
- The error channel of `StartAll` has room for one error per service, but one is sent per
  missing dependency edge, so the call hangs iff those edges outnumber the services
  (`Maestros.Maestro.Preflight`; `Maestros.OverfullPreflight` is the smallest case).

`Progress.StuckIff`, `Progress.WhyDoomed` and `Progress.StuckForever` say that the first
three are the only ways a call past its checks fails to return, and that they are permanent.

A failure published by `base.start` on a running service would strand whoever waits for it
to stop; `Services.PublishKeepsDiscipline` gives the exact condition, and the protocol never
meets it.

## Model

| member | source | states |
|---|---|---|
| Channels.Channel.Send | service.go:188-190 | a send appends to an open channel and blocks exactly when it is full |
| Channels.Channel.Close | service.go:204-206 | closing is only ever done to an open channel |
| Channels.Channel.Receive | maestro.go:242 | a receive yields the oldest error, nil iff the channel is closed and drained, and blocks otherwise |
| Services.ServiceBase.constructor | service.go:74-85 | a new base is stopped, has no errors and no subscribers |
| Services.FirstOffence | service.go:148-159 | the first name that is the service itself, already known, or repeated; none before it is |
| Services.ServiceBase.AddDependency | service.go:144-161 | accepts exactly the lists of new, distinct names without the service itself; otherwise adds the names before the first offending one and panics over that one |
| Services.ServiceBase.Broadcast | service.go:188-190 | an error reaches the listed channels in order up to the first full one, and no other |
| Services.ServiceBase.CloseEach | service.go:204-206 | every listed channel is closed once |
| Services.ServiceBase.Start | service.go:178-210 | new flags, errors and lists; the listed channels hear the news in order; when it would hang, and how far it got |
| Services.ServiceBase.Stop | service.go:235-265 | the same for stopping, where a failure leaves the other flag alone |
| Services.ServiceBase.Started | service.go:220-233 | a fresh channel with room for 32 errors, closed iff the service runs and put at the end of the list otherwise |
| Services.ServiceBase.Stopped | service.go:275-288 | the same for the stopped flag and list |
| Services.PublishKeepsDiscipline | service.go:178-265 | exactly when a call keeps one flag up and strands no subscriber |
| Graphs.AcyclicIsRanked | maestro.go:409-458 | an acyclic closed graph has a rank that falls along every dependency edge |
| Graphs.AcyclicIffRanked | maestro.go:409-458 | a closed graph is acyclic iff it can be ranked |
| Graphs.AcyclicMeansDistinctWalks | maestro.go:425-437 | a graph has a cycle iff some walk meets a node twice |
| Maestros.Maestro.AddServiceWithBackoff | maestro.go:99-125 | which names, and which lists of dependencies, are accepted, which panics occur otherwise and what they leave behind, and which nodes and edges registration adds, also for an object that is registered already |
| Maestros.Maestro.ServiceReady | maestro.go:145-162 | subscribes, and returns the service iff nil comes before the end of the context, whatever errors come before; nil for an unknown name |
| Maestros.Maestro.MissingDepsOf | maestro.go:396-405 | one error for each missing dependency of one service, in any order |
| Maestros.Maestro.HasMissingDeps | maestro.go:393-408 | exactly one error per missing edge; true iff there is one; hangs iff they do not fit |
| Maestros.Maestro.Unwind | maestro.go:426-430 | the unordered level map gives back the walk in order, every index in range |
| Maestros.Maestro.ReportCircle | maestro.go:425-437 | the error is a genuine walk whose last name repeats exactly one earlier name |
| Maestros.Maestro.HasCircularDepsRec | maestro.go:415-449 | terminates; true with exactly one genuine error, false iff no continuation of the path repeats a name |
| Maestros.Maestro.HasCircularDeps | maestro.go:411-458 | true iff the graph has a directed cycle |
| Maestros.Maestro.Preflight | maestro.go:185-199 | goroutines are launched iff nothing is missing or circular; otherwise each missing edge is reported once, or one genuine path into a circle; and when the checks themselves hang |
| Maestros.OverfullPreflight | maestro.go:189-199 | a registry of one service with two unregistered dependencies makes the checks hang |
| Retries.LastCall | maestro.go:257-276 | the attempt that the loop ends with |
| Retries.Run | maestro.go:255-276 | number of calls, how the loop ends, and each delay: the first is the initial backoff, and each other one twice the one before, modulo 2^64 |
| Retries.ExactWhileItFits | maestro.go:272-273 | the delays are exponential iff the last one fits 64 bits |
| Retries.DelayIsExponential | maestro.go:256-276 | k doublings of the initial backoff multiply it by 2^k |
| Retries.SleepsFit | maestro.go:256-276 | if the longest delay fits, every delay is exact and all of them add up to the next delay less the initial backoff |
| Worlds.ToldWithinStreak | service.go:224-231 | an open subscription was told at most the failures since the last success, all of them if it is older |
| Worlds.TellIsTheLog | service.go:216-219 | a subscriber hears an error only if it was published, and the end iff a success was |
| WorldProofs.RegisterKeeps | maestro.go:99-125 | registration keeps the invariant of the shared state |
| WorldProofs.AttachKeeps | service.go:220-233 | so does every subscription |
| WorldProofs.AnnounceKeepsChan | service.go:178-207 | one channel, when a result is published: if subscribed and open it is closed by a success and owed a failure |
| WorldProofs.AnnounceKeepsSupport | maestro.go:237-279 | a service comes up after what it needs and goes down after what needs it |
| WorldProofs.AnnounceKeeps | service.go:178-265 | publishing a result keeps the invariant of the shared state |
| WorldProofs.ServeKeepsChan | service.go:188-190 | one channel, when a failure is sent: it gets what it is owed iff it is next in line |
| WorldProofs.ReleaseKeeps | service.go:178-192 | once everyone is served the lock is given back and nobody is owed anything |
| WorldProofs.FailureMatchesClass | service.go:178-192 | left uninterrupted, the protocol's sends of a failure leave flags, lists and channels as the class's contracts say, and stop at the same full channel |
| WorldProofs.SuccessMatchesClass | service.go:199-207 | the protocol's one step of a success does to them what the class does channel by channel |
| CallProofs.ReceivedIsTrue | maestro.go:242-250 | nil means the dependency is at its goal, an error that it published a failure in this very call |
| CallProofs.PublishKeepsOrder | maestro.go:279 | publishing a success keeps the log in dependency order, each success once |
| Reachability.ShutRank | maestro.go:340-360 | the services still running at a StopAll can be ranked against their dependents without any check |
| Runs.CallIsTheAction | maestro.go:185-216 | a call has the direction, the outcomes and the context it was begun with, starts every registered service at its guard, and is cancelled iff its context is |
| Reachability.StepOk | maestro.go:185-388 | every step of the system keeps the invariant |
| Reachability.ReachableOk | maestro.go:185-388 | the invariant holds in every reachable state |
| Lifetime.RunningIsSupported | maestro.go:166-184 | at every moment all transitive dependencies of a running service are registered and running, and it is not one of them |
| Lifetime.ChannelDiscipline | service.go:178-288 | one flag up, nobody listed at a goal, and a channel is open iff listed, once, for its own goal |
| Lifetime.TargetsAreOpen | service.go:188-207 | nothing is sent to or closed a second time, and nothing is sent to a full channel |
| Lifetime.ExactDelivery | service.go:212-233 | the content of a channel is what was published since its subscription, but for a failure being sent that has not got to it, and it is closed iff a success was published |
| Lifetime.ClientHears | service.go:212-233 | a channel that a client asked for carries what has been published since about just that service and goal, and is closed iff the goal held then or was reached since |
| Lifetime.ClientReceives | service.go:224-232 | nobody but the client takes from its channel: its n-th receive gets the n-th error, then nil |
| Lifetime.BufferBound | service.go:224-231 | an open channel holds, or is owed, at most the failures since the last success, of which there are at most 33, and 33 only while the last is being sent |
| Lifetime.PublishBlocksIff | maestro.go:222-231 | a failing service gets its failure sent to everyone iff it is at most the 32nd in a row |
| Lifetime.NilMeansReached | maestro.go:145-162 | a client that receives nil had the service it asked for at the goal it asked for, at some moment since it did |
| Outcomes.GoalIffDeserved | maestro.go:219-280 | at the end of an uncancelled call a service is at the goal iff it can succeed and all it waits for is |
| Outcomes.ScheduleIndependence | maestro.go:201-280 | every uncancelled call that returns ends as the sequential recursion over the graph says |
| Outcomes.DoneIsExpected | maestro.go:176-180 | at every moment of every call, cancelled or not, only services that the recursion brings to the goal are there |
| Outcomes.RunsAgree | maestro.go:201-280 | two interleavings of the same call end with the same services at the goal |
| Outcomes.OutcomeOfCall | maestro.go:201-280 | an uncancelled call that returns leaves at the goal exactly what was there when it began, and what succeeds within its attempts with all it waits for at the goal |
| Outcomes.StopLeavesRunning | maestro.go:322-388 | what an uncancelled StopAll leaves running is what ran when it began and exhausts its Stop or has a dependent still running |
| Outcomes.GoalAlongChain | maestro.go:340-363 | a goal that holds for a service holds for everything it transitively waits for |
| Outcomes.CalledInOrder | maestro.go:236-256 | when a service is called, all it transitively waits for is at the goal, and Start is handed exactly its dependencies, Stop nothing |
| Outcomes.LinearExtension | maestro.go:236-280 | the successes of one call are published once each and in an order that extends the graph's |
| Outcomes.NotCalledAtGoal | maestro.go:222-231 | a service at the goal when the call began is never called |
| Outcomes.ErrorConservation | maestro.go:201-216 | one error on errC per goroutine that ended with one, never more than services, always room for the rest, and no error means at the goal |
| Outcomes.ErrorMeansFailure | maestro.go:170-174 | without cancellation the services with an error are exactly those that missed the goal |
| Outcomes.RootCause | maestro.go:242-264 | every published failure is a DependencyUnavailable or ParentUnavailable that leads along dependency edges to a StartFailure or StopFailure of a service that failed on each of its attempts |
| Calls.CallCount | maestro.go:255-276 | in an uncancelled call that returns each service is called as often as its retry loop takes, or never if something it waits for failed |
| Progress.MovesUnless | maestro.go:219-280 | a goroutine can move unless it waits on a silent channel, for a base locked by a failing call, or for room for the 33rd failure |
| Progress.StuckIff | maestro.go:201-216 | what is wrong in a call that has run out of moves and not returned: somebody is doomed or overflowed |
| Progress.WhyDoomed | maestro.go:242-249 | a doomed waiter subscribed after the failure was published, or its dependency returned on cancellation |
| Progress.StuckForever | maestro.go:238-250 | nothing frees a doomed or overflowed goroutine, so the call never returns |
| Progress.SuccessIff | maestro.go:166-184 | an uncancelled call that has run out of moves has returned without an error, everything at its goal, iff every service that was not there can succeed |
| Termination.MovesAreBounded | maestro.go:219-280 | the moves that goroutines can make in a call are bounded by what is left to do, plus one per subscription of a client meanwhile |
| Termination.RunsEnd | maestro.go:201-216 | from every state of a call some run of goroutine moves ends, and none is longer than the bound |
| Returns.ReturnsIff | maestro.go:170-174 | a call that is not cancelled is sure to return iff nobody pending waits for a service that will fail, and no such service has 32 failures in a row behind it |
| Returns.ReturnsEvenIfCancelledIff | maestro.go:176-180 | a call that may be cancelled is sure to return iff no pending service waits for another, and none that will fail has 32 failures in a row behind it |
| Progress.NoCircularWaiting | maestro.go:298-360 | no reachable state has goroutines waiting for each other in a circle, in StopAll without any check |
| Outcomes.SuccessReachesAll | maestro.go:170-174 | a call without errors has brought every service to its goal |
| Promises.RegistrationLasts | maestro.go:119-124 | a service keeps the dependencies and retries that it was registered with, and starts out stopped |
| Promises.WhatIsLogged | maestro.go:256-280 | which calls and results each action adds to the history: attempts are numbered from one, Start gets the dependencies, Stop nothing |
| Promises.BasesAreReplayed | service.go:178-265 | at every moment the flags and errors of a service are those that its published results give, and nothing else changes them |
| Promises.ErrorsInOrder | maestro.go:207-212 | errC holds the errors in the order in which the goroutines reported them |
| Promises.WhatIsHandedOut | service.go:220-233 | guards, waiters and clients each get one empty channel, closed iff the goal holds and put at the end of the list otherwise; nobody else gets any |
| Promises.WhatIsTaken | maestro.go:242 | only the receiver of a channel takes from it, one error at a time |
| Promises.WhatMayHappen | maestro.go:185-199 | exactly when registering, beginning, cancelling, returning, subscribing and receiving are possible; StartAll iff the graph can be ranked |
| Promises.GuardChoices | maestro.go:223-231 | the guard's select may take any case that is ready, and its default only if none is |
| Promises.GatheringChoices | maestro.go:236-253 | prerequisites are waited for in any order, and the service is called once none is left |
| Promises.WaitingChoices | service.go:220-233 | a subscription waits only for the lock of a failing base, a receive only for a message or the end of the channel |
| Promises.OtherChoices | maestro.go:265-274 | between attempts the timer may fire, and a cancellation may be noticed instead; nothing else holds a goroutine up |
| Promises.ErrorsOfCall | maestro.go:242-271 | each error of a call names the right parties and is backed by the history: a failed dependency or dependent, all attempts in vain, or a cancellation noticed at the guard or after a failed attempt |
| Restart.RepetitionIsSilent | maestro.go:222-226 | repeating a call with everything at its goal calls no service and, uncancelled, gives no error |
| Restart.CancelledBeforehand | maestro.go:222-231 | a call whose context is cancelled beforehand publishes nothing, calls nobody, ends every goroutine at its guard, and returns |
| Restart.RoundTrip | service.go:74-85 | a successful StartAll and, after anything but another StartAll, a successful StopAll leave every base as new and every channel closed except those handed to clients meanwhile |
| Hangs.LateSubscriberHangs | maestro.go:238-250 | a reachable boot of two services, uncancelled, whose second waits for the first and that never returns |
| Hangs.CancellationHangs | maestro.go:222-250 | a boot of two services that is sure to return uncancelled, and a cancelled run of it that never returns |
| Hangs.TwoAreDown | maestro.go:322-388 | a reachable StopAll of two running services that stops both without an error |
| Hangs.StopAllHangs | maestro.go:340-360 | a reachable shutdown of two running services, uncancelled, that never returns |
| Hangs.ThirtyThirdFailureHangs | maestro.go:222-231 | 32 failed boots of a single service and a 33rd that never returns |

## Left out

- The closings of one success are one step of the protocol, while the class closes one channel after another: the base is locked meanwhile, and a closing never blocks and disturbs nobody.
- Locks in general: a base is locked while a failing call sends on it. Every other method of a base is one step, and calls of the Maestro exclude each other, which is what their mutexes are for.
- Real time: a timer may fire at any moment, and durations appear in `retries.dfy` only.
- Services whose own Start or Stop does not return, or that call back into the Maestro.
- One service object under two names, or in two registries, which then share a base: AddServiceWithBackoff says what registering it does, while the checks and the protocol are about registries in which every name has a base of its own.
- Channels that clients obtain from a service before it is registered: a service joins the protocol with nobody subscribed.
- The reflection that finds the base inside a service, and the panic when it has none.
- Which services exactly a cancelled call leaves at the goal: that depends on when the cancellation hits. Outcomes.DoneIsExpected bounds them from above.
- Messages, logging, the global registry and trivial accessors.
- The service implementations under services/ and their configuration from the environment.
