# portrelay, modelled and verified

portrelay is a TCP relay. Its listeners race for up to four semaphores (connections and upstream connects in progress,
each globally and per relay), reject or spawn a connection task, and every task gives its permits back and updates
shared atomic counters on whatever way out it takes. Shutdown first waits, then forces. This project models that
protocol, the byte forwarding below it, the buffer pool, the idle timeout, the metrics endpoint and the configuration
parser, and proves what they promise.

How the model is organised:

- **Admission, lifecycle, shutdown.** `RelayProtocol` is one step relation over an unbounded map of listeners and
  connections. Each try-acquire, permit drop, atomic increment and spawn is a step of its own, and steps of different
  processes interleave freely. `RelayInvariant` proves one invariant for all of it: every number the shared state
  exposes is the sum of the weights of the processes, where a weight is a function of a process's own state.
  `RelayGuarantees`, `RelayCauses` and `RelayShutdown` read the promises off that invariant. `RelayLiveness` says what can
  always happen next, and `RelayLives` gives a run for everything that can happen to a connection. `RelayAdmission` and
  `RelayMetrics` hold the same code as methods over objects that change in place, and show that uninterrupted steps do
  what those methods do. `RelayFlows` ties the bytes a connection counts to the directions of its transfer.
- **Forwarding.** `StreamDirection` is an automaton for one direction of an in-order byte stream with half-close
  (section 3.6.1 of RFC 9293). `Forwarding` verifies the copy loop and the splice loop against it; `SpliceReadiness`
  is the edge-triggered readiness loop below the latter; `IdleTransfer` the join, the watchdog and the watch channel.
- **Buffers.** `PoolProtocol` is the pool under concurrency, `BufferPool` the object.
- **Text.** `Endpoint`, `Settings`, `BearerToken`, `MetricsRequest`, `Labels`, with `Text` for strings and numbers.
- **The rest.** `Histogram` and `HistogramRace` for the duration histogram, `LoadBarrier` for the load clients.

Points where the code does something other than one might expect, each stated by a lemma below:

- A rejection by a global limit of a server with several relays does not mean that the limit is exhausted by
  connections (`RefusedWithoutConnections`): the listeners of other relays hold its permits once they are past it. That is
  the only exception (`ExhaustedByConnectionsIff`), so a rejection by a relay's own limit, and any rejection by a server
  with one relay, does mean it (`ExhaustedByConnections`).
- The watchdog's select is unbiased, so a transfer that moved bytes an instant ago can be closed as idle
  (`ActiveConnectionCanTimeOut`, `PollTimesOutActiveIff`); the guarantee that holds is relative to what the watchdog
  has seen.
- `handle_connection` recognises an idle timeout by the kind of the error, so an I/O error that the system reports as
  timed out is counted as one, even for a relay without an idle timeout (`SystemTimeoutCountsAsIdle`); such a relay
  counts exactly those (`IdleTimeoutsWithoutWatchdog`).
- The header matcher looks at every line that happened to be read, so with a token configured the answer to a request
  that continues after its blank line can depend on how it was fragmented (`StatusCanDependOnFragmentation`), exactly
  when the header section does not carry the token and some later line, perhaps cut off, does
  (`FragmentationIrrelevantIff`).
- The printed form of a host that starts with a bracket and has no colon, such as that of `[[x]:80`, cannot be parsed
  (`ReparseIff`).
- A configured name such as `relay-2` can equal the name generated for an unnamed relay (`ConfiguredNameCanCollide`,
  `NamesDifferIffFree`); validation then refuses the settings (`SettingsFromFile`).
- A rendering that races with observations can show a last finite bucket above the count (`BucketCanExceedCount`); when,
  and by how much, is exact (`RenderedExcessIsInFlight`, `BucketExceedsCountIff`).

## Model

| member | source | states |
|---|---|---|
| `RelayInvariant.StepKeepsInv` | src/server.rs:405-530 | every single step, of any listener, connection or the main task, keeps permits, counters, ids and the shutdown phases consistent with what each process has done so far; no listener stops and no connection is forced without its token |
| `RelayInvariant.StepsPay` | src/relay.rs:178-279 | each step of a process changes every semaphore and counter by exactly what it changes in the obligations of that process (or of the task it spawns) |
| `RelayInvariant.ListenerStaysOk` | src/server.rs:438-475 | at every point of the acquisition cascade and of each rollback the listener owns exactly the configured permits of the stages it has passed |
| `RelayInvariant.ConnectionKeepsPermits` | src/relay.rs:178-223 | at every point of its life, whatever the exit path, a connection owns exactly the permits its position entitles it to |
| `RelayInvariant.ConnectionKeepsOutcome` | src/relay.rs:189-273 | a connection's outcome is fixed once, when it leaves, and it is complete exactly when both directions reached their end |
| `RelayInvariant.RunKeepsInv` | src/server.rs:405-530 | the invariant holds after any run of any length under any interleaving |
| `RelayGuarantees.PermitsConserved` | src/server.rs:412-514 | in every reachable state, for each configured semaphore, available plus number of holders is the configured capacity |
| `RelayGuarantees.WhoHoldsWhat` | src/relay.rs:178-223 | listeners hold nothing at any await point, so aborting one leaks nothing; connecting tasks hold all configured permits; waiting and transferring ones exactly the connection permits; finished ones none |
| `RelayGuarantees.LiveConnectionsBounded` | src/server.rs:438-475 | connects in progress never exceed `max_connecting`, and connects, buffer waits and transfers together never exceed `max_connections`, for each relay by its own limits and for all relays together by the global ones |
| `RelayGuarantees.SameHoldersSameAvailability` | src/server.rs:446-475 | availability is a function of who holds what, so a rejected client leaves every semaphore as if it had never come, whatever happened meanwhile |
| `RelayGuarantees.RefusedIffExhausted` | src/server.rs:438-475 | a client is refused at a stage iff that limit is configured and held by as many processes as it allows |
| `RelayGuarantees.ExhaustedByConnectionsIff` | src/server.rs:438-480 | a listener that finds a limit exhausted finds it exhausted by connections iff the limit is its relay's own or no listener of another relay is past it, acquiring later limits, rolling back from them or about to spawn |
| `RelayGuarantees.ListenerHoldsIff` | src/server.rs:438-475 | a listener holds a permit iff it is past the stage that takes it, and a relay's permit only if it is that relay's listener |
| `RelayGuarantees.ExhaustedByConnections` | src/server.rs:446-454 | a refusal by a limit of the relay itself, and any refusal by a server with one relay, means that as many connections hold the limit as it allows |
| `RelayAdmission.RefusedWithoutConnections` | src/server.rs:438-454 | with two relays and a global limit of one, a state is reached in which a client is being refused and no connection exists |
| `RelayGuarantees.SpawnsUnderFreshId` | src/server.rs:477-495 | whatever the interleaving, a connection is spawned under an id that no connection ever had and no other listener has fetched |
| `RelayCauses.IdsAreConsecutive` | src/server.rs:202-202 | ids start at one and none is skipped: as many were given out as connections were spawned or are about to be |
| `RelayGuarantees.AcceptedMinusActiveMinusClosed` | src/metrics.rs:121-138 | in every reachable state, accepted less active less closed is the number of processes between two paired atomic updates |
| `RelayGuarantees.ActiveNeverUnderflows` | src/metrics.rs:130-131 | the gauge is at least 1 whenever some connection has still to decrement it |
| `RelayGuarantees.ActiveHoldsConnectionPermits` | src/server.rs:438-480 | whoever counts as active holds every configured connection permit of its relay: the increment follows the acquisition and the decrement precedes the drop |
| `RelayGuarantees.TotalActiveCounts` | src/metrics.rs:121-131 | the gauges of any number of relays add up to the number of processes between increment and decrement |
| `RelayGuarantees.RelayGaugeBounded` | src/server.rs:446-480 | a relay's gauge is never negative and never above its `max_connections` |
| `RelayGuarantees.GlobalGaugeBounded` | src/server.rs:438-480 | the gauges of all relays together never exceed the global limit |
| `RelayGuarantees.EveryClientAccountedFor` | src/server.rs:412-480 | every client given to a listener is rejected, accepted, still in its hand, or dropped at shutdown |
| `RelayGuarantees.ByteCountersSumStreams` | src/relay.rs:246-279 | in every reachable state each byte counter is the sum of what that direction had delivered at its end, over exactly the connections whose two directions ended and that have made their update of it |
| `RelayFlows.TogetherTracked` | src/relay.rs:366-376 | in every state of a run in which bytes move and streams end only by events of the abstract directions, each connection counts exactly what its two directions have delivered so far |
| `RelayFlows.ByteCountersSumSources` | src/relay.rs:246-279 | in every state of such a run each byte counter is the sum of the lengths of the streams the sources sent, over exactly the connections that have recorded that direction |
| `RelayFlows.EndedFlowIsStream` | src/relay.rs:446-546 | a direction that counts as ended delivered exactly its source's stream, and one that does not, a part of it |
| `RelayFlows.DirectionDrivesFlow` | src/relay.rs:366-376 | whatever events the abstract direction allows, the connection in the protocol can take, and counts what was delivered |
| `RelayFlows.CompletedTransferCountsStreams` | src/relay.rs:237-279 | two directions that succeed end in `closed` being called with exactly the lengths of their two streams |
| `RelayGuarantees.ByteCountersAreLowerBounds` | src/metrics.rs:133-136 | in any reachable state the byte counters are at most what was delivered |
| `RelayGuarantees.OneOutcomePerConnection` | src/relay.rs:189-273 | one connection raises at most one of upstream failure, upstream timeout and idle timeout, and then adds no bytes |
| `RelayGuarantees.FailureCountersCountConnections` | src/metrics.rs:140-152 | in any reachable state the three failure counters together are the number of connections that failed so, at most the accepted ones |
| `RelayCauses.ConnectCountersCountConnects` | src/relay.rs:189-220 | over any run, the upstream failures counted and about to be counted are the connects of that relay that failed, and the upstream timeouts those that timed out |
| `RelayCauses.OutcomesCountBranches` | src/relay.rs:178-273 | over any run, as many connections have an outcome as branches were taken that lead to it |
| `RelayCauses.TransferStarts` | src/relay.rs:338-361 | a connection of a splicing relay starts its transfer once its connecting permits are back, any other only once the pool has granted its buffers |
| `RelayCauses.ErrorsAreBackedOff` | src/server.rs:418-432 | a listener never accepts again after an accept error before its backoff is over |
| `RelayCauses.IdleTimeoutsCountCauses` | src/relay.rs:246-260 | over any run, the idle timeouts counted and about to be counted are exactly the expiries of the watchdog and the errors that the system reports as timed out, on that relay's own connections |
| `RelayCauses.IdleTimeoutsWithoutWatchdog` | src/relay.rs:248-260 | for a relay without an idle timeout each of them is such an error, and no connection ends as timed out iff no direction of its own connections fails so |
| `RelayCauses.SystemTimeoutCountsAsIdle` | src/relay.rs:248-249 | such an error is always possible: in any reachable state it raises the idle counter of any running transfer by one, whatever is configured |
| `RelayShutdown.GracefulMeansQuiescent` | src/server.rs:280-290 | if the graceful phase finishes, every listener has stopped and every connection has finished |
| `RelayShutdown.QuiescentMeansReturned` | src/server.rs:280-290 | then all permits are back, active is 0, and accepted and closed are the number of connections ever spawned: `closed` was recorded exactly once for each |
| `RelayShutdown.QuiescentForever` | src/server.rs:280-290 | and no run from there spawns a connection or changes a semaphore or counter |
| `RelayShutdown.LateSpawns` | src/server.rs:412-436 | after cancellation no run raises the number of connections spawned or on their way to being spawned, for any relay |
| `RelayShutdown.AtMostOneLateConnection` | src/server.rs:412-436 | after cancellation each relay gains at most one connection over any run, and only if its listener was past its last look at the token |
| `RelayLiveness.NothingStopsWithoutCause` | src/server.rs:412-432 | a listener is stopped only after the shutdown, and a connection forced only after the force token, which is set only when the graceful phase has run out of time |
| `RelayLiveness.ComesBack` | src/server.rs:412-515 | before the shutdown a listener gets back to polling for a client from anywhere, by its own steps alone |
| `RelayLiveness.ServesClients` | src/server.rs:412-515 | from every state that is reached before the shutdown a listener can take any number of clients one after the other, and accepts or rejects each |
| `RelayLiveness.DeadlineForces` | src/server.rs:290-297 | when the graceful phase runs out of time the main task forces and aborts, by its own steps alone |
| `RelayLiveness.ShutdownReturns` | src/server.rs:277-306 | from every state that is reached the shutdown, once requested, can end with the server having returned and everything given back, though no peer does anything and the pool grants nothing |
| `RelayLiveness.ShutdownCanBeGraceful` | src/server.rs:280-290 | from every state before the deadline, with peers that answer and end their streams, it ends gracefully, with nothing forced or aborted |
| `RelayShutdown.EveryStepIsProgress` | src/server.rs:412-514 | after cancellation every step of every process, other than moving bytes, uses up work, the work of a spawned task included |
| `RelayShutdown.RunsUseWork` | src/server.rs:290-304 | after cancellation every run, however interleaved, has only a bounded number of steps other than the movement of bytes |
| `RelayShutdown.NobodyStuck` | src/relay.rs:178-244 | once forced and aborted, everything that still runs has an enabled step towards its end, a wait for pool buffers included |
| `RelayShutdown.ForcedDrains` | src/server.rs:290-304 | from any state in which forcing is complete, all processes can be run to their end in no more steps than there is work left |
| `RelayShutdown.EveryForcedRunDrains` | src/server.rs:290-304 | every schedule drains: no run from a forced state takes more work steps than there is work left, one that takes that many has drained, and any other has another one enabled exactly until it has |
| `RelayShutdown.ForcedShutdownReturnsEverything` | src/server.rs:290-304 | that end has every permit back, no active connection, and `closed` recorded once per connection |
| `RelayAdmission.Semaphores.AcquirePermit` | src/server.rs:519-530 | nothing to acquire, one permit less, or a refusal exactly when the limit is exhausted; returning what was acquired restores the semaphores |
| `RelayAdmission.AcquireInOrder` | src/server.rs:438-475 | the cascade takes what the climb takes, and each of its four rejections gives back exactly what was taken |
| `RelayAdmission.AdmitClient` | src/server.rs:438-475 | a client is admitted iff none of its four limits is exhausted; it costs one permit of each configured one, and a rejection costs nothing |
| `RelayAdmission.AdmittedIffNothingExhausted` | src/server.rs:438-475 | trying the limits one after the other succeeds iff all have a permit at the start |
| `RelayAdmission.StepsAdmitLikeTheMethod` | src/server.rs:438-475 | left alone, the listener's steps in the protocol end in the state `AdmitClient` describes, with one rejection counted for a refusal |
| `RelayMetrics.HandleConnection` | src/relay.rs:178-291 | whatever the connect and the transfer do, a connection leaves the gauge once and joins the closed ones once, raises exactly the failure counter its end calls for, adds bytes only if both directions ended, and gives back both connecting permits |
| `RelayMetrics.ServeClient` | src/server.rs:438-514 | one client from accept to end restores every semaphore and the gauge; it is admitted iff no limit is exhausted, then accepted once and closed once, and otherwise rejected once with nothing else changed |
| `RelayMetrics.AdmittedIsSpawned` | src/server.rs:477-514 | left alone, an admitted client is accepted once and becomes a connection under the next id with all permits of its listener, which polls again with none |
| `RelayMetrics.LeavesLikeClosed` | src/relay.rs:275-279 | left alone, a leaving connection's steps make of the figures of its relay what one call of `closed` makes of them, with its stream lengths if both directions ended and with zeros otherwise, and leave every other relay's |
| `RelayLives.LivesLikeHandleConnection` | src/relay.rs:155-291 | whatever the connect and the transfer do to a connection, the protocol has a run in which they do it, from its start to its end, and the figures of its relay are then what `HandleConnection` makes of them |
| `RelayLives.IdleEnds` | src/relay.rs:378-388 | with an idle timeout configured a running transfer can also end by it, and counts it |
| `RelayLives.ListenerTakesAnyAnswer` | src/server.rs:413-432 | a listener that gets an error backs off, and one that gets no client is suspended, with no other effect |
| `StreamDirection.CutAnywhere` | src/relay.rs:446-546 | dropped at any await, a direction has delivered a prefix of the source, in order, with no more than a window in flight, and has shut the write side only if the whole stream was delivered |
| `StreamDirection.SuccessDeliversStream` | src/relay.rs:446-546 | success means: exactly the stream was delivered, its end was seen, the count is its length, and the write shutdown is the one last event |
| `Forwarding.CopyDirection` | src/relay.rs:525-546 | for every pattern of short reads, partial writes and errors the loop refines the abstract direction with the buffer as window; it fails iff a call failed, and otherwise delivers everything, half-closes and returns the length |
| `Forwarding.DrainPending` | src/relay.rs:460-472 | after any pattern of short splices, delivered plus pipe contents are the bytes consumed; on success the pipe is empty |
| `Forwarding.SpliceDirection` | src/relay.rs:446-474 | refines the same abstract direction with one chunk as window; delivered plus pipe contents is always the consumed prefix; it fails iff a call failed or a splice out of the pipe moved nothing |
| `SpliceReadiness.RunKeepsWakeups` | src/relay.rs:477-506 | over any run, with data and room at least one readiness flag is set, although flags are cleared and edges arrive at any time between an attempt and the clearing |
| `SpliceReadiness.NeverParkedWithWork` | src/relay.rs:477-506 | from any reachable state with data and room the loop's own next steps, at most three, complete a splice |
| `SpliceReadiness.ParksWithoutWork` | src/relay.rs:484-505 | nor does the loop spin: with no data or no room, and no edge, it takes at most eight steps, and stops exactly when it is parked |
| `SpliceReadiness.EdgeWakes` | src/relay.rs:484-505 | an edge on either side wakes a parked loop, and the splice it tries succeeds iff the other side was ready too |
| `SpliceReadiness.StepKeepsWakeups` | src/relay.rs:484-505 | each single step keeps it, the clearing of a flag after a blocked attempt included |
| `SpliceReadiness.ClearingBlindlyLosesWakeup` | src/relay.rs:486-503 | the comparison of ticks when a flag is cleared is needed: without it a reachable state would park with work to do |
| `PoolProtocol.StepKeepsInv` | src/relay.rs:93-141 | every request, grant, claim, push and release keeps permits and buffers conserved, and exactly the waiting clients queued |
| `PoolProtocol.StepAllocates` | src/relay.rs:100-105 | a step allocates only what makes the buffers created keep up with those that are out |
| `PoolProtocol.HolderMovesOn` | src/relay.rs:133-141 | whoever owns a permit has a step of its own that brings it closer to giving it back and needs no step of another client; when it takes it is up to its peers |
| `PoolProtocol.AllocatedIsHighWater` | src/relay.rs:93-118 | over any run the buffers ever allocated are exactly the most that were out at once, never more than the pool size, and all of them are on the free list or out |
| `PoolProtocol.HeadIsGranted` | src/relay.rs:94-99 | no deadlock: with two permits in all, those that hold permits can by their own steps alone let the head of the queue be granted |
| `PoolProtocol.EveryoneIsGranted` | src/relay.rs:94-99 | wherever a client is queued, grants and the steps of permit holders are enough for it to come to the head and be granted |
| `PoolProtocol.EveryScheduleServes` | src/relay.rs:93-141 | as long as permit holders keep moving on nobody starves: every schedule of such steps and grants is bounded, and can be continued exactly until nobody waits and all permits are back |
| `PoolProtocol.NewClientGetsBuffers` | src/relay.rs:93-118 | in every state a new client can ask, and a run ends with its two buffers in use |
| `PoolProtocol.DroppedClientReturnsEverything` | src/relay.rs:93-99 | a client dropped while it waits leaves the queue and costs nothing, and one dropped between the grant and its buffers gives both permits back |
| `PoolProtocol.NobodyOvertakes` | src/relay.rs:94-97 | a waiting request is never overtaken, and each grant brings it one place forward |
| `BufferPool.BufferPool.Pop` | src/relay.rs:104-105 | a buffer handed out has no other owner and the configured size, and is new only when the free list was empty |
| `BufferPool.BufferPool.AcquirePair` | src/relay.rs:93-118 | two different buffers that nobody else has, for two permits, allocating exactly what the free list lacks |
| `BufferPool.BufferPool.PushBack` | src/relay.rs:134-138 | the buffer changes owner to the free list while its permit is still owned |
| `BufferPool.BufferPool.ReleasePermit` | src/relay.rs:139 | a permit may return only while fewer buffers are out than permits are owned |
| `BufferPool.BufferPool.Drop` | src/relay.rs:133-141 | the buffer is back on the free list and out of its owner's hands before the permit returns; in between there is a permit for every buffer that is out |
| `IdleTransfer.RunKeepsInv` | src/relay.rs:364-388 | over any run of polls each running direction owns a sender, and a transfer that is not resolved has one when the watchdog is polled |
| `IdleTransfer.StepKeepsInv` | src/relay.rs:364-388 | every single step of a poll keeps senders and running directions paired and the timer tied to the last change seen |
| `IdleTransfer.TimeoutNeedsSilence` | src/relay.rs:548-561 | the closed-channel return is unreachable, and a timeout needs the full idle time since the start or the last notification the watchdog consumed, whatever was coalesced |
| `IdleTransfer.PollTimesOutActiveIff` | src/relay.rs:551-558 | in the watchdog's poll a transfer that moved bytes within the timeout can be closed as idle iff the timer is due and a notification that young is unseen |
| `IdleTransfer.ActiveConnectionCanTimeOut` | src/relay.rs:378-388 | from every reachable state a run to such an end exists iff the transfer has not ended and the timer is not already bound to fire on a silent one, so no condition on the connection excludes it |
| `IdleTransfer.SuspendedCanEnd` | src/relay.rs:366-386 | from wherever it is suspended a transfer can still end with both directions finished, or with the failure of one, however much time has passed |
| `IdleTransfer.IdleWatchdog.Poll` | src/relay.rs:548-561 | one poll ends only for a due timer or a closed channel, and otherwise suspends with the latest version seen and the timer running from the last change |
| `Endpoint.ParseIffSpelled` | src/config.rs:21-86 | a text parses to an endpoint iff it spells it: padding, a plus sign, leading zeros, an omitted host and brackets make no difference, and nothing else is accepted |
| `Endpoint.SpelledParses` | src/config.rs:21-86 | every spelling of a host and port, however padded, parses to exactly them |
| `Endpoint.ParsedIsSpelled` | src/config.rs:21-86 | whatever parses is a spelling of the result |
| `Endpoint.FormatInjective` | src/config.rs:76-80 | the printed address determines host and port, for any hosts |
| `Endpoint.ReparseIff` | src/config.rs:21-90 | parsing the printed address with the same flags gives the endpoint back iff its host is not one that opens a bracket and has no colon; for those it is an error |
| `Endpoint.BracketExample` | src/config.rs:31-53 | such an endpoint is accepted |
| `Endpoint.ShorthandExample` | src/config.rs:609-614 | `:13306` is a listener on all addresses |
| `Endpoint.HostNameExample` | src/config.rs:615-620 | `db.internal:3306` is a target by name |
| `Endpoint.Ipv6Example` | src/config.rs:623-630 | `[::1]:5432` is an IPv6 address whose printed form has its brackets |
| `Endpoint.PaddingIgnored` | src/config.rs:26 | spaces, tabs and line ends around an endpoint make no difference |
| `Text.WhitespaceIs` | src/config.rs:70 | which characters count as white space in a name or a host |
| `Settings.Validate` | src/config.rs:204-321 | passes iff what the program relies on holds: buffers in pairs, every configured limit, timeout and size positive, TLS files together and with a listener, a token that is not empty, and names and nonzero-port listeners pairwise distinct; otherwise the error is the first thing wrong with the globals or with the first relay that does not fit |
| `Settings.VerdictIsUnique` | src/config.rs:204-321 | which determines the result |
| `Settings.OnlyDefectIsReported` | src/config.rs:254-312 | a relay with nothing wrong but one field is refused for that field |
| `Settings.PassServesPools` | src/config.rs:217-221 | with settings that pass, a pool goes on serving until nobody waits |
| `Settings.AddressesMatchListeners` | src/config.rs:263-268 | comparing printed addresses is comparing hosts and ports |
| `Settings.NameRelays` | src/config.rs:552-557 | every name that is configured and not blank is kept as it is, any other relay is named after its position; names are never blank, and two of them are equal only if one was configured |
| `Settings.NamesAreNotBlank` | src/config.rs:554-557 | every relay gets a name that validation does not find blank |
| `Settings.GeneratedNamesDiffer` | src/config.rs:557 | generated names never collide with each other, for any number of unnamed relays |
| `Settings.NamesDifferIffFree` | src/config.rs:554-557 | the names given to the relays are distinct iff the configured ones are and none of them is the one generated for an unnamed relay |
| `Settings.SettingsFromFile` | src/config.rs:552-557 | naming and then validating passes iff that holds and the rest is sound: every collision is refused, and no name is refused for another reason |
| `BearerToken.ValueMatchesIffCredential` | src/server.rs:673-681 | a field value matches iff it is the scheme in any case, white space and the token, with any white space around them |
| `BearerToken.AuthorizedIffSomeHeader` | src/server.rs:664-683 | a request printed from any list of headers is authorized iff one of them is named Authorization, in any case, and carries the token; nothing in the request line counts |
| `BearerToken.AuthorizedIffSomeField` | src/server.rs:665-682 | whatever the bytes of a request are, it is authorized iff some line after the first is, up to its first colon, named Authorization and carries the token after it; a line without a colon never counts |
| `BearerToken.LinesJoin` | src/server.rs:665 | the lines looked at are what is between the line feeds, and nothing is lost |
| `BearerToken.EqualsIgnoringCaseIff` | src/server.rs:670-677 | the comparison ignores the case of letters and nothing else |
| `BearerToken.UsualSpelling` | src/server.rs:664-683 | `Authorization: Bearer` with the token is accepted for every token |
| `BearerToken.Delimiters` | src/server.rs:665-667 | lines end with a carriage return and a line feed, and a colon ends the name |
| `BearerToken.OtherSpelling` | src/server.rs:664-683 | and so are capitals, small letters and a tab |
| `BearerToken.TrimAsciiSkips` | src/server.rs:685-695 | trimming removes any padding and nothing else |
| `MetricsRequest.ReadMetricsRequest` | src/server.rs:644-662 | for every fragmentation, what is read is a prefix of the stream, complete iff the part that fits the buffer has the blank line; reading stops with the fragment that completes it; it fails iff a read failed, and then nothing complete had arrived |
| `MetricsRequest.StatusMeans` | src/server.rs:598-634 | the metrics are sent iff the request is authorized, complete and begins with `GET /metrics `, and each other status for its own reason |
| `MetricsRequest.ScrapeSucceeds` | src/server.rs:594-634 | every scrape of at most 4096 bytes with a header that carries the token gets the metrics, under every fragmentation |
| `MetricsRequest.LongRequestIsBad` | src/server.rs:583-619 | a header section that does not end within 4096 bytes is a bad request |
| `MetricsRequest.FragmentationIrrelevantIff` | src/server.rs:594-634 | with a token, all fragmentations get the same status iff the first 4096 bytes have no blank line, or the header section carries the token, or no later line does, wherever it is cut off |
| `MetricsRequest.StatusIgnoresFragmentation` | src/server.rs:594-634 | in each of these cases any two fragmentations get the same status |
| `MetricsRequest.HeaderDecidesWhen` | src/server.rs:598-604 | two of them a client can arrange: nothing follows the blank line, or the token is in the header section and anything follows |
| `MetricsRequest.StatusIgnoresFragmentationWithoutToken` | src/server.rs:594-634 | without a configured token it never does |
| `MetricsRequest.BodyLinesCount` | src/server.rs:664-665 | lines after the blank line authorize a request just as headers do |
| `MetricsRequest.StatusCanDependOnFragmentation` | src/server.rs:598-612 | so a request with its credential after the blank line is refused or not depending on fragmentation |
| `Labels.EscapeLabelIsEscapeEach` | src/metrics.rs:288-293 | the three successive replacements are one substitution per character |
| `Labels.LabelReadsBack` | src/metrics.rs:288-293 | a reader of the text format gets exactly the name back and stops exactly at the closing quote, whatever follows |
| `Labels.LabelsInjective` | src/metrics.rs:96-99 | distinct relay names have distinct labels |
| `Labels.LabelHasNoNewline` | src/metrics.rs:288-293 | no name breaks the line of its sample |
| `Labels.BackslashLastBreaks` | src/metrics.rs:290-291 | the order of the replacements matters: with the backslash last a quote in a name would end the label |
| `Histogram.Histogram.Observe` | src/metrics.rs:29-42 | keeps each bucket the number of observations that belong in it, and count and sum those of all |
| `Histogram.Histogram.Render` | src/metrics.rs:44-69 | at rest, each bound shows how many observations are not above it, never decreasing up to the infinite one |
| `Histogram.FractionLabels` | src/metrics.rs:10-12 | the bounds below a second are labelled 0.001 to 0.500 |
| `Histogram.WholeLabels` | src/metrics.rs:10-12 | the others 1, 5, 30 and 300 |
| `Histogram.SecondsStringInjective` | src/metrics.rs:72-78 | different bounds have different labels |
| `HistogramRace.RenderedExcessIsInFlight` | src/metrics.rs:29-58 | with any number of concurrent observations and renderings, a complete rendering shows a last finite bucket above the count iff the observations between their two updates outnumber those above all bounds and those that came after their bucket was loaded; the excess is the difference |
| `HistogramRace.BucketExceedsCountIff` | src/metrics.rs:33-58 | an uninterrupted rendering, from any state of any run, does so iff more observations are between their updates than were above all bounds |
| `HistogramRace.WholeObservation` | src/metrics.rs:29-42 | an observation that is not interrupted raises its bucket, if there is one, and the count |
| `LoadBarrier.StepKeepsInv` | examples/load_client.rs:141-160 | while no permit is stored, what the main task has read covers every client that has notified; the counters are those of the clients |
| `LoadBarrier.ParkedMeansSomeoneWillNotify` | examples/load_client.rs:141-148 | no lost wakeup: whenever the main task is parked some client has still to notify |
| `LoadBarrier.BarrierOpens` | examples/load_client.rs:141-148 | once all clients have notified the main task passes by its own steps, at most four |
| `LoadBarrier.StartSignalComes` | examples/load_client.rs:141-160 | from every state that is reached before the barrier opens there is a run to the start signal, whichever connects fail |
| `LoadBarrier.EveryoneEnds` | examples/load_client.rs:235-262 | after it every client that held its socket can close it |
| `LoadBarrier.BarrierCounts` | examples/load.rs:113-123 | past the barrier nobody is still connecting and the reported number is all clients less the failed ones; until the start signal as many sockets are open as clients connected, and only the signal lets one be closed |

## Left out

- Sockets, socket options, descriptors, epoll, TLS and signals: a socket is a byte sequence with its end and errors, readiness a flag with edges.
- The runtime: semaphores, the watch channel, `Notify`, the task tracker and `select!` are steps of the models above (atomic FIFO acquisition of two permits, a version that coalesces, one stored permit, a wait that returns when closed and empty, an arbitrary branch unless biased).
- Panics, lock poisoning, allocation failure, wrap-around of 64-bit counters, and orderings weaker than sequential consistency.
- The tasks of the metrics listener and of DNS refresh that share the task tracker and the listener set; a resolver is part of the answer of a connect.
- `observe_upstream_connect`, which no code calls, and the observation of the duration inside `closed`; the latter is `Histogram`.
- Log lines and their sampling, the text of metrics other than labels and buckets, command line and file syntax, and the precedence of relay, global and default options.
- Comparison of tokens in constant time, which is equality here.
- The echo target, the payload rounds and the reports of the load clients, and their gauge of active clients.
- Platform variants: `reuse_port` and `forward_mode` refused where they are not supported.
- RelayProtocol.Step: connects, waits for buffers and idle timeouts are answered by the environment; the pool and the watchdog are proved in their own modules, and the byte loops are tied to the step relation by `RelayFlows`, not run inside it.
- RelayLiveness.ShutdownReturns: a run that exists, not one that every scheduler takes; how long any run can go on is `RunsUseWork` and `EveryForcedRunDrains`.
- RelayShutdown.EveryForcedRunDrains: counts every step but the movement of bytes, of which a peer may cause any number before the force token is seen; that `run` may return earlier, because the last wait is limited to one second, is a step of the model.
- Forwarding.CopyDirection: one direction by itself, with what the peer sends as a fixed sequence; a drop at an await is covered by `CutAnywhere` on its trace, and a drop inside `write_all` shows as one of its partial deliveries.
- PoolProtocol.EveryScheduleServes: about schedules of the steps that serve; a direction whose peer stays silent keeps its buffer for as long as that lasts, unless an idle timeout or the force token ends it.
- BufferPool.BufferPool.AcquirePair: starts where both permits are available; waiting for them is in `PoolProtocol`.
- MetricsRequest.ReadMetricsRequest: its time limit and the force token, which drop it between two reads, are not modelled.
- RelayMetrics.ServeClient: one client by itself; everything that interleaves with others is in `RelayProtocol`.
