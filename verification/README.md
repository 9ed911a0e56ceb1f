# HookRelay, modelled and proved in Dafny

HookRelay delivers webhooks at least once: the API writes events, deliveries and
outbox rows in one database transaction, a relay moves outbox rows into a BullMQ
queue, and workers claim, send, record and retry. This project models that system
and proves what it promises. `dafny verify dfyconfig.toml` checks everything.

## How it is built

**The pipeline** is a step protocol (`Pipeline.dfy`). The state holds the tables,
the queue and any number of relay ticks and worker runs, each with its own
position and stale local values. A step is one transaction, one queue operation,
one HTTP event or one failure (crash, exception, stalled job, late or repeated
request). Steps interleave freely; nothing bounds the number of processes or the
length of a run.

- `Invariant.dfy` proves one inductive invariant of every reachable state.
- `Guarantees.dfy` reads the promises off it: the claim is a lock, each attempt is
  sent once, attempts are bounded, the queue's retry budget is never the first to
  run out, PUBLISHED means enqueued, an effect happens exactly once.
- `NoOrphan.dfy` proves that an unfinished delivery always has an outbox row or a
  job that will work on it, with two exemptions. Either it is wedged: the attempt
  number after its count is claimed and no run is left to write the result. Or it is
  in the ghost set `dropped`: since it was last redelivered its endpoint was unusable,
  exceptions used up its job's attempts, or the queue took its job from a living run.
  A redelivery takes it out of the set, unless a run that lost its job is still at
  work on it. `Causes.dfy` proves that nothing else brings an exemption about, and
  `Losses.dfy` shows a reachable state for each and for that clause.
- `Unaided.dfy` proves that a delivery in neither exemption can be finished by the
  relay, the queue and the workers alone.
- `Wedge.dfy` and `Recovery.dfy` settle what is left. A worker that dies between its
  claim and its delivery update takes the next attempt number with it. Such a
  delivery is lost for good, redelivery included, and it is the only kind that is:
  any other unfinished delivery can still be brought to an end with a redelivery.
  For good means until its claim row is deleted: the purge of attempts older than 90
  days (`backend/src/jobs/purge-attempts.ts:15`), which is left out, would free the
  number.
- `Stores.dfy` holds the tables and the queue as one class with a method for every
  single operation, and `Worker.dfy`, `RelayLoop.dfy` and `ApiCalls.dfy` are the
  services as the code writes them, loops, early returns and exceptions included.
  Each awaited call lets every other process take any number of steps, and can throw.
  Their contracts say the whole run is a run of the protocol, so all of the above
  holds of the code's own order of operations.
- `JobIds.dfy` shows that the text ids of queue jobs keep apart exactly the keys the
  protocol uses. `Publishing.dfy` fills in the publish transaction and shows that
  publish calls among any other steps are a run of the protocol; `Receiver.dfy` does
  the same for the receiver's handler and the receive step.

**Timed state.** `Circuit.dfy` is the breaker and its store, `CircuitProbe.dfy` the
single half-open probe, `CircuitRate.dfy` the rate at which a dead endpoint is
knocked on one attempt after another, `CircuitLoad.dfy` the same for workers in
parallel, `CircuitRaces.dfy` the store at the granularity of single Redis commands.
`RateLimiter.dfy`, `EndpointCache.dfy` and `ApiKeys.dfy` are the publish limiter, the
worker's endpoint cache and lazy key expiry; `KeyRaces.dfy` is key rotation by single
statements.

**Arithmetic and order.** `Backoff.dfy`, `Pagination.dfy` and `Ssrf.dfy`, over
`Arithmetic.dfy` and `Decimal.dfy`.

## Where the code differs from what is said of it

- The comment at `backend/src/worker/backoff.ts:11` puts the longest total wait at
  about 13 hours. The seven ceilings of the default policy add up to 3,810 seconds
  (`Backoff.DefaultsWaitUnderAnHourAndFourMinutes`).
- A half-open circuit is meant to let one probe through. It does in every run if, and
  only if, attempts report within both the 30 s life of the probe key and the
  cooldown; otherwise two probes can be out at once (`CircuitProbe.SingleProbeExactlyWhen`).
- Two rotations of one tenant that overlap can leave it two ACTIVE keys
  (`KeyRaces.OverlapLeavesTwo`).
- The limiter's fixed windows allow more than `cap` requests in 60 s, but never more
  than `2 * cap - 1` (`RateLimiter.IntervalBound`), which is reached (`RateLimiter.BoundIsMet`).
- A `/0` prefix in the address test would match one address, not all
  (`Ssrf.ZeroPrefixMatchesOne`); no `/0` is in the list.
- The receiver answers "duplicate" also to a request that names no event, such as one
  whose body is a number or a text (`Receiver.DemoReceiver.Consume`), and a timestamp
  that is no number passes its tolerance test (`Receiver.DemoReceiver.InTolerance`); the signature is still required.

## Model

| member | source | states |
|---|---|---|
| Guarantees.ClaimsAreConsecutive | backend/src/worker/delivery.processor.ts:93-157 | in every reachable state the claimed numbers of a delivery are exactly 1..attemptCount or 1..attemptCount+1, and only the last can lack its result |
| Guarantees.OneRunAtATime | backend/src/worker/delivery.processor.ts:93-157 | at most one run of a delivery is between its claim and its delivery update, and it holds number attemptCount+1 |
| Guarantees.LaterSendsAreNew | backend/src/worker/delivery.processor.ts:112 | the requests a run sends from any state are new to that state and pairwise different |
| Guarantees.EachAttemptIsSentOnce | backend/src/worker/delivery.processor.ts:93-112 | over any run of the whole system no (delivery, attemptNo) is sent over HTTP twice |
| Guarantees.ResultsAreTrue | backend/src/worker/delivery.processor.ts:100-123 | a settled attempt row has a result; it is CIRCUIT_OPEN iff nothing was sent, and success only if the receiver took the delivery in |
| Guarantees.ClaimsAreBounded | backend/src/worker/delivery.processor.ts:131-155 | over any run the claims of a delivery are at most maxAttempts plus the redeliveries asked for |
| Guarantees.StatusFitsCount | backend/src/worker/delivery.processor.ts:131-155 | FAILED_RETRYING has 1 <= attemptCount < maxAttempts, DEAD at least maxAttempts, SUCCEEDED at least 1, in every reachable state |
| Guarantees.HistoryMovesForward | backend/src/worker/delivery.processor.ts:64-67 | attemptCount never decreases, and a finished delivery changes only by redelivery |
| Guarantees.RetriesFitTheBudget | backend/src/worker/worker.service.ts:79-92 | the RetrySignals of a job are for distinct numbers below maxAttempts; without other exceptions the job of a retrying delivery is delayed, never dropped |
| Guarantees.PublishedIsEnqueued | backend/src/relay/relay.service.ts:73-104 | every target of a PUBLISHED row has been enqueued, for any crash, partial addBulk and overlap of relays |
| Guarantees.PublishedStays | backend/src/relay/relay.service.ts:101-104 | rows keep their targets, and PUBLISHED never becomes PENDING again |
| Guarantees.TargetsAreSettled | backend/src/relay/relay.service.ts:112-118 | the set of deliveries a row is for does not change after its transaction |
| Guarantees.EffectIsExactlyOnce | demo-receiver/server.js:57-91 | a delivery id has at most one effect in any run, and exactly one once SUCCEEDED |
| NoOrphan.NoDeliveryIsOrphaned | backend/src/relay/relay.service.ts:73-104 | in every interleaving a delivery that is not finished, not wedged and not dropped since its last redelivery has a PENDING row not yet enqueued for it, or a job that will work on it; its next number is free or held by a run that has its job |
| NoOrphan.ActionKeeps | backend/src/worker/worker.service.ts:61-97 | every single step of any process keeps that |
| Causes.DroppedOnlyWhen | backend/src/worker/worker.service.ts:61-97 | the only steps that drop a delivery: a run of it finds its endpoint unusable, its job stalls while the run lives, or a failure was its job's last attempt; a deferral never does |
| Causes.WedgedOnlyWhen | backend/src/worker/delivery.processor.ts:93-157 | the only steps that wedge a delivery: a crash or an exception of its run between claim and delivery update |
| Causes.RedeliveryTakesBack | backend/src/deliveries/deliveries.service.ts:79-91 | after a redelivery with no stray run the delivery is PENDING, no longer dropped, and has its own row |
| Unaided.OwedFinishes | backend/src/worker/worker.service.ts:61-97 | from every reachable state such a delivery reaches SUCCEEDED or DEAD in a run without API call, exception, unusable endpoint or failed enqueue |
| Unaided.RetryFinishes | backend/src/worker/worker.service.ts:81-92 | after a failed attempt the job comes back and can be finished, even when exceptions have used up its attempts |
| Losses.SkippingStrands | backend/src/worker/delivery.processor.ts:74-77 | an unusable endpoint does leave an unfinished delivery without row and job |
| Losses.FaultsStrand | backend/src/relay/relay.service.ts:84-87 | so do exceptions before any claim, for every attempt budget |
| Losses.RetryAfterFaultsStrands | backend/src/worker/worker.service.ts:81-92 | so does a RetrySignal after exceptions have left its job one attempt |
| Losses.StallStrands | backend/src/worker/delivery.processor.ts:93-98 | so does a stalled job whose run lives: the second run collides with the first and completes the job |
| Losses.StrayOutlivesRedelivery | backend/src/deliveries/deliveries.service.ts:79-91 | so does that run after a redelivery made while it is still at work |
| Losses.CrashStrands | backend/src/worker/delivery.processor.ts:93-98 | so does a crash after the claim, and that delivery is wedged |
| Invariant.StepKeepsInv | backend/src/worker/delivery.processor.ts:54-158 | every step of every process keeps the whole invariant |
| Invariant.ReachableKeepsInv | backend/src/worker/delivery.processor.ts:54-158 | the invariant holds in every reachable state |
| Wedge.WedgeIsForever | backend/src/worker/delivery.processor.ts:93-98 | a claim without a run blocks its delivery for ever: no run of the system, with any redeliveries, advances it or sends it again |
| Recovery.FinishableUnlessWedged | backend/src/worker/delivery.processor.ts:93-98 | an unfinished delivery can still reach SUCCEEDED or DEAD, a redelivery allowed, iff it is not wedged |
| Recovery.RedeliveryFinishes | backend/src/deliveries/deliveries.service.ts:79-91 | from a row of its own, a delivery nobody holds can be brought to an end by the relay and a worker |
| Recovery.RelayReaches | backend/src/relay/relay.service.ts:64-109 | for any target of any PENDING row, fan-out or single, some run of relay ticks enqueues it whatever rows are ahead; it then has a job, a waiting one if it had none |
| Stores.Cluster.InsertClaim | backend/src/worker/delivery.processor.ts:160-177 | inserts the claim iff (delivery, attemptNo) is free, and otherwise changes only the run |
| Stores.Cluster.UpdateDelivery | backend/src/worker/delivery.processor.ts:131-157 | the status and count written are the protocol's write step |
| Stores.Cluster.FailJob | backend/src/worker/worker.service.ts:81-92 | the queue's answer to RetrySignal is the protocol's signal step |
| Stores.Cluster.ThrowOut | backend/src/worker/worker.service.ts:61-97 | its answer to any other exception is the protocol's fault step |
| Stores.Cluster.MarkPublished | backend/src/relay/relay.service.ts:101-104 | the conditional update marks exactly the enqueued prefix of the batch |
| Stores.Cluster.ResetAndReserve | backend/src/deliveries/deliveries.service.ts:81-89 | status reset and outbox row in one step, nothing else |
| Stores.OthersLeaveRun | backend/src/worker/delivery.processor.ts:54-158 | nothing that other processes do while a run awaits changes that run |
| Worker.DeliveryProcessor.Process | backend/src/worker/delivery.processor.ts:54-158 | a run of the protocol whatever interleaves; without an exception the result is the one that the row as read, the claim as found and the answers of endpoint, circuit and receiver call for, each of the seven in exactly its case; with one, status, count and effect are still as the result says |
| Worker.DeliveryProcessor.Load | backend/src/worker/delivery.processor.ts:55-67 | the row is that of the moment it was read; an open one lets the run go on with its count, whatever happened while it waited |
| Worker.DeliveryProcessor.UsesEndpoint | backend/src/worker/delivery.processor.ts:69-77 | no endpoint and an inactive one end the run, each with its own result; an ACTIVE one lets it go on |
| Worker.DeliveryProcessor.Claim | backend/src/worker/delivery.processor.ts:160-177 | claimed iff the number was free at that moment; the run then holds attemptCount as read plus one, and otherwise ends; when the insert throws, the row may be there or not |
| Worker.DeliveryProcessor.SendAndFinish | backend/src/worker/delivery.processor.ts:100-157 | the attempt goes over HTTP iff the circuit lets it; delivery and run end as the response and the attempt number say, or an exception leaves them at a named point before |
| Worker.DeliveryProcessor.FinishAttempt | backend/src/worker/delivery.processor.ts:179-199 | attempt row first, then status, count and the result returned; an exception leaves neither, the first or both written |
| Worker.WorkerService.HandleJob | backend/src/worker/worker.service.ts:61-97 | without an exception it defers iff no slot is free and processes otherwise; a run with the lock leaves a deferred job delayed and otherwise as it was, a failed one delayed with one more attempt made while it has any, any other gone |
| Worker.WorkerService.Report | backend/src/worker/worker.service.ts:81-93 | the same for a result or RetrySignal |
| Worker.WorkerService.Fault | backend/src/worker/worker.service.ts:61-97 | the same for any other exception |
| RelayLoop.RelayService.FindPending | backend/src/relay/relay.service.ts:65-70 | the batch is the lowest PENDING ids, ascending, at most batchSize, fewer only if there are no more |
| RelayLoop.RelayService.AddBulk | backend/src/relay/relay.service.ts:74-92 | on success every target of the row, its event's deliveries or the one it names, is enqueued and has its job; on failure the tick is broken and the row not counted |
| RelayLoop.RelayService.AddTargets | backend/src/relay/relay.service.ts:76-90 | the same for the loop over the targets |
| RelayLoop.RelayService.Tick | backend/src/relay/relay.service.ts:64-109 | one tick marks exactly a prefix of its batch and no other row, all of it when no fault occurs; when it throws, that prefix or nothing; it is a run of the protocol |
| RelayLoop.RelayService.EnqueueRows | backend/src/relay/relay.service.ts:73-98 | rows are enqueued in order up to the first that fails, all of them without a fault |
| RelayLoop.RelayService.MarkEnqueued | backend/src/relay/relay.service.ts:99-104 | the rows marked are exactly the enqueued prefix of the batch; when the update throws, that or none |
| RelayLoop.RelayService.QuietTick | backend/src/relay/relay.service.ts:64-109 | an undisturbed tick takes min(batchSize, n) rows off the n PENDING ones |
| RelayLoop.RelayService.PollUntilIdle | backend/src/relay/relay.service.ts:34-55 | without faults or new rows, n PENDING rows are gone after exactly ceil(n / batchSize) ticks |
| RelayLoop.BatchLeaves | backend/src/relay/relay.service.ts:65-104 | marking a batch takes min(batchSize, n) rows off n PENDING ones |
| ApiCalls.ApiService.Redeliver | backend/src/deliveries/deliveries.service.ts:79-91 | refuses an unknown delivery unchanged; otherwise PENDING with a row of its own whose job id is in no queue |
| ApiCalls.ApiService.Ping | backend/src/endpoints/endpoints.service.ts:106-128 | a new delivery with a row for it alone, not yet enqueued |
| JobIds.JobIdIsInjective | backend/src/queue/queue.constants.ts:18-21 | for ids of one length, job ids agree iff ids and suffixes do |
| JobIds.LengthsMatter | backend/src/queue/queue.constants.ts:18-21 | for ids of different lengths that fails |
| JobIds.KeysAreJobIds | backend/src/relay/relay.service.ts:81-83 | for two deliveries with UUIDs of their own, the job ids of first jobs and of per-row jobs agree iff delivery, kind and row do |
| JobIds.QueueByText | backend/src/relay/relay.service.ts:81-83 | over any finite set of issued UUIDs a job id is in the queue iff its key is |
| JobIds.NoColon | backend/src/queue/queue.constants.ts:19-20 | no job id holds the separator the queue forbids |
| Publishing.EventsService.Publish | backend/src/events/events.service.ts:28-90 | over 64 KiB and a key its tenant has used are refused with no change, the latter naming the first event; otherwise event, one delivery for each listed pair of id and endpoint, and the outbox row are inserted, and nothing else |
| Publishing.FansOutExactly | backend/src/events/events.service.ts:51-71 | an endpoint gets a delivery iff it is the tenant's, ACTIVE and subscribed to the type; one at most; and an outbox row is there iff any is |
| Publishing.ListedAreNew | backend/src/events/events.service.ts:73-76 | beside each new id the answer names the endpoint it delivers to |
| Publishing.RunKeepsSound | backend/src/events/events.service.ts:38-89 | over any call sequence: one event per (tenant, key), one delivery per event and endpoint, rows exactly for events with deliveries |
| Publishing.RepeatsAnswerTheFirst | backend/src/events/events.service.ts:78-89 | whatever came in between, a repeat reports the first event id and changes nothing |
| Publishing.PublishIsPipelineStep | backend/src/events/events.service.ts:39-77 | with newly drawn ids the protocol's publish step is enabled, and it does what the transaction does |
| Publishing.StoryIsPipelineRun | backend/src/events/events.service.ts:38-89 | publish calls, refused ones included, among any steps of every process are a run of the protocol, and the tables stay sound and in step with it |
| Receiver.DemoReceiver.Verify | demo-receiver/server.js:31-55 | each refusal in exactly its case: a header missing, more than 300 s from now, a signature that fits none of the secrets |
| Receiver.DemoReceiver.Consume | demo-receiver/server.js:57-67 | duplicate iff the id is known or no event is named; the table grows otherwise |
| Receiver.DemoReceiver.Hooks | demo-receiver/server.js:77-91 | 400 and 401 in exactly their cases; an effect iff accepted and new; with a named event it is one receive step of the protocol |
| Receiver.DemoReceiver.Serve | demo-receiver/server.js:57-91 | over any requests: the table keeps its rows and gains those received, once each; every accepted request that names its event is in it; what is not accepted is rejected |
| Receiver.DemoReceiver.AddSecret | demo-receiver/server.js:135-140 | adds a non-empty secret and reports how many there are |
| Circuit.CircuitStore.Allow | backend/src/worker/circuit.store.ts:48-65 | CLOSED or nothing stored: passes, nothing changes; OPEN within the cooldown: refused; after it and HALF_OPEN: passes iff the probe key is free, which it then holds for 30 s |
| Circuit.CircuitStore.Failure | backend/src/worker/circuit.store.ts:76-86 | one more failure in any state; OPEN from now iff openAfter is reached; disable iff disableAfter is; the probe key is released |
| Circuit.CircuitStore.Success | backend/src/worker/circuit.store.ts:67-74 | closes the circuit and releases the probe key |
| CircuitProbe.SingleProbeExactlyWhen | backend/src/worker/circuit.store.ts:48-86 | two probes are never out together in any run iff attempts report within min(30 s, cooldown) |
| CircuitProbe.ShortAttemptsProbeAlone | backend/src/worker/circuit.store.ts:48-86 | the sufficient half, over every timed run with crashes and stragglers |
| CircuitProbe.KeyExpires | backend/src/worker/circuit.store.ts:55 | a run with two probes when attempts may outlast the probe key |
| CircuitProbe.StragglerReopens | backend/src/worker/circuit.store.ts:76-81 | a run with two probes when attempts may outlast the cooldown |
| CircuitRate.SendsAreBounded | backend/src/worker/circuit.ts:39-69 | in a success-free sequential stretch of length T at most openAfter + T / cooldown requests go out |
| CircuitLoad.ParallelSendsAreBounded | backend/src/worker/delivery.processor.ts:100-112 | with n attempts at a time, each reporting within min(30 s, cooldown), at most openAfter + n - 1 + T / cooldown requests, and one more for each worker that died with an attempt |
| CircuitLoad.SendsFitBudget | backend/src/worker/circuit.store.ts:48-86 | the same from any state of the circuit, by what it may still send |
| CircuitRate.DisableTakesTime | backend/src/worker/circuit.ts:58-69 | auto-disable comes at least (disableAfter - openAfter) cooldowns after the circuit opens |
| CircuitRaces.DisableNeedsEnoughFailures | backend/src/worker/circuit.store.ts:76-100 | under any interleaving of single Redis commands the stored snapshot is sound and disable follows at least disableAfter written failures |
| CircuitRaces.CommandKeepsConsistent | backend/src/worker/circuit.store.ts:48-100 | every command keeps stored and local snapshots sound and their counts at most the reports written |
| CircuitRaces.UpdatesGetLost | backend/src/worker/circuit.store.ts:76-86 | overlapping failures can count once |
| CircuitRaces.AllowAlone | backend/src/worker/circuit.store.ts:48-65 | the commands of one call, uninterrupted, are the store's `allow` |
| CircuitRaces.FailureAlone | backend/src/worker/circuit.store.ts:76-86 | and those of another its `failure` |
| CircuitRaces.SuccessAlone | backend/src/worker/circuit.store.ts:67-74 | and of a third its `success` |
| RateLimiter.PublishRateLimiter.Consume | backend/src/events/publish-rate-limiter.ts:48-66 | per tenant, with the limit of PRO for that plan and of FREE for any other: accepted iff among the first cap of its window; a refusal names 1..60 s that outlast the window but for half a second |
| RateLimiter.KeyCountsWindow | backend/src/events/publish-rate-limiter.ts:17-22 | the key holds the request's place in its window and the window's end |
| RateLimiter.AcceptsFirstOfWindow | backend/src/events/publish-rate-limiter.ts:48-66 | a request passes iff fewer than cap of its window came before it |
| RateLimiter.WindowsAreApart | backend/src/events/publish-rate-limiter.ts:17-22 | windows are consecutive stretches, each within 60 s of its first request, and 60 s apart |
| RateLimiter.IntervalBound | backend/src/events/publish-rate-limiter.ts:48-66 | any half-open 60 s interval of any request sequence accepts at most 2 cap - 1 |
| RateLimiter.BoundIsMet | backend/src/events/publish-rate-limiter.ts:48-66 | some sequence reaches that bound, for every cap |
| EndpointCache.Cache.Get | backend/src/worker/endpoint-cache.ts:30-48 | a value returned at t was in the table within the TTL (and the read's lag) before t; a live entry is served, else the row is read and stored |
| EndpointCache.Cache.MayClaim | backend/src/worker/delivery.processor.ts:69-77 | claims iff the live entry, or else the row read, is ACTIVE; so never for an endpoint that was out of use for the TTL |
| EndpointCache.Cache.Invalidate | backend/src/worker/endpoint-cache.ts:50-53 | drops one entry or all |
| EndpointCache.StalenessIsReached | backend/src/worker/endpoint-cache.ts:30-47 | the bound is exact: a cache that reads a row just before it changes serves the old value in the TTL's last millisecond |
| ApiKeys.LazyExpiryIsEager | backend/src/auth/api-key.guard.ts:31-43 | after any serial run the guard accepts a key iff it was issued and not rotated out 24 h ago, whether or not REVOKED was written |
| ApiKeys.RunKeepsAgreement | backend/src/auth/api-key.guard.ts:23-50 | the tables refine the plain account of issues and rotations over any run |
| ApiKeys.OneUsableKeyPerTenant | backend/src/api-keys/api-keys.service.ts:18-27 | after any serial run each tenant has exactly one ACTIVE key |
| KeyRaces.CommitIsCleanExactlyWhen | backend/src/api-keys/api-keys.service.ts:21-27 | among overlapping rotations, one leaves its tenant one ACTIVE key iff no other of the tenant committed since its update started |
| KeyRaces.ApartKeepsOneUsable | backend/src/api-keys/api-keys.service.ts:21-27 | it suffices that no two rotations of one tenant overlap |
| KeyRaces.OverlapLeavesTwo | backend/src/api-keys/api-keys.service.ts:21-27 | a run of two that overlap and leave two ACTIVE keys |
| KeyRaces.RotationAlone | backend/src/api-keys/api-keys.service.ts:21-27 | a rotation's two statements, uninterrupted, are the serial rotation |
| ApiKeys.RevokedStays | backend/src/auth/api-key.guard.ts:34-41 | REVOKED is absorbing |
| ApiKeys.KeyTables.CanActivate | backend/src/auth/api-key.guard.ts:23-50 | for `Bearer ` and a key with `sk_live_` the plain account's answer on that key, whole; for any other header InvalidApiKey |
| ApiKeys.KeyTables.Find | backend/src/auth/api-key.guard.ts:31-48 | writes REVOKED exactly to a GRACE key without expiry or past it |
| ApiKeys.HeaderOfKey | backend/src/auth/api-key.guard.ts:25-29 | the key is all that follows `Bearer `, if it begins with `sk_live_` |
| ApiKeys.KeyTables.Rotate | backend/src/api-keys/api-keys.service.ts:18-27 | the new key becomes the tenant's only ACTIVE one, the old ones get 24 h |
| ApiKeys.KeyTables.SignUp | backend/src/tenants/tenants.service.ts:18-24 | a tenant starts with one ACTIVE key |
| Backoff.CeilingGrowsToCap | backend/src/worker/backoff.ts:37-40 | ceilings are monotone in the attempt number and at most the cap |
| Backoff.FirstCeiling | backend/src/worker/backoff.ts:37-40 | up to the first failure the ceiling is the base, or the cap if lower |
| Backoff.JitterReachesExactly | backend/src/worker/backoff.ts:46-54 | the possible delays are exactly the whole numbers from 0 up to the ceiling |
| Backoff.JitterIsBelowCeiling | backend/src/worker/backoff.ts:46-54 | every delay is the random share of the ceiling rounded down, so in [0, ceiling), or 0 when the ceiling is not positive |
| Backoff.SumOfCeilingsIs | backend/src/worker/backoff.ts:37-40 | the sum of k ceilings in closed form, geometric up to the cap and linear after it, for every k |
| Backoff.WaitIsBounded | backend/src/worker/worker.service.ts:86-91 | all waiting of a delivery is below the sum of its ceilings |
| Backoff.DefaultsWaitUnderAnHourAndFourMinutes | backend/src/worker/backoff.ts:17-21 | with the defaults all waiting before DEAD is below 3,810,000 ms |
| Backoff.DelaySurvivesWrapping | backend/src/worker/backoff.ts:57-66 | the queue recovers every delay from the printed message |
| Backoff.OnlySignalsTellDelays | backend/src/worker/backoff.ts:64-65 | any other wrapped message yields the default delay |
| Backoff.NoErrorNoDelay | backend/src/worker/backoff.ts:62-65 | and so does no error |
| Pagination.WalkIsComplete | backend/src/deliveries/deliveries.service.ts:24-54 | following the cursors ends after ceil(n / 20) pages, whose rows are the filtered rows by (createdAt desc, id desc), each once |
| Pagination.WalkReturns | backend/src/deliveries/deliveries.service.ts:24-54 | the same by the rows' columns: exactly the tenant's rows of the status asked for, newest first and by descending id |
| Pagination.StableRowsAreSeenOnce | backend/src/deliveries/deliveries.service.ts:24-54 | while rows come, go and change between requests, no row repeats and none that stays is missed |
| Pagination.PageSplitsWanted | backend/src/deliveries/deliveries.service.ts:47-53 | a page is the first rows wanted and its cursor leaves exactly the rest |
| Pagination.SortDescSorts | backend/src/deliveries/deliveries.service.ts:43 | the order is strict and keeps every row |
| Ssrf.InRangeIsBlock | backend/src/security/ssrf.service.ts:95-100 | for prefixes 1 to 32 and any base the signed mask test holds exactly of the aligned block around the base |
| Ssrf.ZeroPrefixMatchesOne | backend/src/security/ssrf.service.ts:98 | a zero prefix matches the base alone |
| Ssrf.BlockedExactly | backend/src/security/ssrf.service.ts:91-113 | an address is refused for a reason iff it lies in that reason's block |
| Ssrf.AllowedExactly | backend/src/security/ssrf.service.ts:91-113 | an address passes iff it lies in none of the ten blocks |
| Ssrf.SsrfService.AssertDeliverableUrl | backend/src/security/ssrf.service.ts:32-62 | passes iff the URL's form, protocol and credentials are right and, unless private destinations are allowed, its host has an address and all are in no block; each refusal exactly when it is due |
| Ssrf.SsrfService.CheckAddresses | backend/src/security/ssrf.service.ts:55-72 | every resolved address is checked; the first that is in a block is named, with its block |
| Ssrf.BlockedIpReasonIs | backend/src/security/ssrf.service.ts:84-89 | an address has a reason iff it is not allowed, and the reason is a right one |

## Left out

- Stores.Cluster.Await: other processes' steps are an arbitrary stretch of the protocol described by its contract; its body is one possible such stretch, the empty one.
- Stores.Cluster.AwaitTick: the same for the relay.
- ApiCalls.ApiService.Redeliver: a transaction that fails changes nothing and is no step; nor is the error its caller gets.
- Worker.DeliveryProcessor.FinishAttempt: the circuit report and the endpoint's columns written between its two updates are not part of the protocol's state; only their exceptions are modelled.
- NoOrphan.NoDeliveryIsOrphaned: exempts wedged and dropped deliveries, as said above; a dropped one counts as such until its redelivery even while another job of it may be alive.
- Unaided.OwedFinishes: says that some continuation finishes the delivery, not that every fair one does; in it a worker stops before reporting where exceptions have used up its job's attempts.
- Recovery.FinishableUnlessWedged: the same, with a redelivery in it.
- Ssrf.SsrfService.AssertDeliverableUrl: parsing a URL, resolving a name and the rules for IPv6 addresses are inputs.
- CircuitProbe.SingleProbeExactlyWhen: each store method is one step; single commands are in CircuitRaces, where no such bound is claimed.
- CircuitLoad.ParallelSendsAreBounded: each store method is one step.
- RateLimiter.IntervalBound: the tenant's plan is constant and Redis is up.
- EndpointCache.Cache.Get: a lag between reading a row and storing it is allowed for by a parameter; with lag 0 the bound is the 30 s TTL.
- ApiKeys.LazyExpiryIsEager: requests are serial; overlapping rotations are in KeyRaces, without the guard's answers.
- Backoff.WaitIsBounded: numbers are exact, while the source's are doubles; they agree below 2^53.
- Pagination.WalkIsComplete: timestamps are exact, while a cursor carries milliseconds.
- Receiver.DemoReceiver.Serve: the table survives restarts; with the default in-memory database it does not.
- Publishing.FansOutExactly: the endpoints are those the transaction reads; a change committed meanwhile is not modelled.
- BullMQ, PostgreSQL and Redis inside: only the operations used. Adding a live job id does nothing, accepted jobs stay, a stalled job goes back to waiting, deferring costs no attempt. The limit on how often a job may stall is not modelled.
- Jobs without a tenant: the relay always names it, and a job whose tenant cannot be found has no delivery, which `process` skips.
- `nextRetryAt`: written after `process` returns, for display only.
- The tenant limiter's counting: acquiring a slot is a free choice, since its separate decrement and delete keep no bound.
- Redis errors: circuit and limiter fail open, which makes their bounds void.
- HTTP, DNS, TLS, HMAC, SHA-256 and encryption: an outcome chosen freely, or a function nothing is known of.
- Tenant ownership of deliveries and endpoints in redeliver and ping, cursor encoding, payload contents, `attempts` and `getDeliveries`: look-ups and mapping.
- `endpoints.update` and `setSubscriptions`: plain column writes. A manual reactivation resets the database's failure count but not the one in Redis, so the two are not tied.
- `purge-attempts`: it must not remove claim rows of a delivery still in use. It would end a wedge, and it would free settled numbers as well.
- IPv6 text forms and URL parsing.
- The receiver's `/hooks/fail` and `/hooks/slow`, event stream and listing; metrics, frontend, start-up and shutdown.
