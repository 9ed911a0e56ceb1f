// The delivery pipeline as a step protocol: API transactions, outbox relays,
// queue operations and delivery workers, interleaved arbitrarily.
//
// Every action is one database transaction, one queue operation, one HTTP event
// or one failure of the environment. Ids are natural numbers standing for UUIDs;
// module JobIds relates the keys of queue jobs to their text form.
module Pipeline {
  import opened Common

  type MaxAttempts = m: int | 1 <= m witness 8

  type EventId = nat
  type DeliveryId = nat
  type RowId = nat
  type RunId = nat
  type TickId = nat

  datatype Status = Pending | Succeeded | FailedRetrying | Dead
  datatype Delivery = Delivery(event: EventId, status: Status, attemptCount: nat)

  // UNIQUE(delivery_id, attempt_no): the pair is the key of the attempts table.
  datatype Attempt = Attempt(delivery: DeliveryId, no: nat)
  datatype Outcome = Ok | HttpFailed | CircuitOpen

  // `owner` is the run that inserted the row; the code keeps the row's id in a local.
  datatype ClaimRow = ClaimRow(owner: RunId, result: Option<Outcome>)

  // `delivery` is None for an event's fan-out row and names the one delivery of a
  // redelivery or ping row.
  datatype Row = Row(event: EventId, delivery: Option<DeliveryId>, published: bool)

  datatype JobKey = FanoutJob(delivery: DeliveryId) | RowJob(delivery: DeliveryId, row: RowId)
  datatype JobState = Waiting | Delayed | Active(run: RunId)

  // `made` is the queue's own attempt counter. `signalled` and `faults` record why
  // it grew: the attempt numbers for which a RetrySignal ended a run of this job,
  // and the runs that ended in any other exception.
  datatype Job = Job(state: JobState, made: nat, signalled: set<nat>, faults: nat)

  // Where one invocation of the worker's job callback stands.
  datatype Pc =
    | Taken                                  // job in hand, delivery row not read
    | HasRead(count: nat)                    // row read non-terminal, attemptCount as read
    | Claimed(no: nat)                       // claim row inserted
    | Sent(no: nat)                          // circuit allowed, HTTP request sent
    | Answered(no: nat, outcome: Outcome)    // outcome known, nothing written
    | Recorded(no: nat, outcome: Outcome)    // attempt row has its result
    | MustRetry(no: nat)                     // process returned FAILED
    | Finishing                              // process returned anything else
  datatype Run = Run(job: JobKey, pc: Pc)

  // One relay tick: rows batch[..at] are enqueued, `added` targets of row batch[at]
  // are, and `broken` says an enqueue failed.
  datatype Tick = Tick(batch: seq<RowId>, at: nat, added: set<DeliveryId>, broken: bool)

  datatype Target = Target(row: RowId, delivery: DeliveryId)

  datatype State = State(
    // PostgreSQL
    events: set<EventId>,
    deliveries: map<DeliveryId, Delivery>,
    attempts: map<Attempt, ClaimRow>,
    outbox: map<RowId, Row>,
    // BullMQ
    jobs: map<JobKey, Job>,
    // processes
    runs: map<RunId, Run>,
    nextRun: RunId,
    ticks: map<TickId, Tick>,
    // the receiver's table of processed delivery ids
    processed: set<DeliveryId>,
    // what happened so far; no step but its own reads these
    sent: set<Attempt>,
    acked: set<Attempt>,
    effects: multiset<DeliveryId>,
    enqueued: set<Target>,
    redelivered: multiset<DeliveryId>,
    // deliveries whose job was lost otherwise than by its work being done
    dropped: set<DeliveryId>)

  const INIT := State({}, map[], map[], map[], map[], map[], 0, map[], {}, {}, {}, multiset{}, {}, multiset{}, {})

  datatype ApiCall =
    | Publish(event: EventId, targets: set<DeliveryId>, row: RowId)
    | Ping(event: EventId, delivery: DeliveryId, row: RowId)
    | Redeliver(delivery: DeliveryId, row: RowId)

  datatype RelayStep =
    | StartTick(batch: seq<RowId>, size: nat)
    | Add(delivery: DeliveryId)
    | NextRow
    | AddFails
    | Mark
    | TickDies

  datatype QueueStep = Promote | Take | Stall

  datatype RunStep = Read | SkipEndpoint | Claim | Deny | Send | Respond(ok: bool) | Record | Write

  datatype RunEnd = Defer | Signal | Complete | Fault | Crash

  datatype Action =
    | Api(call: ApiCall)
    | Relay(tick: TickId, relayed: RelayStep)
    | Queue(job: JobKey, queued: QueueStep)
    | Worker(run: RunId, step: RunStep)
    | Ends(run: RunId, end: RunEnd)
    | Receive(attempt: Attempt)

  // ---- vocabulary ----

  predicate Terminal(status: Status) {
    status == Succeeded || status == Dead
  }

  // A fan-out row is for every delivery of its event, any other for one delivery.
  predicate IsTarget(deliveries: map<DeliveryId, Delivery>, row: Row, d: DeliveryId) {
    && d in deliveries
    && match row.delivery
       case Some(only) => d == only
       case None => deliveries[d].event == row.event
  }

  function KeyFor(outbox: map<RowId, Row>, row: RowId, d: DeliveryId): JobKey
    requires row in outbox
  {
    if outbox[row].delivery.Some? then RowJob(d, row) else FanoutJob(d)
  }

  // The run's claim row is inserted and its delivery row not yet updated.
  predicate Window(pc: Pc) {
    pc.Claimed? || pc.Sent? || pc.Answered? || pc.Recorded?
  }

  predicate Owns(s: State, r: RunId)
    requires r in s.runs
  {
    var j := s.runs[r].job;
    j in s.jobs && s.jobs[j].state == Active(r)
  }

  // No run works on d with a job it has lost.
  predicate NoStray(s: State, d: DeliveryId) {
    forall r :: r in s.runs && s.runs[r].job.delivery == d ==> Owns(s, r)
  }

  predicate PendingRow(s: State, x: RowId) {
    x in s.outbox && !s.outbox[x].published
  }

  // A batch as the relay selects it: PENDING rows by ascending id, the lowest
  // first, at most `size` of them, fewer only when there are no more.
  ghost predicate IsBatch(s: State, batch: seq<RowId>, size: nat) {
    && |batch| <= size
    && (forall i :: 0 <= i < |batch| ==> PendingRow(s, batch[i]))
    && (forall i, k :: 0 <= i < k < |batch| ==> batch[i] < batch[k])
    && (forall x, i :: PendingRow(s, x) && x !in batch && 0 <= i < |batch| ==> batch[i] < x)
    && (|batch| < size ==> forall x :: PendingRow(s, x) ==> x in batch)
  }

  // ---- enabledness ----

  ghost predicate ApiEnabled(s: State, call: ApiCall) {
    match call
    case Publish(e, targets, row) => e !in s.events && targets !! s.deliveries.Keys && row !in s.outbox
    case Ping(e, d, row) => e !in s.events && d !in s.deliveries && row !in s.outbox
    case Redeliver(d, row) => d in s.deliveries && row !in s.outbox
  }

  ghost predicate RelayEnabled(s: State, t: TickId, step: RelayStep) {
    match step
    case StartTick(batch, size) => t !in s.ticks && IsBatch(s, batch, size)
    case Add(d) =>
      && t in s.ticks && !s.ticks[t].broken && s.ticks[t].at < |s.ticks[t].batch|
      && var row := s.ticks[t].batch[s.ticks[t].at]; row in s.outbox && IsTarget(s.deliveries, s.outbox[row], d)
    case NextRow =>
      && t in s.ticks && !s.ticks[t].broken && s.ticks[t].at < |s.ticks[t].batch|
      && var row := s.ticks[t].batch[s.ticks[t].at];
        row in s.outbox && forall d :: IsTarget(s.deliveries, s.outbox[row], d) ==> d in s.ticks[t].added
    case AddFails => t in s.ticks && !s.ticks[t].broken && s.ticks[t].at < |s.ticks[t].batch|
    case Mark =>
      t in s.ticks && (s.ticks[t].broken || s.ticks[t].at == |s.ticks[t].batch|) && s.ticks[t].at <= |s.ticks[t].batch|
    case TickDies => t in s.ticks
  }

  ghost predicate QueueEnabled(s: State, j: JobKey, step: QueueStep) {
    && j in s.jobs
    && match step
       case Promote => s.jobs[j].state == Delayed
       case Take => s.jobs[j].state == Waiting
       case Stall => s.jobs[j].state.Active?
  }

  ghost predicate StepEnabled(s: State, r: RunId, step: RunStep) {
    && r in s.runs
    && match step
       case Read => s.runs[r].pc == Taken
       case SkipEndpoint => s.runs[r].pc.HasRead?
       case Claim => s.runs[r].pc.HasRead?
       case Deny => s.runs[r].pc.Claimed?
       case Send => s.runs[r].pc.Claimed?
       case Respond(ok) => s.runs[r].pc.Sent? && (ok ==> Attempt(s.runs[r].job.delivery, s.runs[r].pc.no) in s.acked)
       case Record => s.runs[r].pc.Answered?
       case Write => s.runs[r].pc.Recorded? && s.runs[r].job.delivery in s.deliveries
  }

  ghost predicate EndEnabled(s: State, r: RunId, end: RunEnd) {
    && r in s.runs
    && match end
       case Defer => s.runs[r].pc == Taken
       case Signal => s.runs[r].pc.MustRetry?
       case Complete => s.runs[r].pc == Finishing
       case Fault => true
       case Crash => true
  }

  ghost predicate Enabled(s: State, a: Action) {
    match a
    case Api(call) => ApiEnabled(s, call)
    case Relay(t, step) => RelayEnabled(s, t, step)
    case Queue(j, step) => QueueEnabled(s, j, step)
    case Worker(r, step) => StepEnabled(s, r, step)
    case Ends(r, end) => EndEnabled(s, r, end)
    case Receive(attempt) => attempt in s.sent
  }

  // ---- effects ----

  function WithPc(s: State, r: RunId, pc: Pc): map<RunId, Run>
    requires r in s.runs
  {
    s.runs[r := s.runs[r].(pc := pc)]
  }

  function NewDeliveries(event: EventId, targets: set<DeliveryId>): map<DeliveryId, Delivery> {
    map d | d in targets :: Delivery(event, Pending, 0)
  }

  // No subscriber, no outbox row.
  function AfterPublish(s: State, event: EventId, targets: set<DeliveryId>, row: RowId): State {
    s.(events := s.events + {event},
       deliveries := s.deliveries + NewDeliveries(event, targets),
       outbox := if targets == {} then s.outbox else s.outbox[row := Row(event, None, false)])
  }

  function AfterPing(s: State, event: EventId, d: DeliveryId, row: RowId): State {
    s.(events := s.events + {event},
       deliveries := s.deliveries[d := Delivery(event, Pending, 0)],
       outbox := s.outbox[row := Row(event, Some(d), false)])
  }

  // A delivery that was dropped is back in hand, unless a stray run may still write it.
  function AfterRedeliver(s: State, d: DeliveryId, row: RowId): State
    requires d in s.deliveries
  {
    s.(deliveries := s.deliveries[d := s.deliveries[d].(status := Pending)],
       outbox := s.outbox[row := Row(s.deliveries[d].event, Some(d), false)],
       redelivered := s.redelivered + multiset{d},
       dropped := if NoStray(s, d) then s.dropped - {d} else s.dropped)
  }

  function AfterStartTick(s: State, t: TickId, batch: seq<RowId>): State {
    s.(ticks := s.ticks[t := Tick(batch, 0, {}, false)])
  }

  // Adding a job under a key that is still in the queue is a no-op.
  function AfterAdd(s: State, t: TickId, d: DeliveryId): State
    requires t in s.ticks && s.ticks[t].at < |s.ticks[t].batch| && s.ticks[t].batch[s.ticks[t].at] in s.outbox
  {
    var row := s.ticks[t].batch[s.ticks[t].at];
    var key := KeyFor(s.outbox, row, d);
    s.(jobs := if key in s.jobs then s.jobs else s.jobs[key := Job(Waiting, 0, {}, 0)],
       ticks := s.ticks[t := s.ticks[t].(added := s.ticks[t].added + {d})],
       enqueued := s.enqueued + {Target(row, d)})
  }

  function AfterNextRow(s: State, t: TickId): State
    requires t in s.ticks
  {
    s.(ticks := s.ticks[t := s.ticks[t].(at := s.ticks[t].at + 1, added := {})])
  }

  function AfterAddFails(s: State, t: TickId): State
    requires t in s.ticks
  {
    s.(ticks := s.ticks[t := s.ticks[t].(broken := true)])
  }

  function MarkRows(outbox: map<RowId, Row>, ids: seq<RowId>): map<RowId, Row> {
    map x | x in outbox :: if x in ids then outbox[x].(published := true) else outbox[x]
  }

  function AfterMark(s: State, t: TickId): State
    requires t in s.ticks && s.ticks[t].at <= |s.ticks[t].batch|
  {
    s.(outbox := MarkRows(s.outbox, s.ticks[t].batch[..s.ticks[t].at]), ticks := s.ticks - {t})
  }

  function AfterTickDies(s: State, t: TickId): State {
    s.(ticks := s.ticks - {t})
  }

  function AfterPromote(s: State, j: JobKey): State
    requires j in s.jobs
  {
    s.(jobs := s.jobs[j := s.jobs[j].(state := Waiting)])
  }

  function AfterTake(s: State, j: JobKey): State
    requires j in s.jobs
  {
    s.(jobs := s.jobs[j := s.jobs[j].(state := Active(s.nextRun))],
       runs := s.runs[s.nextRun := Run(j, Taken)],
       nextRun := s.nextRun + 1)
  }

  // The queue gives an active job back. When its run is still alive the run has
  // lost its lock without knowing.
  function AfterStall(s: State, j: JobKey): State
    requires j in s.jobs && s.jobs[j].state.Active?
  {
    s.(jobs := s.jobs[j := s.jobs[j].(state := Waiting)],
       dropped := if s.jobs[j].state.run in s.runs then s.dropped + {j.delivery} else s.dropped)
  }

  // Only the run that holds the queue's lock can move or remove its job.
  function AfterDefer(s: State, r: RunId): State
    requires r in s.runs
  {
    var j := s.runs[r].job;
    s.(jobs := if Owns(s, r) then s.jobs[j := s.jobs[j].(state := Delayed)] else s.jobs,
       runs := s.runs - {r})
  }

  function AfterRead(s: State, r: RunId): State
    requires r in s.runs
  {
    var d := s.runs[r].job.delivery;
    s.(runs := WithPc(s, r, if d !in s.deliveries || Terminal(s.deliveries[d].status) then Finishing
                            else HasRead(s.deliveries[d].attemptCount)))
  }

  function AfterSkipEndpoint(s: State, r: RunId): State
    requires r in s.runs
  {
    s.(runs := WithPc(s, r, Finishing), dropped := s.dropped + {s.runs[r].job.delivery})
  }

  function AfterClaim(s: State, r: RunId): State
    requires r in s.runs && s.runs[r].pc.HasRead?
  {
    var no := s.runs[r].pc.count + 1;
    var a := Attempt(s.runs[r].job.delivery, no);
    s.(attempts := if a in s.attempts then s.attempts else s.attempts[a := ClaimRow(r, None)],
       runs := WithPc(s, r, if a in s.attempts then Finishing else Claimed(no)))
  }

  function AfterDeny(s: State, r: RunId): State
    requires r in s.runs && s.runs[r].pc.Claimed?
  {
    s.(runs := WithPc(s, r, Answered(s.runs[r].pc.no, CircuitOpen)))
  }

  function AfterSend(s: State, r: RunId): State
    requires r in s.runs && s.runs[r].pc.Claimed?
  {
    var no := s.runs[r].pc.no;
    s.(runs := WithPc(s, r, Sent(no)), sent := s.sent + {Attempt(s.runs[r].job.delivery, no)})
  }

  // The receiver handles a request, however late, and however often the network
  // repeats it; its primary key makes all but the first a duplicate.
  function AfterReceive(s: State, a: Attempt): State {
    s.(processed := s.processed + {a.delivery},
       acked := s.acked + {a},
       effects := if a.delivery in s.processed then s.effects else s.effects + multiset{a.delivery})
  }

  function AfterRespond(s: State, r: RunId, ok: bool): State
    requires r in s.runs && s.runs[r].pc.Sent?
  {
    s.(runs := WithPc(s, r, Answered(s.runs[r].pc.no, if ok then Ok else HttpFailed)))
  }

  function AfterRecord(s: State, r: RunId): State
    requires r in s.runs && s.runs[r].pc.Answered?
  {
    var pc := s.runs[r].pc;
    s.(attempts := s.attempts[Attempt(s.runs[r].job.delivery, pc.no) := ClaimRow(r, Some(pc.outcome))],
       runs := WithPc(s, r, Recorded(pc.no, pc.outcome)))
  }

  function FinalStatus(m: MaxAttempts, no: nat, outcome: Outcome): Status {
    if outcome == Ok then Succeeded else if no >= m then Dead else FailedRetrying
  }

  function AfterWrite(m: MaxAttempts, s: State, r: RunId): State
    requires r in s.runs && s.runs[r].pc.Recorded? && s.runs[r].job.delivery in s.deliveries
  {
    var d := s.runs[r].job.delivery;
    var no := s.runs[r].pc.no;
    var status := FinalStatus(m, no, s.runs[r].pc.outcome);
    s.(deliveries := s.deliveries[d := s.deliveries[d].(status := status, attemptCount := no)],
       runs := WithPc(s, r, if status == FailedRetrying then MustRetry(no) else Finishing))
  }

  // A failed job is delayed while its attempt budget lasts, and removed after.
  function AfterFailure(m: MaxAttempts, jobs: map<JobKey, Job>, j: JobKey, failed: Job): map<JobKey, Job> {
    if failed.made < m then jobs[j := failed.(state := Delayed)] else jobs - {j}
  }

  function SignalledJob(job: Job, no: nat): Job {
    job.(made := job.made + 1, signalled := job.signalled + {no})
  }

  function FaultedJob(job: Job): Job {
    job.(made := job.made + 1, faults := job.faults + 1)
  }

  function AfterSignal(m: MaxAttempts, s: State, r: RunId): State
    requires r in s.runs && s.runs[r].pc.MustRetry?
  {
    var j := s.runs[r].job;
    s.(jobs := if Owns(s, r) then AfterFailure(m, s.jobs, j, SignalledJob(s.jobs[j], s.runs[r].pc.no)) else s.jobs,
       runs := s.runs - {r},
       dropped := if Owns(s, r) && s.jobs[j].made + 1 >= m then s.dropped + {j.delivery} else s.dropped)
  }

  function AfterComplete(s: State, r: RunId): State
    requires r in s.runs
  {
    s.(jobs := if Owns(s, r) then s.jobs - {s.runs[r].job} else s.jobs, runs := s.runs - {r})
  }

  // Any exception out of the callback but RetrySignal and DelayedError.
  function AfterFault(m: MaxAttempts, s: State, r: RunId): State
    requires r in s.runs
  {
    var j := s.runs[r].job;
    s.(jobs := if Owns(s, r) then AfterFailure(m, s.jobs, j, FaultedJob(s.jobs[j])) else s.jobs,
       runs := s.runs - {r},
       dropped := if Owns(s, r) && s.jobs[j].made + 1 >= m then s.dropped + {j.delivery} else s.dropped)
  }

  // The process dies: its job stays active until the queue notices.
  function AfterCrash(s: State, r: RunId): State
    requires r in s.runs
  {
    s.(runs := s.runs - {r})
  }

  function AfterApi(s: State, call: ApiCall): State
    requires ApiEnabled(s, call)
  {
    match call
    case Publish(e, targets, row) => AfterPublish(s, e, targets, row)
    case Ping(e, d, row) => AfterPing(s, e, d, row)
    case Redeliver(d, row) => AfterRedeliver(s, d, row)
  }

  function AfterRelay(s: State, t: TickId, step: RelayStep): State
    requires RelayEnabled(s, t, step)
  {
    match step
    case StartTick(batch, size) => AfterStartTick(s, t, batch)
    case Add(d) => AfterAdd(s, t, d)
    case NextRow => AfterNextRow(s, t)
    case AddFails => AfterAddFails(s, t)
    case Mark => AfterMark(s, t)
    case TickDies => AfterTickDies(s, t)
  }

  function AfterQueue(s: State, j: JobKey, step: QueueStep): State
    requires QueueEnabled(s, j, step)
  {
    match step
    case Promote => AfterPromote(s, j)
    case Take => AfterTake(s, j)
    case Stall => AfterStall(s, j)
  }

  function AfterStep(m: MaxAttempts, s: State, r: RunId, step: RunStep): State
    requires StepEnabled(s, r, step)
  {
    match step
    case Read => AfterRead(s, r)
    case SkipEndpoint => AfterSkipEndpoint(s, r)
    case Claim => AfterClaim(s, r)
    case Deny => AfterDeny(s, r)
    case Send => AfterSend(s, r)
    case Respond(ok) => AfterRespond(s, r, ok)
    case Record => AfterRecord(s, r)
    case Write => AfterWrite(m, s, r)
  }

  function AfterEnd(m: MaxAttempts, s: State, r: RunId, end: RunEnd): State
    requires EndEnabled(s, r, end)
  {
    match end
    case Defer => AfterDefer(s, r)
    case Signal => AfterSignal(m, s, r)
    case Complete => AfterComplete(s, r)
    case Fault => AfterFault(m, s, r)
    case Crash => AfterCrash(s, r)
  }

  function Apply(m: MaxAttempts, s: State, a: Action): State
    requires Enabled(s, a)
  {
    match a
    case Api(call) => AfterApi(s, call)
    case Relay(t, step) => AfterRelay(s, t, step)
    case Queue(j, step) => AfterQueue(s, j, step)
    case Worker(r, step) => AfterStep(m, s, r, step)
    case Ends(r, end) => AfterEnd(m, s, r, end)
    case Receive(attempt) => AfterReceive(s, attempt)
  }

  // ---- runs of the whole system ----

  ghost predicate ValidTrace(m: MaxAttempts, s: State, trace: seq<Action>)
    decreases |trace|
  {
    trace == [] || (Enabled(s, trace[0]) && ValidTrace(m, Apply(m, s, trace[0]), trace[1..]))
  }

  ghost function After(m: MaxAttempts, s: State, trace: seq<Action>): State
    requires ValidTrace(m, s, trace)
    decreases |trace|
  {
    if trace == [] then s else After(m, Apply(m, s, trace[0]), trace[1..])
  }

  predicate MovesRun(a: Action, r: RunId) {
    (a.Worker? || a.Ends?) && a.run == r
  }

  predicate MovesTick(a: Action, k: TickId) {
    a.Relay? && a.tick == k
  }

  // Which actions a run of the system is made of: any; plain ones, which are no API
  // call, no exception, no endpoint found unusable and no failed enqueue; those that do
  // not move one worker run; those that do not move one relay tick.
  datatype Scope = Anyone | PlainOnly | NotRun(run: RunId) | NotTick(tick: TickId)

  predicate Plain(a: Action) {
    match a
    case Api(_) => false
    case Relay(_, step) => step != AddFails && step != TickDies
    case Queue(_, _) => true
    case Worker(_, step) => step != SkipEndpoint
    case Ends(_, end) => end != Fault
    case Receive(_) => true
  }

  predicate InScope(scope: Scope, a: Action) {
    match scope
    case Anyone => true
    case PlainOnly => Plain(a)
    case NotRun(r) => !MovesRun(a, r)
    case NotTick(k) => !MovesTick(a, k)
  }

  ghost predicate IsRun(m: MaxAttempts, scope: Scope, s: State, trace: seq<Action>, t: State) {
    ValidTrace(m, s, trace) && After(m, s, trace) == t && forall i :: 0 <= i < |trace| ==> InScope(scope, trace[i])
  }

  ghost predicate LeadsBy(m: MaxAttempts, scope: Scope, s: State, t: State) {
    exists trace :: IsRun(m, scope, s, trace, t)
  }

  ghost predicate Leads(m: MaxAttempts, s: State, t: State) {
    LeadsBy(m, Anyone, s, t)
  }

  ghost predicate Reachable(m: MaxAttempts, s: State) {
    Leads(m, INIT, s)
  }
}
