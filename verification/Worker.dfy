// The worker as the code writes it, one awaited call after another.
module Worker {
  import opened Common
  import opened Pipeline
  import opened Invariant
  import opened Traces
  import opened Stores

  datatype ProcessResult =
    | Delivered
    | Failed
    | GaveUp
    | SkippedAlreadyDone
    | SkippedEndpointInactive
    | SkippedDuplicateClaim
    | SkippedMissing
    | Threw

  datatype EndpointView = NoEndpoint | Inactive | Usable

  // What the rest of the world answers one invocation of the callback: whether a slot of
  // the tenant is free, what the endpoint is, whether the circuit lets the attempt pass,
  // whether a 2xx comes back, and whether any awaited call may throw. A call that throws
  // does so before or after it has done its work; that ends the method that made it with
  // Threw, and the callback with Faulted.
  datatype World = World(slotFree: bool, endpoint: EndpointView, passes: bool, responds: bool, faultFree: bool)

  datatype JobResult = Deferred | Processed(result: ProcessResult) | Faulted

  // The row of run r's delivery.
  ghost function RowOf(s: State, r: RunId): Option<Delivery>
    requires r in s.runs
  {
    var d := s.runs[r].job.delivery;
    if d in s.deliveries then Some(s.deliveries[d]) else None
  }

  predicate IsOpen(row: Option<Delivery>) {
    row.Some? && row.value.status != Succeeded && row.value.status != Dead
  }

  predicate IsDone(row: Option<Delivery>) {
    row.Some? && (row.value.status == Succeeded || row.value.status == Dead)
  }

  // The result that the row as read, the claim as found and the world's answers call for.
  predicate CalledFor(m: MaxAttempts, world: World, row: Option<Delivery>, taken: bool, result: ProcessResult) {
    var goes := IsOpen(row) && world.endpoint == Usable && !taken;
    var succeeds := goes && world.passes && world.responds;
    && result != Threw
    && (result == SkippedMissing <==> row == None || (IsOpen(row) && world.endpoint == NoEndpoint))
    && (result == SkippedAlreadyDone <==> IsDone(row))
    && (result == SkippedEndpointInactive <==> IsOpen(row) && world.endpoint == Inactive)
    && (result == SkippedDuplicateClaim <==> IsOpen(row) && world.endpoint == Usable && taken)
    && (result == Delivered <==> succeeds)
    && (result == GaveUp <==> goes && !succeeds && row.value.attemptCount + 1 >= m)
    && (result == Failed <==> goes && !succeeds && row.value.attemptCount + 1 < m)
  }

  function SkipFor(endpoint: EndpointView): Option<ProcessResult> {
    match endpoint
    case NoEndpoint => Some(SkippedMissing)
    case Inactive => Some(SkippedEndpointInactive)
    case Usable => None
  }

  function OutcomeIn(world: World): Outcome {
    if !world.passes then CircuitOpen else if world.responds then Ok else HttpFailed
  }

  // What a finished attempt leaves behind.
  ghost predicate Concluded(s: State, m: MaxAttempts, r: RunId, no: nat, outcome: Outcome, result: ProcessResult)
    requires r in s.runs
  {
    var d := s.runs[r].job.delivery;
    && d in s.deliveries && s.deliveries[d].attemptCount == no && s.deliveries[d].status == FinalStatus(m, no, outcome)
    && result == (if outcome == Ok then Delivered else if no >= m then GaveUp else Failed)
    && s.runs[r].pc == if result == Failed then MustRetry(no) else Finishing
  }

  // How far an attempt with a known outcome got that ended in an exception.
  ghost predicate BrokeOff(s: State, m: MaxAttempts, r: RunId, no: nat, outcome: Outcome)
    requires r in s.runs
  {
    || s.runs[r].pc == Answered(no, outcome)
    || s.runs[r].pc == Recorded(no, outcome)
    || exists result :: Concluded(s, m, r, no, outcome, result)
  }

  // What the caller of Process learns from its result.
  ghost predicate ResultTells(s: State, m: MaxAttempts, r: RunId, result: ProcessResult)
    requires r in s.runs
  {
    var d := s.runs[r].job.delivery;
    match result
    case Delivered =>
      && d in s.deliveries && s.deliveries[d].status == Succeeded
      && s.effects[d] == 1 && s.runs[r].pc == Finishing
    case GaveUp =>
      && d in s.deliveries && s.deliveries[d].status == Dead && s.deliveries[d].attemptCount >= m
      && s.runs[r].pc == Finishing
    case Failed =>
      && d in s.deliveries && s.deliveries[d].status == FailedRetrying && s.deliveries[d].attemptCount < m
      && s.runs[r].pc == MustRetry(s.deliveries[d].attemptCount)
    case Threw => true
    case _ => s.runs[r].pc == Finishing
  }

  // An attempt row with its result is as good as the wire.
  lemma RecordIsTrue(m: MaxAttempts, since: State, s: State, r: RunId)
    requires Went(m, since, s) && r in s.runs && s.runs[r].pc.Recorded?
    ensures Attempt(s.runs[r].job.delivery, s.runs[r].pc.no) in s.sent <==> s.runs[r].pc.outcome != CircuitOpen
  {
    WentInv(m, since, s);
    var a := Attempt(s.runs[r].job.delivery, s.runs[r].pc.no);
    assert PcOk(m, s.deliveries, s.attempts, r, s.runs[r]) && Evidence(a, s.runs[r].pc.outcome, s.sent, s.acked);
  }

  lemma EffectOfSuccess(m: MaxAttempts, since: State, s: State, d: DeliveryId)
    requires Went(m, since, s) && d in s.deliveries
    ensures s.deliveries[d].status == Succeeded ==> s.effects[d] == 1
  {
    WentInv(m, since, s);
  }

  // ---- DeliveryProcessor ----

  class DeliveryProcessor {
    const db: Cluster

    constructor (db: Cluster)
      ensures this.db == db
    {
      this.db := db;
    }

    // The tail that every claimed attempt takes: its row, then the delivery's.
    method FinishAttempt(ghost since: State, r: RunId, faultFree: bool) returns (result: ProcessResult)
      requires Went(db.maxAttempts, since, db.View()) && r in db.runs && db.runs[r].pc.Answered?
      modifies db
      ensures Went(db.maxAttempts, since, db.View())
      ensures r in db.runs && db.runs[r].job == old(db.runs)[r].job
      ensures faultFree ==> result != Threw
      ensures var no, outcome := old(db.runs)[r].pc.no, old(db.runs)[r].pc.outcome;
        if result == Threw then BrokeOff(db.View(), db.maxAttempts, r, no, outcome)
        else
          && Concluded(db.View(), db.maxAttempts, r, no, outcome, result)
          && (Attempt(db.runs[r].job.delivery, no) in db.sent <==> outcome != CircuitOpen)
    {
      ghost var m := db.maxAttempts;
      RunFacts(m, since, db.View(), r);
      db.Await(since, r);
      var breaks: bool := *;
      if breaks && !faultFree {
        return Threw;
      }
      Stepped(m, since, db.View(), Worker(r, Record));
      db.UpdateAttempt(r);
      RunFacts(m, since, db.View(), r);
      db.Await(since, r);
      breaks := *;
      if breaks && !faultFree {
        return Threw;
      }
      RunFacts(m, since, db.View(), r);
      RecordIsTrue(m, since, db.View(), r);
      Stepped(m, since, db.View(), Worker(r, Write));
      var status := db.UpdateDelivery(r);
      result := if status == Succeeded then Delivered else if status == Dead then GaveUp else Failed;
      assert Concluded(db.View(), m, r, old(db.runs)[r].pc.no, old(db.runs)[r].pc.outcome, result);
      breaks := *;
      if breaks && !faultFree {
        return Threw;
      }
    }

    // The circuit refuses (no HTTP), or the request goes out and something comes back.
    method SendAndFinish(ghost since: State, r: RunId, world: World) returns (result: ProcessResult)
      requires Went(db.maxAttempts, since, db.View()) && r in db.runs && db.runs[r].pc.Claimed?
      modifies db
      ensures Went(db.maxAttempts, since, db.View())
      ensures r in db.runs && db.runs[r].job == old(db.runs)[r].job
      ensures world.faultFree ==> result != Threw
      ensures result != Threw ==>
        && Concluded(db.View(), db.maxAttempts, r, old(db.runs)[r].pc.no, OutcomeIn(world), result)
        && (Attempt(db.runs[r].job.delivery, old(db.runs)[r].pc.no) in db.sent <==> world.passes)
      ensures result == Threw ==>
        (db.runs[r].pc == Sent(old(db.runs)[r].pc.no)
        || BrokeOff(db.View(), db.maxAttempts, r, old(db.runs)[r].pc.no, OutcomeIn(world)))
    {
      ghost var m := db.maxAttempts;
      RunFacts(m, since, db.View(), r);
      db.Await(since, r);
      if world.passes {
        RunFacts(m, since, db.View(), r);
        Stepped(m, since, db.View(), Worker(r, Send));
        db.SendHttp(r);
        RunFacts(m, since, db.View(), r);
        db.AwaitResponse(since, r, world.responds);
        var breaks: bool := *;
        if breaks && !world.faultFree {
          return Threw;
        }
        Stepped(m, since, db.View(), Worker(r, Respond(world.responds)));
        db.HearResponse(r, world.responds);
      } else {
        Stepped(m, since, db.View(), Worker(r, Deny));
        db.SkipHttp(r);
      }
      result := FinishAttempt(since, r, world.faultFree);
    }

    // Reads the delivery row, in state `at`; its attemptCount is stale from here on.
    method Load(ghost since: State, r: RunId, faultFree: bool)
      returns (row: Option<Delivery>, threw: bool, ghost at: State)
      requires Went(db.maxAttempts, since, db.View()) && r in db.runs && db.runs[r].pc == Taken
      modifies db
      ensures Went(db.maxAttempts, since, db.View()) && (faultFree ==> !threw)
      ensures r in db.runs && db.runs[r].job == old(db.runs)[r].job
      ensures LeadsBy(db.maxAttempts, NotRun(r), old(db.View()), at)
      ensures !threw ==> r in at.runs && db.View() == AfterRead(at, r) && row == RowOf(at, r)
      ensures !threw ==> at.runs[r].job == old(db.runs)[r].job
      ensures !threw ==> db.runs[r].pc == if IsOpen(row) then HasRead(row.value.attemptCount) else Finishing
    {
      RunFacts(db.maxAttempts, since, db.View(), r);
      db.Await(since, r);
      at := db.View();
      threw := *;
      if threw && !faultFree {
        return None, true, at;
      }
      threw := false;
      Stepped(db.maxAttempts, since, db.View(), Worker(r, Read));
      row := db.FindDelivery(r);
    }

    // INSERT before the attempt, in state `at`: false when the number is already claimed.
    // When it throws the row may be there or not.
    method Claim(ghost since: State, r: RunId, attemptNo: nat, faultFree: bool)
      returns (claimed: bool, threw: bool, ghost at: State)
      requires Went(db.maxAttempts, since, db.View()) && r in db.runs
      requires db.runs[r].pc.HasRead? && attemptNo == db.runs[r].pc.count + 1
      modifies db
      ensures Went(db.maxAttempts, since, db.View()) && (faultFree ==> !threw)
      ensures r in db.runs && db.runs[r].job == old(db.runs)[r].job
      ensures LeadsBy(db.maxAttempts, NotRun(r), old(db.View()), at)
      ensures !threw ==> (claimed <==> Attempt(db.runs[r].job.delivery, attemptNo) !in at.attempts)
      ensures !threw ==> db.runs[r].pc == if claimed then Claimed(attemptNo) else Finishing
      ensures threw ==> db.runs[r].pc in {HasRead(attemptNo - 1), Claimed(attemptNo), Finishing}
    {
      RunFacts(db.maxAttempts, since, db.View(), r);
      db.Await(since, r);
      at := db.View();
      threw := *;
      threw := threw && !faultFree;
      var inserts: bool := *;
      if threw && !inserts {
        return false, true, at;
      }
      Stepped(db.maxAttempts, since, db.View(), Worker(r, RunStep.Claim));
      claimed := db.InsertClaim(r, attemptNo);
    }

    // The endpoint, from the cache or the table, between the two: None to go on.
    method UsesEndpoint(ghost since: State, r: RunId, world: World) returns (result: Option<ProcessResult>)
      requires Went(db.maxAttempts, since, db.View()) && r in db.runs && db.runs[r].pc.HasRead?
      modifies db
      ensures Went(db.maxAttempts, since, db.View()) && (world.faultFree ==> result != Some(Threw))
      ensures r in db.runs && db.runs[r].job == old(db.runs)[r].job
      ensures result != Some(Threw) ==> result == SkipFor(world.endpoint)
      ensures result.Some? && result != Some(Threw) ==> db.runs[r].pc == Finishing
      ensures result == None ==>
        LeadsBy(db.maxAttempts, NotRun(r), old(db.View()), db.View()) && db.runs[r].pc == old(db.runs)[r].pc
    {
      RunFacts(db.maxAttempts, since, db.View(), r);
      db.Await(since, r);
      var breaks: bool := *;
      if breaks && !world.faultFree {
        return Some(Threw);
      }
      if world.endpoint != Usable {
        Stepped(db.maxAttempts, since, db.View(), Worker(r, SkipEndpoint));
        db.SkipUnusableEndpoint(r);
        return Some(if world.endpoint == NoEndpoint then SkippedMissing else SkippedEndpointInactive);
      }
      return None;
    }

    method ClaimAndSend(ghost since: State, r: RunId, attemptNo: nat, world: World)
      returns (result: ProcessResult, ghost found: State)
      requires Went(db.maxAttempts, since, db.View()) && r in db.runs
      requires db.runs[r].pc.HasRead? && attemptNo == db.runs[r].pc.count + 1
      modifies db
      ensures Went(db.maxAttempts, since, db.View()) && (world.faultFree ==> result != Threw)
      ensures r in db.runs && db.runs[r].job == old(db.runs)[r].job
      ensures LeadsBy(db.maxAttempts, NotRun(r), old(db.View()), found)
      ensures result != Threw ==>
        if Attempt(db.runs[r].job.delivery, attemptNo) in found.attempts then
          result == SkippedDuplicateClaim && db.runs[r].pc == Finishing
        else
          && Concluded(db.View(), db.maxAttempts, r, attemptNo, OutcomeIn(world), result)
          && (Attempt(db.runs[r].job.delivery, attemptNo) in db.sent <==> world.passes)
    {
      var claimed, threw;
      claimed, threw, found := Claim(since, r, attemptNo, world.faultFree);
      if threw {
        return Threw, found;
      }
      if !claimed {
        return SkippedDuplicateClaim, found;
      }
      result := SendAndFinish(since, r, world);
    }

    // All of it but the reading, for a row that was open with this count.
    method Resume(ghost since: State, r: RunId, attemptNo: nat, world: World)
      returns (result: ProcessResult, ghost found: State)
      requires Went(db.maxAttempts, since, db.View()) && r in db.runs
      requires db.runs[r].pc.HasRead? && attemptNo == db.runs[r].pc.count + 1
      modifies db
      ensures Went(db.maxAttempts, since, db.View()) && (world.faultFree ==> result != Threw)
      ensures r in db.runs && db.runs[r].job == old(db.runs)[r].job
      ensures LeadsBy(db.maxAttempts, NotRun(r), old(db.View()), found)
      ensures result != Threw ==>
        ResumedResult(db.maxAttempts, world, found, db.runs[r].job.delivery, attemptNo, result)
      ensures ResultTells(db.View(), db.maxAttempts, r, result)
      ensures result in {Delivered, GaveUp, Failed} ==> SentIfPassed(db.View(), r, world)
    {
      ghost var m := db.maxAttempts;
      found := db.View();
      Stays(m, NotRun(r), found);
      var skip := UsesEndpoint(since, r, world);
      if skip.Some? {
        return skip.value, found;
      }
      ghost var start, usable := found, db.View();
      result, found := ClaimAndSend(since, r, attemptNo, world);
      Chain(m, NotRun(r), start, usable, found);
      if result != Threw && result != SkippedDuplicateClaim {
        ConcludedTells(m, since, db.View(), r, attemptNo, OutcomeIn(world), result);
      }
    }

    // All of it but the reading.
    method Decide(ghost since: State, r: RunId, delivery: Option<Delivery>, ghost read: State, world: World)
      returns (result: ProcessResult, ghost found: State)
      requires Went(db.maxAttempts, since, db.View()) && r in db.runs
      requires r in read.runs && delivery == RowOf(read, r) && db.runs[r].job == read.runs[r].job
      requires db.runs[r].pc == if IsOpen(delivery) then HasRead(delivery.value.attemptCount) else Finishing
      modifies db
      ensures Went(db.maxAttempts, since, db.View()) && (world.faultFree ==> result != Threw)
      ensures r in db.runs && db.runs[r].job == old(db.runs)[r].job
      ensures LeadsBy(db.maxAttempts, NotRun(r), old(db.View()), found)
      ensures result != Threw ==>
        DecidedResult(db.maxAttempts, world, delivery, found, db.runs[r].job.delivery, result)
      ensures ResultTells(db.View(), db.maxAttempts, r, result)
      ensures result in {Delivered, GaveUp, Failed} ==> SentIfPassed(db.View(), r, world)
    {
      if delivery == None || Terminal(delivery.value.status) {
        found := db.View();
        Stays(db.maxAttempts, NotRun(r), found);
        result := if delivery == None then SkippedMissing else SkippedAlreadyDone;
        NothingToDo(db.maxAttempts, world, db.View(), found, r, delivery, result);
        return;
      }
      result, found := Resume(since, r, delivery.value.attemptCount + 1, world);
    }

    // One delivery attempt, however stale its view of the delivery becomes. It read its
    // row in state `read`, and tried to claim in state `found`.
    method Process(ghost since: State, r: RunId, world: World)
      returns (result: ProcessResult, ghost read: State, ghost found: State)
      requires Went(db.maxAttempts, since, db.View()) && r in db.runs && db.runs[r].pc == Taken
      modifies db
      ensures Went(db.maxAttempts, since, db.View())
      ensures r in db.runs && db.runs[r].job == old(db.runs)[r].job
      ensures ResultTells(db.View(), db.maxAttempts, r, result)
      ensures world.faultFree ==> Processes(db.maxAttempts, old(db.View()), read, found, r, world, result)
      ensures result in {Delivered, GaveUp, Failed} ==> SentIfPassed(db.View(), r, world)
    {
      ghost var start := db.View();
      var delivery, threw;
      delivery, threw, read := Load(since, r, world.faultFree);
      found := read;
      if threw {
        return Threw, read, found;
      }
      result, found := Decide(since, r, delivery, read, world);
      if result != Threw {
        Settles(db.maxAttempts, start, read, found, r, world, result);
      }
    }
  }

  // What an open row makes of the rest.
  ghost predicate ResumedResult(m: MaxAttempts, world: World, found: State, d: DeliveryId, no: nat,
      result: ProcessResult) {
    match world.endpoint
    case NoEndpoint => result == SkippedMissing
    case Inactive => result == SkippedEndpointInactive
    case Usable =>
      if Attempt(d, no) in found.attempts then result == SkippedDuplicateClaim
      else if world.passes && world.responds then result == Delivered
      else if no >= m then result == GaveUp
      else result == Failed
  }

  // What the row as read makes of the rest.
  ghost predicate DecidedResult(m: MaxAttempts, world: World, row: Option<Delivery>, found: State, d: DeliveryId,
      result: ProcessResult) {
    if row == None then result == SkippedMissing
    else if !IsOpen(row) then result == SkippedAlreadyDone
    else ResumedResult(m, world, found, d, row.value.attemptCount + 1, result)
  }

  // Whether the number after the row's count is claimed in state `found`.
  ghost predicate NextIsTaken(found: State, d: DeliveryId, row: Option<Delivery>) {
    row.Some? && Attempt(d, row.value.attemptCount + 1) in found.attempts
  }

  lemma Settles(m: MaxAttempts, start: State, read: State, found: State, r: RunId, world: World, result: ProcessResult)
    requires LeadsBy(m, NotRun(r), start, read) && r in read.runs && r in start.runs
    requires read.runs[r].job == start.runs[r].job && LeadsBy(m, NotRun(r), AfterRead(read, r), found)
    requires DecidedResult(m, world, RowOf(read, r), found, read.runs[r].job.delivery, result)
    ensures Processes(m, start, read, found, r, world, result)
  {
    DecidedIsCalledFor(m, world, RowOf(read, r), found, read.runs[r].job.delivery, result);
  }

  lemma DecidedIsCalledFor(m: MaxAttempts, world: World, row: Option<Delivery>, found: State, d: DeliveryId,
      result: ProcessResult)
    requires DecidedResult(m, world, row, found, d, result)
    ensures CalledFor(m, world, row, NextIsTaken(found, d, row), result)
  {
  }

  lemma NothingToDo(m: MaxAttempts, world: World, s: State, found: State, r: RunId, row: Option<Delivery>,
      result: ProcessResult)
    requires r in s.runs && s.runs[r].pc == Finishing && !IsOpen(row)
    requires result == if row == None then SkippedMissing else SkippedAlreadyDone
    ensures DecidedResult(m, world, row, found, s.runs[r].job.delivery, result)
    ensures ResultTells(s, m, r, result)
  {
  }

  // The attempt that the delivery row now counts went over HTTP iff the circuit let it.
  ghost predicate SentIfPassed(s: State, r: RunId, world: World)
    requires r in s.runs
  {
    var d := s.runs[r].job.delivery;
    d in s.deliveries && (Attempt(d, s.deliveries[d].attemptCount) in s.sent <==> world.passes)
  }

  lemma ConcludedTells(m: MaxAttempts, since: State, s: State, r: RunId, no: nat, outcome: Outcome,
      result: ProcessResult)
    requires Went(m, since, s) && r in s.runs && Concluded(s, m, r, no, outcome, result)
    ensures ResultTells(s, m, r, result) && result in {Delivered, GaveUp, Failed}
    ensures (result == Delivered <==> outcome == Ok) && (result == GaveUp <==> outcome != Ok && no >= m)
  {
    EffectOfSuccess(m, since, s, s.runs[r].job.delivery);
  }

  // From `start`, others' steps led to `read`, and after reading there others' steps led
  // to `found`; the result is the one called for by what was there.
  ghost predicate Processes(m: MaxAttempts, start: State, read: State, found: State, r: RunId, world: World,
      result: ProcessResult) {
    && LeadsBy(m, NotRun(r), start, read) && r in read.runs && r in start.runs
    && read.runs[r].job == start.runs[r].job && LeadsBy(m, NotRun(r), AfterRead(read, r), found)
    && CalledFor(m, world, RowOf(read, r), NextIsTaken(found, read.runs[r].job.delivery, RowOf(read, r)), result)
  }

  // ---- WorkerService ----

  class WorkerService {
    const db: Cluster
    const processor: DeliveryProcessor

    constructor (db: Cluster)
      ensures this.db == db && processor.db == db
    {
      this.db := db;
      processor := new DeliveryProcessor(db);
    }

    // The job callback. It ends in state `last`; where it got a slot, Process went from
    // state `taken`.
    method HandleJob(ghost since: State, r: RunId, world: World)
      returns (done: JobResult, ghost taken: State, ghost read: State, ghost found: State, ghost last: State)
      requires processor.db == db
      requires Went(db.maxAttempts, since, db.View()) && r in db.runs && db.runs[r].pc == Taken
      modifies db
      ensures Went(db.maxAttempts, since, db.View()) && Went(db.maxAttempts, since, last)
      ensures done != Processed(Threw) && (world.faultFree ==> done != Faulted)
      ensures world.faultFree ==> (done == Deferred <==> !world.slotFree)
      ensures LeadsBy(db.maxAttempts, NotRun(r), old(db.View()), taken)
      ensures world.faultFree && world.slotFree ==>
        Processes(db.maxAttempts, taken, read, found, r, world, done.result)
      ensures r in last.runs && last.runs[r].job == old(db.runs)[r].job
      ensures LeavesJob(db.maxAttempts, last, db.View(), r, done)
      ensures var j := old(db.runs)[r].job; j.delivery !in db.dropped ==>
        if done in {Deferred, Processed(Failed), Faulted} then j in db.jobs && db.jobs[j].state == Delayed
        else j !in db.jobs
    {
      ghost var m := db.maxAttempts;
      RunFacts(m, since, db.View(), r);
      db.Await(since, r);
      taken, read, found, last := db.View(), db.View(), db.View(), db.View();
      var breaks: bool := *;
      if breaks && !world.faultFree {
        done := Fault(since, r);
        return;
      }
      if !world.slotFree {
        UndroppedOwns(m, since, db.View(), r);
        Stepped(m, since, db.View(), Ends(r, Defer));
        db.MoveToDelayed(r);
        return Deferred, taken, read, found, last;
      }
      var result;
      result, read, found := processor.Process(since, r, world);
      RunFacts(m, since, db.View(), r);
      db.Await(since, r);
      last := db.View();
      // the look-ups before a RetrySignal, and releasing the slot
      breaks := *;
      if (breaks && !world.faultFree) || result == Threw {
        done := Fault(since, r);
        return;
      }
      done := Report(since, r, result);
    }

    // What the callback's result or RetrySignal makes of the job.
    method Report(ghost since: State, r: RunId, result: ProcessResult) returns (done: JobResult)
      requires Went(db.maxAttempts, since, db.View()) && r in db.runs && result != Threw
      requires if result == Failed then db.runs[r].pc.MustRetry? else db.runs[r].pc == Finishing
      modifies db
      ensures Went(db.maxAttempts, since, db.View()) && done == Processed(result)
      ensures LeavesJob(db.maxAttempts, old(db.View()), db.View(), r, done)
      ensures var j := old(db.runs)[r].job; j.delivery !in db.dropped ==>
        if result == Failed then j in db.jobs && db.jobs[j].state == Delayed else j !in db.jobs
    {
      UndroppedOwns(db.maxAttempts, since, db.View(), r);
      if result == Failed {
        Stepped(db.maxAttempts, since, db.View(), Ends(r, Signal));
        db.FailJob(r);
      } else {
        Stepped(db.maxAttempts, since, db.View(), Ends(r, Complete));
        db.CompleteJob(r);
      }
      return Processed(result);
    }

    // An exception other than the queue's two signals leaves the callback.
    method Fault(ghost since: State, r: RunId) returns (done: JobResult)
      requires Went(db.maxAttempts, since, db.View()) && r in db.runs
      modifies db
      ensures Went(db.maxAttempts, since, db.View()) && done == Faulted
      ensures LeavesJob(db.maxAttempts, old(db.View()), db.View(), r, done)
      ensures var j := old(db.runs)[r].job; j.delivery !in db.dropped ==> j in db.jobs && db.jobs[j].state == Delayed
    {
      UndroppedOwns(db.maxAttempts, since, db.View(), r);
      Stepped(db.maxAttempts, since, db.View(), Ends(r, RunEnd.Fault));
      db.ThrowOut(r);
      return Faulted;
    }
  }

  // The end of run r: from s to t nothing changes but the run, which is gone, its job,
  // and the mark of a delivery whose job ran out of attempts. A run without the lock
  // leaves the queue alone. Otherwise a deferred job is delayed as it was; a failed or
  // faulted one is delayed with one more attempt made while it has any, and gone after
  // that; any other is gone.
  ghost predicate LeavesJob(m: MaxAttempts, s: State, t: State, r: RunId, done: JobResult)
    requires r in s.runs
  {
    var j := s.runs[r].job;
    && t.runs == s.runs - {r} && t.deliveries == s.deliveries && t.attempts == s.attempts && t.outbox == s.outbox
    && (forall k :: k in t.jobs && k != j ==> k in s.jobs && t.jobs[k] == s.jobs[k])
    && (forall k :: k in s.jobs && k != j ==> k in t.jobs)
    && if j !in s.jobs || s.jobs[j].state != Active(r) then t.jobs == s.jobs && t.dropped == s.dropped
      else if done == Deferred then t.dropped == s.dropped && j in t.jobs && t.jobs[j] == s.jobs[j].(state := Delayed)
      else if done == Processed(Failed) then
        s.runs[r].pc.MustRetry? && FailsJob(m, s, t, j, s.jobs[j].signalled + {s.runs[r].pc.no}, s.jobs[j].faults)
      else if done == Faulted then FailsJob(m, s, t, j, s.jobs[j].signalled, s.jobs[j].faults + 1)
      else j !in t.jobs && t.dropped == s.dropped
  }

  ghost predicate FailsJob(m: MaxAttempts, s: State, t: State, j: JobKey, signalled: set<nat>, faults: nat)
    requires j in s.jobs
  {
    if s.jobs[j].made + 1 < m then
      j in t.jobs && t.jobs[j] == Job(Delayed, s.jobs[j].made + 1, signalled, faults) && t.dropped == s.dropped
    else j !in t.jobs && t.dropped == s.dropped + {j.delivery}
  }

  lemma UndroppedOwns(m: MaxAttempts, since: State, s: State, r: RunId)
    requires Went(m, since, s) && r in s.runs
    ensures s.runs[r].job.delivery !in s.dropped ==> Owns(s, r)
  {
    WentInv(m, since, s);
  }
}
