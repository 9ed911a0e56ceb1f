// An unfinished delivery can still be brought to an end if and only if it is not
// wedged: from every reachable state there is a run that finishes it, made of
// nothing but the system's own steps and one redelivery.
module Recovery {
  import opened Pipeline
  import opened Invariant
  import opened Traces
  import opened Wedge

  // ---- fresh ids and the lowest PENDING row ----

  lemma {:induction false} UnusedId(used: set<nat>) returns (id: nat)
    ensures id !in used && forall i :: i in used ==> i < id
    decreases |used|
  {
    if used == {} {
      id := 0;
    } else {
      var i :| i in used;
      var rest := UnusedId(used - {i});
      assert used == (used - {i}) + {i};
      id := if rest <= i then i + 1 else rest;
    }
  }

  lemma {:induction false} LowestPending(s: State, x: RowId) returns (low: RowId)
    requires PendingRow(s, x)
    ensures PendingRow(s, low) && low <= x && forall y :: PendingRow(s, y) ==> low <= y
    decreases x
  {
    if y: RowId :| PendingRow(s, y) && y < x {
      low := LowestPending(s, y);
    } else {
      low := x;
    }
  }

  // ---- pumping a row through the relay ----

  // The relay changes neither deliveries nor attempts nor runs; it leaves the jobs
  // there are and adds waiting ones.
  ghost predicate Pumped(s: State, t: State) {
    && t.deliveries == s.deliveries && t.attempts == s.attempts && t.runs == s.runs && t.outbox.Keys == s.outbox.Keys
    && (forall x :: x in s.outbox ==> t.outbox[x] == s.outbox[x].(published := t.outbox[x].published))
    && (forall j :: j in s.jobs ==> j in t.jobs && t.jobs[j] == s.jobs[j])
    && (forall j :: j in t.jobs && j !in s.jobs ==> t.jobs[j].state == Waiting)
  }

  lemma PumpedOn(s: State, t: State, u: State)
    requires Pumped(s, t) && Pumped(t, u)
    ensures Pumped(s, u)
  {
  }

  ghost predicate OnlyRow(s: State, k: TickId, low: RowId) {
    k in s.ticks && s.ticks[k].batch == [low] && s.ticks[k].at == 0 && !s.ticks[k].broken && low in s.outbox
  }

  function Missing(s: State, k: TickId, low: RowId): set<DeliveryId>
    requires k in s.ticks && low in s.outbox
  {
    set d | d in s.deliveries && IsTarget(s.deliveries, s.outbox[low], d) && d !in s.ticks[k].added
  }

  lemma {:induction false} AddEveryTarget(m: MaxAttempts, s: State, k: TickId, low: RowId) returns (t: State)
    requires OnlyRow(s, k, low)
    ensures LeadsBy(m, PlainOnly, s, t) && OnlyRow(t, k, low) && Pumped(s, t) && t.outbox == s.outbox
    ensures Missing(t, k, low) == {}
    decreases |Missing(s, k, low)|
  {
    Stays(m, PlainOnly, s);
    if Missing(s, k, low) == {} {
      t := s;
    } else {
      var e :| e in Missing(s, k, low);
      var u := Go(m, PlainOnly, s, s, Relay(k, Add(e)));
      assert Missing(u, k, low) == Missing(s, k, low) - {e};
      t := AddEveryTarget(m, u, k, low);
      Chain(m, PlainOnly, s, u, t);
      PumpedOn(s, u, t);
    }
  }

  // A tick that has enqueued its one row marks it.
  lemma OnlyRowIsMarked(m: MaxAttempts, s: State, k: TickId, low: RowId) returns (t: State)
    requires OnlyRow(s, k, low) && Missing(s, k, low) == {}
    ensures LeadsBy(m, PlainOnly, s, t) && Pumped(s, t)
    ensures forall x :: PendingRow(t, x) <==> PendingRow(s, x) && x != low
  {
    Stays(m, PlainOnly, s);
    forall e | IsTarget(s.deliveries, s.outbox[low], e) ensures e in s.ticks[k].added {
      assert e !in Missing(s, k, low);
    }
    var u := Go(m, PlainOnly, s, s, Relay(k, NextRow));
    assert u.ticks[k].batch[..1] == [low];
    t := Go(m, PlainOnly, s, u, Relay(k, Mark));
  }

  // A tick of batch size 1 publishes the lowest PENDING row and no other.
  lemma PublishLowest(m: MaxAttempts, s: State, low: RowId) returns (t: State)
    requires PendingRow(s, low) && (forall y :: PendingRow(s, y) ==> low <= y)
    ensures LeadsBy(m, PlainOnly, s, t) && Pumped(s, t)
    ensures forall x :: PendingRow(t, x) <==> PendingRow(s, x) && x != low
  {
    var k := UnusedId(s.ticks.Keys);
    Stays(m, PlainOnly, s);
    assert IsBatch(s, [low], 1);
    var u := Go(m, PlainOnly, s, s, Relay(k, StartTick([low], 1)));
    var v := AddEveryTarget(m, u, k, low);
    Chain(m, PlainOnly, s, u, v);
    t := OnlyRowIsMarked(m, v, k, low);
    Chain(m, PlainOnly, s, v, t);
    PumpedOn(s, v, t);
  }

  function PendingBelow(s: State, x: RowId): set<RowId> {
    set y | y in s.outbox && PendingRow(s, y) && y < x
  }

  // The relay gets to any target of any PENDING row, however many PENDING rows are
  // before it: the target has a job, and a waiting one if it had none.
  lemma {:induction false} RelayReaches(m: MaxAttempts, s: State, d: DeliveryId, x: RowId) returns (t: State)
    requires PendingRow(s, x) && IsTarget(s.deliveries, s.outbox[x], d)
    ensures LeadsBy(m, PlainOnly, s, t) && Pumped(s, t)
    ensures Target(x, d) in t.enqueued
    ensures if s.outbox[x].delivery.Some? then RowJob(d, x) in t.jobs else FanoutJob(d) in t.jobs
    decreases |PendingBelow(s, x)|
  {
    var low := LowestPending(s, x);
    if low == x {
      Stays(m, PlainOnly, s);
      var k := UnusedId(s.ticks.Keys);
      assert IsBatch(s, [x], 1);
      var u := Go(m, PlainOnly, s, s, Relay(k, StartTick([x], 1)));
      t := Go(m, PlainOnly, s, u, Relay(k, Add(d)));
    } else {
      var u := PublishLowest(m, s, low);
      assert low in PendingBelow(s, x) && low !in PendingBelow(u, x);
      FewerElements(PendingBelow(u, x), PendingBelow(s, x), low);
      t := RelayReaches(m, u, d, x);
      Chain(m, PlainOnly, s, u, t);
      PumpedOn(s, u, t);
    }
  }

  lemma {:induction false} FewerElements<T>(a: set<T>, b: set<T>, gone: T)
    requires gone in b && a <= b - {gone}
    ensures |a| < |b|
    decreases a
  {
    if a == {} {
    } else {
      var x :| x in a;
      FewerElements(a - {x}, b - {x}, gone);
    }
  }

  // ---- finishing ----

  ghost predicate Finished(s: State, d: DeliveryId) {
    d in s.deliveries && (s.deliveries[d].status == Succeeded || s.deliveries[d].status == Dead)
  }

  // Finished, or with its next number free to claim.
  ghost predicate Free(s: State, d: DeliveryId) {
    d in s.deliveries
      && (Terminal(s.deliveries[d].status) || Attempt(d, s.deliveries[d].attemptCount + 1) !in s.attempts)
  }

  // A run whose number is the next after attemptCount and the last one claimed.
  ghost predicate HoldsLast(s: State, r: RunId) {
    && r in s.runs && Window(s.runs[r].pc)
    && s.runs[r].job.delivery in s.deliveries
    && s.runs[r].pc.no == s.deliveries[s.runs[r].job.delivery].attemptCount + 1
    && Attempt(s.runs[r].job.delivery, s.runs[r].pc.no + 1) !in s.attempts
  }

  lemma RecordedFinishes(m: MaxAttempts, s: State, r: RunId) returns (t: State)
    requires HoldsLast(s, r) && s.runs[r].pc.Recorded?
    ensures LeadsBy(m, PlainOnly, s, t) && Free(t, s.runs[r].job.delivery)
  {
    Stays(m, PlainOnly, s);
    t := Go(m, PlainOnly, s, s, Worker(r, Write));
  }

  lemma AnsweredFinishes(m: MaxAttempts, s: State, r: RunId) returns (t: State)
    requires HoldsLast(s, r) && s.runs[r].pc.Answered?
    ensures LeadsBy(m, PlainOnly, s, t) && Free(t, s.runs[r].job.delivery)
  {
    Stays(m, PlainOnly, s);
    var u := Go(m, PlainOnly, s, s, Worker(r, Record));
    t := RecordedFinishes(m, u, r);
    Chain(m, PlainOnly, s, u, t);
  }

  lemma OpenFinishes(m: MaxAttempts, s: State, r: RunId, step: RunStep) returns (t: State)
    requires HoldsLast(s, r)
    requires (s.runs[r].pc.Sent? && step == Respond(false)) || (s.runs[r].pc.Claimed? && step == Deny)
    ensures LeadsBy(m, PlainOnly, s, t) && Free(t, s.runs[r].job.delivery)
  {
    Stays(m, PlainOnly, s);
    var u := Go(m, PlainOnly, s, s, Worker(r, step));
    t := AnsweredFinishes(m, u, r);
    Chain(m, PlainOnly, s, u, t);
  }

  // The run that holds the claim can always write its result.
  lemma HolderFinishes(m: MaxAttempts, s: State, r: RunId) returns (t: State)
    requires HoldsLast(s, r)
    ensures LeadsBy(m, PlainOnly, s, t) && Free(t, s.runs[r].job.delivery)
  {
    match s.runs[r].pc
    case Recorded(_, _) => t := RecordedFinishes(m, s, r);
    case Answered(_, _) => t := AnsweredFinishes(m, s, r);
    case Sent(_) => t := OpenFinishes(m, s, r, Respond(false));
    case Claimed(_) => t := OpenFinishes(m, s, r, Deny);
  }

  lemma JobIsRead(m: MaxAttempts, s: State, j: JobKey) returns (t: State)
    requires j in s.jobs && s.jobs[j].state == Waiting && Unfinished(s, j.delivery)
    ensures LeadsBy(m, PlainOnly, s, t) && t.deliveries == s.deliveries && t.attempts == s.attempts
    ensures t.runs == s.runs[s.nextRun := Run(j, HasRead(s.deliveries[j.delivery].attemptCount))]
  {
    Stays(m, PlainOnly, s);
    var u := Go(m, PlainOnly, s, s, Queue(j, Take));
    t := Go(m, PlainOnly, s, u, Worker(s.nextRun, Read));
  }

  lemma JobClaims(m: MaxAttempts, s: State, j: JobKey) returns (t: State, r: RunId)
    requires j in s.jobs && s.jobs[j].state == Waiting
    requires Unfinished(s, j.delivery) && Free(s, j.delivery)
    ensures LeadsBy(m, PlainOnly, s, t) && t.deliveries == s.deliveries
    ensures t.runs == s.runs[r := Run(j, Claimed(s.deliveries[j.delivery].attemptCount + 1))]
    ensures Attempt(j.delivery, s.deliveries[j.delivery].attemptCount + 1) in t.attempts
  {
    r := s.nextRun;
    var u := JobIsRead(m, s, j);
    t := Go(m, PlainOnly, s, u, Worker(r, Claim));
  }

  lemma SentSucceeds(m: MaxAttempts, s: State, r: RunId) returns (t: State)
    requires r in s.runs && s.runs[r].pc.Sent? && s.runs[r].job.delivery in s.deliveries
    requires Attempt(s.runs[r].job.delivery, s.runs[r].pc.no) in s.sent
    ensures LeadsBy(m, PlainOnly, s, t) && Finished(t, s.runs[r].job.delivery)
  {
    Stays(m, PlainOnly, s);
    var u := Go(m, PlainOnly, s, s, Receive(Attempt(s.runs[r].job.delivery, s.runs[r].pc.no)));
    var v := Go(m, PlainOnly, s, u, Worker(r, Respond(true)));
    var w := Go(m, PlainOnly, s, v, Worker(r, Record));
    t := Go(m, PlainOnly, s, w, Worker(r, Write));
  }

  lemma ClaimSucceeds(m: MaxAttempts, s: State, r: RunId) returns (t: State)
    requires r in s.runs && s.runs[r].pc.Claimed? && s.runs[r].job.delivery in s.deliveries
    ensures LeadsBy(m, PlainOnly, s, t) && Finished(t, s.runs[r].job.delivery)
  {
    Stays(m, PlainOnly, s);
    var u := Go(m, PlainOnly, s, s, Worker(r, Send));
    t := SentSucceeds(m, u, r);
    Chain(m, PlainOnly, s, u, t);
  }

  // Take, read, claim, send, and hear a 2xx.
  lemma WaitingFinishes(m: MaxAttempts, s: State, j: JobKey) returns (t: State)
    requires j in s.jobs && s.jobs[j].state == Waiting
    requires Unfinished(s, j.delivery) && Free(s, j.delivery)
    ensures LeadsBy(m, PlainOnly, s, t) && Finished(t, j.delivery)
  {
    var u, r := JobClaims(m, s, j);
    t := ClaimSucceeds(m, u, r);
    Chain(m, PlainOnly, s, u, t);
  }

  // A redelivery reaches the queue as a fresh job.
  lemma RedeliveryQueues(m: MaxAttempts, s: State, d: DeliveryId, x: RowId) returns (t: State)
    requires Unfinished(s, d) && x !in s.outbox && RowJob(d, x) !in s.jobs
    ensures Leads(m, s, t) && RowJob(d, x) in t.jobs && t.jobs[RowJob(d, x)].state == Waiting
    ensures t.attempts == s.attempts && t.deliveries == s.deliveries[d := s.deliveries[d].(status := Pending)]
  {
    Stays(m, Anyone, s);
    var u := Go(m, Anyone, s, s, Api(Redeliver(d, x)));
    t := RelayReaches(m, u, d, x);
    AnyScopeLeads(m, PlainOnly, u, t);
    Chain(m, Anyone, s, u, t);
  }

  // Redeliver, relay, take, claim, send, and hear a 2xx.
  lemma RedeliveryFinishes(m: MaxAttempts, s: State, d: DeliveryId, x: RowId) returns (t: State)
    requires Unfinished(s, d) && Free(s, d) && x !in s.outbox && RowJob(d, x) !in s.jobs
    ensures Leads(m, s, t) && Finished(t, d)
  {
    var u := RedeliveryQueues(m, s, d, x);
    t := WaitingFinishes(m, u, RowJob(d, x));
    AnyScopeLeads(m, PlainOnly, u, t);
    Chain(m, Anyone, s, u, t);
  }

  // A row id not in use, and no job left over under it.
  lemma UnusedRow(m: MaxAttempts, s: State, d: DeliveryId) returns (x: RowId)
    requires Inv(m, s)
    ensures x !in s.outbox && RowJob(d, x) !in s.jobs
  {
    x := UnusedId(s.outbox.Keys);
    assert RowJob(d, x) in s.jobs ==> JobEnqueued(s.deliveries, s.outbox, s.enqueued, RowJob(d, x));
  }

  lemma FreeFinishes(m: MaxAttempts, s: State, d: DeliveryId) returns (t: State)
    requires Inv(m, s) && Free(s, d)
    ensures Leads(m, s, t) && Finished(t, d)
  {
    if Terminal(s.deliveries[d].status) {
      t := s;
      Stays(m, Anyone, s);
    } else {
      var x := UnusedRow(m, s, d);
      t := RedeliveryFinishes(m, s, d, x);
    }
  }

  lemma LedKeepsInv(m: MaxAttempts, s: State, t: State)
    requires Inv(m, s) && Leads(m, s, t)
    ensures Inv(m, t)
  {
    var trace :| IsRun(m, Anyone, s, trace, t);
    TraceKeepsInv(m, s, trace);
  }

  lemma NotWedgedFinishes(m: MaxAttempts, s: State, d: DeliveryId) returns (t: State)
    requires Inv(m, s) && Unfinished(s, d) && !Wedged(s, d)
    ensures Leads(m, s, t) && Finished(t, d)
  {
    if Free(s, d) {
      t := FreeFinishes(m, s, d);
    } else {
      var r :| r in s.runs && s.runs[r].job.delivery == d && Window(s.runs[r].pc);
      assert PcOk(m, s.deliveries, s.attempts, r, s.runs[r]);
      var u := HolderFinishes(m, s, r);
      AnyScopeLeads(m, PlainOnly, s, u);
      LedKeepsInv(m, s, u);
      t := FreeFinishes(m, u, d);
      Chain(m, Anyone, s, u, t);
    }
  }

  ghost predicate CanFinish(m: MaxAttempts, s: State, d: DeliveryId) {
    exists t :: Leads(m, s, t) && Finished(t, d)
  }

  // The wedge is the only way to lose a delivery for good.
  lemma FinishableUnlessWedged(m: MaxAttempts, s: State, d: DeliveryId)
    requires Reachable(m, s) && Unfinished(s, d)
    ensures CanFinish(m, s, d) <==> !Wedged(s, d)
  {
    ReachableKeepsInv(m, s);
    if Wedged(s, d) {
      forall t | Leads(m, s, t) ensures !Finished(t, d) {
        var trace :| IsRun(m, Anyone, s, trace, t);
        WedgeIsForever(m, s, trace, d);
      }
    } else {
      var t := NotWedgedFinishes(m, s, d);
    }
  }
}
