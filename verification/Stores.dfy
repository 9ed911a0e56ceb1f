// The PostgreSQL tables and the BullMQ queue as the services share them, with one
// method for every single database or queue operation. Between any two awaited
// calls every other process may do anything the protocol allows.
module Stores {
  import opened Common
  import opened Pipeline
  import opened Invariant
  import opened Traces

  // ---- what other processes cannot do ----

  ghost predicate LeavesRun(s: State, t: State, r: RunId) {
    r in s.runs && r < s.nextRun ==> r in t.runs && t.runs[r] == s.runs[r] && r < t.nextRun
  }

  lemma ApiLeavesRun(s: State, call: ApiCall, r: RunId)
    requires ApiEnabled(s, call)
    ensures LeavesRun(s, AfterApi(s, call), r)
  {
  }

  lemma RelayLeavesRun(s: State, k: TickId, step: RelayStep, r: RunId)
    requires RelayEnabled(s, k, step)
    ensures LeavesRun(s, AfterRelay(s, k, step), r)
  {
  }

  lemma StepLeavesRun(m: MaxAttempts, s: State, q: RunId, step: RunStep, r: RunId)
    requires StepEnabled(s, q, step) && q != r
    ensures LeavesRun(s, AfterStep(m, s, q, step), r)
  {
  }

  lemma EndLeavesRun(m: MaxAttempts, s: State, q: RunId, end: RunEnd, r: RunId)
    requires EndEnabled(s, q, end) && q != r
    ensures LeavesRun(s, AfterEnd(m, s, q, end), r)
  {
  }

  lemma OtherActionLeavesRun(m: MaxAttempts, s: State, a: Action, r: RunId)
    requires Enabled(s, a) && !MovesRun(a, r)
    ensures LeavesRun(s, Apply(m, s, a), r)
  {
    match a
    case Api(call) => ApiLeavesRun(s, call, r);
    case Relay(k, step) => RelayLeavesRun(s, k, step, r);
    case Worker(q, step) => StepLeavesRun(m, s, q, step, r);
    case Ends(q, end) => EndLeavesRun(m, s, q, end, r);
    case Queue(_, _) =>
    case Receive(_) =>
  }

  lemma {:induction false} OthersLeaveRun(m: MaxAttempts, s: State, trace: seq<Action>, r: RunId)
    requires ValidTrace(m, s, trace)
    requires forall i :: 0 <= i < |trace| ==> InScope(NotRun(r), trace[i])
    ensures LeavesRun(s, After(m, s, trace), r)
    decreases |trace|
  {
    if trace != [] {
      OtherActionLeavesRun(m, s, trace[0], r);
      OthersLeaveRun(m, Apply(m, s, trace[0]), trace[1..], r);
    }
  }

  ghost predicate LeavesTick(s: State, t: State, k: TickId) {
    (k in s.ticks <==> k in t.ticks) && (k in s.ticks ==> t.ticks[k] == s.ticks[k])
  }

  lemma RelayLeavesTick(s: State, other: TickId, step: RelayStep, k: TickId)
    requires RelayEnabled(s, other, step) && other != k
    ensures LeavesTick(s, AfterRelay(s, other, step), k)
  {
  }

  lemma StepLeavesTick(m: MaxAttempts, s: State, r: RunId, step: RunStep, k: TickId)
    requires StepEnabled(s, r, step)
    ensures LeavesTick(s, AfterStep(m, s, r, step), k)
  {
  }

  lemma EndLeavesTick(m: MaxAttempts, s: State, r: RunId, end: RunEnd, k: TickId)
    requires EndEnabled(s, r, end)
    ensures LeavesTick(s, AfterEnd(m, s, r, end), k)
  {
  }

  lemma OtherActionLeavesTick(m: MaxAttempts, s: State, a: Action, k: TickId)
    requires Enabled(s, a) && !MovesTick(a, k)
    ensures LeavesTick(s, Apply(m, s, a), k)
  {
    match a
    case Api(call) => assert AfterApi(s, call).ticks == s.ticks;
    case Relay(other, step) => RelayLeavesTick(s, other, step, k);
    case Worker(r, step) => StepLeavesTick(m, s, r, step, k);
    case Ends(r, end) => EndLeavesTick(m, s, r, end, k);
    case Queue(_, _) =>
    case Receive(_) =>
  }

  lemma {:induction false} OthersLeaveTick(m: MaxAttempts, s: State, trace: seq<Action>, k: TickId)
    requires ValidTrace(m, s, trace)
    requires forall i :: 0 <= i < |trace| ==> InScope(NotTick(k), trace[i])
    ensures LeavesTick(s, After(m, s, trace), k)
    decreases |trace|
  {
    if trace != [] {
      OtherActionLeavesTick(m, s, trace[0], k);
      OthersLeaveTick(m, Apply(m, s, trace[0]), trace[1..], k);
    }
  }

  // ---- gluing awaited calls together ----

  // The protocol state stands at t after a run from the reachable state s.
  ghost predicate Went(m: MaxAttempts, s: State, t: State) {
    Reachable(m, s) && Leads(m, s, t)
  }

  lemma WentOn(m: MaxAttempts, s: State, t: State, u: State, r: RunId)
    requires Went(m, s, t) && LeadsBy(m, NotRun(r), t, u)
    ensures Went(m, s, u) && LeavesRun(t, u, r)
  {
    var trace :| IsRun(m, NotRun(r), t, trace, u);
    AnyScopeLeads(m, NotRun(r), t, u);
    Chain(m, Anyone, s, t, u);
    OthersLeaveRun(m, t, trace, r);
  }

  lemma TickWentOn(m: MaxAttempts, s: State, t: State, u: State, k: TickId)
    requires Went(m, s, t) && LeadsBy(m, NotTick(k), t, u)
    ensures Went(m, s, u) && LeavesTick(t, u, k)
  {
    var trace :| IsRun(m, NotTick(k), t, trace, u);
    AnyScopeLeads(m, NotTick(k), t, u);
    Chain(m, Anyone, s, t, u);
    OthersLeaveTick(m, t, trace, k);
  }

  lemma Stepped(m: MaxAttempts, s: State, t: State, a: Action)
    requires Went(m, s, t) && Enabled(t, a)
    ensures Went(m, s, Apply(m, t, a))
  {
    var u := Go(m, Anyone, s, t, a);
  }

  lemma WentInv(m: MaxAttempts, s: State, t: State)
    requires Went(m, s, t)
    ensures Inv(m, t)
  {
    Chain(m, Anyone, INIT, s, t);
    ReachableKeepsInv(m, t);
  }

  lemma RequestIsOut(m: MaxAttempts, since: State, s: State, r: RunId)
    requires Went(m, since, s) && r in s.runs && s.runs[r].pc.Sent?
    ensures Attempt(s.runs[r].job.delivery, s.runs[r].pc.no) in s.sent
  {
    WentInv(m, since, s);
    assert RunEvidence(s.runs[r], s.sent, s.acked);
  }

  // What the invariant tells a run about itself.
  lemma RunFacts(m: MaxAttempts, since: State, s: State, r: RunId)
    requires Went(m, since, s) && r in s.runs
    ensures r < s.nextRun && s.runs[r].job.delivery in s.deliveries
  {
    WentInv(m, since, s);
  }

  // ---- the shared stores ----

  class Cluster {
    const maxAttempts: MaxAttempts
    var events: set<EventId>
    var deliveries: map<DeliveryId, Delivery>
    var attempts: map<Attempt, ClaimRow>
    var outbox: map<RowId, Row>
    var jobs: map<JobKey, Job>
    var runs: map<RunId, Run>
    var nextRun: RunId
    var ticks: map<TickId, Tick>
    var processed: set<DeliveryId>
    var sent: set<Attempt>
    var acked: set<Attempt>
    ghost var effects: multiset<DeliveryId>
    ghost var enqueued: set<Target>
    ghost var redelivered: multiset<DeliveryId>
    ghost var dropped: set<DeliveryId>

    ghost function View(): State
      reads this
    {
      State(events, deliveries, attempts, outbox, jobs, runs, nextRun, ticks, processed,
            sent, acked, effects, enqueued, redelivered, dropped)
    }

    ghost predicate Valid()
      reads this
    {
      Reachable(maxAttempts, View())
    }

    constructor (maxAttempts: MaxAttempts)
      ensures View() == INIT && Valid() && this.maxAttempts == maxAttempts
    {
      this.maxAttempts := maxAttempts;
      events, deliveries, attempts, outbox, jobs := {}, map[], map[], map[], map[];
      runs, nextRun, ticks, processed := map[], 0, map[], {};
      sent, acked, effects, enqueued, redelivered, dropped := {}, {}, multiset{}, {}, multiset{}, {};
      new;
      Stays(maxAttempts, Anyone, INIT);
    }

    // While run r awaits, the rest of the system goes on. `since` is where the
    // caller's story began.
    method Await(ghost since: State, ghost r: RunId)
      requires Went(maxAttempts, since, View())
      modifies this
      ensures LeadsBy(maxAttempts, NotRun(r), old(View()), View())
      ensures Went(maxAttempts, since, View()) && LeavesRun(old(View()), View(), r)
    {
      Stays(maxAttempts, NotRun(r), View());
      WentOn(maxAttempts, since, View(), View(), r);
    }

    // While tick k awaits. A quiet period has no step in it.
    method AwaitTick(ghost since: State, ghost k: TickId, quiet: bool)
      requires Went(maxAttempts, since, View())
      modifies this
      ensures LeadsBy(maxAttempts, NotTick(k), old(View()), View())
      ensures Went(maxAttempts, since, View()) && LeavesTick(old(View()), View(), k)
      ensures quiet ==> View() == old(View())
    {
      Stays(maxAttempts, NotTick(k), View());
      TickWentOn(maxAttempts, since, View(), View(), k);
    }

    // ---- one database or queue operation each ----

    method FindDelivery(r: RunId) returns (row: Option<Delivery>)
      requires StepEnabled(View(), r, Read)
      modifies this
      ensures View() == AfterRead(old(View()), r)
      ensures row == var d := old(runs)[r].job.delivery; if d in old(deliveries) then Some(old(deliveries)[d]) else None
    {
      var d := runs[r].job.delivery;
      row := if d in deliveries then Some(deliveries[d]) else None;
      runs := runs[r := runs[r].(pc :=
        if row == None || Terminal(row.value.status) then Finishing else HasRead(row.value.attemptCount))];
    }

    method SkipUnusableEndpoint(r: RunId)
      requires StepEnabled(View(), r, SkipEndpoint)
      modifies this
      ensures View() == AfterSkipEndpoint(old(View()), r)
    {
      dropped := dropped + {runs[r].job.delivery};
      runs := runs[r := runs[r].(pc := Finishing)];
    }

    // INSERT of the claim row; false on a UNIQUE violation.
    method InsertClaim(r: RunId, no: nat) returns (claimed: bool)
      requires StepEnabled(View(), r, Claim) && no == runs[r].pc.count + 1
      modifies this
      ensures View() == AfterClaim(old(View()), r)
      ensures claimed <==> Attempt(old(runs)[r].job.delivery, no) !in old(attempts)
      ensures runs == old(runs)[r := Run(old(runs)[r].job, if claimed then Claimed(no) else Finishing)]
    {
      var a := Attempt(runs[r].job.delivery, no);
      claimed := a !in attempts;
      if claimed {
        attempts := attempts[a := ClaimRow(r, None)];
      }
      runs := runs[r := runs[r].(pc := if claimed then Claimed(no) else Finishing)];
    }

    method SkipHttp(r: RunId)
      requires StepEnabled(View(), r, Deny)
      modifies this
      ensures View() == AfterDeny(old(View()), r)
    {
      runs := runs[r := runs[r].(pc := Answered(runs[r].pc.no, CircuitOpen))];
    }

    method SendHttp(r: RunId)
      requires StepEnabled(View(), r, Send)
      modifies this
      ensures View() == AfterSend(old(View()), r)
    {
      sent := sent + {Attempt(runs[r].job.delivery, runs[r].pc.no)};
      runs := runs[r := runs[r].(pc := Sent(runs[r].pc.no))];
    }

    // While run r awaits the response to its request. A 2xx comes back only after the
    // receiver took the request in; anything else, a lost response among it, is a failure.
    method AwaitResponse(ghost since: State, r: RunId, ok: bool)
      requires Went(maxAttempts, since, View()) && r in runs && runs[r].pc.Sent?
      modifies this
      ensures LeadsBy(maxAttempts, NotRun(r), old(View()), View())
      ensures Went(maxAttempts, since, View()) && LeavesRun(old(View()), View(), r)
      ensures ok ==> Attempt(old(runs)[r].job.delivery, old(runs)[r].pc.no) in acked
    {
      var a := Attempt(runs[r].job.delivery, runs[r].pc.no);
      Stays(maxAttempts, NotRun(r), View());
      if ok {
        RequestIsOut(maxAttempts, since, View(), r);
        ghost var next := Go(maxAttempts, NotRun(r), View(), View(), Receive(a));
        if a.delivery !in processed {
          effects := effects + multiset{a.delivery};
        }
        processed, acked := processed + {a.delivery}, acked + {a};
      }
      WentOn(maxAttempts, since, old(View()), View(), r);
    }

    method HearResponse(r: RunId, ok: bool)
      requires StepEnabled(View(), r, Respond(ok))
      modifies this
      ensures View() == AfterRespond(old(View()), r, ok)
    {
      runs := runs[r := runs[r].(pc := Answered(runs[r].pc.no, if ok then Ok else HttpFailed))];
    }

    method UpdateAttempt(r: RunId)
      requires StepEnabled(View(), r, Record)
      modifies this
      ensures View() == AfterRecord(old(View()), r)
    {
      var pc := runs[r].pc;
      attempts := attempts[Attempt(runs[r].job.delivery, pc.no) := ClaimRow(r, Some(pc.outcome))];
      runs := runs[r := runs[r].(pc := Recorded(pc.no, pc.outcome))];
    }

    method UpdateDelivery(r: RunId) returns (status: Status)
      requires StepEnabled(View(), r, Write)
      modifies this
      ensures View() == AfterWrite(maxAttempts, old(View()), r)
      ensures status == FinalStatus(maxAttempts, old(runs)[r].pc.no, old(runs)[r].pc.outcome)
    {
      var d, no := runs[r].job.delivery, runs[r].pc.no;
      var dead := no >= maxAttempts;
      status := if runs[r].pc.outcome == Ok then Succeeded else if dead then Dead else FailedRetrying;
      deliveries := deliveries[d := deliveries[d].(status := status, attemptCount := no)];
      runs := runs[r := runs[r].(pc := if status == FailedRetrying then MustRetry(no) else Finishing)];
    }

    method MoveToDelayed(r: RunId)
      requires EndEnabled(View(), r, Defer)
      modifies this
      ensures View() == AfterDefer(old(View()), r)
    {
      var j := runs[r].job;
      if j in jobs && jobs[j].state == Active(r) {
        jobs := jobs[j := jobs[j].(state := Delayed)];
      }
      runs := runs - {r};
    }

    // The queue's answer to a thrown RetrySignal.
    method FailJob(r: RunId)
      requires EndEnabled(View(), r, Signal)
      modifies this
      ensures View() == AfterSignal(maxAttempts, old(View()), r)
    {
      var j := runs[r].job;
      if j in jobs && jobs[j].state == Active(r) {
        var failed := jobs[j].(made := jobs[j].made + 1, signalled := jobs[j].signalled + {runs[r].pc.no});
        if failed.made < maxAttempts {
          jobs := jobs[j := failed.(state := Delayed)];
        } else {
          dropped := dropped + {j.delivery};
          jobs := jobs - {j};
        }
      }
      runs := runs - {r};
    }

    // The queue's answer to any other exception.
    method ThrowOut(r: RunId)
      requires EndEnabled(View(), r, Fault)
      modifies this
      ensures View() == AfterFault(maxAttempts, old(View()), r)
    {
      var j := runs[r].job;
      if j in jobs && jobs[j].state == Active(r) {
        var failed := jobs[j].(made := jobs[j].made + 1, faults := jobs[j].faults + 1);
        if failed.made < maxAttempts {
          jobs := jobs[j := failed.(state := Delayed)];
        } else {
          dropped := dropped + {j.delivery};
          jobs := jobs - {j};
        }
      }
      runs := runs - {r};
    }

    method CompleteJob(r: RunId)
      requires EndEnabled(View(), r, Complete)
      modifies this
      ensures View() == AfterComplete(old(View()), r)
    {
      var j := runs[r].job;
      if j in jobs && jobs[j].state == Active(r) {
        jobs := jobs - {j};
      }
      runs := runs - {r};
    }

    method BeginTick(k: TickId, batch: seq<RowId>)
      modifies this
      ensures View() == AfterStartTick(old(View()), k, batch)
    {
      ticks := ticks[k := Pipeline.Tick(batch, 0, {}, false)];
    }

    method AddJob(k: TickId, d: DeliveryId)
      requires RelayEnabled(View(), k, Add(d))
      modifies this
      ensures View() == AfterAdd(old(View()), k, d)
    {
      var row := ticks[k].batch[ticks[k].at];
      var key := KeyFor(outbox, row, d);
      if key !in jobs {
        jobs := jobs[key := Job(Waiting, 0, {}, 0)];
      }
      ticks := ticks[k := ticks[k].(added := ticks[k].added + {d})];
      enqueued := enqueued + {Target(row, d)};
    }

    method FinishRow(k: TickId)
      requires k in ticks
      modifies this
      ensures View() == AfterNextRow(old(View()), k)
    {
      ticks := ticks[k := ticks[k].(at := ticks[k].at + 1, added := {})];
    }

    method FailTick(k: TickId)
      requires k in ticks
      modifies this
      ensures View() == AfterAddFails(old(View()), k)
    {
      ticks := ticks[k := ticks[k].(broken := true)];
    }

    // UPDATE ... SET status = 'PUBLISHED' WHERE id IN (...) AND status = 'PENDING'
    method MarkPublished(k: TickId)
      requires k in ticks && ticks[k].at <= |ticks[k].batch|
      modifies this
      ensures View() == AfterMark(old(View()), k)
    {
      var ids := ticks[k].batch[..ticks[k].at];
      outbox := map x | x in outbox ::
        if x in ids && !outbox[x].published then outbox[x].(published := true) else outbox[x];
      ticks := ticks - {k};
    }

    // The tick's local state is gone.
    method DropTick(k: TickId)
      requires k in ticks
      modifies this
      ensures View() == AfterTickDies(old(View()), k)
    {
      ticks := ticks - {k};
    }

    method ResetAndReserve(d: DeliveryId, row: RowId)
      requires d in deliveries
      modifies this
      ensures View() == AfterRedeliver(old(View()), d, row)
    {
      dropped := if NoStray(View(), d) then dropped - {d} else dropped;
      outbox := outbox[row := Row(deliveries[d].event, Some(d), false)];
      deliveries := deliveries[d := deliveries[d].(status := Pending)];
      redelivered := redelivered + multiset{d};
    }

    method InsertPing(event: EventId, d: DeliveryId, row: RowId)
      modifies this
      ensures View() == AfterPing(old(View()), event, d, row)
    {
      events := events + {event};
      deliveries := deliveries[d := Delivery(event, Pending, 0)];
      outbox := outbox[row := Row(event, Some(d), false)];
    }
  }
}
