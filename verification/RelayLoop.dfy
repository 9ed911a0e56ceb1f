// The outbox relay as the code writes it.
module RelayLoop {
  import opened Common
  import opened Pipeline
  import opened Invariant
  import opened Stores

  function PendingRows(outbox: map<RowId, Row>): set<RowId> {
    set x | x in outbox && !outbox[x].published
  }

  function Elements(ids: seq<nat>): set<nat> {
    set x | x in ids
  }

  lemma {:induction false} HasLowest(ids: set<nat>) returns (low: nat)
    requires ids != {}
    ensures low in ids && forall y :: y in ids ==> low <= y
    decreases |ids|
  {
    var first :| first in ids;
    low := first;
    if ids - {first} != {} {
      var other := HasLowest(ids - {first});
      low := if other < first then other else first;
    }
    assert forall y :: y in ids ==> y == first || y in ids - {first};
  }

  lemma {:induction false} SizeOfBatch(batch: seq<nat>)
    requires forall i, k :: 0 <= i < k < |batch| ==> batch[i] < batch[k]
    ensures |Elements(batch)| == |batch|
  {
    if batch == [] {
    } else {
      var front, last := batch[..|batch| - 1], batch[|batch| - 1];
      SizeOfBatch(front);
      assert batch == front + [last];
      assert last !in front;
      assert Elements(batch) == Elements(front) + {last};
    }
  }

  // A fault-free tick takes its whole batch off the PENDING rows.
  lemma BatchLeaves(s: State, outbox: map<RowId, Row>, batch: seq<RowId>, size: nat)
    requires IsBatch(s, batch, size) && outbox == MarkRows(s.outbox, batch)
    ensures |PendingRows(outbox)| == |PendingRows(s.outbox)| - |batch| && |batch| == Min(size, |PendingRows(s.outbox)|)
  {
    var pending, taken := PendingRows(s.outbox), Elements(batch);
    SizeOfBatch(batch);
    forall x | x in taken ensures x in pending {
      var i :| 0 <= i < |batch| && batch[i] == x;
      assert PendingRow(s, batch[i]);
    }
    assert PendingRows(outbox) == pending - taken;
    assert pending == (pending - taken) + taken;
    if |batch| < size {
      forall x | x in pending ensures x in taken {
        assert PendingRow(s, x);
      }
      assert pending - taken == {};
    }
  }

  // The tick's current row.
  ghost predicate IsRowOf(s: State, k: TickId, row: RowId) {
    && k in s.ticks && s.ticks[k].at < |s.ticks[k].batch| && s.ticks[k].batch[s.ticks[k].at] == row
    && row in s.outbox
  }

  // The delivery was enqueued for the row and has its job in the queue: one of the row's
  // own for a row of one delivery, and the delivery's first job for a fan-out row.
  ghost predicate Enqueued(s: State, row: RowId, d: DeliveryId) {
    && row in s.outbox && Target(row, d) in s.enqueued
    && if s.outbox[row].delivery.Some? then RowJob(d, row) in s.jobs else FanoutJob(d) in s.jobs
  }

  // All of its event's deliveries for a fan-out row, and the one it names for another.
  predicate IsFor(s: State, row: RowId, d: DeliveryId) {
    && row in s.outbox && d in s.deliveries
    && if s.outbox[row].delivery.Some? then s.outbox[row].delivery.value == d
       else s.deliveries[d].event == s.outbox[row].event
  }

  ghost predicate AllAreEnqueued(s: State, row: RowId) {
    forall d :: IsFor(s, row, d) ==> Enqueued(s, row, d)
  }

  lemma TargetsAreEnqueued(s: State, row: RowId)
    requires row in s.outbox && forall d :: IsTarget(s.deliveries, s.outbox[row], d) ==> Enqueued(s, row, d)
    ensures AllAreEnqueued(s, row)
  {
    forall d | IsFor(s, row, d)
      ensures Enqueued(s, row, d)
    {
      assert IsTarget(s.deliveries, s.outbox[row], d);
    }
  }

  // A batch by the outbox's columns.
  lemma BatchIs(s: State, batch: seq<RowId>, size: nat)
    requires IsBatch(s, batch, size)
    ensures |batch| == Min(size, |PendingRows(s.outbox)|)
    ensures forall i :: 0 <= i < |batch| ==> batch[i] in s.outbox && !s.outbox[batch[i]].published
    ensures forall i, k :: 0 <= i < k < |batch| ==> batch[i] < batch[k]
    ensures forall x, i :: x in s.outbox && !s.outbox[x].published && x !in batch && 0 <= i < |batch| ==> batch[i] < x
  {
    BatchLeaves(s, MarkRows(s.outbox, batch), batch, size);
    assert forall i :: 0 <= i < |batch| ==> PendingRow(s, batch[i]);
    assert forall x :: x in s.outbox && !s.outbox[x].published ==> PendingRow(s, x);
  }

  // An update that marks exactly these rows, or throws and may have marked none.
  predicate Marks(before: map<RowId, Row>, after: map<RowId, Row>, ids: seq<RowId>, threw: bool) {
    after == MarkRows(before, ids) || (threw && after == before)
  }

  class RelayService {
    const db: Cluster

    constructor (db: Cluster)
      ensures this.db == db
    {
      this.db := db;
    }

    // SELECT ... WHERE status = 'PENDING' ORDER BY id LIMIT size
    method FindPending(size: nat) returns (batch: seq<RowId>)
      ensures IsBatch(db.View(), batch, size)
      ensures |batch| == Min(size, |PendingRows(db.outbox)|)
      ensures forall i :: 0 <= i < |batch| ==> batch[i] in db.outbox && !db.outbox[batch[i]].published
      ensures forall i, k :: 0 <= i < k < |batch| ==> batch[i] < batch[k]
      ensures forall x, i :: x in db.outbox && !db.outbox[x].published && x !in batch && 0 <= i < |batch| ==>
        batch[i] < x
    {
      var rest := PendingRows(db.outbox);
      batch := [];
      while |batch| < size && rest != {}
        invariant |batch| <= size && rest <= db.outbox.Keys
        invariant forall x :: PendingRow(db.View(), x) <==> x in batch || x in rest
        invariant forall i, k :: 0 <= i < k < |batch| ==> batch[i] < batch[k]
        invariant forall i, x :: 0 <= i < |batch| && x in rest ==> batch[i] < x
        decreases |rest|
      {
        ghost var lowest := HasLowest(rest);
        var low: nat :| low in rest && forall y :: y in rest ==> low <= y;
        rest := rest - {low};
        batch := batch + [low];
      }
      forall i | 0 <= i < |batch| ensures PendingRow(db.View(), batch[i]) {
        assert batch[i] in batch;
      }
      BatchIs(db.View(), batch, size);
    }

    method AddTarget(ghost since: State, k: TickId, row: RowId, d: DeliveryId)
      requires Went(db.maxAttempts, since, db.View())
      requires RelayEnabled(db.View(), k, Add(d)) && IsRowOf(db.View(), k, row)
      modifies db
      ensures Went(db.maxAttempts, since, db.View())
      ensures db.outbox == old(db.outbox) && db.deliveries == old(db.deliveries)
      ensures db.ticks == old(db.ticks)[k := old(db.ticks)[k].(added := old(db.ticks)[k].added + {d})]
      ensures Enqueued(db.View(), row, d)
      ensures forall e :: old(Enqueued(db.View(), row, e)) ==> Enqueued(db.View(), row, e)
    {
      Stepped(db.maxAttempts, since, db.View(), Relay(k, Add(d)));
      db.AddJob(k, d);
    }

    // Enqueues the targets of the current row, or some of them and then an error.
    method AddTargets(ghost since: State, k: TickId, row: RowId, faultFree: bool) returns (ok: bool)
      requires Went(db.maxAttempts, since, db.View())
      requires IsRowOf(db.View(), k, row) && !db.ticks[k].broken && db.ticks[k].added == {}
      modifies db
      ensures Went(db.maxAttempts, since, db.View()) && (faultFree ==> ok)
      ensures db.outbox == old(db.outbox) && db.deliveries == old(db.deliveries)
      ensures k in db.ticks && db.ticks.Keys == old(db.ticks).Keys
      ensures db.ticks[k] == old(db.ticks)[k].(added := db.ticks[k].added, broken := !ok)
      ensures ok ==> forall d :: IsTarget(db.deliveries, db.outbox[row], d) ==> d in db.ticks[k].added
      ensures ok ==> forall d :: IsTarget(db.deliveries, db.outbox[row], d) ==> Enqueued(db.View(), row, d)
    {
      var todo := set d | d in db.deliveries && IsTarget(db.deliveries, db.outbox[row], d);
      while todo != {}
        invariant Went(db.maxAttempts, since, db.View())
        invariant db.outbox == old(db.outbox) && db.deliveries == old(db.deliveries)
        invariant db.ticks.Keys == old(db.ticks).Keys
        invariant k in db.ticks && db.ticks[k] == old(db.ticks)[k].(added := db.ticks[k].added)
        invariant todo <= db.deliveries.Keys
        invariant forall d :: IsTarget(db.deliveries, db.outbox[row], d) <==> d in todo || d in db.ticks[k].added
        invariant forall d :: d in db.ticks[k].added ==> Enqueued(db.View(), row, d)
        decreases |todo|
      {
        var fails: bool := *;
        if fails && !faultFree {
          Stepped(db.maxAttempts, since, db.View(), Relay(k, AddFails));
          db.FailTick(k);
          return false;
        }
        var d :| d in todo;
        AddTarget(since, k, row, d);
        todo := todo - {d};
      }
      return true;
    }

    // The row counts as enqueued when every target of it is.
    method AddBulk(ghost since: State, k: TickId, faultFree: bool) returns (ok: bool)
      requires Went(db.maxAttempts, since, db.View())
      requires k in db.ticks && !db.ticks[k].broken && db.ticks[k].at < |db.ticks[k].batch| && db.ticks[k].added == {}
      requires db.ticks[k].batch[db.ticks[k].at] in db.outbox
      modifies db
      ensures Went(db.maxAttempts, since, db.View()) && (faultFree ==> ok)
      ensures db.outbox == old(db.outbox) && db.deliveries == old(db.deliveries)
      ensures k in db.ticks && db.ticks[k].batch == old(db.ticks)[k].batch && db.ticks.Keys == old(db.ticks).Keys
      ensures ok ==> db.ticks[k] == old(db.ticks)[k].(at := old(db.ticks)[k].at + 1)
      ensures !ok ==> db.ticks[k].broken && db.ticks[k].at == old(db.ticks)[k].at
      ensures ok ==> AllAreEnqueued(db.View(), old(db.ticks)[k].batch[old(db.ticks)[k].at])
    {
      var row := db.ticks[k].batch[db.ticks[k].at];
      ok := AddTargets(since, k, row, faultFree);
      if ok {
        ghost var before := db.View();
        Stepped(db.maxAttempts, since, db.View(), Relay(k, NextRow));
        db.FinishRow(k);
        assert forall d :: Enqueued(before, row, d) ==> Enqueued(db.View(), row, d);
        TargetsAreEnqueued(db.View(), row);
      }
    }

    // One polling pass: enqueue, then mark. Returns how many rows it enqueued, and the
    // outbox as its own update found it. Reading the batch or marking it may throw, the
    // latter before or after the update took effect. Nothing else in it writes the outbox.
    method Tick(ghost since: State, k: TickId, batchSize: nat, faultFree: bool)
      returns (published: nat, threw: bool, ghost batch: seq<RowId>, ghost found: map<RowId, Row>)
      requires Went(db.maxAttempts, since, db.View()) && k !in db.ticks
      modifies db
      ensures Went(db.maxAttempts, since, db.View()) && k !in db.ticks
      ensures IsBatch(old(db.View()), batch, batchSize) && published <= |batch|
      ensures Marks(found, db.outbox, batch[..published], threw)
      ensures forall i :: 0 <= i < published ==> batch[i] in found
      ensures faultFree ==> !threw && published == |batch| && db.outbox == MarkRows(old(db.outbox), batch)
    {
      var rows := FindPending(batchSize);
      batch := rows;
      published := 0;
      threw := *;
      found := db.outbox;
      if threw && !faultFree {
        return;
      }
      Stepped(db.maxAttempts, since, db.View(), Relay(k, StartTick(rows, batchSize)));
      db.BeginTick(k, rows);
      published := EnqueueRows(since, k, faultFree);
      db.AwaitTick(since, k, faultFree);
      RowsOfTick(db.maxAttempts, since, db.View(), k);
      assert rows[..|rows|] == rows;
      found := db.outbox;
      threw := MarkEnqueued(since, k, faultFree);
    }

    // Row by row, up to the first that fails.
    method EnqueueRows(ghost since: State, k: TickId, faultFree: bool) returns (published: nat)
      requires Went(db.maxAttempts, since, db.View())
      requires k in db.ticks && db.ticks[k] == Pipeline.Tick(db.ticks[k].batch, 0, {}, false)
      modifies db
      ensures Went(db.maxAttempts, since, db.View())
      ensures k in db.ticks && db.ticks[k].batch == old(db.ticks)[k].batch && db.ticks[k].at == published
      ensures published <= |db.ticks[k].batch| && (db.ticks[k].broken || published == |db.ticks[k].batch|)
      ensures faultFree ==> published == |db.ticks[k].batch| && db.outbox == old(db.outbox)
    {
      ghost var rows := db.ticks[k].batch;
      published := 0;
      var ok, count := true, |db.ticks[k].batch|;
      while ok && published < count
        invariant Went(db.maxAttempts, since, db.View())
        invariant published <= count && k in db.ticks && db.ticks[k].batch == rows && db.ticks[k].at == published
        invariant ok ==> db.ticks[k] == Pipeline.Tick(rows, published, {}, false)
        invariant !ok ==> db.ticks[k].broken
        invariant faultFree ==> ok && db.outbox == old(db.outbox)
        decreases ok, count - published
      {
        db.AwaitTick(since, k, faultFree);
        RowsOfTick(db.maxAttempts, since, db.View(), k);
        ok := AddBulk(since, k, faultFree);
        if ok {
          published := published + 1;
        }
      }
    }

    // Marks the enqueued rows of the batch. When it throws, the update took effect or not.
    method MarkEnqueued(ghost since: State, k: TickId, faultFree: bool) returns (threw: bool)
      requires Went(db.maxAttempts, since, db.View()) && RelayEnabled(db.View(), k, Mark)
      modifies db
      ensures Went(db.maxAttempts, since, db.View()) && k !in db.ticks && (faultFree ==> !threw)
      ensures var tick := old(db.ticks)[k]; Marks(old(db.outbox), db.outbox, tick.batch[..tick.at], threw)
    {
      threw := *;
      var lands: bool := *;
      if threw && !faultFree && !lands {
        Stepped(db.maxAttempts, since, db.View(), Relay(k, TickDies));
        db.DropTick(k);
        return;
      }
      threw := threw && !faultFree;
      Stepped(db.maxAttempts, since, db.View(), Relay(k, Mark));
      db.MarkPublished(k);
    }

    method QuietTick(ghost since: State, k: TickId, batchSize: nat)
      requires Went(db.maxAttempts, since, db.View()) && k !in db.ticks
      modifies db
      ensures Went(db.maxAttempts, since, db.View()) && k !in db.ticks
      ensures |PendingRows(db.outbox)| == old(|PendingRows(db.outbox)| - Min(batchSize, |PendingRows(db.outbox)|))
    {
      ghost var before := db.View();
      var published, threw, batch, found := Tick(since, k, batchSize, true);
      BatchLeaves(before, db.outbox, batch, batchSize);
    }

    // Polling with no new rows and no faults: the backlog is gone after one tick
    // for every batchSize rows, the last one perhaps partly filled.
    method PollUntilIdle(ghost since: State, k: TickId, batchSize: nat) returns (ticks: nat)
      requires Went(db.maxAttempts, since, db.View()) && k !in db.ticks && batchSize > 0
      modifies db
      ensures Went(db.maxAttempts, since, db.View()) && PendingRows(db.outbox) == {}
      ensures ticks == (|PendingRows(old(db.outbox))| + batchSize - 1) / batchSize
    {
      ticks := 0;
      ghost var n := |PendingRows(db.outbox)|;
      ghost var left := n;
      while PendingRows(db.outbox) != {}
        invariant Went(db.maxAttempts, since, db.View()) && k !in db.ticks
        invariant left == |PendingRows(db.outbox)|
        invariant TicksFor(n, batchSize, ticks, left)
        decreases left
      {
        QuietTick(since, k, batchSize);
        OneMoreTick(n, batchSize, ticks, left);
        left := |PendingRows(db.outbox)|;
        ticks := ticks + 1;
      }
      CeilingOf(n, batchSize, ticks);
    }
  }

  // After `ticks` ticks `left` of n rows remain, and none of the ticks was idle.
  ghost predicate TicksFor(n: nat, size: nat, ticks: nat, left: nat) {
    left == Max(0, n - ticks * size) && (ticks == 0 || (ticks - 1) * size < n)
  }

  lemma OneMoreTick(n: nat, size: nat, ticks: nat, left: nat)
    requires TicksFor(n, size, ticks, left) && left > 0
    ensures TicksFor(n, size, ticks + 1, left - Min(size, left))
  {
    assert (ticks + 1) * size == ticks * size + size;
  }

  lemma {:induction false} MoreSteps(size: nat, q: nat, p: nat)
    requires q < p
    ensures q * size + size <= p * size
    decreases p
  {
    assert p * size == (p - 1) * size + size;
    if q < p - 1 {
      MoreSteps(size, q, p - 1);
    }
  }

  lemma UniqueQuotient(size: nat, q: nat, r: nat, p: nat, t: nat)
    requires q * size + r == p * size + t && r < size && t < size
    ensures q == p
  {
    if q < p {
      MoreSteps(size, q, p);
    } else if p < q {
      MoreSteps(size, p, q);
    }
  }

  lemma CeilingOf(n: nat, size: nat, ticks: nat)
    requires size > 0 && TicksFor(n, size, ticks, 0)
    ensures (n + size - 1) / size == ticks
  {
    var x := n + size - 1;
    assert ticks > 0 ==> (ticks - 1) * size == ticks * size - size;
    UniqueQuotient(size, x / size, x % size, ticks, x - ticks * size);
  }

  lemma RowsOfTick(m: MaxAttempts, since: State, s: State, k: TickId)
    requires Went(m, since, s) && k in s.ticks
    ensures forall i :: 0 <= i < |s.ticks[k].batch| ==> s.ticks[k].batch[i] in s.outbox
  {
    WentInv(m, since, s);
    assert TickOk(s.deliveries, s.outbox, s.enqueued, s.ticks[k]);
  }
}
