// The API calls that write the outbox for one delivery.
module ApiCalls {
  import opened Common
  import opened Pipeline
  import opened Invariant
  import opened Stores
  import NoOrphan

  class ApiService {
    const db: Cluster

    constructor (db: Cluster)
      ensures this.db == db
    {
      this.db := db;
    }

    // False when there is no such delivery. Otherwise the delivery is PENDING and
    // its reservation is in the outbox, for it alone and not yet enqueued.
    method Redeliver(ghost since: State, d: DeliveryId, row: RowId) returns (found: bool)
      requires Went(db.maxAttempts, since, db.View()) && row !in db.outbox
      modifies db
      ensures Went(db.maxAttempts, since, db.View())
      ensures found <==> d in old(db.deliveries)
      ensures !found ==> db.View() == old(db.View())
      ensures found ==>
        && d in db.deliveries && db.deliveries[d] == old(db.deliveries)[d].(status := Pending)
        && db.attempts == old(db.attempts) && db.jobs == old(db.jobs)
        && NoOrphan.RowFor(db.View(), d, row) && RowJob(d, row) !in db.jobs
        && db.outbox == old(db.outbox)[row := Row(db.deliveries[d].event, Some(d), false)]
        && (NoStray(old(db.View()), d) ==> d !in db.dropped)
    {
      if d !in db.deliveries {
        return false;
      }
      NothingEnqueuedFor(db.maxAttempts, since, db.View(), row, d);
      Stepped(db.maxAttempts, since, db.View(), Api(Pipeline.Redeliver(d, row)));
      db.ResetAndReserve(d, row);
      return true;
    }

    method Ping(ghost since: State, event: EventId, d: DeliveryId, row: RowId)
      requires Went(db.maxAttempts, since, db.View()) && event !in db.events && d !in db.deliveries && row !in db.outbox
      modifies db
      ensures Went(db.maxAttempts, since, db.View())
      ensures d in db.deliveries && db.deliveries[d] == Delivery(event, Pending, 0)
      ensures NoOrphan.RowFor(db.View(), d, row)
      ensures db.outbox == old(db.outbox)[row := Row(event, Some(d), false)] && event in db.events
    {
      NothingEnqueuedFor(db.maxAttempts, since, db.View(), row, d);
      Stepped(db.maxAttempts, since, db.View(), Api(Pipeline.Ping(event, d, row)));
      db.InsertPing(event, d, row);
    }
  }

  lemma NothingEnqueuedFor(m: MaxAttempts, since: State, s: State, row: RowId, d: DeliveryId)
    requires Went(m, since, s) && row !in s.outbox
    ensures Target(row, d) !in s.enqueued && RowJob(d, row) !in s.jobs
  {
    WentInv(m, since, s);
    assert RowJob(d, row) in s.jobs ==> JobEnqueued(s.deliveries, s.outbox, s.enqueued, RowJob(d, row));
  }
}
