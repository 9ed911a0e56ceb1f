// The worker's in-memory endpoint cache and how stale its answers can be.
module EndpointCache {
  import opened Common

  type EndpointId = nat
  datatype EndpointStatus = EndpointActive | DisabledAuto | DisabledManual
  datatype EndpointConfig = EndpointConfig(url: string, secret: string, status: EndpointStatus)
  datatype Entry = Entry(value: EndpointConfig, expiresAt: int)

  // The endpoints table over time: what a read of the row at that time returns.
  type History = (EndpointId, int) -> Option<EndpointConfig>

  const TTL_MS: int := 30_000

  // What an entry promises: its value was in the table no more than `lag` before
  // the moment from which its TTL was counted, and no later than `now`.
  ghost predicate Backed(db: History, lag: nat, now: int, id: EndpointId, e: Entry) {
    exists r: int :: r <= now && db(id, r) == Some(e.value) && e.expiresAt <= r + lag + TTL_MS
  }

  // A value that was in the table within the TTL (and the lag of the read) before t.
  ghost predicate FreshAt(db: History, lag: nat, t: int, id: EndpointId, value: EndpointConfig) {
    exists r: int :: t - TTL_MS - lag < r <= t && db(id, r) == Some(value)
  }

  // The endpoint was not ACTIVE at any time in the TTL (and lag) before t.
  ghost predicate OutOfUse(db: History, lag: nat, t: int, id: EndpointId) {
    forall r: int :: t - TTL_MS - lag < r <= t ==> db(id, r) == None || db(id, r).value.status != EndpointActive
  }

  lemma HitIsFresh(db: History, lag: nat, stored: int, now: int, id: EndpointId, e: Entry)
    requires Backed(db, lag, stored, id, e) && stored <= now < e.expiresAt
    ensures FreshAt(db, lag, now, id, e.value)
  {
    var r: int :| r <= stored && db(id, r) == Some(e.value) && e.expiresAt <= r + lag + TTL_MS;
    assert now - TTL_MS - lag < r <= now && db(id, r) == Some(e.value);
  }

  lemma OutOfUseIsNeverActive(db: History, lag: nat, t: int, id: EndpointId, value: EndpointConfig)
    requires OutOfUse(db, lag, t, id) && FreshAt(db, lag, t, id, value)
    ensures value.status != EndpointActive
  {
    var r: int :| t - TTL_MS - lag < r <= t && db(id, r) == Some(value);
  }

  // What the other calls in the same process did to the map while one was waiting.
  datatype Edit = Stores(id: EndpointId, entry: Entry) | Drops(id: EndpointId) | Clears

  class Cache {
    ghost const db: History
    ghost const lag: nat
    ghost var clock: int
    var entries: map<EndpointId, Entry>

    ghost predicate Valid()
      reads this
    {
      forall id :: id in entries ==> Backed(db, lag, clock, id, entries[id])
    }

    constructor (ghost db: History, ghost lag: nat, ghost clock: int)
      ensures Valid() && this.db == db && this.lag == lag && this.clock == clock && entries == map[]
    {
      this.db, this.lag, this.clock := db, lag, clock;
      entries := map[];
    }

    ghost method Passes(now: int)
      requires Valid() && clock <= now
      modifies this`clock
      ensures Valid() && clock == now
    {
      clock := now;
      forall id | id in entries
        ensures Backed(db, lag, now, id, entries[id])
      {
        assert Backed(db, lag, old(clock), id, entries[id]);
      }
    }

    // Time passes until `now`, and other calls store and drop entries meanwhile.
    method Await(edits: seq<Edit>, ghost now: int)
      requires Valid() && clock <= now
      requires forall i :: 0 <= i < |edits| && edits[i].Stores? ==> Backed(db, lag, now, edits[i].id, edits[i].entry)
      modifies this
      ensures Valid() && clock == now
    {
      Passes(now);
      for i := 0 to |edits|
        invariant Valid() && clock == now
      {
        match edits[i]
        case Stores(id, entry) => entries := entries[id := entry];
        case Drops(id) => entries := entries - {id};
        case Clears => entries := map[];
      }
    }

    predicate Holds(id: EndpointId, t: int)
      reads this
    {
      id in entries && t < entries[id].expiresAt
    }

    // Called at t0; on a miss the row is read at t1 (`row` is what was read) and its
    // entry is stored at t2. `others` is what other calls did in between.
    method Get(id: EndpointId, t0: int, ghost t1: int, t2: int, row: Option<EndpointConfig>, others: seq<Edit>)
      returns (value: Option<EndpointConfig>, ghost at: int)
      requires Valid() && clock <= t0 <= t1 <= t2 <= t1 + lag && row == db(id, t1)
      requires forall i :: 0 <= i < |others| && others[i].Stores? ==> Backed(db, lag, t2, others[i].id, others[i].entry)
      modifies this
      ensures Valid() && at == clock && t0 <= at <= t2
      ensures value.Some? ==> FreshAt(db, lag, at, id, value.value)
      ensures old(Holds(id, t0)) ==> value == Some(old(entries)[id].value) && at == t0 && entries == old(entries)
      ensures !old(Holds(id, t0)) ==>
        value == row && at == t2 && (row.Some? ==> Holds(id, t2 + TTL_MS - 1) && entries[id].value == row.value)
    {
      Passes(t0);
      if id in entries && entries[id].expiresAt > t0 {
        HitIsFresh(db, lag, t0, t0, id, entries[id]);
        return Some(entries[id].value), t0;
      }
      Await(others, t2);
      if row == None {
        return None, t2;
      }
      entries := entries[id := Entry(row.value, t2 + TTL_MS)];
      assert t2 - TTL_MS - lag < t1 <= t2 && db(id, t1) == Some(row.value);
      return row, t2;
    }

    // The worker's gate before a claim: the endpoint must exist and be ACTIVE.
    method MayClaim(id: EndpointId, t0: int, ghost t1: int, t2: int, row: Option<EndpointConfig>, others: seq<Edit>)
      returns (claims: bool, ghost at: int)
      requires Valid() && clock <= t0 <= t1 <= t2 <= t1 + lag && row == db(id, t1)
      requires forall i :: 0 <= i < |others| && others[i].Stores? ==> Backed(db, lag, t2, others[i].id, others[i].entry)
      modifies this
      ensures Valid() && at == clock && t0 <= at <= t2
      ensures claims ==> exists c: EndpointConfig :: c.status == EndpointActive && FreshAt(db, lag, at, id, c)
      ensures OutOfUse(db, lag, at, id) ==> !claims
      ensures claims <==>
        if old(Holds(id, t0)) then old(entries)[id].value.status == EndpointActive
        else row.Some? && row.value.status == EndpointActive
    {
      var endpoint;
      endpoint, at := Get(id, t0, t1, t2, row, others);
      claims := endpoint.Some? && endpoint.value.status == EndpointActive;
      if claims && OutOfUse(db, lag, at, id) {
        OutOfUseIsNeverActive(db, lag, at, id, endpoint.value);
      }
    }

    // One endpoint, or all of them.
    method Invalidate(id: Option<EndpointId>)
      requires Valid()
      modifies this`entries
      ensures Valid()
      ensures entries == if id.Some? then old(entries) - {id.value} else map[]
    {
      if id.Some? {
        entries := entries - {id.value};
      } else {
        entries := map[];
      }
    }
  }

  // The bound is exact: a cache that reads a row just before it changes still serves
  // it in the last millisecond of the TTL.
  method StalenessIsReached(id: EndpointId, before: EndpointConfig, after: EndpointConfig)
    returns (ghost db: History, value: Option<EndpointConfig>, ghost at: int)
    ensures forall r: int :: db(id, r) == Some(if r <= 0 then before else after)
    ensures value == Some(before) && at == TTL_MS - 1
  {
    db := (i, r) => if r <= 0 then Some(before) else Some(after);
    var cache := new Cache(db, 0, 0);
    value, at := cache.Get(id, 0, 0, 0, Some(before), []);
    value, at := cache.Get(id, TTL_MS - 1, TTL_MS - 1, TTL_MS - 1, Some(after), []);
  }
}
