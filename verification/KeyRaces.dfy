// Rotations that overlap. Each is one transaction of two statements at READ COMMITTED:
// an UPDATE that demotes the keys it sees, and the INSERT of the new key. An UPDATE
// sees what is committed when it starts; rows that another transaction has locked it
// waits for and looks at again, but it never sees rows inserted since.
module KeyRaces {
  import opened Common
  import opened ApiKeys

  type RotationId = nat

  // A rotation whose UPDATE has started: the ACTIVE keys it saw, and whether another
  // rotation of its tenant has committed since.
  datatype Rotation = Rotation(tenant: TenantId, seen: set<Hash>, overtaken: bool)
  datatype World = World(db: Db, open: map<RotationId, Rotation>)

  datatype Event =
    | Serves(request: Request)                         // a sign-up, guard check or change of status
    | Looks(id: RotationId, tenant: TenantId)          // the UPDATE starts
    | Commits(id: RotationId, hash: Hash)
    | Aborts(id: RotationId)
  datatype Moment = Moment(at: int, event: Event)

  const START := World(NO_DB, map[])

  function UsableKeys(db: Db, t: TenantId): set<Hash> {
    set h | h in db.keys && UsableKeyOf(db, t, h)
  }

  predicate Possible(w: World, e: Event) {
    match e
    case Serves(r) => !r.Rotate?
    case Looks(i, t) => i !in w.open && t in w.db.tenants
    case Commits(i, h) => i in w.open && h !in w.db.keys
    case Aborts(i) => i in w.open
  }

  // Keys that were seen and are still ACTIVE when their row lock is had.
  function DemotedSeen(keys: map<Hash, KeyRow>, seen: set<Hash>, now: int): map<Hash, KeyRow> {
    map h | h in keys ::
      if h in seen && keys[h].status == Usable then KeyRow(keys[h].tenant, Grace, Some(now + GRACE_PERIOD_MS))
      else keys[h]
  }

  function Overtaken(open: map<RotationId, Rotation>, t: TenantId): map<RotationId, Rotation> {
    map i | i in open :: if open[i].tenant == t then open[i].(overtaken := true) else open[i]
  }

  function Do(w: World, e: Event, now: int): World
    requires Possible(w, e)
  {
    match e
    case Serves(r) => w.(db := AfterRequest(w.db, r, now))
    case Looks(i, t) => w.(open := w.open[i := Rotation(t, UsableKeys(w.db, t), false)])
    case Commits(i, h) =>
      var t := w.open[i].tenant;
      World(w.db.(keys := DemotedSeen(w.db.keys, w.open[i].seen, now)[h := KeyRow(t, Usable, None)]),
            Overtaken(w.open - {i}, t))
    case Aborts(i) => w.(open := w.open - {i})
  }

  predicate ValidRun(w: World, run: seq<Moment>)
    decreases |run|
  {
    run == [] || (Possible(w, run[0].event) && ValidRun(Do(w, run[0].event, run[0].at), run[1..]))
  }

  function End(w: World, run: seq<Moment>): World
    requires ValidRun(w, run)
    decreases |run|
  {
    if run == [] then w else End(Do(w, run[0].event, run[0].at), run[1..])
  }

  // ---- one ACTIVE key ----

  ghost predicate OneUsable(db: Db, t: TenantId) {
    exists h :: UsableKeys(db, t) == {h}
  }

  // What an open rotation saw is issued; it is all there is unless it was overtaken,
  // and nothing of what there is if it was.
  predicate SawRightly(db: Db, r: Rotation) {
    && r.tenant in db.tenants && r.seen <= db.keys.Keys
    && (forall h :: h in r.seen ==> db.keys[h].tenant == r.tenant)
    && if r.overtaken then r.seen !! UsableKeys(db, r.tenant) else r.seen == UsableKeys(db, r.tenant)
  }

  ghost predicate Orderly(w: World) {
    && (forall h :: h in w.db.keys ==> w.db.keys[h].tenant in w.db.tenants)
    && (forall t :: t in w.db.tenants ==> OneUsable(w.db, t))
    && (forall i :: i in w.open ==> SawRightly(w.db, w.open[i]))
  }

  lemma CommitLeaves(w: World, i: RotationId, h: Hash, now: int, t: TenantId)
    requires Orderly(w) && Possible(w, Commits(i, h)) && t in w.db.tenants
    ensures UsableKeys(Do(w, Commits(i, h), now).db, t) ==
      if t != w.open[i].tenant then UsableKeys(w.db, t) else UsableKeys(w.db, t) - w.open[i].seen + {h}
  {
  }

  lemma NewKeyIsAlone(before: set<Hash>, seen: set<Hash>, h: Hash, overtaken: bool)
    requires (exists k :: before == {k}) && h !in before && if overtaken then seen !! before else seen == before
    ensures (exists k :: before - seen + {h} == {k}) <==> !overtaken
  {
    var k :| before == {k};
    if overtaken {
      assert k in before - seen + {h} && h in before - seen + {h};
    } else {
      assert before - seen + {h} == {h};
    }
  }

  // From one ACTIVE key each, a rotation leaves its tenant with one exactly when no
  // other rotation of the tenant committed since its UPDATE started.
  lemma CommitIsCleanExactlyWhen(w: World, i: RotationId, h: Hash, now: int)
    requires Orderly(w) && Possible(w, Commits(i, h))
    ensures OneUsable(Do(w, Commits(i, h), now).db, w.open[i].tenant) <==> !w.open[i].overtaken
  {
    var r, before := w.open[i], UsableKeys(w.db, w.open[i].tenant);
    CommitLeaves(w, i, h, now, r.tenant);
    assert SawRightly(w.db, r) && OneUsable(w.db, r.tenant);
    NewKeyIsAlone(before, r.seen, h, r.overtaken);
    var after := UsableKeys(Do(w, Commits(i, h), now).db, r.tenant);
    assert after == before - r.seen + {h};
  }

  // ---- rotations that do not overlap ----

  // A rotation starts only when no other of its tenant is open.
  predicate Apart(w: World, e: Event) {
    e.Looks? ==> forall i :: i in w.open ==> w.open[i].tenant != e.tenant
  }

  predicate RunApart(w: World, run: seq<Moment>)
    requires ValidRun(w, run)
    decreases |run|
  {
    run == [] || (Apart(w, run[0].event) && RunApart(Do(w, run[0].event, run[0].at), run[1..]))
  }

  predicate OneAtATime(w: World) {
    && (forall i :: i in w.open ==> !w.open[i].overtaken)
    && (forall i, k :: i in w.open && k in w.open && w.open[i].tenant == w.open[k].tenant ==> i == k)
  }

  lemma ServingKeepsUsable(db: Db, r: Request, now: int, t: TenantId)
    requires !r.Rotate? && t in db.tenants && forall h :: h in db.keys ==> db.keys[h].tenant in db.tenants
    ensures UsableKeys(AfterRequest(db, r, now), t) == UsableKeys(db, t)
  {
  }

  lemma ServingKeepsOrderly(w: World, r: Request, now: int)
    requires Orderly(w) && !r.Rotate?
    ensures Orderly(Do(w, Serves(r), now))
  {
    var after := AfterRequest(w.db, r, now);
    forall t | t in after.tenants
      ensures OneUsable(after, t)
    {
      if t in w.db.tenants {
        ServingKeepsUsable(w.db, r, now, t);
      } else {
        assert UsableKeys(after, t) == {r.hash};
      }
    }
    forall i | i in w.open
      ensures SawRightly(after, w.open[i])
    {
      ServingKeepsUsable(w.db, r, now, w.open[i].tenant);
    }
  }

  lemma CommitKeepsUsable(w: World, i: RotationId, h: Hash, now: int, t: TenantId)
    requires Orderly(w) && Possible(w, Commits(i, h)) && !w.open[i].overtaken && t in w.db.tenants
    ensures OneUsable(Do(w, Commits(i, h), now).db, t)
  {
    CommitLeaves(w, i, h, now, t);
    CommitIsCleanExactlyWhen(w, i, h, now);
    assert OneUsable(w.db, t);
  }

  // One key h is new. For r's tenant it is the only ACTIVE one (`mine`) or nothing changed.
  lemma StillRight(db: Db, after: Db, r: Rotation, h: Hash, mine: bool)
    requires SawRightly(db, r) && h !in db.keys
    requires after.tenants == db.tenants && after.keys.Keys == db.keys.Keys + {h}
    requires forall g :: g in db.keys ==> after.keys[g].tenant == db.keys[g].tenant
    requires UsableKeys(after, r.tenant) == if mine then {h} else UsableKeys(db, r.tenant)
    ensures SawRightly(after, if mine then r.(overtaken := true) else r)
  {
  }

  lemma CommitKeepsRows(w: World, i: RotationId, h: Hash, now: int)
    requires Possible(w, Commits(i, h))
    ensures var db := Do(w, Commits(i, h), now).db;
      && db.tenants == w.db.tenants && db.keys.Keys == w.db.keys.Keys + {h}
      && forall g :: g in w.db.keys ==> db.keys[g].tenant == w.db.keys[g].tenant
  {
  }

  lemma CommitKeepsSights(w: World, i: RotationId, h: Hash, now: int, k: RotationId)
    requires Orderly(w) && Possible(w, Commits(i, h)) && !w.open[i].overtaken && k in w.open && k != i
    ensures var after := Do(w, Commits(i, h), now); k in after.open && SawRightly(after.db, after.open[k])
  {
    assert SawRightly(w.db, w.open[k]) && SawRightly(w.db, w.open[i]);
    CommitLeaves(w, i, h, now, w.open[k].tenant);
    var usable := UsableKeys(w.db, w.open[i].tenant);
    assert usable - usable + {h} == {h};
    CommitKeepsRows(w, i, h, now);
    StillRight(w.db, Do(w, Commits(i, h), now).db, w.open[k], h, w.open[i].tenant == w.open[k].tenant);
  }

  lemma CommitKeepsOrderly(w: World, i: RotationId, h: Hash, now: int)
    requires Orderly(w) && Possible(w, Commits(i, h)) && !w.open[i].overtaken
    ensures Orderly(Do(w, Commits(i, h), now))
  {
    var after := Do(w, Commits(i, h), now);
    forall t | t in after.db.tenants
      ensures OneUsable(after.db, t)
    {
      CommitKeepsUsable(w, i, h, now, t);
    }
    forall k | k in after.open
      ensures SawRightly(after.db, after.open[k])
    {
      CommitKeepsSights(w, i, h, now, k);
    }
    CommitKeepsOwners(w, i, h, now);
  }

  lemma CommitKeepsOwners(w: World, i: RotationId, h: Hash, now: int)
    requires Orderly(w) && Possible(w, Commits(i, h))
    ensures var db := Do(w, Commits(i, h), now).db; forall k :: k in db.keys ==> db.keys[k].tenant in db.tenants
  {
    assert SawRightly(w.db, w.open[i]);
  }

  lemma LooksKeepsOrderly(w: World, i: RotationId, t: TenantId, now: int)
    requires Orderly(w) && Possible(w, Looks(i, t))
    ensures Orderly(Do(w, Looks(i, t), now))
  {
    assert SawRightly(w.db, Rotation(t, UsableKeys(w.db, t), false));
  }

  lemma EventKeepsOneAtATime(w: World, e: Event, now: int)
    requires OneAtATime(w) && Possible(w, e) && Apart(w, e)
    ensures OneAtATime(Do(w, e, now))
  {
  }

  lemma EventKeepsOrderly(w: World, e: Event, now: int)
    requires Orderly(w) && OneAtATime(w) && Possible(w, e)
    ensures Orderly(Do(w, e, now))
  {
    match e
    case Serves(r) => ServingKeepsOrderly(w, r, now);
    case Looks(i, t) => LooksKeepsOrderly(w, i, t, now);
    case Commits(i, h) => CommitKeepsOrderly(w, i, h, now);
    case Aborts(i) => assert forall k :: k in w.open - {i} ==> SawRightly(w.db, w.open[k]);
  }

  lemma {:induction false} RunKeepsOrderly(w: World, run: seq<Moment>)
    requires Orderly(w) && OneAtATime(w) && ValidRun(w, run) && RunApart(w, run)
    ensures Orderly(End(w, run))
    decreases |run|
  {
    if run != [] {
      EventKeepsOrderly(w, run[0].event, run[0].at);
      EventKeepsOneAtATime(w, run[0].event, run[0].at);
      RunKeepsOrderly(Do(w, run[0].event, run[0].at), run[1..]);
    }
  }

  // It suffices that no two rotations of one tenant overlap.
  lemma ApartKeepsOneUsable(run: seq<Moment>, t: TenantId)
    requires ValidRun(START, run) && RunApart(START, run) && t in End(START, run).db.tenants
    ensures OneUsable(End(START, run).db, t)
  {
    RunKeepsOrderly(START, run);
  }

  lemma {:induction false} Append(w: World, x: seq<Moment>, y: Moment)
    requires ValidRun(w, x) && Possible(End(w, x), y.event)
    ensures ValidRun(w, x + [y]) && End(w, x + [y]) == Do(End(w, x), y.event, y.at)
    decreases |x|
  {
    if x == [] {
      assert x + [y] == [y] && [y][1..] == [];
    } else {
      assert (x + [y])[1..] == x[1..] + [y];
      Append(Do(w, x[0].event, x[0].at), x[1..], y);
    }
  }

  lemma Then(run: seq<Moment>, e: Event, at: int) returns (longer: seq<Moment>)
    requires ValidRun(START, run) && Possible(End(START, run), e)
    ensures ValidRun(START, longer) && End(START, longer) == Do(End(START, run), e, at)
  {
    longer := run + [Moment(at, e)];
    Append(START, run, Moment(at, e));
  }

  lemma BothLook() returns (run: seq<Moment>)
    ensures ValidRun(START, run)
    ensures var w := End(START, run); var r := Rotation(0, {0}, false);
      w.db.tenants.Keys == {0} && w.db.keys == map[0 := KeyRow(0, Usable, None)] && w.open == map[0 := r, 1 := r]
  {
    run := Then([], Serves(SignUp(0, "FREE", 0)), 0);
    assert UsableKeys(End(START, run).db, 0) == {0};
    run := Then(run, Looks(0, 0), 1);
    run := Then(run, Looks(1, 0), 1);
  }

  // And two that do overlap leave two ACTIVE keys.
  lemma OverlapLeavesTwo() returns (run: seq<Moment>)
    ensures ValidRun(START, run) && UsableKeys(End(START, run).db, 0) == {1, 2}
  {
    run := BothLook();
    run := Then(run, Commits(0, 1), 2);
    assert End(START, run).db.keys[0].status == Grace && End(START, run).open[1].seen == {0};
    run := Then(run, Commits(1, 2), 3);
  }

  // ---- a rotation that nothing interrupts ----

  // Its two statements are the serial rotation.
  lemma RotationAlone(w: World, i: RotationId, t: TenantId, h: Hash, now: int)
    requires i !in w.open && t in w.db.tenants && h !in w.db.keys
    ensures var looked := Do(w, Looks(i, t), now);
      Possible(looked, Commits(i, h)) && Do(looked, Commits(i, h), now).db == AfterRequest(w.db, Rotate(t, h), now)
  {
    var looked := Do(w, Looks(i, t), now);
    assert DemotedSeen(w.db.keys, UsableKeys(w.db, t), now) == Demoted(w.db.keys, t, now);
  }
}
