// Publishing an event: one transaction writes the event, its deliveries and its
// outbox row, and a unique column makes repeats harmless.
module Publishing {
  import opened Common
  import Pipeline
  import Guarantees

  type TenantId = nat
  type EndpointId = nat
  type EventId = Pipeline.EventId
  type DeliveryId = Pipeline.DeliveryId
  type RowId = Pipeline.RowId

  datatype Endpoint = Endpoint(id: EndpointId, tenant: TenantId, active: bool, subscriptions: set<string>)
  datatype EventRow = EventRow(tenant: TenantId, eventType: string, key: string)
  datatype DeliveryRow = DeliveryRow(event: EventId, endpoint: EndpointId)

  // `outbox` holds the fan-out rows only.
  datatype Tables = Tables(
    events: map<EventId, EventRow>, deliveries: map<DeliveryId, DeliveryRow>, outbox: map<RowId, EventId>)

  // One request, the endpoints table as its transaction finds it, oldest endpoint
  // first, and the ids it will draw.
  datatype Call = Call(
    tenant: TenantId, eventType: string, key: string, sizeBytes: nat,
    endpoints: seq<Endpoint>, event: EventId, ids: seq<DeliveryId>, row: RowId)

  datatype Answer =
    | Published(event: EventId, deliveries: seq<(DeliveryId, EndpointId)>)
    | DuplicateEvent(first: EventId)
    | PayloadTooLarge(sizeBytes: nat)

  const MAX_PAYLOAD_BYTES: nat := 64 * 1024
  const NO_TABLES := Tables(map[], map[], map[])

  // ---- specification ----

  predicate IsTarget(e: Endpoint, c: Call) {
    e.tenant == c.tenant && e.active && c.eventType in e.subscriptions
  }

  function Targets(endpoints: seq<Endpoint>, c: Call): (ids: seq<EndpointId>)
    ensures |ids| <= |endpoints|
  {
    if endpoints == [] then []
    else (if IsTarget(endpoints[0], c) then [endpoints[0].id] else []) + Targets(endpoints[1..], c)
  }

  // Endpoint ids are a primary key; drawn ids are new and differ.
  predicate WellFormed(t: Tables, c: Call) {
    && DistinctIds(c.endpoints)
    && c.event !in t.events && c.row !in t.outbox && |c.ids| == |Targets(c.endpoints, c)|
    && (forall i :: 0 <= i < |c.ids| ==> c.ids[i] !in t.deliveries)
    && (forall i, k :: 0 <= i < k < |c.ids| ==> c.ids[i] != c.ids[k])
    && c.event !in Delivered(t.deliveries) + t.outbox.Values
  }

  predicate HasKey(t: Tables, e: EventId, tenant: TenantId, key: string) {
    e in t.events && t.events[e].tenant == tenant && t.events[e].key == key
  }

  ghost predicate Taken(t: Tables, c: Call) {
    exists e :: HasKey(t, e, c.tenant, c.key)
  }

  // ids[i] delivers to the i-th target.
  function Fan(c: Call, n: nat): map<DeliveryId, DeliveryRow>
    requires n <= |c.ids| == |Targets(c.endpoints, c)|
  {
    if n == 0 then map[] else Fan(c, n - 1)[c.ids[n - 1] := DeliveryRow(c.event, Targets(c.endpoints, c)[n - 1])]
  }

  function NewDeliveries(c: Call): map<DeliveryId, DeliveryRow>
    requires |c.ids| == |Targets(c.endpoints, c)|
  {
    Fan(c, |c.ids|)
  }

  ghost predicate Accepts(t: Tables, c: Call) {
    c.sizeBytes <= MAX_PAYLOAD_BYTES && !Taken(t, c)
  }

  function Inserted(t: Tables, c: Call): Tables
    requires WellFormed(t, c)
  {
    Tables(
      t.events[c.event := EventRow(c.tenant, c.eventType, c.key)],
      t.deliveries + NewDeliveries(c),
      if c.ids == [] then t.outbox else t.outbox[c.row := c.event])
  }

  ghost function After(t: Tables, c: Call): Tables
    requires WellFormed(t, c)
  {
    if Accepts(t, c) then Inserted(t, c) else t
  }

  function Listed(c: Call): seq<(DeliveryId, EndpointId)>
    requires |c.ids| == |Targets(c.endpoints, c)|
  {
    seq(|c.ids|, i requires 0 <= i < |c.ids| => (c.ids[i], Targets(c.endpoints, c)[i]))
  }

  // The answer `a` to call `c` on tables `t`.
  ghost predicate Answers(t: Tables, c: Call, a: Answer)
    requires WellFormed(t, c)
  {
    match a
    case PayloadTooLarge(size) => c.sizeBytes > MAX_PAYLOAD_BYTES && size == c.sizeBytes
    case DuplicateEvent(first) => c.sizeBytes <= MAX_PAYLOAD_BYTES && HasKey(t, first, c.tenant, c.key)
    case Published(event, deliveries) =>
      && Accepts(t, c) && event == c.event
      && deliveries == Listed(c)
  }

  // ---- what the tables keep ----

  // The events that have a delivery.
  function Delivered(deliveries: map<DeliveryId, DeliveryRow>): set<EventId> {
    set d | d in deliveries :: deliveries[d].event
  }

  predicate SameKey(a: EventRow, b: EventRow) {
    a.tenant == b.tenant && a.key == b.key
  }

  predicate OneEventPerKey(events: map<EventId, EventRow>) {
    forall e, f :: e in events && f in events && SameKey(events[e], events[f]) ==> e == f
  }

  predicate OneDeliveryPerEndpoint(deliveries: map<DeliveryId, DeliveryRow>) {
    forall d, g :: d in deliveries && g in deliveries && deliveries[d] == deliveries[g] ==> d == g
  }

  predicate OneRowPerEvent(outbox: map<RowId, EventId>) {
    forall x, y :: x in outbox && y in outbox && outbox[x] == outbox[y] ==> x == y
  }

  // Exactly the events with deliveries have an outbox row.
  predicate Sound(t: Tables) {
    && OneEventPerKey(t.events) && OneDeliveryPerEndpoint(t.deliveries) && OneRowPerEvent(t.outbox)
    && t.outbox.Values == Delivered(t.deliveries) <= t.events.Keys
  }

  // The endpoint is to get the event.
  ghost predicate Subscribed(endpoints: seq<Endpoint>, c: Call, id: EndpointId) {
    exists e :: e in endpoints && e.id == id && e.tenant == c.tenant && e.active && c.eventType in e.subscriptions
  }

  predicate DistinctIds(endpoints: seq<Endpoint>) {
    forall i, k :: 0 <= i < k < |endpoints| ==> endpoints[i].id != endpoints[k].id
  }

  lemma {:induction false} TargetsAre(endpoints: seq<Endpoint>, c: Call)
    requires DistinctIds(endpoints)
    ensures forall i, k :: 0 <= i < k < |Targets(endpoints, c)| ==> Targets(endpoints, c)[i] != Targets(endpoints, c)[k]
    ensures forall id :: id in Targets(endpoints, c) <==> Subscribed(endpoints, c, id)
  {
    if endpoints != [] {
      var head, rest := endpoints[0], endpoints[1..];
      assert endpoints == [head] + rest;
      TargetsAre(rest, c);
      assert forall e :: e in endpoints <==> e == head || e in rest;
      forall id
        ensures Subscribed(endpoints, c, id) <==> (IsTarget(head, c) && head.id == id) || Subscribed(rest, c, id)
      {
        assert head in endpoints;
      }
      assert !Subscribed(rest, c, head.id);
    }
  }

  predicate Fans(c: Call, n: nat, rows: map<DeliveryId, DeliveryRow>)
    requires n <= |c.ids| == |Targets(c.endpoints, c)|
  {
    && (forall i :: 0 <= i < n ==>
      c.ids[i] in rows && rows[c.ids[i]] == DeliveryRow(c.event, Targets(c.endpoints, c)[i]))
    && (forall d :: d in rows ==> d in c.ids[..n])
  }

  lemma {:induction false} FanFans(c: Call, n: nat)
    requires n <= |c.ids| == |Targets(c.endpoints, c)|
    requires forall i, k :: 0 <= i < k < |c.ids| ==> c.ids[i] != c.ids[k]
    ensures Fans(c, n, Fan(c, n))
  {
    if n > 0 {
      FanFans(c, n - 1);
      var before, id := Fan(c, n - 1), c.ids[n - 1];
      assert Fan(c, n) == before[id := DeliveryRow(c.event, Targets(c.endpoints, c)[n - 1])];
      assert c.ids[..n] == c.ids[..n - 1] + [id];
    }
  }

  ghost predicate Delivers(deliveries: map<DeliveryId, DeliveryRow>, d: DeliveryId, event: EventId,
      endpoint: EndpointId) {
    d in deliveries && deliveries[d] == DeliveryRow(event, endpoint)
  }

  lemma FanMeetsTargets(before: map<DeliveryId, DeliveryRow>, rows: map<DeliveryId, DeliveryRow>, c: Call,
      endpoint: EndpointId)
    requires |c.ids| == |Targets(c.endpoints, c)| && Fans(c, |c.ids|, rows) && c.event !in Delivered(before)
    ensures (exists d :: Delivers(before + rows, d, c.event, endpoint)) <==> endpoint in Targets(c.endpoints, c)
  {
    var targets := Targets(c.endpoints, c);
    if endpoint in targets {
      var i :| 0 <= i < |targets| && targets[i] == endpoint;
      assert Delivers(before + rows, c.ids[i], c.event, endpoint);
    }
  }

  lemma FanIsSound(c: Call, rows: map<DeliveryId, DeliveryRow>)
    requires |c.ids| == |Targets(c.endpoints, c)| && Fans(c, |c.ids|, rows) && DistinctIds(c.endpoints)
    ensures OneDeliveryPerEndpoint(rows) && Delivered(rows) == if c.ids == [] then {} else {c.event}
  {
    var targets := Targets(c.endpoints, c);
    TargetsAre(c.endpoints, c);
    forall d, g | d in rows && g in rows && rows[d] == rows[g]
      ensures d == g
    {
      var i :| 0 <= i < |c.ids| && c.ids[i] == d;
      var k :| 0 <= k < |c.ids| && c.ids[k] == g;
      assert targets[i] == targets[k];
    }
    FanIsOfEvent(c, rows);
  }

  lemma FanIsOfEvent(c: Call, rows: map<DeliveryId, DeliveryRow>)
    requires |c.ids| == |Targets(c.endpoints, c)| && Fans(c, |c.ids|, rows)
    ensures Delivered(rows) == if c.ids == [] then {} else {c.event}
  {
    forall d | d in rows
      ensures rows[d].event == c.event && c.ids != []
    {
      var i :| 0 <= i < |c.ids| && c.ids[i] == d;
    }
    if c.ids != [] {
      assert c.ids[0] in rows && rows[c.ids[0]].event in Delivered(rows);
    }
  }

  lemma JoinIsSound(before: map<DeliveryId, DeliveryRow>, rows: map<DeliveryId, DeliveryRow>)
    requires OneDeliveryPerEndpoint(before) && OneDeliveryPerEndpoint(rows)
    requires before.Keys !! rows.Keys && Delivered(before) !! Delivered(rows)
    ensures OneDeliveryPerEndpoint(before + rows) && Delivered(before + rows) == Delivered(before) + Delivered(rows)
  {
    var joined := before + rows;
    assert forall d :: d in before ==> joined[d] == before[d] && before[d].event in Delivered(before);
    assert forall d :: d in rows ==> joined[d] == rows[d] && rows[d].event in Delivered(rows);
  }

  lemma EventIsAdded(before: map<EventId, EventRow>, e: EventId, row: EventRow)
    requires OneEventPerKey(before) && forall f :: f in before ==> !SameKey(before[f], row)
    ensures OneEventPerKey(before[e := row])
  {
  }

  lemma RowIsAdded(before: map<RowId, EventId>, row: RowId, e: EventId)
    requires OneRowPerEvent(before) && row !in before && e !in before.Values
    ensures OneRowPerEvent(before[row := e]) && before[row := e].Values == before.Values + {e}
  {
    var after := before[row := e];
    assert forall x :: x in before ==> after[x] == before[x];
    assert after[row] == e;
  }

  lemma AcceptedKeepsSound(t: Tables, c: Call)
    requires Sound(t) && WellFormed(t, c) && !Taken(t, c)
    ensures Sound(Inserted(t, c))
  {
    FanFans(c, |c.ids|);
    FanIsSound(c, NewDeliveries(c));
    JoinIsSound(t.deliveries, NewDeliveries(c));
    RowIsAdded(t.outbox, c.row, c.event);
    forall f | f in t.events
      ensures !SameKey(t.events[f], EventRow(c.tenant, c.eventType, c.key))
    {
      assert !HasKey(t, f, c.tenant, c.key);
    }
    EventIsAdded(t.events, c.event, EventRow(c.tenant, c.eventType, c.key));
  }

  // A published event has exactly one delivery for each active endpoint of its tenant
  // that subscribes to its type, none for any other, and an outbox row iff any.
  lemma FansOutExactly(t: Tables, c: Call, endpoint: EndpointId)
    requires Sound(t) && WellFormed(t, c) && !Taken(t, c)
    ensures var deliveries := Inserted(t, c).deliveries;
      (exists d :: Delivers(deliveries, d, c.event, endpoint)) <==>
        exists e :: e in c.endpoints && e.id == endpoint
          && e.tenant == c.tenant && e.active && c.eventType in e.subscriptions
    ensures var deliveries := Inserted(t, c).deliveries;
      forall d, g :: Delivers(deliveries, d, c.event, endpoint) && Delivers(deliveries, g, c.event, endpoint) ==> d == g
    ensures c.event in Inserted(t, c).outbox.Values <==> exists id :: Subscribed(c.endpoints, c, id)
  {
    var targets := Targets(c.endpoints, c);
    TargetsAre(c.endpoints, c);
    FanFans(c, |c.ids|);
    FanMeetsTargets(t.deliveries, NewDeliveries(c), c, endpoint);
    AcceptedKeepsSound(t, c);
    RowIsAdded(t.outbox, c.row, c.event);
    if targets != [] {
      assert Subscribed(c.endpoints, c, targets[0]);
    }
  }

  // ---- runs ----

  // Every call draws new ids at the moment it runs.
  ghost predicate ValidRun(t: Tables, run: seq<Call>)
    decreases |run|
  {
    run == [] || (WellFormed(t, run[0]) && ValidRun(After(t, run[0]), run[1..]))
  }

  ghost function AfterRun(t: Tables, run: seq<Call>): Tables
    requires ValidRun(t, run)
    decreases |run|
  {
    if run == [] then t else AfterRun(After(t, run[0]), run[1..])
  }

  lemma {:induction false} RunKeepsSound(t: Tables, run: seq<Call>)
    requires Sound(t) && ValidRun(t, run)
    ensures Sound(AfterRun(t, run))
    decreases |run|
  {
    if run != [] {
      if Accepts(t, run[0]) {
        AcceptedKeepsSound(t, run[0]);
      }
      RunKeepsSound(After(t, run[0]), run[1..]);
    }
  }

  lemma {:induction false} EventsStay(t: Tables, run: seq<Call>, e: EventId)
    requires ValidRun(t, run) && e in t.events
    ensures e in AfterRun(t, run).events && AfterRun(t, run).events[e] == t.events[e]
    decreases |run|
  {
    if run != [] {
      EventsStay(After(t, run[0]), run[1..], e);
    }
  }

  // Whatever is published in between, a repeat of an accepted call answers with the
  // first call's event and changes nothing.
  lemma RepeatsAnswerTheFirst(t: Tables, first: Call, between: seq<Call>, again: Call, answer: Answer)
    requires Sound(t) && WellFormed(t, first) && Accepts(t, first) && ValidRun(After(t, first), between)
    requires first.tenant == again.tenant && first.key == again.key && again.sizeBytes <= MAX_PAYLOAD_BYTES
    requires var later := AfterRun(After(t, first), between); WellFormed(later, again) && Answers(later, again, answer)
    ensures answer == DuplicateEvent(first.event)
    ensures var later := AfterRun(After(t, first), between); After(later, again) == later
  {
    var later := AfterRun(After(t, first), between);
    AcceptedKeepsSound(t, first);
    RunKeepsSound(After(t, first), between);
    EventsStay(After(t, first), between, first.event);
    assert HasKey(later, first.event, again.tenant, again.key);
  }

  // ---- publishing in the pipeline ----

  // The rows here are among those of the pipeline's state.
  predicate SameDeliveries(deliveries: map<DeliveryId, DeliveryRow>, theirs: map<DeliveryId, Pipeline.Delivery>) {
    forall d :: d in deliveries ==> d in theirs && theirs[d].event == deliveries[d].event
  }

  predicate SameRows(outbox: map<RowId, EventId>, theirs: map<RowId, Pipeline.Row>) {
    forall x :: x in outbox ==> x in theirs && theirs[x].event == outbox[x] && theirs[x].delivery == None
  }

  predicate Mirrors(s: Pipeline.State, t: Tables) {
    t.events.Keys <= s.events && SameDeliveries(t.deliveries, s.deliveries) && SameRows(t.outbox, s.outbox)
  }

  // The ids drawn by the call are used nowhere in the database.
  predicate DrawsNew(s: Pipeline.State, c: Call) {
    && c.event !in s.events && c.row !in s.outbox
    && (forall i :: 0 <= i < |c.ids| ==> c.ids[i] !in s.deliveries)
  }

  lemma NewDeliveriesMirror(
      before: map<DeliveryId, DeliveryRow>, rows: map<DeliveryId, DeliveryRow>,
      theirs: map<DeliveryId, Pipeline.Delivery>, e: EventId)
    requires SameDeliveries(before, theirs) && forall d :: d in rows ==> rows[d].event == e
    ensures SameDeliveries(before + rows, theirs + Pipeline.NewDeliveries(e, rows.Keys))
  {
  }

  lemma NewRowMirrors(before: map<RowId, EventId>, theirs: map<RowId, Pipeline.Row>, x: RowId, e: EventId)
    requires SameRows(before, theirs)
    ensures SameRows(before[x := e], theirs[x := Pipeline.Row(e, None, false)])
  {
  }

  lemma InsertsMirror(s: Pipeline.State, t: Tables, e: EventId, event: EventRow, rows: map<DeliveryId, DeliveryRow>,
      x: RowId)
    requires Mirrors(s, t) && forall d :: d in rows ==> rows[d].event == e
    ensures Mirrors(
      Pipeline.AfterPublish(s, e, rows.Keys, x),
      Tables(t.events[e := event], t.deliveries + rows, if rows == map[] then t.outbox else t.outbox[x := e]))
  {
    assert rows.Keys == {} <==> rows == map[];
    NewDeliveriesMirror(t.deliveries, rows, s.deliveries, e);
    NewRowMirrors(t.outbox, s.outbox, x, e);
  }

  function PublishOf(c: Call): Pipeline.Action
    requires |c.ids| == |Targets(c.endpoints, c)|
  {
    Pipeline.Api(Pipeline.Publish(c.event, NewDeliveries(c).Keys, c.row))
  }

  // The transaction is the pipeline's publish step, and the pipeline can take it.
  lemma PublishIsPipelineStep(m: Pipeline.MaxAttempts, t: Tables, c: Call, s: Pipeline.State)
    requires WellFormed(t, c) && Mirrors(s, t) && DrawsNew(s, c)
    ensures Pipeline.Enabled(s, PublishOf(c)) && Mirrors(Pipeline.Apply(m, s, PublishOf(c)), Inserted(t, c))
  {
    FanFans(c, |c.ids|);
    var rows := NewDeliveries(c);
    assert rows == map[] <==> c.ids == [] by {
      assert c.ids != [] ==> c.ids[0] in rows;
    }
    assert rows.Keys !! s.deliveries.Keys;
    InsertsMirror(s, t, c.event, EventRow(c.tenant, c.eventType, c.key), rows, c.row);
  }

  // ---- publishing among everything else ----

  // A call of publish, or any step of any process.
  datatype Move = Publishes(call: Call) | Steps(action: Pipeline.Action)

  // What a call makes of the pipeline's tables, whether or not that is a step of it.
  ghost function StateAfter(t: Tables, s: Pipeline.State, c: Call): Pipeline.State
    requires WellFormed(t, c)
  {
    if Accepts(t, c) then Pipeline.AfterPublish(s, c.event, NewDeliveries(c).Keys, c.row) else s
  }

  // Each call draws new ids; each step is one that the pipeline can take.
  ghost predicate ValidStory(m: Pipeline.MaxAttempts, t: Tables, s: Pipeline.State, story: seq<Move>)
    decreases |story|
  {
    story == [] ||
    match story[0]
    case Publishes(c) =>
      && WellFormed(t, c) && DrawsNew(s, c)
      && ValidStory(m, After(t, c), StateAfter(t, s, c), story[1..])
    case Steps(a) => Pipeline.Enabled(s, a) && ValidStory(m, t, Pipeline.Apply(m, s, a), story[1..])
  }

  ghost function TablesAfter(m: Pipeline.MaxAttempts, t: Tables, s: Pipeline.State, story: seq<Move>): Tables
    requires ValidStory(m, t, s, story)
    decreases |story|
  {
    if story == [] then t
    else
      match story[0]
      case Publishes(c) => TablesAfter(m, After(t, c), StateAfter(t, s, c), story[1..])
      case Steps(a) => TablesAfter(m, t, Pipeline.Apply(m, s, a), story[1..])
  }

  // The story as the pipeline sees it: an accepted call is a publish step, a refused one nothing.
  ghost function TraceOf(m: Pipeline.MaxAttempts, t: Tables, s: Pipeline.State, story: seq<Move>): seq<Pipeline.Action>
    requires ValidStory(m, t, s, story)
    decreases |story|
  {
    if story == [] then []
    else
      match story[0]
      case Publishes(c) =>
        (if Accepts(t, c) then [PublishOf(c)] else []) + TraceOf(m, After(t, c), StateAfter(t, s, c), story[1..])
      case Steps(a) => [a] + TraceOf(m, t, Pipeline.Apply(m, s, a), story[1..])
  }

  // Events, deliveries and rows outlive every step, and keep what they refer to.
  ghost predicate Outlives(s: Pipeline.State, u: Pipeline.State) {
    && s.events <= u.events
    && (forall d :: d in s.deliveries ==> d in u.deliveries && u.deliveries[d].event == s.deliveries[d].event)
    && (forall x :: x in s.outbox ==>
      x in u.outbox && u.outbox[x].event == s.outbox[x].event && u.outbox[x].delivery == s.outbox[x].delivery)
  }

  lemma ApiOutlives(s: Pipeline.State, call: Pipeline.ApiCall)
    requires Pipeline.ApiEnabled(s, call)
    ensures Outlives(s, Pipeline.AfterApi(s, call))
  {
  }

  lemma StepOutlives(m: Pipeline.MaxAttempts, s: Pipeline.State, r: Pipeline.RunId, step: Pipeline.RunStep)
    requires Pipeline.StepEnabled(s, r, step)
    ensures Outlives(s, Pipeline.AfterStep(m, s, r, step))
  {
  }

  lemma ActionOutlives(m: Pipeline.MaxAttempts, s: Pipeline.State, a: Pipeline.Action)
    requires Pipeline.Enabled(s, a)
    ensures Outlives(s, Pipeline.Apply(m, s, a))
  {
    match a
    case Api(call) => ApiOutlives(s, call);
    case Relay(k, step) => Guarantees.RelayLeaves(s, k, step);
    case Queue(j, step) => Guarantees.QueueLeaves(s, j, step);
    case Worker(r, step) => StepOutlives(m, s, r, step);
    case Ends(r, end) => Guarantees.EndLeaves(m, s, r, end);
    case Receive(_) =>
  }

  lemma MirrorOutlives(s: Pipeline.State, u: Pipeline.State, t: Tables)
    requires Mirrors(s, t) && Outlives(s, u)
    ensures Mirrors(u, t)
  {
  }

  // Publish calls among any steps of relays, workers, the queue and the rest of the
  // API are a run of the pipeline, and the tables stay sound and in step with it.
  lemma {:induction false} StoryIsPipelineRun(m: Pipeline.MaxAttempts, t: Tables, s: Pipeline.State, story: seq<Move>)
    requires Sound(t) && Mirrors(s, t) && ValidStory(m, t, s, story)
    ensures var trace := TraceOf(m, t, s, story);
      && Pipeline.ValidTrace(m, s, trace)
      && Mirrors(Pipeline.After(m, s, trace), TablesAfter(m, t, s, story)) && Sound(TablesAfter(m, t, s, story))
    decreases |story|
  {
    if story != [] {
      match story[0]
      case Publishes(c) =>
        var rest := TraceOf(m, After(t, c), StateAfter(t, s, c), story[1..]);
        if Accepts(t, c) {
          AcceptedKeepsSound(t, c);
          PublishIsPipelineStep(m, t, c, s);
          assert ([PublishOf(c)] + rest)[1..] == rest;
        } else {
          assert [] + rest == rest;
        }
        StoryIsPipelineRun(m, After(t, c), StateAfter(t, s, c), story[1..]);
      case Steps(a) =>
        var u := Pipeline.Apply(m, s, a);
        var rest := TraceOf(m, t, u, story[1..]);
        ActionOutlives(m, s, a);
        MirrorOutlives(s, u, t);
        assert ([a] + rest)[1..] == rest;
        StoryIsPipelineRun(m, t, u, story[1..]);
    }
  }

  // Beside each new id is listed the endpoint it delivers to.
  lemma ListedAreNew(c: Call)
    requires |c.ids| == |Targets(c.endpoints, c)|
    requires forall i, k :: 0 <= i < k < |c.ids| ==> c.ids[i] != c.ids[k]
    ensures forall pair :: pair in Listed(c) <==>
      pair.0 in NewDeliveries(c) && NewDeliveries(c)[pair.0] == DeliveryRow(c.event, pair.1)
  {
    var rows := NewDeliveries(c);
    FanFans(c, |c.ids|);
    forall pair: (DeliveryId, EndpointId) | pair.0 in rows && rows[pair.0] == DeliveryRow(c.event, pair.1)
      ensures pair in Listed(c)
    {
      var i :| 0 <= i < |c.ids| && c.ids[i] == pair.0;
      assert Listed(c)[i] == pair;
    }
  }

  // What the caller learns, by the tables' columns before and after: too large; or the
  // key is taken, by the event named, and nothing changes; or the event is there, with
  // the listed deliveries and no other new one, and a row of the outbox iff there are any.
  ghost predicate Tells(t: Tables, u: Tables, c: Call, a: Answer) {
    match a
    case PayloadTooLarge(_) => c.sizeBytes > 64 * 1024 && u == t
    case DuplicateEvent(e) =>
      c.sizeBytes <= 64 * 1024 && e in t.events && t.events[e].tenant == c.tenant && t.events[e].key == c.key && u == t
    case Published(event, listed) =>
      && c.sizeBytes <= 64 * 1024
      && (forall e :: e in t.events ==> t.events[e].tenant != c.tenant || t.events[e].key != c.key)
      && event == c.event && u.events == t.events[c.event := EventRow(c.tenant, c.eventType, c.key)]
      && (forall d :: d in t.deliveries ==> d in u.deliveries && u.deliveries[d] == t.deliveries[d])
      && (forall pair :: pair in listed <==>
           pair.0 in u.deliveries && pair.0 !in t.deliveries && u.deliveries[pair.0] == DeliveryRow(c.event, pair.1))
      && (forall d :: d in u.deliveries && d !in t.deliveries ==> u.deliveries[d].event == c.event)
      && u.outbox == if listed == [] then t.outbox else t.outbox[c.row := c.event]
  }

  lemma AnswerTells(t: Tables, c: Call, a: Answer)
    requires WellFormed(t, c) && Answers(t, c, a)
    ensures Tells(t, After(t, c), c, a)
  {
    match a
    case PayloadTooLarge(_) =>
    case DuplicateEvent(_) => assert Taken(t, c);
    case Published(_, _) => PublishedTells(t, c);
  }

  lemma PublishedTells(t: Tables, c: Call)
    requires WellFormed(t, c) && Accepts(t, c)
    ensures Tells(t, Inserted(t, c), c, Published(c.event, Listed(c)))
  {
    KeyIsFree(t, c);
    NewRowsTell(t, c);
    assert Listed(c) == [] <==> c.ids == [];
  }

  lemma KeyIsFree(t: Tables, c: Call)
    requires !Taken(t, c)
    ensures forall e :: e in t.events ==> t.events[e].tenant != c.tenant || t.events[e].key != c.key
  {
    forall e | e in t.events
      ensures t.events[e].tenant != c.tenant || t.events[e].key != c.key
    {
      assert !HasKey(t, e, c.tenant, c.key);
    }
  }

  lemma NewRowsTell(t: Tables, c: Call)
    requires WellFormed(t, c)
    ensures var u := Inserted(t, c).deliveries;
      && (forall d :: d in t.deliveries ==> d in u && u[d] == t.deliveries[d])
      && (forall pair :: pair in Listed(c) <==>
           pair.0 in u && pair.0 !in t.deliveries && u[pair.0] == DeliveryRow(c.event, pair.1))
      && (forall d :: d in u && d !in t.deliveries ==> u[d].event == c.event)
  {
    ListedAreNew(c);
    FanFans(c, |c.ids|);
    var rows := NewDeliveries(c);
    forall d | d in rows
      ensures d !in t.deliveries && rows[d].event == c.event
    {
      var i :| 0 <= i < |c.ids| && c.ids[i] == d;
    }
  }

  // ---- the service ----

  class EventsService {
    var events: map<EventId, EventRow>
    var deliveries: map<DeliveryId, DeliveryRow>
    var outbox: map<RowId, EventId>

    ghost function View(): Tables
      reads this
    {
      Tables(events, deliveries, outbox)
    }

    ghost predicate Valid()
      reads this
    {
      Sound(View())
    }

    constructor ()
      ensures Valid() && View() == NO_TABLES
    {
      events, deliveries, outbox := map[], map[], map[];
    }

    // The unique column's index.
    method FindByKey(tenant: TenantId, key: string) returns (e: Option<EventId>)
      requires Valid()
      ensures e == None <==> forall f :: !HasKey(View(), f, tenant, key)
      ensures e.Some? ==> HasKey(View(), e.value, tenant, key)
      ensures e == None <==> forall f :: f in events ==> events[f].tenant != tenant || events[f].key != key
      ensures e.Some? ==> e.value in events && events[e.value].tenant == tenant && events[e.value].key == key
    {
      var rest := events.Keys;
      while rest != {}
        invariant rest <= events.Keys && forall f :: HasKey(View(), f, tenant, key) ==> f in rest
      {
        var f :| f in rest;
        if events[f].tenant == tenant && events[f].key == key {
          assert HasKey(View(), f, tenant, key);
          return Some(f);
        }
        rest := rest - {f};
      }
      assert forall f :: f in events && events[f].tenant == tenant && events[f].key == key ==>
        HasKey(View(), f, tenant, key);
      return None;
    }

    method FanOut(c: Call) returns (rows: map<DeliveryId, DeliveryRow>, listed: seq<(DeliveryId, EndpointId)>)
      requires |c.ids| == |Targets(c.endpoints, c)|
      ensures rows == NewDeliveries(c) && listed == Listed(c)
    {
      var targets := Targets(c.endpoints, c);
      rows, listed := map[], [];
      for i := 0 to |targets|
        invariant rows == Fan(c, i)
        invariant listed == Listed(c)[..i]
      {
        rows := rows[c.ids[i] := DeliveryRow(c.event, targets[i])];
        listed := listed + [(c.ids[i], targets[i])];
      }
    }

    // One transaction; a conflict on the unique column rolls it back.
    method Publish(c: Call) returns (answer: Answer)
      requires Valid() && WellFormed(View(), c)
      modifies this
      ensures Valid() && View() == After(old(View()), c) && Answers(old(View()), c, answer)
      ensures Tells(old(View()), View(), c, answer)
    {
      if c.sizeBytes > MAX_PAYLOAD_BYTES {
        AnswerTells(View(), c, PayloadTooLarge(c.sizeBytes));
        return PayloadTooLarge(c.sizeBytes);
      }
      var existing := FindByKey(c.tenant, c.key);
      if existing.Some? {
        AnswerTells(View(), c, DuplicateEvent(existing.value));
        return DuplicateEvent(existing.value);
      }
      AcceptedKeepsSound(View(), c);
      AnswerTells(View(), c, Published(c.event, Listed(c)));
      answer := Insert(c);
    }

    method Insert(c: Call) returns (answer: Answer)
      requires WellFormed(View(), c)
      modifies this
      ensures View() == Inserted(old(View()), c) && answer == Published(c.event, Listed(c))
    {
      var rows, listed := FanOut(c);
      events := events[c.event := EventRow(c.tenant, c.eventType, c.key)];
      if |listed| > 0 {
        deliveries := deliveries + rows;
        outbox := outbox[c.row := c.event];
      } else {
        assert deliveries + rows == deliveries;
      }
      return Published(c.event, listed);
    }
  }
}
