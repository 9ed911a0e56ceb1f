// Key rotation and the lazy expiry of rotated-out keys, against a plain account of
// who was issued which key and when it was rotated out.
module ApiKeys {
  import opened Common

  type TenantId = nat
  type Hash = nat

  datatype KeyStatus = Usable | Grace | Revoked
  datatype KeyRow = KeyRow(tenant: TenantId, status: KeyStatus, expiresAt: Option<int>)
  datatype Tenant = Tenant(plan: string, active: bool)
  datatype Db = Db(tenants: map<TenantId, Tenant>, keys: map<Hash, KeyRow>)

  datatype Answer = Authenticated(tenant: TenantId, plan: string) | InvalidApiKey | TenantSuspended

  const GRACE_PERIOD_MS: int := 24 * 60 * 60 * 1000

  datatype Request =
    | SignUp(tenant: TenantId, plan: string, hash: Hash)
    | SetActive(tenant: TenantId, active: bool)
    | Rotate(tenant: TenantId, hash: Hash)
    | Check(hash: Hash)
  datatype Timed = Timed(at: int, request: Request)

  // ---- the service ----

  // Key hashes and tenant ids are unique columns: a repeat fails and changes nothing.
  predicate Accepts(db: Db, r: Request) {
    match r
    case SignUp(t, _, h) => t !in db.tenants && h !in db.keys
    case SetActive(t, _) => t in db.tenants
    case Rotate(t, h) => t in db.tenants && h !in db.keys
    case Check(_) => true
  }

  function Demoted(keys: map<Hash, KeyRow>, tenant: TenantId, now: int): map<Hash, KeyRow> {
    map h | h in keys ::
      if keys[h].tenant == tenant && keys[h].status == Usable then KeyRow(tenant, Grace, Some(now + GRACE_PERIOD_MS))
      else keys[h]
  }

  predicate Expired(row: KeyRow, now: int) {
    row.status == Grace && (row.expiresAt == None || row.expiresAt.value <= now)
  }

  function AfterCheck(keys: map<Hash, KeyRow>, h: Hash, now: int): map<Hash, KeyRow> {
    if h in keys && Expired(keys[h], now) then keys[h := keys[h].(status := Revoked)] else keys
  }

  function AfterRequest(db: Db, r: Request, now: int): Db {
    if !Accepts(db, r) then db
    else
      match r
      case SignUp(t, plan, h) => Db(db.tenants[t := Tenant(plan, true)], db.keys[h := KeyRow(t, Usable, None)])
      case SetActive(t, active) => db.(tenants := db.tenants[t := db.tenants[t].(active := active)])
      case Rotate(t, h) => db.(keys := Demoted(db.keys, t, now)[h := KeyRow(t, Usable, None)])
      case Check(h) => db.(keys := AfterCheck(db.keys, h, now))
  }

  function AnswerTo(db: Db, h: Hash, now: int): Answer {
    if h !in db.keys || db.keys[h].status == Revoked || Expired(db.keys[h], now) then InvalidApiKey
    else if db.keys[h].tenant !in db.tenants || !db.tenants[db.keys[h].tenant].active then TenantSuspended
    else Authenticated(db.keys[h].tenant, db.tenants[db.keys[h].tenant].plan)
  }

  // ---- the plain account ----

  // Who owns each key ever issued, each tenant's latest key, and when the others
  // were rotated out. A check changes nothing here.
  datatype Account = Account(
    tenants: map<TenantId, Tenant>, owner: map<Hash, TenantId>, latest: map<TenantId, Hash>, out: map<Hash, int>)

  function Recorded(a: Account, r: Request, now: int): Account {
    match r
    case SignUp(t, plan, h) =>
      if t in a.tenants || h in a.owner then a
      else Account(a.tenants[t := Tenant(plan, true)], a.owner[h := t], a.latest[t := h], a.out)
    case SetActive(t, active) =>
      if t !in a.tenants then a else a.(tenants := a.tenants[t := a.tenants[t].(active := active)])
    case Rotate(t, h) =>
      if t !in a.latest || h in a.owner then a
      else a.(owner := a.owner[h := t], latest := a.latest[t := h], out := a.out[a.latest[t] := now])
    case Check(_) => a
  }

  // A key is good until a day after its rotation.
  predicate Good(a: Account, h: Hash, now: int) {
    h in a.owner && (h in a.out ==> now < a.out[h] + GRACE_PERIOD_MS)
  }

  function PlainAnswer(a: Account, h: Hash, now: int): Answer {
    if !Good(a, h, now) then InvalidApiKey
    else if a.owner[h] !in a.tenants || !a.tenants[a.owner[h]].active then TenantSuspended
    else Authenticated(a.owner[h], a.tenants[a.owner[h]].plan)
  }

  // ---- refinement ----

  // How a row stands to the account at time `now`.
  predicate RowAgrees(a: Account, h: Hash, row: KeyRow, now: int) {
    && h in a.owner && row.tenant == a.owner[h] && row.tenant in a.latest
    && (row.status == Usable <==> a.latest[row.tenant] == h)
    && (row.status == Usable <==> h !in a.out)
    && (row.status == Grace ==> row.expiresAt == Some(a.out[h] + GRACE_PERIOD_MS))
    && (row.status == Revoked ==> a.out[h] + GRACE_PERIOD_MS <= now)
  }

  predicate Agrees(db: Db, a: Account, now: int) {
    && db.tenants == a.tenants && a.latest.Keys == a.tenants.Keys
    && db.keys.Keys == a.owner.Keys && a.out.Keys <= a.owner.Keys
    && (forall t :: t in a.latest ==> a.latest[t] in a.owner && a.owner[a.latest[t]] == t)
    && (forall h :: h in db.keys ==> RowAgrees(a, h, db.keys[h], now))
  }

  const NO_DB := Db(map[], map[])
  const NO_ACCOUNT := Account(map[], map[], map[], map[])

  lemma SignUpKeepsAgreement(db: Db, a: Account, t: TenantId, plan: string, h: Hash, now: int)
    requires Agrees(db, a, now)
    ensures Agrees(AfterRequest(db, SignUp(t, plan, h), now), Recorded(a, SignUp(t, plan, h), now), now)
  {
    if Accepts(db, SignUp(t, plan, h)) {
      var after := Recorded(a, SignUp(t, plan, h), now);
      forall k | k in db.keys
        ensures RowAgrees(after, k, db.keys[k], now)
      {
        assert RowAgrees(a, k, db.keys[k], now);
      }
    }
  }

  lemma RotateKeepsAgreement(db: Db, a: Account, t: TenantId, h: Hash, now: int)
    requires Agrees(db, a, now)
    ensures Agrees(AfterRequest(db, Rotate(t, h), now), Recorded(a, Rotate(t, h), now), now)
  {
    if Accepts(db, Rotate(t, h)) {
      var after := Recorded(a, Rotate(t, h), now);
      var keys := AfterRequest(db, Rotate(t, h), now).keys;
      forall k | k in keys
        ensures RowAgrees(after, k, keys[k], now)
      {
        if k != h {
          assert RowAgrees(a, k, db.keys[k], now);
        }
      }
    }
  }

  lemma CheckKeepsAgreement(db: Db, a: Account, h: Hash, now: int)
    requires Agrees(db, a, now)
    ensures Agrees(AfterRequest(db, Check(h), now), a, now)
  {
    assert forall k :: k in db.keys ==> RowAgrees(a, k, db.keys[k], now);
  }

  lemma LaterStillAgrees(db: Db, a: Account, before: int, now: int)
    requires Agrees(db, a, before) && before <= now
    ensures Agrees(db, a, now)
  {
    forall h | h in db.keys
      ensures RowAgrees(a, h, db.keys[h], now)
    {
      assert RowAgrees(a, h, db.keys[h], before);
    }
  }

  lemma RequestKeepsAgreement(db: Db, a: Account, r: Request, before: int, now: int)
    requires Agrees(db, a, before) && before <= now
    ensures Agrees(AfterRequest(db, r, now), Recorded(a, r, now), now)
  {
    LaterStillAgrees(db, a, before, now);
    match r
    case SignUp(t, plan, h) => SignUpKeepsAgreement(db, a, t, plan, h, now);
    case SetActive(t, _) =>
    case Rotate(t, h) => RotateKeepsAgreement(db, a, t, h, now);
    case Check(h) => CheckKeepsAgreement(db, a, h, now);
  }

  lemma AnswersAgree(db: Db, a: Account, h: Hash, now: int)
    requires Agrees(db, a, now)
    ensures AnswerTo(db, h, now) == PlainAnswer(a, h, now)
  {
    assert h in db.keys ==> RowAgrees(a, h, db.keys[h], now);
  }

  predicate Ordered(run: seq<Timed>, from: int) {
    (forall i :: 0 <= i < |run| ==> from <= run[i].at) && forall i, k :: 0 <= i < k < |run| ==> run[i].at <= run[k].at
  }

  function AfterRun(db: Db, run: seq<Timed>): Db
    decreases |run|
  {
    if run == [] then db else AfterRun(AfterRequest(db, run[0].request, run[0].at), run[1..])
  }

  function AccountOf(a: Account, run: seq<Timed>): Account
    decreases |run|
  {
    if run == [] then a else AccountOf(Recorded(a, run[0].request, run[0].at), run[1..])
  }

  function End(run: seq<Timed>, from: int): int {
    if run == [] then from else run[|run| - 1].at
  }

  lemma {:induction false} RunKeepsAgreement(db: Db, a: Account, run: seq<Timed>, from: int)
    requires Agrees(db, a, from) && Ordered(run, from)
    ensures Agrees(AfterRun(db, run), AccountOf(a, run), End(run, from))
    decreases |run|
  {
    if run != [] {
      RequestKeepsAgreement(db, a, run[0].request, from, run[0].at);
      var first := run[0];
      var after, recorded := AfterRequest(db, first.request, first.at), Recorded(a, first.request, first.at);
      RunKeepsAgreement(after, recorded, run[1..], first.at);
    }
  }

  // After any serial run the guard answers as the account does, whether or not some
  // earlier check has written REVOKED.
  lemma LazyExpiryIsEager(run: seq<Timed>, from: int, h: Hash, now: int)
    requires Ordered(run, from) && End(run, from) <= now
    ensures AnswerTo(AfterRun(NO_DB, run), h, now) == PlainAnswer(AccountOf(NO_ACCOUNT, run), h, now)
    ensures var a := AccountOf(NO_ACCOUNT, run);
      AnswerTo(AfterRun(NO_DB, run), h, now) != InvalidApiKey <==>
        h in a.owner && (h in a.out ==> now < a.out[h] + 24 * 60 * 60 * 1000)
  {
    RunKeepsAgreement(NO_DB, NO_ACCOUNT, run, from);
    LaterStillAgrees(AfterRun(NO_DB, run), AccountOf(NO_ACCOUNT, run), End(run, from), now);
    AnswersAgree(AfterRun(NO_DB, run), AccountOf(NO_ACCOUNT, run), h, now);
  }

  predicate UsableKeyOf(db: Db, t: TenantId, h: Hash) {
    h in db.keys && db.keys[h].tenant == t && db.keys[h].status == Usable
  }

  lemma OneUsableKeyPerTenant(run: seq<Timed>, from: int, t: TenantId)
    requires Ordered(run, from) && t in AfterRun(NO_DB, run).tenants
    ensures exists h :: UsableKeyOf(AfterRun(NO_DB, run), t, h)
    ensures forall h, k :: UsableKeyOf(AfterRun(NO_DB, run), t, h) && UsableKeyOf(AfterRun(NO_DB, run), t, k) ==> h == k
  {
    RunKeepsAgreement(NO_DB, NO_ACCOUNT, run, from);
    var db, a := AfterRun(NO_DB, run), AccountOf(NO_ACCOUNT, run);
    assert UsableKeyOf(db, t, a.latest[t]) by {
      assert RowAgrees(a, a.latest[t], db.keys[a.latest[t]], End(run, from));
    }
    forall h | UsableKeyOf(db, t, h)
      ensures h == a.latest[t]
    {
      assert RowAgrees(a, h, db.keys[h], End(run, from));
    }
  }

  lemma {:induction false} RevokedStays(db: Db, run: seq<Timed>, h: Hash)
    requires h in db.keys && db.keys[h].status == Revoked
    ensures h in AfterRun(db, run).keys && AfterRun(db, run).keys[h].status == Revoked
    decreases |run|
  {
    if run != [] {
      RevokedStays(AfterRequest(db, run[0].request, run[0].at), run[1..], h);
    }
  }

  // ---- the services over the shared tables ----

  function TextAfter(prefix: string, text: string): Option<string> {
    if |prefix| <= |text| && text[..|prefix|] == prefix then Some(text[|prefix|..]) else None
  }

  // The key text of an authorization header, when it has the form of a key.
  function KeyIn(header: Option<string>): Option<string> {
    var key := if header.Some? then TextAfter("Bearer ", header.value) else None;
    if key.Some? && TextAfter("sk_live_", key.value).Some? then key else None
  }

  // Authorization: Bearer <key>
  predicate IsHeaderOf(header: Option<string>, key: string) {
    header == Some("Bearer " + key)
  }

  // The key is all that follows `Bearer `, with its `sk_live_`.
  lemma HeaderOfKey(header: Option<string>)
    ensures KeyIn(header).Some? ==> IsHeaderOf(header, KeyIn(header).value) && "sk_live_" <= KeyIn(header).value
    ensures forall key: string :: IsHeaderOf(header, key) ==>
      KeyIn(header) == if "sk_live_" <= key then Some(key) else None
  {
    if KeyIn(header).Some? {
      assert header.value == header.value[..7] + header.value[7..];
    }
    forall key: string | IsHeaderOf(header, key)
      ensures KeyIn(header) == if "sk_live_" <= key then Some(key) else None
    {
      assert header.value[7..] == key && header.value[..7] == "Bearer ";
    }
  }

  class KeyTables {
    const digest: string -> Hash   // SHA-256
    var tenants: map<TenantId, Tenant>
    var keys: map<Hash, KeyRow>
    ghost var account: Account
    ghost var clock: int

    ghost function View(): Db
      reads this
    {
      Db(tenants, keys)
    }

    ghost predicate Valid()
      reads this
    {
      Agrees(View(), account, clock)
    }

    constructor (digest: string -> Hash, ghost clock: int)
      ensures Valid() && View() == NO_DB && this.digest == digest && account == NO_ACCOUNT && this.clock == clock
    {
      this.digest, this.clock := digest, clock;
      tenants, keys, account := map[], map[], NO_ACCOUNT;
    }

    // A tenant is created together with its first key.
    method SignUp(tenant: TenantId, plan: string, hash: Hash, ghost now: int) returns (ok: bool)
      requires Valid() && clock <= now
      modifies this
      ensures Valid() && clock == now && account == Recorded(old(account), Request.SignUp(tenant, plan, hash), now)
      ensures View() == AfterRequest(old(View()), Request.SignUp(tenant, plan, hash), now)
      ensures ok <==> tenant !in old(tenants) && hash !in old(keys)
    {
      RequestKeepsAgreement(View(), account, Request.SignUp(tenant, plan, hash), clock, now);
      account, clock := Recorded(account, Request.SignUp(tenant, plan, hash), now), now;
      ok := tenant !in tenants && hash !in keys;
      if ok {
        tenants, keys := tenants[tenant := Tenant(plan, true)], keys[hash := KeyRow(tenant, Usable, None)];
      }
    }

    // One transaction: demote the ACTIVE keys of the tenant, insert the new one.
    method Rotate(tenant: TenantId, hash: Hash, now: int) returns (ok: bool)
      requires Valid() && clock <= now
      modifies this
      ensures Valid() && clock == now && account == Recorded(old(account), Request.Rotate(tenant, hash), now)
      ensures View() == AfterRequest(old(View()), Request.Rotate(tenant, hash), now)
      ensures ok <==> tenant in old(tenants) && hash !in old(keys)
      ensures ok ==> UsableKeyOf(View(), tenant, hash) && forall h :: UsableKeyOf(View(), tenant, h) ==> h == hash
    {
      RequestKeepsAgreement(View(), account, Request.Rotate(tenant, hash), clock, now);
      account, clock := Recorded(account, Request.Rotate(tenant, hash), now), now;
      ok := tenant in tenants && hash !in keys;
      if ok {
        keys := Demoted(keys, tenant, now);
        keys := keys[hash := KeyRow(tenant, Usable, None)];
      }
    }

    // A GRACE key past its expiry is written REVOKED on the way.
    method Find(h: Hash, now: int) returns (answer: Answer)
      modifies this`keys
      ensures answer == AnswerTo(old(View()), h, now) && keys == AfterCheck(old(keys), h, now)
      ensures keys == (
        if h in old(keys) && old(keys)[h].status == Grace
          && (old(keys)[h].expiresAt.Some? ==> old(keys)[h].expiresAt.value <= now)
        then old(keys)[h := old(keys)[h].(status := Revoked)]
        else old(keys))
    {
      if h !in keys || keys[h].status == Revoked {
        return InvalidApiKey;
      }
      var row := keys[h];
      if row.status == Grace {
        if row.expiresAt == None || row.expiresAt.value <= now {
          keys := keys[h := row.(status := Revoked)];
          return InvalidApiKey;
        }
      }
      if row.tenant !in tenants || !tenants[row.tenant].active {
        return TenantSuspended;
      }
      return Authenticated(row.tenant, tenants[row.tenant].plan);
    }

    // The guard: the answer is the account's, whatever has been written so far.
    method CanActivate(header: Option<string>, now: int) returns (answer: Answer)
      requires Valid() && clock <= now
      modifies this
      ensures Valid() && clock == now && account == old(account) && tenants == old(tenants)
      ensures (forall key: string :: IsHeaderOf(header, key) ==> !("sk_live_" <= key)) ==>
        answer == InvalidApiKey && keys == old(keys)
      ensures forall key: string :: IsHeaderOf(header, key) && "sk_live_" <= key ==>
        && answer == PlainAnswer(account, digest(key), now)
        && keys == AfterCheck(old(keys), digest(key), now)
    {
      LaterStillAgrees(View(), account, clock, now);
      clock := now;
      var key := KeyIn(header);
      HeaderOfKey(header);
      if key == None {
        return InvalidApiKey;
      }
      answer := Check(digest(key.value), now);
    }

    method Check(h: Hash, now: int) returns (answer: Answer)
      requires Valid() && clock == now
      modifies this`keys
      ensures Valid() && answer == PlainAnswer(account, h, now) && keys == AfterCheck(old(keys), h, now)
    {
      AnswersAgree(View(), account, h, now);
      CheckKeepsAgreement(View(), account, h, now);
      answer := Find(h, now);
    }
  }
}
