/**
 * The task-route store. The single-table SQLite logic is given as functions on a table;
 * the in-memory store keeps three indexes and is proved to answer exactly as the table does.
 */
module RouteStore {
  import opened Common
  import opened TaskRoute

  const MAX_PURGE_PER_CALL: nat := 10_000
  const MAX_STORED_ROUTES: nat := 4_096
  const MAX_ACTIVE_PER_CALLER: nat := 256

  /** Rows by primary key. */
  type Table = map<string, Route>

  datatype StoreError =
    | RouteFault(error: RouteError)
    | IdempotencyConflict
    | PublicTaskIdCollision
    | Capacity
    | Stale

  datatype Begun = Inserted(route: Route) | Existing(route: Route)

  predicate HasKey(r: Route, caller: Caller, key: string) {
    r.caller == caller && r.key == Some(key)
  }

  /** Primary key, row integrity, and the unique index on caller and idempotency key. */
  ghost predicate TableOk(t: Table) {
    && (forall id | id in t :: t[id].id == id && WellShaped(t[id]))
    && (forall a, b | a in t && b in t && t[a].key.Some? && t[a].key == t[b].key && t[a].caller == t[b].caller :: a == b)
  }

  lemma ExpiryFits(t: Table, id: string)
    requires TableOk(t) && id in t
    ensures t[id].expires <= MAX_SQLITE_INTEGER
  {
    assert WellShaped(t[id]);
  }

  lemma PairsAfterRemoval(t: Table, id: string)
    requires id in t
    ensures ExpiryPairs(t - {id}) == ExpiryPairs(t) - {(t[id].expires, id)}
  {
    assert forall x | x in t && x != id :: x in t - {id} && (t[x].expires, x) in ExpiryPairs(t - {id});
  }

  lemma PairsAfterUpdate(t: Table, id: string, r: Route)
    requires id in t && r.expires == t[id].expires
    ensures ExpiryPairs(t[id := r]) == ExpiryPairs(t)
  {
    var n := t[id := r];
    assert forall x | x in t :: n[x].expires == t[x].expires;
  }

  lemma PairsAfterInsertion(t: Table, r: Route)
    requires r.id !in t
    ensures ExpiryPairs(t[r.id := r]) == ExpiryPairs(t) + {(r.expires, r.id)}
  {
    var n := t[r.id := r];
    assert forall x | x in t :: x in n && (n[x].expires, x) in ExpiryPairs(n);
    assert r.id in n;
  }

  // ---- SQLite logic on the table ----

  ghost function SqlFind(t: Table, caller: Caller, key: string): (r: Option<Route>)
    ensures r.Some? ==> r.value.id in t || !TableOk(t)
    ensures r.Some? ==> HasKey(r.value, caller, key)
    ensures r.None? <==> forall id | id in t :: !HasKey(t[id], caller, key)
  {
    if id :| id in t && HasKey(t[id], caller, key) then Some(t[id]) else None
  }

  lemma SqlFindUnique(t: Table, id: string, caller: Caller, key: string)
    requires TableOk(t) && id in t && HasKey(t[id], caller, key)
    ensures SqlFind(t, caller, key) == Some(t[id])
  {
  }

  lemma SqlFindIsRow(t: Table, caller: Caller, key: string)
    requires TableOk(t) && SqlFind(t, caller, key).Some?
    ensures var r := SqlFind(t, caller, key).value; r.id in t && t[r.id] == r
  {
    var id :| id in t && HasKey(t[id], caller, key);
    SqlFindUnique(t, id, caller, key);
  }

  function Active(t: Table, caller: Caller, now: nat): set<string> {
    set id | id in t && t[id].caller == caller && t[id].expires > now
  }

  ghost function SqlLookup(t: Table, rec: Route): (r: Option<Route>) {
    if rec.key.Some? then SqlFind(t, rec.caller, rec.key.value) else None
  }

  /** The table once an expired holder of the record's key is deleted. */
  ghost function WithoutExpired(t: Table, rec: Route): Table {
    var existing := SqlLookup(t, rec);
    if existing.Some? && IsExpired(existing.value, rec.created) then t - {existing.value.id} else t
  }

  /** One immediate transaction; an error rolls the table back. */
  ghost function SqlBegin(t: Table, rec: Route): (out: (Table, Result<Begun, StoreError>)) {
    match VerifyPreparedForBegin(rec)
    case Some(e) => (t, Err(RouteFault(e)))
    case None =>
      var existing := SqlLookup(t, rec);
      if existing.Some? && !IsExpired(existing.value, rec.created) then
        if existing.value.request != rec.request then (t, Err(IdempotencyConflict))
        else (t, Ok(Existing(existing.value)))
      else
        var kept := WithoutExpired(t, rec);
        if rec.id in kept then (t, Err(PublicTaskIdCollision))
        else if |kept| >= MAX_STORED_ROUTES || |Active(kept, rec.caller, rec.created)| >= MAX_ACTIVE_PER_CALLER then
          (t, Err(Capacity))
        else (kept[rec.id := rec], Ok(Inserted(rec)))
  }

  function SqlGet(t: Table, caller: Caller, id: string): (r: Option<Route>) {
    if id in t && t[id].caller == caller then Some(t[id]) else None
  }

  function SqlCas(t: Table, caller: Caller, id: string, expected: nat, u: Update)
    : (out: (Table, Result<Option<Route>, StoreError>))
  {
    match SqlGet(t, caller, id)
    case None => (t, Ok(None))
    case Some(current) =>
      if current.version != expected then (t, Err(Stale))
      else
        match Transition(current, u)
        case Err(e) => (t, Err(RouteFault(e)))
        case Ok(next) => (t[id := next], Ok(Some(next)))
  }

  predicate PairLe(a: (nat, string), b: (nat, string)) {
    a.0 < b.0 || (a.0 == b.0 && StringLe(a.1, b.1))
  }

  function ExpiryPairs(t: Table): set<(nat, string)> {
    set id | id in t :: (t[id].expires, id)
  }

  function ExpiredPairs(t: Table, now: nat): set<(nat, string)> {
    set id | id in t && t[id].expires <= now :: (t[id].expires, id)
  }

  function Before(s: set<(nat, string)>, p: (nat, string)): set<(nat, string)> {
    set q | q in s && q != p && PairLe(q, p)
  }

  function PurgeLimit(maximum: nat): nat {
    Min(maximum, MAX_PURGE_PER_CALL)
  }

  /** `ORDER BY expires, id LIMIT n`: the expired rows with fewer than n expired rows before them. */
  function SqlPurged(t: Table, now: nat, maximum: nat): set<string> {
    var expired := ExpiredPairs(t, Min(now, MAX_SQLITE_INTEGER));
    set id | id in t && (t[id].expires, id) in expired
             && |Before(expired, (t[id].expires, id))| < PurgeLimit(maximum)
  }

  function SqlPurge(t: Table, now: nat, maximum: nat): (out: (Table, nat)) {
    var gone := SqlPurged(t, now, maximum);
    (t - gone, |gone|)
  }

  lemma PreparedIsWellShaped(rec: Route)
    requires VerifyPreparedForBegin(rec).None?
    ensures WellShaped(rec) && rec.phase.Prepared? && rec.version == 0 && rec.upstream.None? && rec.cached.None?
  {
  }

  lemma InsertKeepsTable(t: Table, rec: Route)
    requires TableOk(t) && WellShaped(rec) && rec.id !in t
    requires rec.key.Some? ==> forall id | id in t :: !HasKey(t[id], rec.caller, rec.key.value)
    ensures TableOk(t[rec.id := rec])
  {
    hide ValidateShape;
  }

  lemma WithoutExpiredFacts(t: Table, rec: Route)
    requires TableOk(t)
    ensures TableOk(WithoutExpired(t, rec))
    ensures SqlLookup(t, rec).Some? ==> var r := SqlLookup(t, rec).value;
              r.id in t && t[r.id] == r && rec.key.Some? && HasKey(r, rec.caller, rec.key.value)
    ensures (SqlLookup(t, rec).Some? ==> IsExpired(SqlLookup(t, rec).value, rec.created)) && rec.key.Some? ==>
              forall id | id in WithoutExpired(t, rec) :: !HasKey(t[id], rec.caller, rec.key.value)
  {
    hide ValidateShape;
    if SqlLookup(t, rec).Some? {
      SqlFindIsRow(t, rec.caller, rec.key.value);
    }
  }

  lemma SqlBeginKeepsTable(t: Table, rec: Route)
    requires TableOk(t)
    ensures TableOk(SqlBegin(t, rec).0)
    ensures |t| <= MAX_STORED_ROUTES ==> |SqlBegin(t, rec).0| <= MAX_STORED_ROUTES
  {
    hide ValidateShape, VerifyPreparedForBegin, SqlLookup, WithoutExpired, TableOk, Active;
    WithoutExpiredFacts(t, rec);
    var out := SqlBegin(t, rec);
    if out.1.Ok? && out.1.value.Inserted? {
      var kept := WithoutExpired(t, rec);
      PreparedIsWellShaped(rec);
      WithoutExpiredKeepsRows(t, rec);
      InsertKeepsTable(kept, rec);
      assert kept[rec.id := rec].Keys == kept.Keys + {rec.id};
      assert |kept[rec.id := rec].Keys| == |kept.Keys| + 1;
    }
  }

  lemma WithoutExpiredKeepsRows(t: Table, rec: Route)
    ensures forall id | id in WithoutExpired(t, rec) :: id in t && WithoutExpired(t, rec)[id] == t[id]
  {
  }

  lemma SqlCasKeepsTable(t: Table, caller: Caller, id: string, expected: nat, u: Update)
    requires TableOk(t)
    ensures TableOk(SqlCas(t, caller, id, expected, u).0)
    ensures SqlCas(t, caller, id, expected, u).0.Keys == t.Keys
  {
    hide ValidateShape, Transition;
    var out := SqlCas(t, caller, id, expected, u);
    if out.1.Ok? && out.1.value.Some? {
      TransitionFacts(t[id], u);
    }
  }

  // ---- any sequence of operations ----

  datatype Operation =
    | FindOp(caller: Caller, key: string)
    | BeginOp(record: Route)
    | GetOp(caller: Caller, id: string)
    | CasOp(caller: Caller, id: string, expected: nat, update: Update)
    | PurgeOp(now: nat, maximum: nat)

  ghost function SqlApply(t: Table, op: Operation): Table {
    match op
    case FindOp(_, _) => t
    case BeginOp(rec) => SqlBegin(t, rec).0
    case GetOp(_, _) => t
    case CasOp(c, id, v, u) => SqlCas(t, c, id, v, u).0
    case PurgeOp(now, maximum) => SqlPurge(t, now, maximum).0
  }

  datatype Answer =
    | Found(route: Option<Route>)
    | BeganWith(began: Result<Begun, StoreError>)
    | Swapped(next: Result<Option<Route>, StoreError>)
    | Purged(count: nat)

  /** What the SQLite store answers. */
  ghost function SqlAnswer(t: Table, op: Operation): Answer {
    match op
    case FindOp(c, key) => Found(SqlFind(t, c, key))
    case BeginOp(rec) => BeganWith(SqlBegin(t, rec).1)
    case GetOp(c, id) => Found(SqlGet(t, c, id))
    case CasOp(c, id, v, u) => Swapped(SqlCas(t, c, id, v, u).1)
    case PurgeOp(now, maximum) => Purged(SqlPurge(t, now, maximum).1)
  }

  ghost function SqlAnswers(t: Table, ops: seq<Operation>): seq<Answer>
    decreases |ops|
  {
    if ops == [] then [] else [SqlAnswer(t, ops[0])] + SqlAnswers(SqlApply(t, ops[0]), ops[1..])
  }

  ghost function SqlRun(t: Table, ops: seq<Operation>): Table
    decreases |ops|
  {
    if ops == [] then t else SqlRun(SqlApply(t, ops[0]), ops[1..])
  }

  /** Whatever is asked of it, a store that starts empty keeps its indexes and never holds more than 4,096 routes. */
  lemma {:induction false} StoreStaysBounded(t: Table, ops: seq<Operation>)
    requires TableOk(t) && |t| <= 4_096
    ensures TableOk(SqlRun(t, ops)) && |SqlRun(t, ops)| <= 4_096
    decreases |ops|
  {
    hide TableOk, SqlApply;
    if ops != [] {
      ApplyKeepsTable(t, ops[0]);
      StoreStaysBounded(SqlApply(t, ops[0]), ops[1..]);
    }
  }

  lemma ApplyKeepsTable(t: Table, op: Operation)
    requires TableOk(t) && |t| <= MAX_STORED_ROUTES
    ensures TableOk(SqlApply(t, op)) && |SqlApply(t, op)| <= MAX_STORED_ROUTES
  {
    hide SqlBegin, SqlCas, WellShaped;
    match op {
      case FindOp(_, _) =>
      case GetOp(_, _) =>
      case BeginOp(rec) => SqlBeginKeepsTable(t, rec);
      case CasOp(c, id, v, u) =>
        SqlCasKeepsTable(t, c, id, v, u);
        SameKeysSameSize(t, SqlCas(t, c, id, v, u).0);
      case PurgeOp(now, maximum) => RemovalShrinks(t, SqlPurged(t, now, maximum));
    }
  }

  lemma SameKeysSameSize(a: Table, b: Table)
    requires a.Keys == b.Keys
    ensures |a| == |b|
  {
    assert |a| == |a.Keys| && |b| == |b.Keys|;
  }

  lemma RemovalShrinks(t: Table, gone: set<string>)
    requires gone <= t.Keys
    ensures |t - gone| == |t| - |gone|
  {
    assert (t - gone).Keys == t.Keys - gone;
    assert |t - gone| == |(t - gone).Keys| && |t| == |t.Keys|;
    SubsetSize(gone, t.Keys);
  }

  lemma SubsetSize<T>(a: set<T>, b: set<T>)
    requires a <= b
    ensures |a| <= |b| && |b - a| == |b| - |a|
  {
    assert b == a + (b - a);
  }

  // ---- how many routes a caller can have ----

  /** Insertions happen in order of time, none before `from` and none after `to`. */
  predicate InOrder(ops: seq<Operation>, from: nat, to: nat)
    decreases |ops|
  {
    if ops == [] then from <= to
    else if ops[0].BeginOp? then from <= ops[0].record.created && InOrder(ops[1..], ops[0].record.created, to)
    else InOrder(ops[1..], from, to)
  }

  lemma ActiveShrinks(t: Table, t': Table, caller: Caller, from: nat, to: nat)
    requires from <= to
    requires forall id | id in t' && t'[id].caller == caller :: id in t && t[id].caller == caller && t[id].expires == t'[id].expires
    ensures |Active(t', caller, to)| <= |Active(t, caller, from)|
  {
    SubsetSize(Active(t', caller, to), Active(t, caller, from));
  }

  lemma BeginKeepsActive(t: Table, rec: Route, caller: Caller, from: nat)
    requires TableOk(t) && from <= rec.created && |Active(t, caller, from)| <= 256
    ensures |Active(SqlBegin(t, rec).0, caller, rec.created)| <= 256
  {
    hide WellShaped, VerifyPreparedForBegin, WithoutExpired, SqlLookup, TableOk, Active;
    var kept := WithoutExpired(t, rec);
    WithoutExpiredKeepsRows(t, rec);
    ActiveShrinks(t, kept, caller, from, rec.created);
    ActiveShrinks(t, t, caller, from, rec.created);
    if SqlBegin(t, rec).1.Ok? && SqlBegin(t, rec).1.value.Inserted? {
      OneMoreActive(kept, rec, caller);
    }
  }

  lemma OneMoreActive(t: Table, rec: Route, caller: Caller)
    ensures |Active(t[rec.id := rec], caller, rec.created)|
         <= |Active(t, caller, rec.created)| + (if rec.caller == caller then 1 else 0)
  {
    var added := if rec.caller == caller then {rec.id} else {};
    assert Active(t[rec.id := rec], caller, rec.created) <= Active(t, caller, rec.created) + added;
    SubsetSize(Active(t[rec.id := rec], caller, rec.created), Active(t, caller, rec.created) + added);
  }

  lemma OtherStepKeepsActive(t: Table, op: Operation, caller: Caller, now: nat)
    requires TableOk(t) && !op.BeginOp?
    ensures |Active(SqlApply(t, op), caller, now)| <= |Active(t, caller, now)|
  {
    hide Transition, WellShaped, SqlPurged;
    var t' := SqlApply(t, op);
    if op.CasOp? && op.id in t && Transition(t[op.id], op.update).Ok? {
      assert WellShaped(t[op.id]);
      TransitionFacts(t[op.id], op.update);
    }
    ActiveShrinks(t, t', caller, now, now);
  }

  /** However operations follow each other in time, no caller ever has more than 256 unexpired routes. */
  lemma {:induction false} CallerStaysBounded(t: Table, ops: seq<Operation>, caller: Caller, from: nat, to: nat)
    requires TableOk(t) && |t| <= MAX_STORED_ROUTES && |Active(t, caller, from)| <= 256 && InOrder(ops, from, to)
    ensures |Active(SqlRun(t, ops), caller, to)| <= 256
    decreases |ops|
  {
    hide TableOk, SqlApply, Active;
    if ops == [] {
      ActiveShrinks(t, t, caller, from, to);
    } else {
      ApplyKeepsTable(t, ops[0]);
      if ops[0].BeginOp? {
        BeginIsApplied(t, ops[0].record);
        BeginKeepsActive(t, ops[0].record, caller, from);
        CallerStaysBounded(SqlApply(t, ops[0]), ops[1..], caller, ops[0].record.created, to);
      } else {
        OtherStepKeepsActive(t, ops[0], caller, from);
        CallerStaysBounded(SqlApply(t, ops[0]), ops[1..], caller, from, to);
      }
    }
  }

  lemma BeginIsApplied(t: Table, rec: Route)
    ensures SqlApply(t, BeginOp(rec)) == SqlBegin(t, rec).0
  {
  }

  // ---- the in-memory store ----

  /** The idempotency index names exactly the routes that have a key. */
  ghost predicate KeysAgree(t: Table, keys: map<(Caller, string), string>) {
    && (forall ck | ck in keys :: keys[ck] in t && HasKey(t[keys[ck]], ck.0, ck.1))
    && (forall id | id in t && t[id].key.Some? :: (t[id].caller, t[id].key.value) in keys && keys[(t[id].caller, t[id].key.value)] == id)
  }

  lemma KeysAfterInsertion(t: Table, keys: map<(Caller, string), string>, rec: Route)
    requires KeysAgree(t, keys) && rec.id !in t && (rec.key.Some? ==> (rec.caller, rec.key.value) !in keys)
    ensures KeysAgree(t[rec.id := rec], if rec.key.Some? then keys[(rec.caller, rec.key.value) := rec.id] else keys)
    ensures rec.key.Some? ==> forall id | id in t :: !HasKey(t[id], rec.caller, rec.key.value)
  {
  }

  lemma KeysAfterRemoval(t: Table, keys: map<(Caller, string), string>, id: string)
    requires TableOk(t) && KeysAgree(t, keys) && id in t
    ensures KeysAgree(t - {id}, if t[id].key.Some? then keys - {(t[id].caller, t[id].key.value)} else keys)
  {
    hide WellShaped;
  }

  class MemoryStore {
    var byId: Table
    var byKey: map<(Caller, string), string>
    var byExpiry: set<(nat, string)>

    /** The three indexes describe the same routes. */
    ghost predicate Valid()
      reads this
    {
      && TableOk(byId)
      && byExpiry == ExpiryPairs(byId)
      && KeysAgree(byId, byKey)
    }

    constructor ()
      ensures Valid() && byId == map[]
    {
      byId, byKey, byExpiry := map[], map[], {};
    }

    method Find(caller: Caller, key: string) returns (r: Option<Route>)
      requires Valid()
      ensures r == SqlFind(byId, caller, key)
    {
      if (caller, key) in byKey {
        r := Some(byId[byKey[(caller, key)]]);
        SqlFindUnique(byId, byKey[(caller, key)], caller, key);
      } else {
        r := None;
      }
    }

    method Get(caller: Caller, id: string) returns (r: Option<Route>)
      requires Valid()
      ensures r == SqlGet(byId, caller, id)
      ensures r.Some? <==> id in byId && byId[id].id == id && byId[id].caller == caller
      ensures r.Some? ==> r.value == byId[id]
    {
      hide WellShaped;
      if id !in byId || byId[id].caller != caller {
        return None;
      }
      r := Some(byId[id]);
    }

    method CountActive(caller: Caller, now: nat) returns (n: nat)
      ensures n == |Active(byId, caller, now)|
    {
      var ids := byId.Keys;
      n := 0;
      assert Active(byId, caller, now) * ids == Active(byId, caller, now);
      while ids != {}
        invariant ids <= byId.Keys
        invariant n + |Active(byId, caller, now) * ids| == |Active(byId, caller, now)|
        decreases |ids|
      {
        var id :| id in ids;
        ghost var left := Active(byId, caller, now) * ids;
        ids := ids - {id};
        if byId[id].caller == caller && byId[id].expires > now {
          n := n + 1;
          assert Active(byId, caller, now) * ids == left - {id};
        } else {
          assert Active(byId, caller, now) * ids == left;
        }
      }
    }

    /** Drops one route from all three indexes. */
    method Remove(id: string)
      requires Valid() && id in byId
      modifies this
      ensures Valid() && byId == old(byId) - {id}
    {
      hide WellShaped, ExpiryPairs;
      KeysAfterRemoval(byId, byKey, id);
      hide KeysAgree;
      var r := byId[id];
      byId := byId - {id};
      byExpiry := byExpiry - {(r.expires, id)};
      if r.key.Some? {
        byKey := byKey - {(r.caller, r.key.value)};
      }
      PairsAfterRemoval(old(byId), id);
    }

    lemma LookupIsIndexed(rec: Route)
      requires Valid()
      ensures SqlLookup(byId, rec) ==
              if rec.key.Some? && (rec.caller, rec.key.value) in byKey
              then Some(byId[byKey[(rec.caller, rec.key.value)]]) else None
    {
      hide ValidateShape;
      if rec.key.Some? && (rec.caller, rec.key.value) in byKey {
        SqlFindUnique(byId, byKey[(rec.caller, rec.key.value)], rec.caller, rec.key.value);
      }
    }

    /** Adds a route whose id and key are free to all three indexes. */
    method Insert(rec: Route)
      requires Valid() && WellShaped(rec) && rec.id !in byId
      requires rec.key.Some? ==> (rec.caller, rec.key.value) !in byKey
      modifies this
      ensures Valid() && byId == old(byId)[rec.id := rec]
    {
      hide WellShaped, TableOk, ExpiryPairs;
      KeysAfterInsertion(byId, byKey, rec);
      InsertKeepsTable(byId, rec);
      PairsAfterInsertion(byId, rec);
      hide KeysAgree;
      if rec.key.Some? {
        byKey := byKey[(rec.caller, rec.key.value) := rec.id];
      }
      byId := byId[rec.id := rec];
      byExpiry := byExpiry + {(rec.expires, rec.id)};
    }

    method Begin(rec: Route) returns (result: Result<Begun, StoreError>)
      requires Valid()
      modifies this
      ensures Valid()
      ensures (byId, result) == SqlBegin(old(byId), rec)
    {
      hide ValidateShape, VerifyPreparedForBegin, TableOk, SqlFind, Active;
      var problem := VerifyPreparedForBegin(rec);
      if problem.Some? {
        return Err(RouteFault(problem.value));
      }
      LookupIsIndexed(rec);
      WithoutExpiredFacts(byId, rec);
      var expired: Option<string> := None;
      if rec.key.Some? && (rec.caller, rec.key.value) in byKey {
        var existing := byId[byKey[(rec.caller, rec.key.value)]];
        if !IsExpired(existing, rec.created) {
          if existing.request != rec.request {
            return Err(IdempotencyConflict);
          }
          return Ok(Existing(existing));
        }
        expired := Some(existing.id);
      }
      ghost var kept := WithoutExpired(byId, rec);
      assert kept == if expired.Some? then byId - {expired.value} else byId;
      if rec.id in byId && expired != Some(rec.id) {
        return Err(PublicTaskIdCollision);
      }
      var stored := SaturatingSub(|byId|, if expired.Some? then 1 else 0);
      var active := CountActive(rec.caller, rec.created);
      ReplacementCounts(byId, rec, expired);
      if stored >= MAX_STORED_ROUTES || active >= MAX_ACTIVE_PER_CALLER {
        return Err(Capacity);
      }
      PreparedIsWellShaped(rec);
      if expired.Some? {
        Remove(expired.value);
      }
      Insert(rec);
      result := Ok(Inserted(rec));
    }

    method CompareAndSet(caller: Caller, id: string, expected: nat, u: Update) returns (result: Result<Option<Route>, StoreError>)
      requires Valid()
      modifies this`byId
      ensures Valid()
      ensures (byId, result) == SqlCas(old(byId), caller, id, expected, u)
      ensures result == Ok(None) <==> id !in old(byId) || old(byId)[id].caller != caller
      ensures result.Ok? && result.value.Some? ==> result.value.value.caller == caller && byId == old(byId)[id := result.value.value]
      ensures result.Err? || result.value.None? ==> byId == old(byId)
    {
      hide ValidateShape, Transition, TableOk, ExpiryPairs;
      SqlCasKeepsTable(byId, caller, id, expected, u);
      if id !in byId || byId[id].caller != caller {
        return Ok(None);
      }
      var current := byId[id];
      if current.version != expected {
        return Err(Stale);
      }
      var next := Transition(current, u);
      if next.Err? {
        return Err(RouteFault(next.error));
      }
      TransitionFacts(current, u);
      byId := byId[id := next.value];
      PairsAfterUpdate(old(byId), id, next.value);
      result := Ok(Some(next.value));
    }

    /** Drops the listed routes one by one. */
    method RemoveAll(taken: seq<(nat, string)>)
      requires Valid()
      requires forall i | 0 <= i < |taken| :: taken[i].1 in byId && taken[i].1 !in PairIds(taken[..i])
      modifies this
      ensures Valid() && byId == old(byId) - PairIds(taken)
    {
      hide TableOk;
      var n := 0;
      assert PairIds(taken[..0]) == {} && byId - {} == byId;
      while n < |taken|
        invariant n <= |taken|
        invariant Valid() && byId == old(byId) - PairIds(taken[..n])
      {
        assert PairIds(taken[..n + 1]) == PairIds(taken[..n]) + {taken[n].1} by {
          assert taken[..n + 1] == taken[..n] + [taken[n]];
        }
        Remove(taken[n].1);
        n := n + 1;
      }
      assert taken[..n] == taken;
    }

    /** Removes the earliest expired routes, and reports how many there were. */
    method Purge(now: nat, maximum: nat) returns (n: nat)
      requires Valid()
      modifies this
      ensures Valid()
      ensures (byId, n) == SqlPurge(old(byId), now, maximum)
      ensures n == Min(Min(maximum, 10_000), |ExpiredIds(old(byId), now)|)
    {
      hide TableOk, SqlPurged;
      var limit := PurgeLimit(maximum);
      var pending := byExpiry;
      var taken: seq<(nat, string)> := [];
      while |taken| < limit && pending != {}
        modifies {}
        invariant |taken| <= limit
        invariant Earliest(byId, taken, pending, now)
        decreases |pending|
      {
        var p := FirstPair(pending);
        if p.0 > now {
          forall q | q in pending
            ensures q.0 > now
          {
            assert PairLe(p, q);
          }
          break;
        }
        EarliestExtends(byId, taken, pending, now, p);
        taken, pending := taken + [p], pending - {p};
      }
      EarliestIsPurged(byId, taken, pending, now, maximum);
      forall i | 0 <= i < |taken|
        ensures taken[i].1 in byId && taken[i].1 !in PairIds(taken[..i])
      {
        EarliestDistinct(byId, taken, pending, now, i);
      }
      RemoveAll(taken);
      n := |taken|;
    }

    method Perform(op: Operation) returns (answer: Answer)
      requires Valid()
      modifies this
      ensures Valid() && byId == SqlApply(old(byId), op) && answer == SqlAnswer(old(byId), op)
    {
      hide Valid, SqlFind, SqlGet, SqlBegin, SqlCas, SqlPurge;
      match op {
        case FindOp(c, key) =>
          var r := Find(c, key);
          answer := Found(r);
        case BeginOp(rec) =>
          var r := Begin(rec);
          answer := BeganWith(r);
        case GetOp(c, id) =>
          var r := Get(c, id);
          answer := Found(r);
        case CasOp(c, id, v, u) =>
          var r := CompareAndSet(c, id, v, u);
          answer := Swapped(r);
        case PurgeOp(now, maximum) =>
          var n := Purge(now, maximum);
          answer := Purged(n);
      }
    }

    /** Whatever sequence of operations is asked of it, the memory store answers each as the SQLite store would. */
    method PerformAll(ops: seq<Operation>) returns (answers: seq<Answer>)
      requires Valid()
      modifies this
      ensures Valid() && byId == SqlRun(old(byId), ops) && answers == SqlAnswers(old(byId), ops)
      decreases |ops|
    {
      hide Valid, SqlApply, SqlAnswer;
      if ops == [] {
        return [];
      }
      var answer := Perform(ops[0]);
      var rest := PerformAll(ops[1..]);
      return [answer] + rest;
    }
  }

  /** Counting before the expired route is dropped gives what SQLite counts after dropping it. */
  lemma ReplacementCounts(t: Table, rec: Route, expired: Option<string>)
    requires expired.Some? ==> expired.value in t && t[expired.value].expires <= rec.created
    ensures var kept := if expired.Some? then t - {expired.value} else t;
      && |kept| == SaturatingSub(|t|, if expired.Some? then 1 else 0)
      && Active(kept, rec.caller, rec.created) == Active(t, rec.caller, rec.created)
  {
    if expired.Some? {
      RemovalShrinks(t, {expired.value});
    }
  }

  // ---- the first pairs of the expiry index ----

  function PairIds(pairs: seq<(nat, string)>): set<string> {
    set p | p in pairs :: p.1
  }

  /** `taken` lists the front of the expiry index in order and `pending` is what is left of it. */
  ghost predicate Earliest(t: Table, taken: seq<(nat, string)>, pending: set<(nat, string)>, now: nat) {
    && (set p | p in taken) + pending == ExpiryPairs(t)
    && (forall i | 0 <= i < |taken| :: taken[i] !in pending && taken[i].0 <= now)
    && (forall i, j | 0 <= i < j < |taken| :: taken[i] != taken[j])
    && (forall i, q | 0 <= i < |taken| && q in pending :: PairLe(taken[i], q))
  }

  lemma EarliestExtends(t: Table, taken: seq<(nat, string)>, pending: set<(nat, string)>, now: nat, p: (nat, string))
    requires Earliest(t, taken, pending, now)
    requires p in pending && p.0 <= now && forall q | q in pending :: PairLe(p, q)
    ensures Earliest(t, taken + [p], pending - {p}, now)
  {
    var longer := taken + [p];
    assert (set x | x in longer) == (set x | x in taken) + {p};
    assert (set x | x in taken) + {p} + (pending - {p}) == (set x | x in taken) + pending;
  }

  lemma EarliestDistinct(t: Table, taken: seq<(nat, string)>, pending: set<(nat, string)>, now: nat, n: nat)
    requires Earliest(t, taken, pending, now) && n < |taken|
    ensures taken[n].1 in t && taken[n].1 !in PairIds(taken[..n])
  {
    assert taken[n] in ExpiryPairs(t);
    forall i | 0 <= i < n
      ensures taken[i].1 != taken[n].1
    {
      assert taken[i] in ExpiryPairs(t);
    }
  }

  lemma PairLeAntisymmetric(a: (nat, string), b: (nat, string))
    requires PairLe(a, b) && PairLe(b, a)
    ensures a == b
  {
    StringLeAntisymmetric(a.1, b.1);
  }

  lemma PairLeTransitive(a: (nat, string), b: (nat, string), c: (nat, string))
    requires PairLe(a, b) && PairLe(b, c)
    ensures PairLe(a, c)
  {
    if a.0 == b.0 == c.0 {
      StringLeTransitive(a.1, b.1, c.1);
    }
  }

  lemma DistinctSize<T>(s: seq<T>)
    requires forall i, j | 0 <= i < j < |s| :: s[i] != s[j]
    ensures |set p | p in s| == |s|
  {
    if s != [] {
      var front := s[..|s| - 1];
      DistinctSize(front);
      assert (set p | p in s) == (set p | p in front) + {s[|s| - 1]};
      assert s[|s| - 1] !in front;
    }
  }

  /** Stopping at the limit or at the first live route leaves exactly the rows that SQLite would delete in `taken`. */
  lemma EarliestIsPurged(t: Table, taken: seq<(nat, string)>, pending: set<(nat, string)>, now: nat, maximum: nat)
    requires TableOk(t) && Earliest(t, taken, pending, now) && |taken| <= PurgeLimit(maximum)
    requires |taken| == PurgeLimit(maximum) || forall q | q in pending :: q.0 > now
    ensures PairIds(taken) == SqlPurged(t, now, maximum)
    ensures |SqlPurged(t, now, maximum)| == |taken| == Min(Min(maximum, 10_000), |ExpiredIds(t, now)|)
  {
    var front := set p | p in taken;
    assert forall p | p in front :: p in ExpiryPairs(t) && p.1 in t && p == (t[p.1].expires, p.1);
    forall id | id in t
      ensures (t[id].expires, id) in front <==> id in SqlPurged(t, now, maximum)
    {
      RowIsPurged(t, taken, pending, now, maximum, id);
    }
    PairIdsSize(t, taken, pending, now);
    TakenSize(t, taken, pending, now, maximum);
    hide TableOk, Earliest;
    assert SqlPurged(t, now, maximum) <= t.Keys;
    hide SqlPurged, ExpiryPairs;
    assert PairIds(taken) == SqlPurged(t, now, maximum);
  }

  function ExpiredIds(t: Table, now: nat): set<string> {
    set id | id in t && t[id].expires <= now
  }

  lemma TakenSize(t: Table, taken: seq<(nat, string)>, pending: set<(nat, string)>, now: nat, maximum: nat)
    requires Earliest(t, taken, pending, now) && |taken| <= PurgeLimit(maximum)
    requires |taken| == PurgeLimit(maximum) || forall q | q in pending :: q.0 > now
    ensures |taken| == Min(Min(maximum, 10_000), |ExpiredIds(t, now)|)
  {
    PairIdsSize(t, taken, pending, now);
    forall id | id in PairIds(taken)
      ensures id in ExpiredIds(t, now)
    {
      var p :| p in taken && p.1 == id;
      assert p in ExpiryPairs(t);
    }
    SubsetSize(PairIds(taken), ExpiredIds(t, now));
    if |taken| < PurgeLimit(maximum) {
      forall id | id in ExpiredIds(t, now)
        ensures id in PairIds(taken)
      {
        assert (t[id].expires, id) in ExpiryPairs(t);
        assert (t[id].expires, id) in (set p | p in taken);
      }
      SubsetSize(ExpiredIds(t, now), PairIds(taken));
    }
  }

  lemma RowIsPurged(t: Table, taken: seq<(nat, string)>, pending: set<(nat, string)>, now: nat, maximum: nat, id: string)
    requires TableOk(t) && Earliest(t, taken, pending, now) && |taken| <= PurgeLimit(maximum) && id in t
    requires |taken| == PurgeLimit(maximum) || forall q | q in pending :: q.0 > now
    ensures (t[id].expires, id) in (set p | p in taken) <==> id in SqlPurged(t, now, maximum)
  {
    hide ValidateShape;
    var front := set p | p in taken;
    var expired := ExpiredPairs(t, Min(now, MAX_SQLITE_INTEGER));
    DistinctSize(taken);
    var p := (t[id].expires, id);
    assert p in ExpiryPairs(t);
    ExpiryFits(t, id);
    if p in front {
      InFront(taken, pending, front, expired, p);
    } else if p in expired {
      BehindFront(t, taken, pending, front, expired, now, p);
    }
  }

  lemma InFront(taken: seq<(nat, string)>, pending: set<(nat, string)>, front: set<(nat, string)>,
                expired: set<(nat, string)>, p: (nat, string))
    requires front == (set x | x in taken) && |front| == |taken| && p in front
    requires expired <= front + pending && front !! pending
    requires forall i, q | 0 <= i < |taken| && q in pending :: PairLe(taken[i], q)
    ensures |Before(expired, p)| < |taken|
  {
    forall q | q in Before(expired, p)
      ensures q in front - {p}
    {
      if q in pending {
        PairLeAntisymmetric(p, q);
      }
    }
    SubsetSize(Before(expired, p), front - {p});
  }

  lemma BehindFront(t: Table, taken: seq<(nat, string)>, pending: set<(nat, string)>, front: set<(nat, string)>,
                    expired: set<(nat, string)>, now: nat, p: (nat, string))
    requires TableOk(t) && Earliest(t, taken, pending, now)
    requires front == (set x | x in taken) && |front| == |taken|
    requires expired == ExpiredPairs(t, Min(now, MAX_SQLITE_INTEGER)) && p in pending
    ensures |Before(expired, p)| >= |taken|
  {
    hide ValidateShape;
    forall q | q in front
      ensures q in Before(expired, p)
    {
      assert q in ExpiryPairs(t);
      ExpiryFits(t, q.1);
    }
    SubsetSize(front, Before(expired, p));
  }

  lemma PairIdsSize(t: Table, taken: seq<(nat, string)>, pending: set<(nat, string)>, now: nat)
    requires Earliest(t, taken, pending, now)
    ensures |PairIds(taken)| == |taken|
  {
    var ids := seq(|taken|, i requires 0 <= i < |taken| => taken[i].1);
    forall i, j | 0 <= i < j < |ids|
      ensures ids[i] != ids[j]
    {
      EarliestDistinct(t, taken, pending, now, j);
      assert taken[i] in taken[..j];
    }
    DistinctSize(ids);
    assert PairIds(taken) == (set x | x in ids) by {
      assert forall i | 0 <= i < |taken| :: taken[i].1 == ids[i] && taken[i] in taken && ids[i] in ids;
    }
  }

  /** The least pair of a nonempty expiry index. */
  method FirstPair(s: set<(nat, string)>) returns (p: (nat, string))
    requires s != {}
    ensures p in s && forall q | q in s :: PairLe(p, q)
  {
    p :| p in s;
    StringLeReflexive(p.1);
    var rest := s - {p};
    while rest != {}
      invariant p in s && rest <= s
      invariant forall q | q in s - rest :: PairLe(p, q)
      decreases |rest|
    {
      var q :| q in rest;
      rest := rest - {q};
      if !PairLe(p, q) {
        StringLeTotal(p.1, q.1);
        StringLeReflexive(q.1);
        forall x | x in s - rest
          ensures PairLe(q, x)
        {
          if x != q {
            PairLeTransitive(q, p, x);
          }
        }
        p := q;
      }
    }
  }
}
