/**
 * Tenant admission as a step system. Requests share one locked map from tenant to admission
 * record; each record has a semaphore and a queue counter that requests change without the lock;
 * idle records are evicted, one read at a time, while other requests run.
 */
module Admission {
  import opened Common

  const MAX_TRACKED_TENANTS: nat := 1_024
  const MAX_GLOBAL_INFLIGHT: nat := 256

  /** One incarnation of a tenant's admission state. */
  datatype Record = Record(tenant: string, available: nat, queued: nat)

  /** What a request still holds at each point; `r` names the record it works with. */
  datatype Pc =
    | Locking
    | Evicting(todo: set<string>)
    | EvictingCounted(name: string, todo: set<string>)
    | EvictingUnqueued(name: string, todo: set<string>)
    | Entering
    | Trying(r: nat)
    | Reserving(r: nat)
    | Waiting(r: nat)
    | Granted(r: nat)
    | Expired(r: nat)
    | TryingGlobal(r: nat)
    | Refused(r: nat)
    | Returning(r: nat)
    | Failing(r: nat)
    | Active(r: nat)
    | Leaving
    | Done

  datatype Request = Request(tenant: string, pc: Pc)

  datatype World = World(
    limit: nat, queueLimit: nat, tracked: map<string, nat>, records: map<nat, Record>, next: nat,
    lock: Option<nat>, global: nat, requests: map<nat, Request>)

  // ---- what a request holds ----

  datatype Kind = Reference | Permit | Reservation | GlobalPermit

  predicate Holds(pc: Pc, kind: Kind, r: nat) {
    match kind
    case Reference =>
      pc in {Trying(r), Reserving(r), Waiting(r), Granted(r), Expired(r), TryingGlobal(r), Refused(r), Returning(r), Failing(r)}
    case Permit => pc in {Granted(r), TryingGlobal(r), Refused(r), Returning(r), Active(r)}
    case Reservation => pc in {Waiting(r), Granted(r), Expired(r)}
    case GlobalPermit => pc.Returning? || pc.Active? || pc.Leaving?
  }

  predicate HoldsLock(pc: Pc) {
    pc.Evicting? || pc.EvictingCounted? || pc.EvictingUnqueued? || pc.Entering?
  }

  function Holders(requests: map<nat, Request>, kind: Kind, r: nat): set<nat> {
    set t | t in requests && Holds(requests[t].pc, kind, r)
  }

  /** References to a record: the map's own, and one per request that is still inside `acquire`. */
  function StrongCount(w: World, r: nat): nat {
    |Holders(w.requests, Reference, r)| + (if r in w.tracked.Values then 1 else 0)
  }

  // ---- steps ----

  function Goto(w: World, t: nat, pc: Pc): World
    requires t in w.requests
  {
    w.(requests := w.requests[t := w.requests[t].(pc := pc)])
  }

  function Update(w: World, r: nat, record: Record): World {
    w.(records := w.records[r := record])
  }

  predicate Full(w: World, tenant: string) {
    |w.tracked| >= MAX_TRACKED_TENANTS && tenant !in w.tracked
  }

  function StepLocking(w: World, t: nat): World
    requires t in w.requests
  {
    if w.lock.Some? then w
    else
      Goto(w.(lock := Some(t)), t, if Full(w, w.requests[t].tenant) then Evicting(w.tracked.Keys) else Entering)
  }

  /** Eviction examines one tenant after another; `name` says which is next. */
  function StepEvicting(w: World, t: nat, todo: set<string>, name: string): World
    requires t in w.requests
  {
    if todo == {} then Goto(w, t, Entering)
    else if name !in todo || name !in w.tracked then w
    else if StrongCount(w, w.tracked[name]) > 1 then Goto(w, t, Evicting(todo - {name}))
    else Goto(w, t, EvictingCounted(name, todo - {name}))
  }

  function StepCounted(w: World, t: nat, name: string, todo: set<string>): World
    requires t in w.requests
  {
    if name !in w.tracked || w.tracked[name] !in w.records then w
    else if w.records[w.tracked[name]].queued > 0 then Goto(w, t, Evicting(todo))
    else Goto(w, t, EvictingUnqueued(name, todo))
  }

  function StepUnqueued(w: World, t: nat, name: string, todo: set<string>): World
    requires t in w.requests
  {
    if name !in w.tracked || w.tracked[name] !in w.records then w
    else if w.records[w.tracked[name]].available != w.limit then Goto(w, t, Evicting(todo))
    else Goto(w.(tracked := w.tracked - {name}), t, Evicting(todo))
  }

  function StepEntering(w: World, t: nat): World
    requires t in w.requests
  {
    var tenant := w.requests[t].tenant;
    if Full(w, tenant) then Goto(w.(lock := None), t, Done)
    else if tenant in w.tracked then Goto(w.(lock := None), t, Trying(w.tracked[tenant]))
    else
      Goto(w.(lock := None, tracked := w.tracked[tenant := w.next], next := w.next + 1,
              records := w.records[w.next := Record(tenant, w.limit, 0)]), t, Trying(w.next))
  }

  function StepTrying(w: World, t: nat, r: nat): World
    requires t in w.requests && r in w.records
  {
    var record := w.records[r];
    if record.available > 0 then Goto(Update(w, r, record.(available := record.available - 1)), t, TryingGlobal(r))
    else Goto(w, t, Reserving(r))
  }

  function StepReserving(w: World, t: nat, r: nat): World
    requires t in w.requests && r in w.records
  {
    var record := w.records[r];
    if record.queued < w.queueLimit then Goto(Update(w, r, record.(queued := record.queued + 1)), t, Waiting(r))
    else Goto(w, t, Failing(r))
  }

  /** A waiter gets a permit when there is one, or gives up. */
  function StepWaiting(w: World, t: nat, r: nat, expires: bool): World
    requires t in w.requests && r in w.records
  {
    var record := w.records[r];
    if expires then Goto(w, t, Expired(r))
    else if record.available > 0 then Goto(Update(w, r, record.(available := record.available - 1)), t, Granted(r))
    else w
  }

  function Unreserved(record: Record): Record {
    record.(queued := if record.queued > 0 then record.queued - 1 else 0)
  }

  function StepGlobal(w: World, t: nat, r: nat): World
    requires t in w.requests
  {
    if w.global > 0 then Goto(w.(global := w.global - 1), t, Returning(r)) else Goto(w, t, Refused(r))
  }

  function Returned(record: Record): Record {
    record.(available := record.available + 1)
  }

  function Step(w: World, t: nat, name: string, expires: bool): World
    requires t in w.requests
  {
    var pc := w.requests[t].pc;
    match pc
    case Locking => StepLocking(w, t)
    case Evicting(todo) => StepEvicting(w, t, todo, name)
    case EvictingCounted(x, todo) => StepCounted(w, t, x, todo)
    case EvictingUnqueued(x, todo) => StepUnqueued(w, t, x, todo)
    case Entering => StepEntering(w, t)
    case Trying(r) => if r in w.records then StepTrying(w, t, r) else w
    case Reserving(r) => if r in w.records then StepReserving(w, t, r) else w
    case Waiting(r) => if r in w.records then StepWaiting(w, t, r, expires) else w
    case Granted(r) => if r in w.records then Goto(Update(w, r, Unreserved(w.records[r])), t, TryingGlobal(r)) else w
    case Expired(r) => if r in w.records then Goto(Update(w, r, Unreserved(w.records[r])), t, Failing(r)) else w
    case TryingGlobal(r) => StepGlobal(w, t, r)
    case Refused(r) => if r in w.records then Goto(Update(w, r, Returned(w.records[r])), t, Failing(r)) else w
    case Returning(r) => Goto(w, t, Active(r))
    case Failing(_) => Goto(w, t, Done)
    case Active(r) => if r in w.records then Goto(Update(w, r, Returned(w.records[r])), t, Leaving) else w
    case Leaving => Goto(w.(global := w.global + 1), t, Done)
    case Done => w
  }

  datatype Action =
    | Arrive(t: nat, tenant: string)
    | Run(t: nat, name: string, expires: bool)
    | Abandon(t: nat)

  predicate Enabled(w: World, a: Action) {
    match a
    case Arrive(t, _) => t !in w.requests
    case Run(t, _, _) => t in w.requests
    case Abandon(t) => t in w.requests && w.requests[t].pc.Locking?
  }

  function Next(w: World, a: Action): World
    requires Enabled(w, a)
  {
    match a
    case Arrive(t, tenant) => w.(requests := w.requests[t := Request(tenant, Locking)])
    case Run(t, name, expires) => Step(w, t, name, expires)
    case Abandon(t) => Goto(w, t, Done)
  }

  predicate Init(w: World) {
    w.tracked == map[] && w.records == map[] && w.lock == None && w.global == MAX_GLOBAL_INFLIGHT && w.requests == map[]
  }

  ghost predicate Steps(w: World, w': World) {
    exists a :: Enabled(w, a) && Next(w, a) == w'
  }

  ghost predicate Execution(run: seq<World>) {
    && |run| > 0 && Init(run[0])
    && forall k | 0 < k < |run| :: Steps(run[k - 1], run[k])
  }

  // ---- the invariant ----

  predicate Touches(pc: Pc, r: nat) {
    Holds(pc, Reference, r) || Holds(pc, Permit, r)
  }

  /** Only the record the map knows is in use: a record that was evicted has nobody left. */
  ghost predicate UseIsTracked(w: World) {
    forall t, r | t in w.requests && Touches(w.requests[t].pc, r) ::
      w.requests[t].tenant in w.tracked && w.tracked[w.requests[t].tenant] == r
  }

  ghost predicate MapOk(w: World) {
    && |w.tracked| <= MAX_TRACKED_TENANTS
    && (forall name | name in w.tracked :: w.tracked[name] in w.records && w.records[w.tracked[name]].tenant == name)
    && (forall r | r in w.records :: r < w.next)
  }

  /** Semaphores and counters account for exactly the requests that hold something. */
  ghost predicate CountsOk(w: World) {
    && (forall r | r in w.records ::
          && w.records[r].available + |Holders(w.requests, Permit, r)| == w.limit
          && w.records[r].queued == |Holders(w.requests, Reservation, r)| <= w.queueLimit)
    && w.global + |Holders(w.requests, GlobalPermit, 0)| == MAX_GLOBAL_INFLIGHT
  }

  ghost predicate LockOk(w: World) {
    && (forall t | t in w.requests :: HoldsLock(w.requests[t].pc) <==> w.lock == Some(t))
    && (w.lock.Some? ==> w.lock.value in w.requests)
  }

  /** While a record is being examined under the lock, nobody can come to hold it. */
  ghost predicate ExaminedOk(w: World, pc: Pc) {
    match pc
    case EvictingCounted(name, _) => name in w.tracked && Holders(w.requests, Reference, w.tracked[name]) == {}
    case EvictingUnqueued(name, _) => name in w.tracked && Holders(w.requests, Reference, w.tracked[name]) == {}
    case _ => true
  }

  ghost predicate AllExamined(w: World) {
    forall t | t in w.requests :: ExaminedOk(w, w.requests[t].pc)
  }

  ghost predicate Inv(w: World) {
    UseIsTracked(w) && MapOk(w) && CountsOk(w) && LockOk(w) && AllExamined(w)
  }

  // ---- counting ----

  function One(b: bool): nat {
    if b then 1 else 0
  }

  lemma HoldersMove(requests: map<nat, Request>, t: nat, q: Request, kind: Kind, r: nat)
    requires t in requests
    ensures |Holders(requests[t := q], kind, r)| + One(Holds(requests[t].pc, kind, r))
         == |Holders(requests, kind, r)| + One(Holds(q.pc, kind, r))
  {
    hide Holds;
    var a, b := Holders(requests, kind, r), Holders(requests[t := q], kind, r);
    if Holds(q.pc, kind, r) {
      assert b == a + {t};
    } else {
      assert b == a - {t};
    }
  }

  /** The semaphores and counters moved by what request `t` took or gave back. */
  ghost predicate Accounted(w: World, w': World, t: nat)
    requires t in w.requests && t in w'.requests
  {
    var p, p' := w.requests[t].pc, w'.requests[t].pc;
    && w'.requests == w.requests[t := w'.requests[t]]
    && w'.limit == w.limit && w'.queueLimit == w.queueLimit
    && (forall r | r in w.records ::
          && r in w'.records
          && w'.records[r].available + One(Holds(p', Permit, r)) == w.records[r].available + One(Holds(p, Permit, r))
          && w'.records[r].queued + One(Holds(p, Reservation, r)) == w.records[r].queued + One(Holds(p', Reservation, r))
          && w'.records[r].queued <= w.queueLimit)
    && (forall r | r in w'.records && r !in w.records ::
          && w'.records[r].available == w.limit && w'.records[r].queued == 0
          && !Holds(p', Permit, r) && !Holds(p', Reservation, r)
          && Holders(w.requests, Permit, r) == {} && Holders(w.requests, Reservation, r) == {})
    && w'.global + One(Holds(p', GlobalPermit, 0)) == w.global + One(Holds(p, GlobalPermit, 0))
  }

  lemma AccountedKeepsCounts(w: World, w': World, t: nat)
    requires t in w.requests && t in w'.requests && CountsOk(w) && Accounted(w, w', t)
    ensures CountsOk(w')
  {
    hide Holds, Holders;
    forall r | r in w'.records
      ensures w'.records[r].available + |Holders(w'.requests, Permit, r)| == w'.limit
      ensures w'.records[r].queued == |Holders(w'.requests, Reservation, r)| <= w'.queueLimit
    {
      HoldersMove(w.requests, t, w'.requests[t], Permit, r);
      HoldersMove(w.requests, t, w'.requests[t], Reservation, r);
      if r !in w.records {
        assert |Holders(w.requests, Permit, r)| == 0 && |Holders(w.requests, Reservation, r)| == 0;
      }
    }
    HoldersMove(w.requests, t, w'.requests[t], GlobalPermit, 0);
  }

  // ---- each step ----

  lemma UseMoves(w: World, w': World, t: nat)
    requires UseIsTracked(w) && t in w.requests && t in w'.requests && w'.requests == w.requests[t := w'.requests[t]]
    requires w'.requests[t].tenant == w.requests[t].tenant && w'.tracked == w.tracked
    requires forall r | Touches(w'.requests[t].pc, r) ::
               Touches(w.requests[t].pc, r) || (w.requests[t].tenant in w.tracked && w.tracked[w.requests[t].tenant] == r)
    ensures UseIsTracked(w')
  {
    hide Touches;
  }

  lemma LockMoves(w: World, w': World, t: nat)
    requires LockOk(w) && t in w.requests && t in w'.requests && w'.requests == w.requests[t := w'.requests[t]]
    requires w'.lock == (if HoldsLock(w'.requests[t].pc) then Some(t) else if HoldsLock(w.requests[t].pc) then None else w.lock)
    requires HoldsLock(w'.requests[t].pc) ==> HoldsLock(w.requests[t].pc) || w.lock.None?
    ensures LockOk(w')
  {
    hide HoldsLock;
  }

  lemma ExaminedMoves(w: World, w': World, t: nat)
    requires AllExamined(w) && t in w.requests && t in w'.requests && w'.requests == w.requests[t := w'.requests[t]]
    requires w'.tracked == w.tracked && ExaminedOk(w, w'.requests[t].pc)
    requires forall r | Holds(w'.requests[t].pc, Reference, r) :: Holds(w.requests[t].pc, Reference, r)
    ensures AllExamined(w')
  {
    hide Holds, Holders;
    forall u | u in w'.requests
      ensures ExaminedOk(w', w'.requests[u].pc)
    {
      assert ExaminedOk(w, w'.requests[u].pc);
      forall r | Holders(w.requests, Reference, r) == {}
        ensures Holders(w'.requests, Reference, r) == {}
      {
        NobodyAppears(w, w', t, r);
      }
    }
  }

  /** A request moves without taking up a record it did not hold, and leaves the map alone. */
  lemma PlainMoveKeepsInv(w: World, w': World, t: nat)
    requires Inv(w) && t in w.requests && t in w'.requests && Accounted(w, w', t)
    requires w'.requests[t].tenant == w.requests[t].tenant
    requires w'.tracked == w.tracked && w'.next == w.next && w'.lock == w.lock && w'.records.Keys == w.records.Keys
    requires forall r | r in w.records :: w'.records[r].tenant == w.records[r].tenant
    requires forall r | Touches(w'.requests[t].pc, r) :: Touches(w.requests[t].pc, r)
    requires forall r | Holds(w'.requests[t].pc, Reference, r) :: Holds(w.requests[t].pc, Reference, r)
    requires HoldsLock(w'.requests[t].pc) == HoldsLock(w.requests[t].pc)
    requires ExaminedOk(w, w'.requests[t].pc)
    ensures Inv(w')
  {
    hide Holds, HoldsLock, Touches, Accounted, UseIsTracked, CountsOk, LockOk, AllExamined, ExaminedOk;
    AccountedRequests(w, w', t);
    AccountedKeepsCounts(w, w', t);
    UseMoves(w, w', t);
    HolderHasLock(w, t);
    LockMoves(w, w', t);
    ExaminedMoves(w, w', t);
  }

  lemma HolderHasLock(w: World, t: nat)
    requires LockOk(w) && t in w.requests
    ensures HoldsLock(w.requests[t].pc) <==> w.lock == Some(t)
  {
    hide HoldsLock;
  }

  lemma AccountedRequests(w: World, w': World, t: nat)
    requires t in w.requests && t in w'.requests && Accounted(w, w', t)
    ensures w'.requests == w.requests[t := w'.requests[t]]
  {
  }

  lemma NobodyAppears(w: World, w': World, t: nat, r: nat)
    requires t in w.requests && t in w'.requests && w'.requests == w.requests[t := w'.requests[t]]
    requires Holds(w'.requests[t].pc, Reference, r) ==> Holds(w.requests[t].pc, Reference, r)
    requires Holders(w.requests, Reference, r) == {}
    ensures Holders(w'.requests, Reference, r) == {}
  {
    hide Holds;
    forall u | u in w'.requests
      ensures !Holds(w'.requests[u].pc, Reference, r)
    {
      assert u !in Holders(w.requests, Reference, r);
    }
  }

  /** The request works with record `r` and no other. */
  ghost predicate Only(pc: Pc, r: nat) {
    forall kind: Kind, q | q != r && !kind.GlobalPermit? :: !Holds(pc, kind, q)
  }

  lemma OnlyItsRecord(pc: Pc)
    ensures match pc
            case Trying(r) => Only(pc, r) case Reserving(r) => Only(pc, r) case Waiting(r) => Only(pc, r)
            case Granted(r) => Only(pc, r) case Expired(r) => Only(pc, r) case TryingGlobal(r) => Only(pc, r)
            case Refused(r) => Only(pc, r) case Returning(r) => Only(pc, r) case Failing(r) => Only(pc, r)
            case Active(r) => Only(pc, r)
            case _ => forall r :: Only(pc, r)
  {
  }

  /** Exactly what a request holds of record `r` at this point. */
  ghost predicate Has(pc: Pc, r: nat, reference: bool, permit: bool, reservation: bool, global: bool) {
    && Holds(pc, Reference, r) == reference && Holds(pc, Permit, r) == permit && Holds(pc, Reservation, r) == reservation
    && Holds(pc, GlobalPermit, 0) == global && Only(pc, r) && !HoldsLock(pc)
  }

  lemma HoldsTable(r: nat)
    ensures Has(Trying(r), r, true, false, false, false)
    ensures Has(Reserving(r), r, true, false, false, false)
    ensures Has(Waiting(r), r, true, false, true, false)
    ensures Has(Granted(r), r, true, true, true, false)
    ensures Has(Expired(r), r, true, false, true, false)
    ensures Has(TryingGlobal(r), r, true, true, false, false)
    ensures Has(Refused(r), r, true, true, false, false)
    ensures Has(Returning(r), r, true, true, false, true)
    ensures Has(Failing(r), r, true, false, false, false)
    ensures Has(Active(r), r, false, true, false, true)
    ensures Has(Leaving, r, false, false, false, true)
    ensures Has(Done, r, false, false, false, false)
  {
    forall pc | pc in {Trying(r), Reserving(r), Waiting(r), Granted(r), Expired(r), TryingGlobal(r), Refused(r), Returning(r), Failing(r), Active(r), Leaving, Done}
      ensures Only(pc, r)
    {
      OnlyItsRecord(pc);
    }
    hide Only;
  }

  /** A step that changes counters by what it takes or gives back. */
  lemma RecordMoveKeepsInv(w: World, t: nat, r: nat, record: Record, global: nat, pc: Pc)
    requires Inv(w) && t in w.requests && r in w.records && record.tenant == w.records[r].tenant
    requires var p := w.requests[t].pc;
      && Only(p, r) && Only(pc, r) && Touches(p, r)
      && record.available + One(Holds(pc, Permit, r)) == w.records[r].available + One(Holds(p, Permit, r))
      && record.queued + One(Holds(p, Reservation, r)) == w.records[r].queued + One(Holds(pc, Reservation, r))
      && record.queued <= w.queueLimit
      && (Holds(pc, Reference, r) ==> Holds(p, Reference, r))
      && !HoldsLock(p) && !HoldsLock(pc)
      && global + One(Holds(pc, GlobalPermit, 0)) == w.global + One(Holds(p, GlobalPermit, 0))
    ensures Inv(Goto(Update(w.(global := global), r, record), t, pc))
  {
    hide Holds, HoldsLock;
    var p, w' := w.requests[t].pc, Goto(Update(w.(global := global), r, record), t, pc);
    RecordMoveAccounted(w, t, r, record, global, pc);
    assert w'.records.Keys == w.records.Keys;
    forall q
      ensures Touches(pc, q) ==> Touches(p, q)
      ensures Holds(pc, Reference, q) ==> Holds(p, Reference, q)
    {
      OnlyThat(pc, r, q);
    }
    NothingExamined(w, pc);
    hide Accounted, Inv, Touches, Only, ExaminedOk;
    PlainMoveKeepsInv(w, w', t);
  }

  lemma NothingExamined(w: World, pc: Pc)
    requires !HoldsLock(pc)
    ensures ExaminedOk(w, pc)
  {
  }

  lemma OnlyThat(pc: Pc, r: nat, q: nat)
    requires Only(pc, r)
    ensures (Touches(pc, q) || Holds(pc, Reference, q) || Holds(pc, Permit, q) || Holds(pc, Reservation, q)) ==> q == r
  {
    hide Holds;
  }

  lemma RecordMoveAccounted(w: World, t: nat, r: nat, record: Record, global: nat, pc: Pc)
    requires Inv(w) && t in w.requests && r in w.records
    requires var p := w.requests[t].pc;
      && Only(p, r) && Only(pc, r)
      && record.available + One(Holds(pc, Permit, r)) == w.records[r].available + One(Holds(p, Permit, r))
      && record.queued + One(Holds(p, Reservation, r)) == w.records[r].queued + One(Holds(pc, Reservation, r))
      && record.queued <= w.queueLimit
      && global + One(Holds(pc, GlobalPermit, 0)) == w.global + One(Holds(p, GlobalPermit, 0))
    ensures Accounted(w, Goto(Update(w.(global := global), r, record), t, pc), t)
  {
    hide Holds, HoldsLock;
    var p, w' := w.requests[t].pc, Goto(Update(w.(global := global), r, record), t, pc);
    forall q | q in w.records
      ensures w'.records[q].available + One(Holds(pc, Permit, q)) == w.records[q].available + One(Holds(p, Permit, q))
      ensures w'.records[q].queued + One(Holds(p, Reservation, q)) == w.records[q].queued + One(Holds(pc, Reservation, q))
      ensures w'.records[q].queued <= w.queueLimit
    {
      QueueBounded(w, q);
      OnlyThat(pc, r, q);
      OnlyThat(p, r, q);
    }
    assert w'.records.Keys == w.records.Keys;
    hide Inv, Only, One;
  }

  lemma QueueBounded(w: World, r: nat)
    requires Inv(w) && r in w.records
    ensures w.records[r].queued <= w.queueLimit
  {
  }

  lemma SamePlace(w: World, r: nat)
    requires r in w.records
    ensures Update(w, r, w.records[r]) == w
  {
    assert w.records[r := w.records[r]] == w.records;
  }

  lemma TryingKeepsInv(w: World, t: nat, r: nat)
    requires Inv(w) && t in w.requests && w.requests[t].pc == Trying(r)
    ensures r in w.records && Inv(StepTrying(w, t, r))
  {
    hide Inv, Only, Holds, HoldsLock;
    HoldsTable(r);
    HeldRecord(w, t, r);
    SamePlace(w, r);
    var record := w.records[r];
    if record.available > 0 {
      RecordMoveKeepsInv(w, t, r, record.(available := record.available - 1), w.global, TryingGlobal(r));
    } else {
      RecordMoveKeepsInv(w, t, r, record, w.global, Reserving(r));
    }
  }

  lemma ReservingKeepsInv(w: World, t: nat, r: nat)
    requires Inv(w) && t in w.requests && w.requests[t].pc == Reserving(r)
    ensures r in w.records && Inv(StepReserving(w, t, r))
  {
    hide Inv, Only, Holds, HoldsLock;
    HoldsTable(r);
    HeldRecord(w, t, r);
    SamePlace(w, r);
    var record := w.records[r];
    if record.queued < w.queueLimit {
      RecordMoveKeepsInv(w, t, r, record.(queued := record.queued + 1), w.global, Waiting(r));
    } else {
      RecordMoveKeepsInv(w, t, r, record, w.global, Failing(r));
    }
  }

  lemma WaitingKeepsInv(w: World, t: nat, r: nat, expires: bool)
    requires Inv(w) && t in w.requests && w.requests[t].pc == Waiting(r)
    ensures r in w.records && Inv(StepWaiting(w, t, r, expires))
  {
    hide Inv, Only, Holds, HoldsLock;
    HoldsTable(r);
    HeldRecord(w, t, r);
    SamePlace(w, r);
    var record := w.records[r];
    if expires {
      RecordMoveKeepsInv(w, t, r, record, w.global, Expired(r));
    } else if record.available > 0 {
      RecordMoveKeepsInv(w, t, r, record.(available := record.available - 1), w.global, Granted(r));
    }
  }

  lemma UnreservingKeepsInv(w: World, t: nat, r: nat)
    requires Inv(w) && t in w.requests && (w.requests[t].pc == Granted(r) || w.requests[t].pc == Expired(r))
    ensures r in w.records
    ensures w.requests[t].pc.Granted? ==> Inv(Goto(Update(w, r, Unreserved(w.records[r])), t, TryingGlobal(r)))
    ensures w.requests[t].pc.Expired? ==> Inv(Goto(Update(w, r, Unreserved(w.records[r])), t, Failing(r)))
  {
    hide Inv, Only, Holds, HoldsLock;
    HoldsTable(r);
    HeldRecord(w, t, r);
    if w.requests[t].pc.Granted? {
      RecordMoveKeepsInv(w, t, r, Unreserved(w.records[r]), w.global, TryingGlobal(r));
    } else {
      RecordMoveKeepsInv(w, t, r, Unreserved(w.records[r]), w.global, Failing(r));
    }
  }

  lemma ReturningKeepsInv(w: World, t: nat, r: nat)
    requires Inv(w) && t in w.requests && (w.requests[t].pc == Refused(r) || w.requests[t].pc == Active(r))
    ensures r in w.records
    ensures w.requests[t].pc.Refused? ==> Inv(Goto(Update(w, r, Returned(w.records[r])), t, Failing(r)))
    ensures w.requests[t].pc.Active? ==> Inv(Goto(Update(w, r, Returned(w.records[r])), t, Leaving))
  {
    hide Inv, Only, Holds, HoldsLock;
    HoldsTable(r);
    HeldRecord(w, t, r);
    if w.requests[t].pc.Refused? {
      RecordMoveKeepsInv(w, t, r, Returned(w.records[r]), w.global, Failing(r));
    } else {
      RecordMoveKeepsInv(w, t, r, Returned(w.records[r]), w.global, Leaving);
    }
  }

  lemma GlobalKeepsInv(w: World, t: nat, r: nat)
    requires Inv(w) && t in w.requests && w.requests[t].pc == TryingGlobal(r)
    ensures Inv(StepGlobal(w, t, r))
  {
    hide Inv, Only, Holds, HoldsLock;
    HoldsTable(r);
    HeldRecord(w, t, r);
    if w.global > 0 {
      SamePlace(w.(global := w.global - 1), r);
      RecordMoveKeepsInv(w, t, r, w.records[r], w.global - 1, Returning(r));
    } else {
      SamePlace(w, r);
      RecordMoveKeepsInv(w, t, r, w.records[r], w.global, Refused(r));
    }
  }

  lemma LettingGoKeepsInv(w: World, t: nat, r: nat)
    requires Inv(w) && t in w.requests && (w.requests[t].pc == Returning(r) || w.requests[t].pc == Failing(r))
    ensures w.requests[t].pc.Returning? ==> Inv(Goto(w, t, Active(r)))
    ensures w.requests[t].pc.Failing? ==> Inv(Goto(w, t, Done))
  {
    hide Inv, Only, Holds, HoldsLock;
    HoldsTable(r);
    HeldRecord(w, t, r);
    SamePlace(w, r);
    if w.requests[t].pc.Returning? {
      RecordMoveKeepsInv(w, t, r, w.records[r], w.global, Active(r));
    } else {
      RecordMoveKeepsInv(w, t, r, w.records[r], w.global, Done);
    }
  }

  lemma LeavingKeepsInv(w: World, t: nat)
    requires Inv(w) && t in w.requests && w.requests[t].pc == Leaving
    ensures Inv(Goto(w.(global := w.global + 1), t, Done))
  {
    var w' := Goto(w.(global := w.global + 1), t, Done);
    OnlyItsRecord(Leaving);
    OnlyItsRecord(Done);
    forall r, kind: Kind | !kind.GlobalPermit?
      ensures !Holds(Leaving, kind, r) && !Holds(Done, kind, r)
    {
    }
    forall r | r in w.records
      ensures w.records[r].queued <= w.queueLimit
    {
      QueueBounded(w, r);
    }
    assert One(Holds(Leaving, GlobalPermit, 0)) == 1 && One(Holds(Done, GlobalPermit, 0)) == 0;
    hide Holds, UseIsTracked, MapOk, LockOk, Holders, CountsOk;
    PlainMoveKeepsInv(w, w', t);
  }

  /** A held record is there, and its counters cover what the request holds. */
  lemma HeldRecord(w: World, t: nat, r: nat)
    requires Inv(w) && t in w.requests && Touches(w.requests[t].pc, r)
    ensures r in w.records
    ensures Holds(w.requests[t].pc, Reservation, r) ==> w.records[r].queued > 0
    ensures w.records[r].queued <= w.queueLimit
  {
    hide Holds, LockOk;
    assert w.tracked[w.requests[t].tenant] == r;
    if Holds(w.requests[t].pc, Reservation, r) {
      assert t in Holders(w.requests, Reservation, r);
    }
  }

  lemma IdlePlaces(w: World, t: nat)
    requires Inv(w) && t in w.requests
    ensures CountsOk(w) && LockOk(w) && MapOk(w) && UseIsTracked(w) && ExaminedOk(w, w.requests[t].pc)
  {
    hide CountsOk, LockOk, MapOk, UseIsTracked, ExaminedOk;
  }

  /** A step that only moves one request and the lock. */
  lemma LockMoveKeepsInv(w: World, t: nat, pc: Pc, lock: Option<nat>)
    requires Inv(w) && t in w.requests
    requires !Touches(pc, 0) && (forall r :: !Touches(pc, r)) && (forall r :: !Touches(w.requests[t].pc, r))
    requires forall r, kind :: !Holds(pc, kind, r) && !Holds(w.requests[t].pc, kind, r)
    requires lock == (if HoldsLock(pc) then Some(t) else if HoldsLock(w.requests[t].pc) then None else w.lock)
    requires HoldsLock(pc) ==> HoldsLock(w.requests[t].pc) || w.lock.None?
    requires ExaminedOk(w, pc)
    ensures Inv(Goto(w.(lock := lock), t, pc))
  {
    var w' := Goto(w.(lock := lock), t, pc);
    hide Holds, HoldsLock, Touches, UseIsTracked, LockOk, AllExamined, ExaminedOk;
    LockMoveCounts(w, t, pc, lock);
    hide CountsOk;
    UseMoves(w, w', t);
    LockMoves(w, w', t);
    ExaminedMoves(w, w', t);
  }

  lemma LockMoveCounts(w: World, t: nat, pc: Pc, lock: Option<nat>)
    requires CountsOk(w) && t in w.requests
    requires forall r, kind :: !Holds(pc, kind, r) && !Holds(w.requests[t].pc, kind, r)
    ensures CountsOk(Goto(w.(lock := lock), t, pc))
  {
    hide Holds;
    AccountedKeepsCounts(w, Goto(w.(lock := lock), t, pc), t);
  }

  lemma HoldsNothing(pc: Pc)
    requires pc.Locking? || pc.Done? || HoldsLock(pc)
    ensures forall r, kind :: !Holds(pc, kind, r)
    ensures forall r :: !Touches(pc, r)
  {
  }

  /** Taking the lock, and the first two reads of an eviction. */
  lemma ExamineStepKeepsInv(w: World, t: nat, name: string, expires: bool)
    requires Inv(w) && t in w.requests
    requires var pc := w.requests[t].pc; pc.Locking? || pc.Evicting? || pc.EvictingCounted?
    ensures Inv(Step(w, t, name, expires))
  {
    var pc, w' := w.requests[t].pc, Step(w, t, name, expires);
    var pc' := w'.requests[t].pc;
    IdlePlaces(w, t);
    HoldsNothing(pc);
    HoldsNothing(pc');
    if pc.Evicting? && pc'.EvictingCounted? {
      assert w.tracked[name] in w.tracked.Values;
      assert |Holders(w.requests, Reference, w.tracked[name])| == 0;
    }
    hide Inv, Holds, Touches, UseIsTracked, MapOk, CountsOk, Holders;
    if w' != w {
      LockMoveKeepsInv(w, t, pc', w'.lock);
    }
  }

  /** A record nobody refers to and whose permits are all back can be forgotten. */
  lemma NobodyUses(w: World, name: string, u: nat)
    requires Inv(w) && name in w.tracked && Holders(w.requests, Reference, w.tracked[name]) == {}
    requires w.tracked[name] in w.records && w.records[w.tracked[name]].available == w.limit && u in w.requests
    ensures !Touches(w.requests[u].pc, w.tracked[name])
  {
    hide Holds;
    assert |Holders(w.requests, Permit, w.tracked[name])| == 0;
    assert u !in Holders(w.requests, Permit, w.tracked[name]) && u !in Holders(w.requests, Reference, w.tracked[name]);
  }

  lemma OnlyOneExaminer(w: World, t: nat, u: nat)
    requires LockOk(w) && t in w.requests && u in w.requests && HoldsLock(w.requests[t].pc) && HoldsLock(w.requests[u].pc)
    ensures t == u
  {
    hide HoldsLock;
  }

  lemma EvictKeepsInv(w: World, t: nat, name: string, todo: set<string>)
    requires Inv(w) && t in w.requests && w.requests[t].pc == EvictingUnqueued(name, todo)
    requires name in w.tracked && w.tracked[name] in w.records && w.records[w.tracked[name]].available == w.limit
    ensures Inv(Goto(w.(tracked := w.tracked - {name}), t, Evicting(todo)))
  {
    var w1 := w.(tracked := w.tracked - {name});
    IdlePlaces(w, t);
    assert Holders(w.requests, Reference, w.tracked[name]) == {};
    hide Holders, Holds;
    var w' := Goto(w, t, Evicting(todo));
    HoldsNothing(Evicting(todo));
    HoldsNothing(w.requests[t].pc);
    LockMoveKeepsInv(w, t, Evicting(todo), w.lock);
    assert w.(lock := w.lock) == w;
    forall u, r | u in w.requests && Touches(w.requests[u].pc, r)
      ensures w.requests[u].tenant != name
    {
      NobodyUses(w, name, u);
    }
    assert |w.tracked - {name}| <= |w.tracked| by {
      assert (w.tracked - {name}).Keys == w.tracked.Keys - {name};
    }
    ForgetKeepsInv(w', t, name, todo);
  }

  lemma ForgetKeepsInv(w: World, t: nat, name: string, todo: set<string>)
    requires Inv(w) && t in w.requests && w.requests[t].pc == Evicting(todo) && |w.tracked - {name}| <= |w.tracked|
    requires forall u, r | u in w.requests && Touches(w.requests[u].pc, r) :: w.requests[u].tenant != name
    ensures Inv(w.(tracked := w.tracked - {name}))
  {
    hide Holds, Holders, Touches;
    var w' := w.(tracked := w.tracked - {name});
    forall u | u in w'.requests
      ensures ExaminedOk(w', w'.requests[u].pc)
    {
      assert HoldsLock(w.requests[t].pc);
      if HoldsLock(w.requests[u].pc) {
        OnlyOneExaminer(w, t, u);
      }
    }
  }

  lemma UnqueuedStepKeepsInv(w: World, t: nat, name: string, expires: bool)
    requires Inv(w) && t in w.requests && w.requests[t].pc.EvictingUnqueued?
    ensures Inv(Step(w, t, name, expires))
  {
    var pc := w.requests[t].pc;
    var x, todo := pc.name, pc.todo;
    HoldsNothing(pc);
    HoldsNothing(Evicting(todo));
    if x in w.tracked && w.tracked[x] in w.records {
      if w.records[w.tracked[x]].available != w.limit {
        IdlePlaces(w, t);
        hide Inv, Holds, Touches, UseIsTracked, MapOk, CountsOk, Holders;
        LockMoveKeepsInv(w, t, Evicting(todo), w.lock);
        assert w.(lock := w.lock) == w;
      } else {
        EvictKeepsInv(w, t, x, todo);
      }
    }
  }

  // ---- entering ----

  lemma EnterKnown(w: World, t: nat)
    requires Inv(w) && t in w.requests && w.requests[t].pc.Entering? && w.requests[t].tenant in w.tracked
    ensures Inv(Goto(w.(lock := None), t, Trying(w.tracked[w.requests[t].tenant])))
  {
    IdlePlaces(w, t);
    var r := w.tracked[w.requests[t].tenant];
    var w' := Goto(w.(lock := None), t, Trying(r));
    HoldsNothing(Entering);
    HoldsTable(r);
    assert HoldsLock(w.requests[t].pc);
    hide Holds, HoldsLock, UseIsTracked, LockOk, ExaminedOk;
    forall q
      ensures Touches(Trying(r), q) ==> q == r
    {
      OnlyThat(Trying(r), r, q);
    }
    EnterCounts(w, w', t, r);
    hide Touches, Only, CountsOk, Holders;
    UseMoves(w, w', t);
    LockMoves(w, w', t);
    MapStays(w, w');
    hide MapOk;
    forall u | u in w'.requests
      ensures ExaminedOk(w', w'.requests[u].pc)
    {
      NobodyElseExamines(w, t, u);
      UnexaminedOk(w', w'.requests[u].pc);
    }
  }

  lemma MapStays(w: World, w': World)
    requires MapOk(w) && w'.tracked == w.tracked && w'.records == w.records && w'.next == w.next
    ensures MapOk(w')
  {
  }

  lemma UnexaminedOk(w: World, pc: Pc)
    requires !pc.EvictingCounted? && !pc.EvictingUnqueued?
    ensures ExaminedOk(w, pc)
  {
  }

  lemma EnterCounts(w: World, w': World, t: nat, r: nat)
    requires Inv(w) && t in w.requests && t in w'.requests && w' == Goto(w.(lock := None), t, Trying(r))
    requires forall q, kind :: !Holds(w.requests[t].pc, kind, q)
    requires Only(Trying(r), r) && !Holds(Trying(r), Permit, r) && !Holds(Trying(r), Reservation, r) && !Holds(Trying(r), GlobalPermit, 0)
    ensures CountsOk(w')
  {
    hide Holds;
    forall q | q in w.records
      ensures w.records[q].queued <= w.queueLimit && !Holds(Trying(r), Permit, q) && !Holds(Trying(r), Reservation, q)
    {
      QueueBounded(w, q);
    }
    AccountedKeepsCounts(w, w', t);
  }

  /** While `t` holds the lock, no other request is in the middle of an eviction. */
  lemma NobodyElseExamines(w: World, t: nat, u: nat)
    requires LockOk(w) && t in w.requests && HoldsLock(w.requests[t].pc)
    ensures u in w.requests && u != t ==> !w.requests[u].pc.EvictingCounted? && !w.requests[u].pc.EvictingUnqueued?
  {
    if u in w.requests && u != t {
      assert !HoldsLock(w.requests[u].pc);
    }
  }

  function WithFreshRecord(w: World, tenant: string): World {
    w.(tracked := w.tracked[tenant := w.next], next := w.next + 1, records := w.records[w.next := Record(tenant, w.limit, 0)])
  }

  lemma NobodyHoldsNext(w: World, u: nat)
    requires UseIsTracked(w) && MapOk(w) && u in w.requests
    ensures !Touches(w.requests[u].pc, w.next) && !Holds(w.requests[u].pc, Permit, w.next) && !Holds(w.requests[u].pc, Reservation, w.next)
  {
    hide Holds, Touches;
    assert w.next !in w.records;
    HoldsMeansTouches(w.requests[u].pc, Permit, w.next);
    HoldsMeansTouches(w.requests[u].pc, Reservation, w.next);
  }

  lemma FreshCounts(w: World, tenant: string)
    requires UseIsTracked(w) && MapOk(w) && CountsOk(w)
    ensures CountsOk(WithFreshRecord(w, tenant))
  {
    forall u | u in w.requests
      ensures !Holds(w.requests[u].pc, Permit, w.next) && !Holds(w.requests[u].pc, Reservation, w.next)
    {
      NobodyHoldsNext(w, u);
    }
    hide Holds, UseIsTracked, MapOk;
    assert Holders(w.requests, Permit, w.next) == {} && Holders(w.requests, Reservation, w.next) == {};
  }

  lemma FreshUse(w: World, tenant: string)
    requires UseIsTracked(w) && MapOk(w) && tenant !in w.tracked && |w.tracked| < MAX_TRACKED_TENANTS
    ensures UseIsTracked(WithFreshRecord(w, tenant)) && MapOk(WithFreshRecord(w, tenant))
  {
    hide Touches;
    assert w.next !in w.records;
  }

  /** A fresh record for a tenant the map does not know: nobody can hold anything of it yet. */
  lemma FreshRecord(w: World, t: nat, tenant: string)
    requires Inv(w) && t in w.requests && w.requests[t].pc.Entering? && tenant !in w.tracked && |w.tracked| < MAX_TRACKED_TENANTS
    ensures Inv(WithFreshRecord(w, tenant))
  {
    IdlePlaces(w, t);
    FreshCounts(w, tenant);
    FreshUse(w, tenant);
    assert HoldsLock(w.requests[t].pc);
    hide Holds, Touches, HoldsLock, CountsOk, UseIsTracked, MapOk;
    var w' := WithFreshRecord(w, tenant);
    forall u | u in w'.requests
      ensures ExaminedOk(w', w'.requests[u].pc)
    {
      NobodyElseExamines(w, t, u);
    }
  }

  lemma HoldsMeansTouches(pc: Pc, kind: Kind, r: nat)
    requires !kind.GlobalPermit?
    ensures Holds(pc, kind, r) ==> Touches(pc, r)
  {
  }

  lemma EnterFull(w: World, t: nat)
    requires Inv(w) && t in w.requests && w.requests[t].pc.Entering?
    ensures Inv(Goto(w.(lock := None), t, Done))
  {
    HoldsNothing(Entering);
    HoldsNothing(Done);
    assert HoldsLock(Entering) && !HoldsLock(Done);
    NothingExamined(w, Done);
    hide Inv, Holds, Touches, HoldsLock, ExaminedOk;
    LockMoveKeepsInv(w, t, Done, None);
  }

  lemma EnteringKeepsInv(w: World, t: nat)
    requires Inv(w) && t in w.requests && w.requests[t].pc.Entering?
    ensures Inv(StepEntering(w, t))
  {
    hide Inv;
    var tenant := w.requests[t].tenant;
    if Full(w, tenant) {
      EnterFull(w, t);
    } else if tenant in w.tracked {
      EnterKnown(w, t);
    } else {
      FreshRecord(w, t, tenant);
      EnterKnown(WithFreshRecord(w, tenant), t);
    }
  }

  // ---- whole executions ----

  lemma StepKeepsInv(w: World, t: nat, name: string, expires: bool)
    requires Inv(w) && t in w.requests
    ensures Inv(Step(w, t, name, expires))
  {
    hide Inv, StepTrying, StepReserving, StepWaiting, StepGlobal, StepEntering, Unreserved, Returned;
    match w.requests[t].pc {
      case Locking => ExamineStepKeepsInv(w, t, name, expires);
      case Evicting(_) => ExamineStepKeepsInv(w, t, name, expires);
      case EvictingCounted(_, _) => ExamineStepKeepsInv(w, t, name, expires);
      case EvictingUnqueued(_, _) => UnqueuedStepKeepsInv(w, t, name, expires);
      case Entering => EnteringKeepsInv(w, t);
      case Trying(r) => TryingKeepsInv(w, t, r);
      case Reserving(r) => ReservingKeepsInv(w, t, r);
      case Waiting(r) => WaitingKeepsInv(w, t, r, expires);
      case Granted(r) => UnreservingKeepsInv(w, t, r);
      case Expired(r) => UnreservingKeepsInv(w, t, r);
      case TryingGlobal(r) => GlobalKeepsInv(w, t, r);
      case Refused(r) => ReturningKeepsInv(w, t, r);
      case Returning(r) => LettingGoKeepsInv(w, t, r);
      case Failing(r) => LettingGoKeepsInv(w, t, r);
      case Active(r) => ReturningKeepsInv(w, t, r);
      case Leaving => LeavingKeepsInv(w, t);
      case Done =>
    }
  }

  lemma ArriveKeepsInv(w: World, t: nat, tenant: string)
    requires Inv(w) && t !in w.requests
    ensures Inv(w.(requests := w.requests[t := Request(tenant, Locking)]))
  {
    var w' := w.(requests := w.requests[t := Request(tenant, Locking)]);
    HoldsNothing(Locking);
    assert !HoldsLock(Locking);
    hide Holds, Touches, HoldsLock;
    forall kind, r
      ensures Holders(w'.requests, kind, r) == Holders(w.requests, kind, r)
    {
    }
    hide Holders;
    ArriveCounts(w, w');
    ArriveUse(w, w', t);
    hide UseIsTracked, CountsOk;
    assert MapOk(w');
    hide MapOk;
    forall u | u in w'.requests
      ensures ExaminedOk(w', w'.requests[u].pc)
    {
      if u != t {
        assert ExaminedOk(w, w.requests[u].pc);
      }
    }
  }

  lemma ArriveCounts(w: World, w': World)
    requires CountsOk(w) && w' == w.(requests := w'.requests)
    requires forall kind, r :: Holders(w'.requests, kind, r) == Holders(w.requests, kind, r)
    ensures CountsOk(w')
  {
    hide Holders;
  }

  lemma ArriveUse(w: World, w': World, t: nat)
    requires UseIsTracked(w) && LockOk(w) && t !in w.requests && t in w'.requests
    requires w' == w.(requests := w.requests[t := w'.requests[t]])
    requires !HoldsLock(w'.requests[t].pc) && forall r :: !Touches(w'.requests[t].pc, r)
    ensures UseIsTracked(w') && LockOk(w')
  {
    hide Touches, HoldsLock;
  }

  lemma NextKeepsInv(w: World, a: Action)
    requires Inv(w) && Enabled(w, a)
    ensures Inv(Next(w, a))
  {
    match a {
      case Arrive(t, tenant) =>
        hide Inv;
        ArriveKeepsInv(w, t, tenant);
      case Run(t, name, expires) =>
        hide Inv, Step;
        StepKeepsInv(w, t, name, expires);
      case Abandon(t) =>
        IdlePlaces(w, t);
        HoldsNothing(Locking);
        HoldsNothing(Done);
        hide Inv, Holds, Touches, UseIsTracked, MapOk, CountsOk;
        assert w.(lock := w.lock) == w;
        LockMoveKeepsInv(w, t, Done, w.lock);
    }
  }

  lemma {:induction false} ExecutionKeepsInv(run: seq<World>, k: nat)
    requires Execution(run) && k < |run|
    ensures Inv(run[k]) && run[k].limit == run[0].limit && run[k].queueLimit == run[0].queueLimit
  {
    hide Inv, Init, Next, Enabled;
    if k == 0 {
      InitIsInv(run[0]);
    } else {
      ExecutionKeepsInv(run, k - 1);
      assert Steps(run[k - 1], run[k]);
      var a :| Enabled(run[k - 1], a) && Next(run[k - 1], a) == run[k];
      NextKeepsInv(run[k - 1], a);
      LimitsAreFixed(run[k - 1], a);
    }
  }

  lemma InitIsInv(w: World)
    requires Init(w)
    ensures Inv(w)
  {
    assert Holders(w.requests, GlobalPermit, 0) == {};
  }

  lemma LimitsAreFixed(w: World, a: Action)
    requires Enabled(w, a)
    ensures Next(w, a).limit == w.limit && Next(w, a).queueLimit == w.queueLimit
  {
  }

  // ---- main results ----

  /** Requests of one tenant that hold a permit, or a place in the queue, of any incarnation of its record. */
  function TenantHolders(w: World, kind: Kind, tenant: string): set<nat> {
    set t | t in w.requests && w.requests[t].tenant == tenant && HoldsSome(w.requests[t].pc, kind)
  }

  predicate HoldsSome(pc: Pc, kind: Kind) {
    match pc
    case Waiting(r) => Holds(pc, kind, r)
    case Granted(r) => Holds(pc, kind, r)
    case Expired(r) => Holds(pc, kind, r)
    case TryingGlobal(r) => Holds(pc, kind, r)
    case Refused(r) => Holds(pc, kind, r)
    case Returning(r) => Holds(pc, kind, r)
    case Active(r) => Holds(pc, kind, r)
    case _ => false
  }

  lemma SubsetCount(a: set<nat>, b: set<nat>)
    requires a <= b
    ensures |a| <= |b|
  {
    assert b == a + (b - a);
  }

  lemma OneRecordPerTenant(w: World, kind: Kind, tenant: string)
    requires Inv(w) && (kind.Permit? || kind.Reservation?) && TenantHolders(w, kind, tenant) != {}
    ensures tenant in w.tracked && w.tracked[tenant] in w.records
    ensures TenantHolders(w, kind, tenant) <= Holders(w.requests, kind, w.tracked[tenant])
  {
    hide CountsOk, LockOk;
    forall t | t in TenantHolders(w, kind, tenant)
      ensures tenant in w.tracked && t in Holders(w.requests, kind, w.tracked[tenant])
    {
      assert Touches(w.requests[t].pc, w.requests[t].pc.r);
    }
    var t :| t in TenantHolders(w, kind, tenant);
  }

  /**
   * Whatever is evicted and recreated meanwhile, a tenant never holds more permits than its
   * concurrency limit nor more queue places than its queue limit, over all incarnations of its record.
   */
  lemma TenantLimitsHold(run: seq<World>, k: nat, tenant: string)
    requires Execution(run) && k < |run|
    ensures |TenantHolders(run[k], Permit, tenant)| <= run[0].limit
    ensures |TenantHolders(run[k], Reservation, tenant)| <= run[0].queueLimit
  {
    ExecutionKeepsInv(run, k);
    var w := run[k];
    forall kind: Kind | kind.Permit? || kind.Reservation?
      ensures TenantHolders(w, kind, tenant) != {} ==>
                tenant in w.tracked && w.tracked[tenant] in w.records
                && |TenantHolders(w, kind, tenant)| <= |Holders(w.requests, kind, w.tracked[tenant])|
    {
      if TenantHolders(w, kind, tenant) != {} {
        OneRecordPerTenant(w, kind, tenant);
        SubsetCount(TenantHolders(w, kind, tenant), Holders(w.requests, kind, w.tracked[tenant]));
      }
    }
    hide TenantHolders, Holders;
  }

  /** The map never tracks too many tenants, and no more than the global limit is in flight. */
  lemma GlobalLimitsHold(run: seq<World>, k: nat)
    requires Execution(run) && k < |run|
    ensures |run[k].tracked| <= 1_024
    ensures |ActiveRequests(run[k])| <= 256
  {
    hide Execution;
    ExecutionKeepsInv(run, k);
    GlobalBound(run[k]);
  }

  function ActiveRequests(w: World): set<nat> {
    set t | t in w.requests && w.requests[t].pc.Active?
  }

  lemma GlobalBound(w: World)
    requires Inv(w)
    ensures |w.tracked| <= MAX_TRACKED_TENANTS && |ActiveRequests(w)| <= MAX_GLOBAL_INFLIGHT
  {
    hide UseIsTracked, LockOk;
    assert ActiveRequests(w) <= Holders(w.requests, GlobalPermit, 0);
    hide ActiveRequests, Holders;
    SubsetCount(ActiveRequests(w), Holders(w.requests, GlobalPermit, 0));
  }
}
