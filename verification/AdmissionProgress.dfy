/** Whom admission lets in: each decision of `acquire` is the one that what others hold calls for. */
module AdmissionProgress {
  import opened Common
  import opened Admission

  /** Everybody who holds something of a record belongs to the record's tenant. */
  lemma HoldersAreTenants(w: World, t: nat, r: nat, kind: Kind)
    requires Inv(w) && t in w.requests && Touches(w.requests[t].pc, r) && (kind.Permit? || kind.Reservation?)
    ensures r in w.records && Holders(w.requests, kind, r) == TenantHolders(w, kind, w.requests[t].tenant)
  {
    hide CountsOk, LockOk, AllExamined;
    assert w.tracked[w.requests[t].tenant] == r;
    forall u
      ensures u in Holders(w.requests, kind, r) <==> u in TenantHolders(w, kind, w.requests[t].tenant)
    {
      if u in w.requests {
        SameTenantSameRecord(w, t, u, r, kind);
      }
    }
  }

  lemma SameTenantSameRecord(w: World, t: nat, u: nat, r: nat, kind: Kind)
    requires UseIsTracked(w) && MapOk(w) && t in w.requests && u in w.requests && Touches(w.requests[t].pc, r)
    requires kind.Permit? || kind.Reservation?
    ensures Holds(w.requests[u].pc, kind, r) <==> w.requests[u].tenant == w.requests[t].tenant && HoldsSome(w.requests[u].pc, kind)
  {
    HoldsMeansTouches(w.requests[u].pc, kind, r);
    if HoldsSome(w.requests[u].pc, kind) {
      SomeHolds(w.requests[u].pc, kind);
      HoldsMeansTouches(w.requests[u].pc, kind, w.requests[u].pc.r);
    }
    HoldsOne(w.requests[u].pc, kind, r);
    hide Holds, HoldsSome, Touches;
  }

  lemma SomeHolds(pc: Pc, kind: Kind)
    requires HoldsSome(pc, kind)
    ensures Holds(pc, kind, pc.r)
  {
  }

  lemma HoldsOne(pc: Pc, kind: Kind, r: nat)
    requires kind.Permit? || kind.Reservation?
    ensures Holds(pc, kind, r) ==> HoldsSome(pc, kind) && pc.r == r
  {
  }

  /** What is free is what nobody of the tenant holds. */
  lemma FreeIsUnheld(w: World, t: nat, r: nat)
    requires Inv(w) && t in w.requests && Touches(w.requests[t].pc, r)
    ensures r in w.records
    ensures w.records[r].available == w.limit - |TenantHolders(w, Permit, w.requests[t].tenant)|
    ensures w.records[r].queued == |TenantHolders(w, Reservation, w.requests[t].tenant)|
  {
    HoldersAreTenants(w, t, r, Permit);
    HoldersAreTenants(w, t, r, Reservation);
    hide UseIsTracked, LockOk, AllExamined, Holders, TenantHolders, Touches;
  }

  predicate Room(w: World, tenant: string) {
    tenant in w.tracked || |w.tracked| < 1_024
  }

  /** Where each point of `acquire` leads, in terms of what requests hold at that moment. */
  ghost predicate Decides(w: World, w': World, t: nat, expires: bool)
    requires t in w.requests
  {
    var tenant := w.requests[t].tenant;
    && t in w'.requests && w'.requests[t].tenant == tenant
    && var pc' := w'.requests[t].pc;
    match w.requests[t].pc
    case Trying(r) =>
      pc' == if |TenantHolders(w, Permit, tenant)| < w.limit then TryingGlobal(r) else Reserving(r)
    case Reserving(r) =>
      pc' == if |TenantHolders(w, Reservation, tenant)| < w.queueLimit then Waiting(r) else Failing(r)
    case Waiting(r) =>
      pc' == if expires then Expired(r) else if |TenantHolders(w, Permit, tenant)| < w.limit then Granted(r) else Waiting(r)
    case Granted(r) => pc' == TryingGlobal(r)
    case TryingGlobal(r) =>
      pc' == if |Holders(w.requests, GlobalPermit, 0)| < 256 then Returning(r) else Refused(r)
    case Returning(r) => pc' == Active(r)
    case Refused(r) => pc' == Failing(r)
    case Expired(r) => pc' == Failing(r)
    case Failing(_) => pc' == Done
    case Active(_) => pc' == Leaving
    case Leaving => pc' == Done
    case Locking =>
      pc' == if w.lock.Some? then Locking else if Room(w, tenant) then Entering else Evicting(w.tracked.Keys)
    case Entering =>
      && w'.lock.None?
      && if Room(w, tenant) then tenant in w'.tracked && pc' == Trying(w'.tracked[tenant]) else pc' == Done
    case _ => true
  }

  /**
   * In every execution a request with a free permit gets it, one with a free queue place gets that,
   * a waiter is served as soon as a permit is free, and each is refused only when the limit in
   * question is reached.
   */
  lemma AcquireDecides(run: seq<World>, k: nat, t: nat, name: string, expires: bool)
    requires Execution(run) && k < |run| && t in run[k].requests
    ensures Decides(run[k], Step(run[k], t, name, expires), t, expires)
  {
    hide Execution, Inv, Decides, Step;
    ExecutionKeepsInv(run, k);
    var w := run[k];
    match w.requests[t].pc {
      case Trying(r) => DecidesAtRecord(w, t, r, name, expires);
      case Reserving(r) => DecidesAtRecord(w, t, r, name, expires);
      case Waiting(r) => DecidesAtRecord(w, t, r, name, expires);
      case Granted(r) => DecidesAtRecord(w, t, r, name, expires);
      case Expired(r) => DecidesAtRecord(w, t, r, name, expires);
      case Refused(r) => DecidesAtRecord(w, t, r, name, expires);
      case Active(r) => DecidesAtRecord(w, t, r, name, expires);
      case TryingGlobal(r) => DecidesGlobally(w, t, name, expires);
      case Locking => DecidesUnderLock(w, t, name, expires);
      case Entering => DecidesUnderLock(w, t, name, expires);
      case _ => DecidesElsewhere(w, t, name, expires);
    }
  }

  lemma DecidesGlobally(w: World, t: nat, name: string, expires: bool)
    requires Inv(w) && t in w.requests && w.requests[t].pc.TryingGlobal?
    ensures Decides(w, Step(w, t, name, expires), t, expires)
  {
    GlobalIsCounted(w);
    hide Inv, TenantHolders, Holders;
  }

  lemma DecidesUnderLock(w: World, t: nat, name: string, expires: bool)
    requires t in w.requests && (w.requests[t].pc.Locking? || w.requests[t].pc.Entering?)
    ensures Decides(w, Step(w, t, name, expires), t, expires)
  {
    hide TenantHolders, Holders;
  }

  lemma DecidesElsewhere(w: World, t: nat, name: string, expires: bool)
    requires t in w.requests
    requires w.requests[t].pc.Returning? || w.requests[t].pc.Failing? || w.requests[t].pc.Leaving? || w.requests[t].pc.Done?
             || w.requests[t].pc.Evicting? || w.requests[t].pc.EvictingCounted? || w.requests[t].pc.EvictingUnqueued?
    ensures Decides(w, Step(w, t, name, expires), t, expires)
  {
    hide TenantHolders, Holders, StrongCount;
  }

  lemma GlobalIsCounted(w: World)
    requires Inv(w)
    ensures w.global + |Holders(w.requests, GlobalPermit, 0)| == 256
  {
    hide Holders, UseIsTracked, MapOk, LockOk, AllExamined;
  }

  lemma DecidesAtRecord(w: World, t: nat, r: nat, name: string, expires: bool)
    requires Inv(w) && t in w.requests
    requires w.requests[t].pc in {Trying(r), Reserving(r), Waiting(r), Granted(r), Expired(r), Refused(r), Active(r)}
    ensures Decides(w, Step(w, t, name, expires), t, expires)
  {
    hide Inv, TenantHolders, Touches, Decides, Step;
    UsesIt(w.requests[t].pc, r);
    FreeIsUnheld(w, t, r);
    var pc := w.requests[t].pc;
    if pc.Trying? || pc.Reserving? || pc.Waiting? {
      DecidesByCount(w, t, r, name, expires);
    } else {
      DecidesAnyway(w, t, r, name, expires);
    }
  }

  lemma DecidesByCount(w: World, t: nat, r: nat, name: string, expires: bool)
    requires t in w.requests && r in w.records && w.requests[t].pc in {Trying(r), Reserving(r), Waiting(r)}
    requires w.records[r].available == w.limit - |TenantHolders(w, Permit, w.requests[t].tenant)|
    requires w.records[r].queued == |TenantHolders(w, Reservation, w.requests[t].tenant)|
    ensures Decides(w, Step(w, t, name, expires), t, expires)
  {
    hide TenantHolders, Holders;
  }

  lemma DecidesAnyway(w: World, t: nat, r: nat, name: string, expires: bool)
    requires t in w.requests && r in w.records && w.requests[t].pc in {Granted(r), Expired(r), Refused(r), Active(r)}
    ensures Decides(w, Step(w, t, name, expires), t, expires)
  {
    hide TenantHolders, Holders;
  }

  lemma UsesIt(pc: Pc, r: nat)
    requires pc in {Trying(r), Reserving(r), Waiting(r), Granted(r), Expired(r), Refused(r), Active(r)}
    ensures Touches(pc, r)
  {
  }

  // ---- eviction finds what is idle ----

  /** Nobody is inside `acquire` with this record, waits in its queue or holds one of its permits. */
  ghost predicate Idle(w: World, r: nat) {
    Holders(w.requests, Reference, r) == {} && Holders(w.requests, Reservation, r) == {} && Holders(w.requests, Permit, r) == {}
  }

  /** An idle record passes each of the three reads, and the last one forgets it. */
  lemma IdleIsForgotten(run: seq<World>, k: nat, t: nat, name: string, expires: bool)
    requires Execution(run) && k < |run| && t in run[k].requests
    requires name in run[k].tracked && Idle(run[k], run[k].tracked[name])
    ensures var w, w' := run[k], Step(run[k], t, name, expires);
      t in w'.requests
      && match w.requests[t].pc
         case Evicting(todo) => name in todo ==> w'.requests[t].pc == EvictingCounted(name, todo - {name})
         case EvictingCounted(x, todo) => x == name ==> w'.requests[t].pc == EvictingUnqueued(name, todo)
         case EvictingUnqueued(x, todo) => x == name ==> w'.requests[t].pc == Evicting(todo) && w'.tracked == w.tracked - {name}
         case _ => true
  {
    hide Execution, Inv, Idle, Step;
    ExecutionKeepsInv(run, k);
    IdleCounts(run[k], name);
    RequestStays(run[k], t, name, expires);
    if Examines(run[k].requests[t].pc) {
      ForgetsByCount(run[k], t, name, expires);
    }
  }

  predicate Examines(pc: Pc) {
    pc.Evicting? || pc.EvictingCounted? || pc.EvictingUnqueued?
  }

  lemma RequestStays(w: World, t: nat, name: string, expires: bool)
    requires t in w.requests
    ensures t in Step(w, t, name, expires).requests
  {
    hide StrongCount, Full, Returned, Unreserved;
  }

  lemma ForgetsByCount(w: World, t: nat, name: string, expires: bool)
    requires t in w.requests && Examines(w.requests[t].pc) && name in w.tracked && w.tracked[name] in w.records && StrongCount(w, w.tracked[name]) == 1
    requires w.records[w.tracked[name]].queued == 0 && w.records[w.tracked[name]].available == w.limit
    ensures var w' := Step(w, t, name, expires);
      t in w'.requests
      && match w.requests[t].pc
         case Evicting(todo) => name in todo ==> w'.requests[t].pc == EvictingCounted(name, todo - {name})
         case EvictingCounted(x, todo) => x == name ==> w'.requests[t].pc == EvictingUnqueued(name, todo)
         case EvictingUnqueued(x, todo) => x == name ==> w'.requests[t].pc == Evicting(todo) && w'.tracked == w.tracked - {name}
         case _ => true
  {
    hide StrongCount, StepTrying, StepReserving, StepWaiting, StepGlobal, StepEntering, StepLocking, Unreserved, Returned;
  }

  lemma IdleCounts(w: World, name: string)
    requires Inv(w) && name in w.tracked && Idle(w, w.tracked[name])
    ensures w.tracked[name] in w.records && StrongCount(w, w.tracked[name]) == 1
    ensures w.records[w.tracked[name]].queued == 0 && w.records[w.tracked[name]].available == w.limit
  {
    hide UseIsTracked, LockOk, AllExamined, Holders;
  }
}
