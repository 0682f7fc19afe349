/** Whose routes the store hands out and changes: over any sequence of operations, only the asking caller's. */
module RouteIsolation {
  import opened Common
  import opened TaskRoute
  import opened RouteStore

  /** Who asks; nobody does when expired routes are purged. */
  function Asker(op: Operation): Option<Caller> {
    match op
    case FindOp(c, _) => Some(c)
    case BeginOp(r) => Some(r.caller)
    case GetOp(c, _) => Some(c)
    case CasOp(c, _, _, _) => Some(c)
    case PurgeOp(_, _) => None
  }

  /** The route an answer carries. */
  function RouteIn(a: Answer): Option<Route> {
    match a
    case Found(r) => r
    case BeganWith(Ok(Inserted(r))) => Some(r)
    case BeganWith(Ok(Existing(r))) => Some(r)
    case Swapped(Ok(next)) => next
    case _ => None
  }

  /** The route asked for by its public id. */
  function NamedId(op: Operation): Option<string> {
    match op
    case GetOp(_, id) => Some(id)
    case CasOp(_, id, _, _) => Some(id)
    case _ => None
  }

  /** The answer is about a route of the caller that asked, and about the one it named. */
  predicate OwnAnswer(op: Operation, a: Answer) {
    RouteIn(a).Some? ==>
      && Asker(op) == Some(RouteIn(a).value.caller)
      && (NamedId(op).Some? ==> NamedId(op).value == RouteIn(a).value.id)
      && (op.FindOp? ==> RouteIn(a).value.key == Some(op.key))
  }

  /** A read by public id answers exactly when the stored row has that id and belongs to the caller. */
  lemma GetAnswersOwn(t: Table, caller: Caller, id: string)
    requires TableOk(t)
    ensures RouteIn(SqlAnswer(t, GetOp(caller, id))).Some? <==> id in t && t[id].id == id && t[id].caller == caller
    ensures id in t && t[id].caller == caller ==> SqlAnswer(t, GetOp(caller, id)) == Found(Some(t[id]))
  {
    hide WellShaped;
  }

  lemma AnswerIsOwn(t: Table, op: Operation)
    requires TableOk(t)
    ensures OwnAnswer(op, SqlAnswer(t, op))
  {
    hide WellShaped, Transition, VerifyPreparedForBegin, Active, SqlPurge;
    match op {
      case FindOp(c, key) =>
      case BeginOp(rec) =>
        if rec.key.Some? && SqlFind(t, rec.caller, rec.key.value).Some? {
          SqlFindIsRow(t, rec.caller, rec.key.value);
        }
      case GetOp(c, id) =>
      case CasOp(c, id, v, u) =>
        if id in t && t[id].caller == c && Transition(t[id], u).Ok? {
          assert WellShaped(t[id]);
          TransitionFacts(t[id], u);
        }
      case PurgeOp(_, _) =>
    }
  }

  /** Over any sequence of operations every answer is about a route of the caller that asked for it. */
  lemma {:induction false} AnswersAreOwn(t: Table, ops: seq<Operation>)
    requires TableOk(t) && |t| <= MAX_STORED_ROUTES
    ensures |SqlAnswers(t, ops)| == |ops|
    ensures forall i | 0 <= i < |ops| :: OwnAnswer(ops[i], SqlAnswers(t, ops)[i])
    decreases |ops|
  {
    hide TableOk, SqlApply, SqlAnswer, OwnAnswer;
    if ops != [] {
      AnswerIsOwn(t, ops[0]);
      ApplyKeepsTable(t, ops[0]);
      AnswersAreOwn(SqlApply(t, ops[0]), ops[1..]);
    }
  }

  // ---- what others cannot do ----

  /** Purging at the times in the sequence never reaches this expiry. */
  predicate NeverPurged(ops: seq<Operation>, expires: nat) {
    forall i | 0 <= i < |ops| && ops[i].PurgeOp? :: ops[i].now < expires
  }

  /** Nobody but their own caller adds, changes or removes routes, except that expired ones are purged. */
  ghost predicate LeavesAlone(t: Table, t': Table, caller: Caller, ops: seq<Operation>) {
    && (forall id | id in t' && t'[id].caller == caller :: id in t && t[id] == t'[id])
    && (forall id | id in t && t[id].caller == caller && NeverPurged(ops, t[id].expires) :: id in t' && t'[id] == t[id])
  }

  lemma OtherBegins(t: Table, rec: Route, caller: Caller)
    requires TableOk(t) && rec.caller != caller
    ensures LeavesAlone(t, SqlBegin(t, rec).0, caller, [])
  {
    hide WellShaped, VerifyPreparedForBegin, Active, TableOk, SqlFind;
    if rec.key.Some? && SqlFind(t, rec.caller, rec.key.value).Some? {
      SqlFindIsRow(t, rec.caller, rec.key.value);
      FoundIsOwn(t, rec.caller, rec.key.value);
    }
  }

  lemma FoundIsOwn(t: Table, caller: Caller, key: string)
    requires SqlFind(t, caller, key).Some?
    ensures SqlFind(t, caller, key).value.caller == caller
  {
    hide SqlFind;
  }

  lemma OtherSwaps(t: Table, asker: Caller, id: string, expected: nat, u: Update, caller: Caller)
    requires TableOk(t) && asker != caller
    ensures LeavesAlone(t, SqlCas(t, asker, id, expected, u).0, caller, [])
  {
    hide WellShaped, Transition;
    if id in t && t[id].caller == asker && Transition(t[id], u).Ok? {
      assert WellShaped(t[id]);
      TransitionFacts(t[id], u);
    }
  }

  lemma PurgeSparesLive(t: Table, now: nat, maximum: nat, caller: Caller)
    ensures LeavesAlone(t, SqlPurge(t, now, maximum).0, caller, [PurgeOp(now, maximum)])
  {
    hide Before;
    forall id | id in t && now < t[id].expires
      ensures id !in SqlPurged(t, now, maximum)
    {
      var limit := Min(now, MAX_SQLITE_INTEGER);
      assert (t[id].expires, id) !in ExpiredPairs(t, limit);
    }
    forall id | id in t && t[id].caller == caller && NeverPurged([PurgeOp(now, maximum)], t[id].expires)
      ensures now < t[id].expires
    {
      assert [PurgeOp(now, maximum)][0].PurgeOp?;
    }
  }

  lemma OtherStepLeavesAlone(t: Table, op: Operation, caller: Caller)
    requires TableOk(t) && Asker(op) != Some(caller)
    ensures LeavesAlone(t, SqlApply(t, op), caller, [op])
  {
    hide TableOk, SqlBegin, SqlCas, SqlPurge;
    match op {
      case FindOp(_, _) =>
      case GetOp(_, _) =>
      case BeginOp(rec) => OtherBegins(t, rec, caller);
      case CasOp(c, id, v, u) => OtherSwaps(t, c, id, v, u, caller);
      case PurgeOp(now, maximum) => PurgeSparesLive(t, now, maximum, caller);
    }
  }

  /**
   * Whatever other callers ask for, in any order and mixed with purges, a caller's routes are
   * the same afterwards, none is added, and only routes a purge found expired are gone.
   */
  lemma {:induction false} OthersLeaveAlone(t: Table, ops: seq<Operation>, caller: Caller)
    requires TableOk(t) && |t| <= MAX_STORED_ROUTES
    requires forall i | 0 <= i < |ops| :: Asker(ops[i]) != Some(caller)
    ensures LeavesAlone(t, SqlRun(t, ops), caller, ops)
    decreases |ops|
  {
    hide TableOk, SqlApply, Asker;
    if ops != [] {
      OtherStepLeavesAlone(t, ops[0], caller);
      ApplyKeepsTable(t, ops[0]);
      OthersLeaveAlone(SqlApply(t, ops[0]), ops[1..], caller);
      AloneTwice(t, SqlApply(t, ops[0]), SqlRun(t, ops), caller, ops);
    }
  }

  lemma AloneTwice(t: Table, t1: Table, t2: Table, caller: Caller, ops: seq<Operation>)
    requires ops != [] && LeavesAlone(t, t1, caller, [ops[0]]) && LeavesAlone(t1, t2, caller, ops[1..])
    ensures LeavesAlone(t, t2, caller, ops)
  {
    forall id | id in t && t[id].caller == caller && NeverPurged(ops, t[id].expires)
      ensures id in t2 && t2[id] == t[id]
    {
      assert NeverPurged([ops[0]], t[id].expires);
      assert NeverPurged(ops[1..], t[id].expires) by {
        forall i | 0 <= i < |ops[1..]| && ops[1..][i].PurgeOp?
          ensures ops[1..][i].now < t[id].expires
        {
          assert ops[1..][i] == ops[i + 1];
        }
      }
      assert id in t1 && t1[id] == t[id];
    }
  }
}
