/** The table of runs: accepting a plan once per caller and key, and advancing a run by compare-and-set. */
module RunTable {
  import opened Common
  import opened RunPlan
  import opened RunState
  import opened RunJournal

  type Runs = map<string, Record>

  predicate HasKey(r: Record, owner: Owner, runKey: string) {
    r.owner == owner && r.runKey == runKey
  }

  /** Rows sit under their id, every row is intact, and no caller uses a key twice. */
  predicate ValidRuns(runs: Runs) {
    && |runs| <= MAX_RUNS
    && (forall id | id in runs :: runs[id].runId == id && Intact(runs[id]))
    && (forall a, b | a in runs && b in runs && HasKey(runs[a], runs[b].owner, runs[b].runKey) :: a == b)
  }

  /** `b` is a later table: every run is still there under the same owner, key and plan, with a longer journal. */
  predicate RunsFollow(a: Runs, b: Runs) {
    forall id | id in a ::
      && id in b
      && b[id].owner == a[id].owner && b[id].runKey == a[id].runKey && b[id].planDigest == a[id].planDigest
      && a[id].journal <= b[id].journal
  }

  lemma RunsFollowTransitive(a: Runs, b: Runs, c: Runs)
    requires RunsFollow(a, b) && RunsFollow(b, c)
    ensures RunsFollow(a, c)
  {
    forall id | id in a
      ensures id in c && a[id].journal <= c[id].journal
    {
      var x, y, z := a[id].journal, b[id].journal, c[id].journal;
      assert y == z[..|y|];
      assert x == y[..|x|] == z[..|x|];
    }
  }

  /** The digest a client kept from an earlier answer still sits at its place in every later table. */
  lemma EarlierDigestStays(a: Runs, b: Runs, id: string)
    requires ValidRuns(a) && ValidRuns(b) && RunsFollow(a, b) && id in a
    ensures a[id].version <= b[id].version
    ensures b[id].version == a[id].version ==> b[id] == a[id]
  {
    hide Intact;
    IntactLength(a[id]);
    IntactLength(b[id]);
    if b[id].version == a[id].version {
      assert a[id].journal == b[id].journal;
      LastDigestDeterminesRecord(a[id], b[id]);
    }
  }

  lemma IntactLength(r: Record)
    requires Intact(r)
    ensures |r.journal| == r.version + 1 && r.data.plan == r.planDigest
  {
  }

  // ---- the two transactions as functions of the table ----

  ghost predicate HasRun(runs: Runs, owner: Owner, runKey: string) {
    exists id | id in runs :: HasKey(runs[id], owner, runKey)
  }

  ghost function RunOf(runs: Runs, owner: Owner, runKey: string): (id: string)
    requires HasRun(runs, owner, runKey)
    ensures id in runs && HasKey(runs[id], owner, runKey)
  {
    var id :| id in runs && HasKey(runs[id], owner, runKey);
    id
  }

  ghost function Begun(runs: Runs, owner: Owner, runKey: string, data: State, newId: string, bytes: nat): (Runs, Result<Record, string>) {
    if Utf8Length(runKey) == 0 || Utf8Length(runKey) > 128 then (runs, Err("GM_RUN_PLAN_INVALID"))
    else if HasRun(runs, owner, runKey) then
      var r := runs[RunOf(runs, owner, runKey)];
      (runs, if r.planDigest != data.plan then Err("GM_RUN_IDEMPOTENCY_CONFLICT") else Ok(r))
    else if |runs| >= MAX_RUNS then (runs, Err("GM_RUN_STORAGE_CAPACITY"))
    else
      match AcceptedRecord(newId, owner, runKey, data, bytes)
      case Err(e) => (runs, Err(e))
      case Ok(r) => if newId in runs then (runs, Err("GM_RUN_STORAGE")) else (runs[newId := r], Ok(r))
  }

  function Advanced(runs: Runs, seen: Record, data: State, kind: string, bytes: nat): (Runs, Result<Record, string>) {
    if seen.runId !in runs || runs[seen.runId].owner != seen.owner then (runs, Err("GM_RUN_NOT_FOUND"))
    else
      match Advance(runs[seen.runId], seen.version, data, kind, bytes)
      case Err(e) => (runs, Err(e))
      case Ok(r) => (runs[seen.runId := r], Ok(r))
  }

  lemma ExistingAnswers(runs: Runs, owner: Owner, runKey: string, data: State, newId: string, bytes: nat, id: string)
    requires ValidRuns(runs) && id in runs && HasKey(runs[id], owner, runKey)
    ensures Begun(runs, owner, runKey, data, newId, bytes).0 == runs
    ensures 0 < Utf8Length(runKey) <= 128 ==>
              Begun(runs, owner, runKey, data, newId, bytes).1
              == if runs[id].planDigest == data.plan then Ok(runs[id]) else Err("GM_RUN_IDEMPOTENCY_CONFLICT")
  {
    hide Intact, AcceptedRecord, Utf8Length;
    assert HasRun(runs, owner, runKey);
    assert RunOf(runs, owner, runKey) == id;
  }

  lemma FreshIsAdded(runs: Runs, owner: Owner, runKey: string, data: State, newId: string, bytes: nat)
    requires ValidRuns(runs) && !HasRun(runs, owner, runKey)
    ensures var (after, result) := Begun(runs, owner, runKey, data, newId, bytes);
      && (result.Ok? <==>
            && 0 < Utf8Length(runKey) <= 128 && |runs| < 128
            && data.plan.runKey == runKey && bytes <= 2_097_152 && newId !in runs)
      && (result.Err? ==> after == runs)
      && (result.Ok? ==>
            && after == runs[newId := result.value] && newId !in runs && |runs| < MAX_RUNS
            && result.value.runId == newId && HasKey(result.value, owner, runKey) && result.value.planDigest == data.plan
            && Intact(result.value))
  {
    hide Intact, AcceptedRecord, Utf8Length, HasRun, ValidRuns;
    AcceptedIsIntact(newId, owner, runKey, data, bytes);
  }

  lemma AddingKeepsValid(runs: Runs, r: Record)
    requires ValidRuns(runs) && r.runId !in runs && |runs| < MAX_RUNS && Intact(r) && !HasRun(runs, r.owner, r.runKey)
    ensures ValidRuns(runs[r.runId := r]) && RunsFollow(runs, runs[r.runId := r])
  {
    hide Intact;
    assert forall id | id in runs :: !HasKey(runs[id], r.owner, r.runKey);
  }

  /** Accepting the same plan again answers the run already there; another plan under the same key is a conflict. */
  lemma BegunOnce(runs: Runs, owner: Owner, runKey: string, data: State, newId: string, bytes: nat)
    requires ValidRuns(runs)
    ensures var (after, result) := Begun(runs, owner, runKey, data, newId, bytes);
      && ValidRuns(after) && RunsFollow(runs, after)
      && (result.Err? ==> after == runs)
      && (result.Ok? ==>
            && result.value.runId in after && after == runs[result.value.runId := result.value]
            && HasKey(result.value, owner, runKey) && result.value.planDigest == data.plan)
      && (forall id | id in runs && HasKey(runs[id], owner, runKey) && 0 < Utf8Length(runKey) <= 128 ::
            result == if runs[id].planDigest == data.plan then Ok(runs[id]) else Err("GM_RUN_IDEMPOTENCY_CONFLICT"))
      && (!HasRun(runs, owner, runKey) ==>
            (result.Ok? <==>
               && 0 < Utf8Length(runKey) <= 128 && |runs| < 128
               && data.plan.runKey == runKey && bytes <= 2_097_152 && newId !in runs))
  {
    hide Intact, Utf8Length, Begun, ValidRuns, RunsFollow;
    if HasRun(runs, owner, runKey) {
      forall id | id in runs && HasKey(runs[id], owner, runKey)
        ensures Begun(runs, owner, runKey, data, newId, bytes).0 == runs
        ensures 0 < Utf8Length(runKey) <= 128 ==>
                  Begun(runs, owner, runKey, data, newId, bytes).1
                  == if runs[id].planDigest == data.plan then Ok(runs[id]) else Err("GM_RUN_IDEMPOTENCY_CONFLICT")
      {
        ExistingAnswers(runs, owner, runKey, data, newId, bytes, id);
      }
      RunsFollowReflexive(runs);
      ExistingIsStored(runs, owner, runKey, data, newId, bytes);
    } else {
      assert forall id | id in runs :: !HasKey(runs[id], owner, runKey);
      FreshIsAdded(runs, owner, runKey, data, newId, bytes);
      if Begun(runs, owner, runKey, data, newId, bytes).1.Ok? {
        AddingKeepsValid(runs, Begun(runs, owner, runKey, data, newId, bytes).1.value);
      } else {
        RunsFollowReflexive(runs);
      }
    }
  }

  lemma ExistingIsStored(runs: Runs, owner: Owner, runKey: string, data: State, newId: string, bytes: nat)
    requires ValidRuns(runs) && HasRun(runs, owner, runKey)
    ensures var (after, result) := Begun(runs, owner, runKey, data, newId, bytes);
      && after == runs
      && (result.Ok? ==>
            && result.value.runId in runs && runs[result.value.runId] == result.value && after == runs[result.value.runId := result.value]
            && HasKey(result.value, owner, runKey) && result.value.planDigest == data.plan)
  {
    hide Intact, AcceptedRecord, Utf8Length;
  }

  /** A stale save changes nothing; a current one adds exactly one event to exactly one run. */
  lemma AdvancedOne(runs: Runs, seen: Record, data: State, kind: string, bytes: nat)
    requires ValidRuns(runs)
    ensures var (after, result) := Advanced(runs, seen, data, kind, bytes);
      && ValidRuns(after) && RunsFollow(runs, after)
      && (result.Err? ==> after == runs)
      && (result.Ok? <==>
            && seen.runId in runs && runs[seen.runId].owner == seen.owner
            && runs[seen.runId].version == seen.version && data.plan == runs[seen.runId].data.plan
            && seen.version < MAX_VERSION && Utf8Length(kind) <= 128 && bytes <= MAX_DOCUMENT_BYTES)
      && (result.Ok? ==>
            && after == runs[seen.runId := result.value] && result.value.data == data
            && result.value.version == seen.version + 1
            && |result.value.journal| == |runs[seen.runId].journal| + 1 && runs[seen.runId].journal <= result.value.journal)
  {
    hide Intact, Advance, Utf8Length;
    if seen.runId in runs && runs[seen.runId].owner == seen.owner {
      AdvanceExtends(runs[seen.runId], seen.version, data, kind, bytes);
    }
  }

  // ---- sequences of operations ----

  datatype Operation =
    | BeginOp(owner: Owner, runKey: string, data: State, newId: string, bytes: nat)
    | AdvanceOp(seen: Record, data: State, kind: string, bytes: nat)

  ghost function After(runs: Runs, op: Operation): Runs {
    match op
    case BeginOp(owner, runKey, data, newId, bytes) => Begun(runs, owner, runKey, data, newId, bytes).0
    case AdvanceOp(seen, data, kind, bytes) => Advanced(runs, seen, data, kind, bytes).0
  }

  ghost function AfterAll(runs: Runs, ops: seq<Operation>): Runs {
    if ops == [] then runs else After(AfterAll(runs, ops[..|ops| - 1]), ops[|ops| - 1])
  }

  /** Over any sequence of operations the table stays valid, and every run keeps its owner, key and plan and only extends its journal. */
  lemma {:induction false} OperationsOnlyExtend(runs: Runs, ops: seq<Operation>)
    requires ValidRuns(runs)
    ensures ValidRuns(AfterAll(runs, ops)) && RunsFollow(runs, AfterAll(runs, ops))
  {
    hide ValidRuns, RunsFollow, Begun, Advanced;
    if ops == [] {
      RunsFollowReflexive(runs);
    } else {
      var before := AfterAll(runs, ops[..|ops| - 1]);
      OperationsOnlyExtend(runs, ops[..|ops| - 1]);
      match ops[|ops| - 1] {
        case BeginOp(owner, runKey, data, newId, bytes) => BegunOnce(before, owner, runKey, data, newId, bytes);
        case AdvanceOp(seen, data, kind, bytes) => AdvancedOne(before, seen, data, kind, bytes);
      }
      RunsFollowTransitive(runs, before, AfterAll(runs, ops));
    }
  }

  lemma RunsFollowReflexive(runs: Runs)
    ensures RunsFollow(runs, runs)
  {
  }

  class RunStore {
    var runs: Runs

    constructor ()
      ensures runs == map[] && ValidRuns(runs)
    {
      runs := map[];
    }

    method BeginRun(owner: Owner, runKey: string, data: State, newId: string, bytes: nat) returns (result: Result<Record, string>)
      requires ValidRuns(runs)
      modifies this
      ensures ValidRuns(runs) && (runs, result) == Begun(old(runs), owner, runKey, data, newId, bytes)
    {
      hide Intact, AcceptedRecord, Utf8Length;
      BegunOnce(runs, owner, runKey, data, newId, bytes);
      if Utf8Length(runKey) == 0 || Utf8Length(runKey) > 128 {
        return Err("GM_RUN_PLAN_INVALID");
      }
      if id :| id in runs && HasKey(runs[id], owner, runKey) {
        if runs[id].planDigest != data.plan {
          return Err("GM_RUN_IDEMPOTENCY_CONFLICT");
        }
        return Ok(runs[id]);
      }
      if |runs| >= MAX_RUNS {
        return Err("GM_RUN_STORAGE_CAPACITY");
      }
      var accepted := AcceptedRecord(newId, owner, runKey, data, bytes);
      if accepted.Err? {
        return accepted;
      }
      if newId in runs {
        return Err("GM_RUN_STORAGE");
      }
      runs := runs[newId := accepted.value];
      return accepted;
    }

    method AdvanceRun(seen: Record, data: State, kind: string, bytes: nat) returns (result: Result<Record, string>)
      requires ValidRuns(runs)
      modifies this
      ensures ValidRuns(runs) && (runs, result) == Advanced(old(runs), seen, data, kind, bytes)
    {
      hide Intact, Advance, Utf8Length;
      AdvancedOne(runs, seen, data, kind, bytes);
      if seen.runId !in runs || runs[seen.runId].owner != seen.owner {
        return Err("GM_RUN_NOT_FOUND");
      }
      result := Advance(runs[seen.runId], seen.version, data, kind, bytes);
      if result.Ok? {
        runs := runs[seen.runId := result.value];
      }
    }
  }
}
