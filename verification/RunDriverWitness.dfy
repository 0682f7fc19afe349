/**
 * One concrete run, step by step: a plan that admission accepts, a driver that submits its only
 * step as new work, and a cancel request that is saved before the submission goes out.
 */
module RunDriverWitness {
  import opened Common
  import opened JsonPointer
  import opened RunPlan
  import opened RunState
  import opened RunJournal
  import opened RunDriver
  import opened RunDriverSafety

  const OnlyCheck := Check("/ok", Bool(true), true)

  function OnlyPolicy(): Policy {
    Policy(POLICY_SCHEMA, [OnlyCheck], 100)
  }

  function OnlyStep(): Step {
    Step("s", [], "a", Null, "v", map[], 2, ArgumentsDigest(map[]), OnlyPolicy(), PolicyDigest(OnlyPolicy()), NonIdempotentWrite, 1, 1)
  }

  function OnlyPlan(): Plan {
    Plan(PLAN_SCHEMA, "k", 1_000, 1, 1, "fail_fast_account_inflight", "stop_no_replay", "intent_then_poll", "/", [OnlyStep()])
  }

  lemma OnlyStepIsFine()
    ensures StepError(OnlyPlan(), OnlyStep()).None?
  {
    var p, s := OnlyPlan(), OnlyStep();
    assert p.steps == [s];
    AsciiLength("a");
    AsciiLength("/ok");
    assert IdentifierChar('s');
    assert Identifier(s.id);
    assert PointerValid("/ok");
    assert PolicyOk(s) by {
      assert s.policy.checks[0] == OnlyCheck;
    }
    assert Dependents(p, s.id) == {};
    assert EdgesOk(p, s) && ReferencesOk(s);
  }

  lemma OnlyPlanIsStructured()
    ensures StructureError(OnlyPlan(), 0).None?
  {
    var p := OnlyPlan();
    OnlyStepIsFine();
    assert IdentifierChar('k');
    assert Identifier(p.runKey);
    hide StepError, OnlyStep;
    assert p.steps[0] == OnlyStep() && StepsError(p, 1).None?;
    assert StepsError(p, 0).None?;
  }

  lemma OnlyPlanIsAcyclic()
    ensures Acyclic(OnlyPlan())
  {
    RankedIsAcyclic(OnlyPlan(), map["s" := 0]);
  }

  lemma OnlyPlanDeclares()
    ensures ReferencesDeclared(OnlyPlan())
  {
    NothingToDeclare(OnlyPlan());
  }

  lemma NothingToDeclare(p: Plan)
    requires forall k | 0 <= k < |p.steps| :: p.steps[k].arguments == map[]
    ensures ReferencesDeclared(p)
  {
    var none: Arguments := map[];
    forall k | 0 <= k < |p.steps|
      ensures HasSample(p, p.steps[k])
    {
      assert SampleArguments(p, p.steps[k], none);
    }
  }

  /** Admission accepts this plan at time zero. */
  lemma OnlyPlanIsValid()
    ensures ValidPlan(OnlyPlan(), 0)
  {
    hide StructureError, Acyclic;
    OnlyPlanIsStructured();
    OnlyPlanIsAcyclic();
  }

  // ---- the run ----

  function Fresh(): State {
    InitialState(OnlyPlan(), 0)
  }

  lemma FreshFacts()
    ensures Fresh().plan == OnlyPlan() && |OnlyPlan().steps| == 1 && OnlyPlan().steps[0] == OnlyStep() && OnlyStep().id == "s"
    ensures "s" in Fresh().steps && Fresh().steps["s"] == FreshStep && FreshStep.phase.Pending?
    ensures !Stopped(Fresh()) && Tracked(Fresh()) && ActiveSteps(Fresh()) == {}
    ensures !Fresh().cancelRequested && !Fresh().deadlineObserved && Fresh().plan.deadline == 1_000 && Fresh().plan.maxConcurrency == 1
  {
    assert OnlyPlan().steps[0].id == "s";
    assert "s" in Ids(OnlyPlan());
  }

  lemma FreshReloads()
    ensures Good(Fresh()) && Reloads(Fresh())
  {
    hide Good, Reloads;
    OnlyPlanIsValid();
    InitialStateIsGood(OnlyPlan(), 0);
    GoodReloads(Fresh());
  }

  const Calm: Env := Env(true, true, None, Accepted("t", false), GetError(""), None, 0)

  function StartRecord(): Result<Record, string> {
    AcceptedRecord("r", Owner("p", "t"), "k", Fresh(), 0)
  }

  ghost predicate Started0(w: World) {
    StartRecord().Ok? && w == World(0, StartRecord().value, [Fresh()], map[], [])
  }

  lemma StartIsExecution() returns (run: seq<World>)
    ensures |run| == 1 && Execution(run) && Started0(run[0])
  {
    hide ValidPlan, AcceptedRecord, Intact;
    OnlyPlanIsValid();
    AcceptedIsIntact("r", Owner("p", "t"), "k", Fresh(), 0);
    var w := World(0, StartRecord().value, [Fresh()], map[], []);
    assert OnlyPlan().runKey == "k";
    assert Init(w);
    run := [w];
  }

  function Last(run: seq<World>): World
    requires run != []
  {
    run[|run| - 1]
  }

  /** One more step of an execution. */
  lemma Extend(run: seq<World>, a: Action) returns (longer: seq<World>)
    requires run != [] && Execution(run) && Enabled(Last(run), a)
    ensures Execution(longer) && longer != [] && Last(longer) == Next(Last(run), a)
  {
    hide Init, Next, Enabled;
    longer := run + [Next(Last(run), a)];
    forall k | 0 < k < |longer|
      ensures Steps(longer[k - 1], longer[k])
    {
      if k < |run| {
        assert Steps(run[k - 1], run[k]);
      } else {
        assert longer[k - 1] == Last(run);
      }
    }
  }

  /** The places a sweep passes through while its only step is pending. */
  function QuietNext(pc: Pc): Pc {
    match pc
    case Starting => ObservingDeadline
    case ObservingDeadline => Reverifying(0)
    case Reverifying(i) => if i == 0 then Reverifying(1) else Recovering(0)
    case Recovering(i) => if i == 0 then Recovering(1) else Polling(0, false)
    case Polling(i, observed) => if i == 0 then Polling(1, observed) else Stopping(observed)
    case Stopping(_) => Dispatching(0)
    case _ => pc
  }

  predicate Quiet(pc: Pc) {
    || pc.Starting? || pc.ObservingDeadline? || (pc.Reverifying? && pc.i <= 1) || (pc.Recovering? && pc.i <= 1)
    || (pc.Polling? && pc.i <= 1 && !pc.observed) || pc == Stopping(false)
  }

  /** Driver 0 is alone in the accepted run and nothing has been saved since. */
  ghost predicate Sweeping(w: World, pc: Pc) {
    && StartRecord().Ok? && w == World(0, StartRecord().value, [Fresh()], map[0 := Driver(0, pc, {})], [])
  }

  lemma QuietStep(w: World, pc: Pc)
    requires Sweeping(w, pc) && Quiet(pc)
    ensures Enabled(w, Run(0, Calm)) && Sweeping(Next(w, Run(0, Calm)), QuietNext(pc))
  {
    FreshFacts();
    FreshReloads();
    OnlyPlanDeclares();
    hide Fresh, Reloads, Good, ReferencesDeclared, OnlyPlan, OnlyStep, Stopped, Tracked, StartRecord, ActiveSteps, SkipPending, VerifyStep;
    assert w.saved[0] == Fresh();
    assert Next(w, Run(0, Calm)) == Goto(w, 0, QuietNext(pc));
  }

  lemma {:induction false} QuietSteps(run: seq<World>, pc: Pc, n: nat) returns (longer: seq<World>)
    requires run != [] && Execution(run) && Sweeping(Last(run), pc)
    requires forall k | 0 <= k < n :: Quiet(After(pc, k))
    ensures Execution(longer) && longer != [] && Sweeping(Last(longer), After(pc, n))
  {
    hide Execution, Sweeping, Next, Enabled, QuietNext, Quiet;
    AfterUnfolds(pc, n);
    hide After;
    if n == 0 {
      longer := run;
    } else {
      longer := QuietSteps(run, pc, n - 1);
      assert Quiet(After(pc, n - 1));
      QuietStep(Last(longer), After(pc, n - 1));
      longer := Extend(longer, Run(0, Calm));
    }
  }

  function After(pc: Pc, n: nat): Pc {
    if n == 0 then pc else QuietNext(After(pc, n - 1))
  }

  lemma AfterUnfolds(pc: Pc, n: nat)
    ensures After(pc, n) == if n == 0 then pc else QuietNext(After(pc, n - 1))
  {
  }

  lemma SweepReachesDispatch()
    ensures After(Starting, 9) == Dispatching(0) && forall k | 0 <= k < 9 :: Quiet(After(Starting, k))
  {
    var a := Starting;
    assert After(a, 0) == Starting;
    assert After(a, 1) == ObservingDeadline;
    assert After(a, 2) == Reverifying(0);
    assert After(a, 3) == Reverifying(1);
    assert After(a, 4) == Recovering(0);
    assert After(a, 5) == Recovering(1);
    assert After(a, 6) == Polling(0, false);
    assert After(a, 7) == Polling(1, false);
    assert After(a, 8) == Stopping(false);
    assert After(a, 9) == Dispatching(0);
    hide After;
    forall k | 0 <= k < 9
      ensures Quiet(After(a, k))
    {
      assert k == 0 || k == 1 || k == 2 || k == 3 || k == 4 || k == 5 || k == 6 || k == 7 || k == 8;
    }
  }

  /** The dispatch makes the intent durable and leaves the driver about to call. */
  lemma DispatchSaves(w: World)
    requires Sweeping(w, Dispatching(0))
    ensures Enabled(w, Run(0, Calm))
    ensures var after := Next(w, Run(0, Calm));
      && after.record.version == 1 && after.sent == []
      && after.drivers == map[0 := Driver(1, Sending(0, false), {})]
  {
    hide Fresh, OnlyPlan, OnlyStep, StartRecord, Advance, StepDispatching, SubmissionFor, Tracked, Stopped, Next, Intent;
    FreshFacts();
    IntentLands(w);
    DispatchIs(w);
    RunUnfolds(w, 0, Calm);
    IntentPlan(w);
  }

  function Intent(w: World): State {
    SetStep(Fresh(), "s", WithIntent(FreshStep, map[], SubmissionFor(w.record.runId, OnlyPlan(), OnlyStep(), map[], 0)))
  }

  lemma IntentPlan(w: World)
    ensures Intent(w).plan == Fresh().plan
  {
  }

  lemma DispatchIs(w: World)
    requires Sweeping(w, Dispatching(0))
    ensures Tracked(Fresh())
    ensures StepDispatching(w, 0, Fresh(), 0, Calm) == Save(w, 0, Intent(w), "task_submission_intent", 0, Sending(0, false))
  {
    hide Fresh, ReferencesDeclared, OnlyPlan, OnlyStep, Stopped, Tracked, StartRecord, ActiveSteps, Save, ResolveInputs, SubmissionFor, Ready;
    FreshFacts();
    OnlyPlanDeclares();
    DispatchFacts();
  }

  lemma DispatchFacts()
    ensures ResolveInputs(OnlyStep(), Fresh()) == Some(map[]) && Ready(Fresh(), OnlyStep())
  {
    FreshFacts();
    assert OnlyStep().arguments == map[] && OnlyStep().dependsOn == [];
  }

  lemma IntentLands(w: World)
    requires Sweeping(w, Dispatching(0))
    ensures w.record.version == 0
    ensures forall data: State | data.plan == Fresh().plan ::
              var r := Advance(w.record, 0, data, "task_submission_intent", 0); r.Ok? && r.value.version == 1
  {
    hide AcceptedRecord, Intact, Advance, Utf8Length, Fresh;
    AcceptedIsIntact("r", Owner("p", "t"), "k", Fresh(), 0);
    AsciiLength("task_submission_intent");
    forall data: State | data.plan == Fresh().plan
      ensures Advance(w.record, 0, data, "task_submission_intent", 0).Ok?
      ensures Advance(w.record, 0, data, "task_submission_intent", 0).value.version == 1
    {
      AdvanceExtends(w.record, 0, data, "task_submission_intent", 0);
    }
  }

  lemma SweepStarts() returns (run: seq<World>)
    ensures Execution(run) && run != [] && Sweeping(Last(run), Starting)
  {
    hide Execution, StartRecord, Fresh;
    run := StartIsExecution();
    StartsAtZero();
    run := Extend(run, Resume(0));
  }

  /** Some execution reaches a driver that is about to send its only step as new work. */
  lemma SendIsReached() returns (run: seq<World>)
    ensures Execution(run) && run != []
    ensures Last(run).record.version == 1 && Last(run).sent == [] && Last(run).drivers == map[0 := Driver(1, Sending(0, false), {})]
  {
    hide Execution, Sweeping, Next, Enabled, Quiet, QuietNext, After;
    run := SweepStarts();
    SweepReachesDispatch();
    run := QuietSteps(run, Starting, 9);
    DispatchSaves(Last(run));
    run := Extend(run, Run(0, Calm));
  }

  lemma CancelArrives(run: seq<World>) returns (longer: seq<World>)
    requires Execution(run) && run != [] && 1 !in Last(run).drivers
    ensures Execution(longer) && longer != []
    ensures Last(longer) == Last(run).(drivers := Last(run).drivers[1 := Driver(Last(run).record.version, RequestingCancel, {})])
  {
    hide Execution;
    longer := Extend(run, Cancel(1));
  }

  /** There is an execution in which new work goes out although the stored run is already cancelled. */
  lemma CancelledRunStillSends() returns (run: seq<World>)
    ensures Execution(run) && run != []
    ensures |Last(run).sent| == 1 && !Last(run).sent[0].recoveryOnly && Last(run).record.data.cancelRequested
  {
    hide Execution, Inv, Next, Enabled;
    run := SendIsReached();
    run := CancelArrives(run);
    ExecutionKeepsInv(run, |run| - 1);
    var cancelled, after := CancelCanOvertakeSend(Last(run), 0, 1, Calm);
    run := Extend(run, Run(1, Calm));
    run := Extend(run, Run(0, Calm));
  }

  lemma StartsAtZero()
    ensures StartRecord().Ok? ==> StartRecord().value.version == 0
  {
    hide AcceptedRecord, Intact;
    AcceptedIsIntact("r", Owner("p", "t"), "k", Fresh(), 0);
  }
}
