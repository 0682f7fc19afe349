/**
 * What a sweep records: every report of the provider, every reply of the task route and every
 * failed re-reading becomes the saved state it stands for, and a recorded failure ends new work.
 */
module RunDriverOutcomes {
  import opened Common
  import opened JsonPointer
  import opened RunPlan
  import opened RunState
  import opened RunJournal
  import opened RunDriver
  import opened RunDriverSafety

  /** The driver is up to date and its save keeps within the bounds of a stored run. */
  predicate CanSave(w: World, t: nat, env: Env) {
    t in w.drivers && w.drivers[t].version == w.record.version && w.record.version < 512 && env.bytes <= 2_097_152
  }

  /** The save went through: it is the next version, and the driver has it. */
  predicate Landed(w: World, w': World, t: nat) {
    && w'.record.version == w.record.version + 1
    && w'.saved == w.saved + [w'.record.data]
    && t in w'.drivers && w'.drivers[t].version == w'.record.version
    && w'.sent == w.sent
  }

  /** Only this step of the run is different. */
  predicate OnlyStep(a: State, b: State, id: string) {
    && id in a.steps && b == a.(steps := b.steps) && b.steps.Keys == a.steps.Keys
    && forall x | x in a.steps && x != id :: b.steps[x] == a.steps[x]
  }

  lemma SaveLands(w: World, t: nat, data: State, kind: string, env: Env, pc: Pc)
    requires Inv(w) && CanSave(w, t, env) && data.plan == w.record.data.plan && forall i | 0 <= i < |kind| :: kind[i] as int < 0x80
    requires |kind| <= 128
    ensures var w' := Save(w, t, data, kind, env.bytes, pc);
      && Landed(w, w', t) && w'.record.data == data && w'.drivers[t].pc == pc && w'.record.runId == w.record.runId
  {
    hide Inv, Intact, Append;
    IntactOf(w);
    AsciiLength(kind);
    AdvanceExtends(w.record, w.record.version, data, kind, env.bytes);
  }

  /** The state an up to date driver works from is the stored one. */
  lemma CurrentState(w: World, t: nat)
    requires Inv(w) && t in w.drivers && !w.drivers[t].pc.Done? && w.drivers[t].version == w.record.version
    ensures |w.saved| == w.record.version + 1 && w.saved[w.drivers[t].version] == w.record.data
    ensures Good(w.record.data) && Tracked(w.record.data) && PcGood(w.record.data, w.drivers[t])
  {
    hide Inv, Good, Tracked, PcGood;
    SavedHeadOf(w);
    DriverKnows(w, t);
  }

  lemma SweepUnfolds(w: World, t: nat, env: Env)
    requires t in w.drivers && w.drivers[t].version < |w.saved| && Tracked(w.saved[w.drivers[t].version])
    ensures var state := w.saved[w.drivers[t].version];
      match w.drivers[t].pc
      case ObservingDeadline => Next(w, Run(t, env)) == StepObservingDeadline(w, t, state, env)
      case Reverifying(i) => Next(w, Run(t, env)) == StepReverifying(w, t, state, i, env)
      case Polling(i, observed) => Next(w, Run(t, env)) == StepPolling(w, t, state, i, observed, env)
      case Cancelling(i, observed) => Next(w, Run(t, env)) == StepCancelling(w, t, state, i, observed, env)
      case Querying(i, observed) => Next(w, Run(t, env)) == StepQuerying(w, t, state, i, observed, env)
      case Stopping(observed) => Next(w, Run(t, env)) == StepStopping(w, t, state, observed, env)
      case _ => true
  {
    hide Tracked, StepStarting, StepObservingDeadline, StepReverifying, StepRecovering, StepSending,
      StepAwaitingTask, StepPolling, StepCancelling, StepQuerying, StepStopping, StepDispatching, StepRequestingCancel;
  }

  // ---- what the provider reports ----

  function Status(value: Json): Json {
    At(value, "status")
  }

  /** The report says that the task route itself does not know what became of the task. */
  predicate Undecided(value: Json) {
    At(At(At(value, "_meta"), "dev.gaugemesh/taskRoute"), "routePhase") == Str("reconciliation_required")
  }

  /** A completed report is good: its artifact is proven, unchanged, and passes every required check. */
  predicate ReportVerifies(runId: string, plan: Plan, step: Step, s: StepState, value: Json, file: Option<File>) {
    && At(At(value, "result"), "isError") != Bool(true)
    && Proven(runId, plan, step, s.(terminal := Some(value)), file)
    && (s.verifiedArtifact.Some? ==> s.verifiedArtifact == file.value.json)
    && RequiredPass(step.policy, file.value.json.value)
  }

  /** What a report makes of a step. */
  predicate Reflects(runId: string, plan: Plan, step: Step, s: StepState, s': StepState, value: Json, file: Option<File>) {
    && s'.terminal == Some(value)
    && (s'.phase.Unknown? ==> s'.diagnostic == Some("GM_RUN_TASK_RECONCILIATION_REQUIRED"))
    && s' == s.(phase := s'.phase, terminal := s'.terminal, diagnostic := s'.diagnostic,
                verifiedArtifact := s'.verifiedArtifact, verification := s'.verification)
    && (Undecided(value) ==> s'.phase.Unknown?)
    && (!Undecided(value) && Status(value) == Str("failed") ==> s'.phase.Failed?)
    && (!Undecided(value) && Status(value) == Str("cancelled") ==> s'.phase.Cancelled?)
    && (!Undecided(value) && Status(value) == Str("completed") ==>
          if ReportVerifies(runId, plan, step, s, value, file)
          then s'.phase.Verified? && s'.verifiedArtifact == file.value.json
          else s'.phase.Failed? && s'.verifiedArtifact == s.verifiedArtifact)
  }

  /** The report says something that a run records. */
  predicate Decisive(value: Json) {
    Undecided(value) || Status(value) in {Str("failed"), Str("cancelled"), Str("completed")}
  }

  /** Reports that nothing is known, that it failed, or that it was cancelled. */
  lemma PlainReportChangesStep(runId: string, plan: Plan, step: Step, s: StepState, value: Json, file: Option<File>)
    requires Undecided(value) || Status(value) != Str("completed")
    ensures var r := AfterGet(runId, plan, step, s, GetValue(value), file);
      && (!Decisive(value) ==> r.None?)
      && (Decisive(value) && r.None? ==> s.phase.Unknown? && s.terminal == Some(value) && Undecided(value))
      && (r.Some? ==> Reflects(runId, plan, step, s, r.value, value, file))
  {
    hide VerifyStep, ReportVerifies, At;
  }

  lemma CompletionChangesStep(runId: string, plan: Plan, step: Step, s: StepState, value: Json, file: Option<File>)
    requires !Undecided(value) && Status(value) == Str("completed")
    ensures var r := AfterGet(runId, plan, step, s, GetValue(value), file);
      r.Some? && Reflects(runId, plan, step, s, r.value, value, file)
  {
    hide VerifyStep, At, ReportVerifies, Undecided;
    CompletionMeans(runId, plan, step, s, value, file);
    ReconcilingIs(value);
  }

  lemma ReconcilingIs(value: Json)
    ensures Reconciling(value) <==> Undecided(value)
  {
    hide At;
  }

  lemma CompletionMeans(runId: string, plan: Plan, step: Step, s: StepState, value: Json, file: Option<File>)
    requires Status(value) == Str("completed")
    ensures var r := VerifyStep(runId, plan, step, s.(terminal := Some(value)), file);
      && (r.Ok? <==> ReportVerifies(runId, plan, step, s, value, file))
      && (r.Ok? ==> file.Some? && file.value.json == Some(r.value.0))
  {
    VerifyStepAccepts(runId, plan, step, s.(terminal := Some(value)), file);
    hide VerifyStep, RequiredPass, At, Report, BindingOk;
  }

  lemma ReportChangesStep(runId: string, plan: Plan, step: Step, s: StepState, value: Json, file: Option<File>)
    ensures var r := AfterGet(runId, plan, step, s, GetValue(value), file);
      && (!Decisive(value) ==> r.None?)
      && (Decisive(value) && r.None? ==> s.phase.Unknown? && s.terminal == Some(value) && Undecided(value))
      && (r.Some? ==> Reflects(runId, plan, step, s, r.value, value, file))
  {
    hide AfterGet, Reflects, At, Undecided;
    if !Undecided(value) && Status(value) == Str("completed") {
      CompletionChangesStep(runId, plan, step, s, value, file);
    } else {
      PlainReportChangesStep(runId, plan, step, s, value, file);
    }
  }

  /**
   * A report that a sweep reads becomes the saved state of its step: failed, cancelled or unknown
   * as reported, and on completion verified exactly when the artifact is proven and passes, else
   * failed. Any other report changes nothing, and no other step is touched.
   */
  lemma ReportIsRecorded(run: seq<World>, k: nat, t: nat, env: Env, value: Json, w': World)
    requires Execution(run) && k < |run| && RunsTo(run[k], t, env, w') && CanSave(run[k], t, env) && run[k].drivers[t].pc.Querying? && env.get == GetValue(value)
    ensures var w := run[k];
      var i := w.drivers[t].pc.i;
      && i < |w.record.data.plan.steps| && t in w'.drivers
      && var step := w.record.data.plan.steps[i];
      && OnlyStep(w.record.data, w'.record.data, step.id)
      && (if Decisive(value)
          then Reflects(w.record.runId, w.record.data.plan, step, w.record.data.steps[step.id], w'.record.data.steps[step.id], value, env.file)
                 || (Undecided(value) && w.record.data.steps[step.id].phase.Unknown? && w'.record == w.record)
          else w'.record == w.record)
      && (w'.record == w.record || Landed(w, w', t))
      && w'.drivers[t].pc == Polling(i + 1, w.drivers[t].pc.observed || w'.record != w.record)
  {
    hide Execution, Inv, Good, Tracked, PcGood, Save, AfterGet, Reflects, Decisive, Undecided, Next, Intact;
    ExecutionKeepsInv(run, k);
    var w, i := run[k], run[k].drivers[t].pc.i;
    CurrentState(w, t);
    QueryingKnows(w, t);
    SweepUnfolds(w, t, env);
    var step := w.record.data.plan.steps[i];
    var s := w.record.data.steps[step.id];
    ReportChangesStep(w.record.runId, w.record.data.plan, step, s, value, env.file);
    var r := AfterGet(w.record.runId, w.record.data.plan, step, s, GetValue(value), env.file);
    if r.Some? {
      SaveLands(w, t, SetStep(w.record.data, step.id, r.value), "task_outcome_observed", env, Polling(i + 1, true));
    }
  }

  lemma QueryingKnows(w: World, t: nat)
    requires t in w.drivers && PcGood(w.record.data, w.drivers[t])
    ensures w.drivers[t].pc.Querying? || w.drivers[t].pc.Cancelling? || w.drivers[t].pc.AwaitingTask? ==>
              var i := w.drivers[t].pc.i;
              i < |w.record.data.plan.steps| && w.record.data.plan.steps[i].id in w.record.data.steps
  {
    hide AllReverified, Stopped;
  }

  /** When the status of a task cannot be read its step is recorded as unknown. */
  lemma UnreadStatusIsRecorded(run: seq<World>, k: nat, t: nat, env: Env, text: string, w': World)
    requires Execution(run) && k < |run| && RunsTo(run[k], t, env, w') && CanSave(run[k], t, env) && run[k].drivers[t].pc.Querying? && env.get == GetError(text)
    ensures var w := run[k];
      var i := w.drivers[t].pc.i;
      && i < |w.record.data.plan.steps|
      && var id := w.record.data.plan.steps[i].id;
      && OnlyStep(w.record.data, w'.record.data, id)
      && w'.record.data.steps[id] == w.record.data.steps[id].(phase := Phase.Unknown, diagnostic := Some(text))
  {
    hide Execution, Inv, Good, Tracked, PcGood, Save, Next, Landed;
    ExecutionKeepsInv(run, k);
    var w, i := run[k], run[k].drivers[t].pc.i;
    CurrentState(w, t);
    QueryingKnows(w, t);
    SweepUnfolds(w, t, env);
    var step := w.record.data.plan.steps[i];
    var r := AfterGet(w.record.runId, w.record.data.plan, step, w.record.data.steps[step.id], GetError(text), env.file);
    if r.Some? {
      SaveLands(w, t, SetStep(w.record.data, step.id, r.value), "task_outcome_observed", env, Polling(i + 1, true));
    }
  }

  // ---- what the task route answers ----

  /**
   * The answer to a submission is recorded: a task id with the step routed, or unknown when the
   * route is being reconciled; and a step whose submission may or may not have arrived is unknown,
   * never pending again.
   */
  lemma AnswerIsRecorded(run: seq<World>, k: nat, t: nat, env: Env, w': World)
    requires Execution(run) && k < |run| && RunsTo(run[k], t, env, w') && CanSave(run[k], t, env) && run[k].drivers[t].pc.AwaitingTask?
    ensures var w := run[k];
      var i := w.drivers[t].pc.i;
      && i < |w.record.data.plan.steps| && Landed(w, w', t)
      && var id := w.record.data.plan.steps[i].id;
      && OnlyStep(w.record.data, w'.record.data, id)
      && var s, s' := w.record.data.steps[id], w'.record.data.steps[id];
      && s' == s.(phase := s'.phase, taskId := s'.taskId, diagnostic := s'.diagnostic)
      && match env.submit
         case Accepted(task, false) => s'.phase.Routed? && s'.taskId == Some(task)
         case Accepted(task, true) => s'.phase.Unknown? && s'.taskId == Some(task)
         case Uncertain(text) =>
           s'.phase.Unknown? && s'.taskId == s.taskId && s'.diagnostic == Some("GM_RUN_SUBMISSION_UNCERTAIN:" + text)
  {
    hide Execution, Inv, Good, Tracked, PcGood, Save, Next, Landed, AnyBlocks;
    ExecutionKeepsInv(run, k);
    var w, i, recovering := run[k], run[k].drivers[t].pc.i, run[k].drivers[t].pc.recovering;
    CurrentState(w, t);
    QueryingKnows(w, t);
    RunUnfolds(w, t, env);
    var id := w.record.data.plan.steps[i].id;
    var next := SetStep(w.record.data, id, AfterSubmit(w.record.data.steps[id], env.submit));
    var after := if recovering then Recovering(i + 1) else if AnyBlocks(next) then Done else Dispatching(i + 1);
    SaveLands(w, t, next, "task_identity_observed", env, after);
  }

  // ---- what a sweep finds ----

  /** What is stored of a verified step still proves it. */
  predicate StillVerifies(runId: string, plan: Plan, step: Step, s: StepState, file: Option<File>) {
    && s.terminal.Some? && Status(s.terminal.value) == Str("completed")
    && ReportVerifies(runId, plan, step, s, s.terminal.value, file)
  }

  lemma VerifiesStill(runId: string, plan: Plan, step: Step, s: StepState, file: Option<File>)
    ensures VerifyStep(runId, plan, step, s, file).Ok? <==> StillVerifies(runId, plan, step, s, file)
  {
    VerifyStepAccepts(runId, plan, step, s, file);
    assert s.terminal.Some? ==> s.(terminal := Some(s.terminal.value)) == s;
    hide VerifyStep, Proven, RequiredPass, At;
  }

  /** What re-reading the artifact of a verified step leads to. */
  predicate Reread(w: World, w': World, t: nat, step: Step, s: StepState, holds: bool) {
    && t in w.drivers && t in w'.drivers && step.id in w'.record.data.steps
    && if holds then w'.record == w.record && w'.drivers[t].reverified == w.drivers[t].reverified + {step.id}
       else
         && Landed(w, w', t) && w'.drivers[t].reverified == w.drivers[t].reverified
         && w'.record.data.steps[step.id] == s.(phase := Phase.Failed, diagnostic := w'.record.data.steps[step.id].diagnostic)
  }

  /** A verified step whose artifact no longer verifies is recorded as failed; only one that does counts as read again. */
  lemma LostArtifactIsRecorded(run: seq<World>, k: nat, t: nat, env: Env, w': World)
    requires Execution(run) && k < |run| && RunsTo(run[k], t, env, w') && CanSave(run[k], t, env) && run[k].drivers[t].pc.Reverifying?
    requires var w, i := run[k], run[k].drivers[t].pc.i;
      && i < |w.record.data.plan.steps| && w.record.data.plan.steps[i].id in w.record.data.steps
      && w.record.data.steps[w.record.data.plan.steps[i].id].phase.Verified?
    ensures var w := run[k];
      var step := w.record.data.plan.steps[w.drivers[t].pc.i];
      var s := w.record.data.steps[step.id];
      && OnlyStep(w.record.data, w'.record.data, step.id)
      && Reread(w, w', t, step, s, StillVerifies(w.record.runId, w.record.data.plan, step, s, env.file))
  {
    hide Execution, Inv, Good, Tracked, PcGood, Next, Landed, VerifyStep, StillVerifies, Save;
    ExecutionKeepsInv(run, k);
    var w, i := run[k], run[k].drivers[t].pc.i;
    CurrentState(w, t);
    SweepUnfolds(w, t, env);
    var step := w.record.data.plan.steps[i];
    var s := w.record.data.steps[step.id];
    VerifiesStill(w.record.runId, w.record.data.plan, step, s, env.file);
    if VerifyStep(w.record.runId, w.record.data.plan, step, s, env.file).Err? {
      var error := VerifyStep(w.record.runId, w.record.data.plan, step, s, env.file).error;
      var next := SetStep(w.record.data, step.id, FailVerified(s, error));
      SaveLands(w, t, next, "artifact_reverification_failed", env, Reverifying(i + 1));
      SaveKeepsReverified(w, t, next, "artifact_reverification_failed", env, Reverifying(i + 1));
    }
  }

  lemma SaveKeepsReverified(w: World, t: nat, data: State, kind: string, env: Env, pc: Pc)
    requires t in w.drivers
    ensures t in Save(w, t, data, kind, env.bytes, pc).drivers
    ensures Save(w, t, data, kind, env.bytes, pc).drivers[t].reverified == w.drivers[t].reverified
  {
    hide Advance;
  }

  /** Once a sweep finds the run stopped it skips every step not yet sent, and changes no other. */
  lemma StoppedRunSkipsPending(run: seq<World>, k: nat, t: nat, env: Env, w': World)
    requires Execution(run) && k < |run| && RunsTo(run[k], t, env, w') && CanSave(run[k], t, env) && run[k].drivers[t].pc.Stopping?
    requires var d := run[k].record.data;
      d.cancelRequested || d.deadlineObserved || exists id | id in d.steps :: d.steps[id].phase in {Phase.Failed, Phase.Unknown, Phase.Cancelled}
    ensures var d := run[k].record.data;
      && w'.record.data == d.(steps := w'.record.data.steps) && w'.record.data.steps.Keys == d.steps.Keys
      && (forall id | id in d.steps ::
            w'.record.data.steps[id] == if d.steps[id].phase.Pending? then d.steps[id].(phase := Phase.Skipped) else d.steps[id])
      && t in w'.drivers && w'.drivers[t].pc.Done?
  {
    hide Execution, Inv, Good, Tracked, PcGood, Save, Next;
    ExecutionKeepsInv(run, k);
    var w := run[k];
    CurrentState(w, t);
    SweepUnfolds(w, t, env);
    assert Stopped(w.record.data) by {
      if id :| id in w.record.data.steps && w.record.data.steps[id].phase in {Phase.Failed, Phase.Unknown, Phase.Cancelled} {
        assert Blocks(w.record.data.steps[id].phase);
      }
    }
    hide Stopped;
    SaveLands(w, t, SkipPending(w.record.data), "unsent_steps_skipped", env, Done);
  }

  /** A sweep that starts after the plan's deadline records it, whatever else it does. */
  lemma DeadlineIsRecorded(run: seq<World>, k: nat, t: nat, env: Env, w': World)
    requires Execution(run) && k < |run| && RunsTo(run[k], t, env, w') && CanSave(run[k], t, env) && run[k].drivers[t].pc.ObservingDeadline?
    ensures w'.record.data
         == run[k].record.data.(deadlineObserved := run[k].record.data.deadlineObserved || run[k].now >= run[k].record.data.plan.deadline)
  {
    hide Execution, Inv, Good, Tracked, PcGood, Save, Next, Landed;
    ExecutionKeepsInv(run, k);
    var w := run[k];
    CurrentState(w, t);
    SweepUnfolds(w, t, env);
    if w.now >= w.record.data.plan.deadline && !w.record.data.deadlineObserved {
      SaveLands(w, t, MarkDeadline(w.record.data), "deadline_observed", env, Reverifying(0));
    }
  }

  /** A ready step with a free slot, authority and acceptable inputs is recorded as submitting before anything is sent. */
  lemma IntentIsRecorded(run: seq<World>, k: nat, t: nat, env: Env, arguments: Arguments, w': World)
    requires Execution(run) && k < |run| && RunsTo(run[k], t, env, w') && CanSave(run[k], t, env) && run[k].drivers[t].pc.Dispatching?
    requires var d, i := run[k].record.data, run[k].drivers[t].pc.i;
      && i < |d.plan.steps| && Ready(d, d.plan.steps[i]) && |ActiveSteps(d)| < d.plan.maxConcurrency
      && Authorized(d.plan, env) && env.inputAccepted && ResolveInputs(d.plan.steps[i], d) == Some(arguments)
    ensures var w := run[k]; var i := w.drivers[t].pc.i; var step := w.record.data.plan.steps[i];
      && Landed(w, w', t) && w'.drivers[t].pc == Sending(i, false)
      && OnlyStep(w.record.data, w'.record.data, step.id)
      && w'.record.data.steps[step.id] == w.record.data.steps[step.id].(
           phase := Phase.Submitting, arguments := Some(arguments),
           submission := Some(SubmissionFor(w.record.runId, w.record.data.plan, step, arguments, w.now)))
  {
    hide Execution, Inv, Good, Tracked, PcGood, Save, Next, Authorized, ResolveInputs, SubmissionFor, ActiveSteps;
    ExecutionKeepsInv(run, k);
    var w, i := run[k], run[k].drivers[t].pc.i;
    CurrentState(w, t);
    RunUnfolds(w, t, env);
    var step := w.record.data.plan.steps[i];
    var submission := SubmissionFor(w.record.runId, w.record.data.plan, step, arguments, w.now);
    SaveLands(w, t, SetStep(w.record.data, step.id, WithIntent(w.record.data.steps[step.id], arguments, submission)),
              "task_submission_intent", env, Sending(i, false));
  }

  /** A flagged run's watched step is asked to stop: first the intent is saved, then the answer to the request. */
  lemma CancelIsRecorded(run: seq<World>, k: nat, t: nat, env: Env, w': World)
    requires Execution(run) && k < |run| && RunsTo(run[k], t, env, w') && CanSave(run[k], t, env)
    requires run[k].drivers[t].pc.Polling? || run[k].drivers[t].pc.Cancelling?
    requires var d, i := run[k].record.data, run[k].drivers[t].pc.i;
      && i < |d.plan.steps| && d.plan.steps[i].id in d.steps && Watched(d.steps[d.plan.steps[i].id])
      && (d.cancelRequested || d.deadlineObserved) && !d.steps[d.plan.steps[i].id].cancellationAcknowledged
    ensures var w := run[k]; var i := w.drivers[t].pc.i; var id := w.record.data.plan.steps[i].id;
      && OnlyStep(w.record.data, w'.record.data, id) && t in w'.drivers
      && var s, s' := w.record.data.steps[id], w'.record.data.steps[id];
      && (w.drivers[t].pc.Polling? ==>
            s' == s.(cancellationIntent := true) && w'.drivers[t].pc == Cancelling(i, w.drivers[t].pc.observed))
      && (w.drivers[t].pc.Cancelling? ==>
            && s' == s.(cancellationSent := true, cancellationAcknowledged := env.cancelError.None?, diagnostic := s'.diagnostic)
            && s'.diagnostic == (if env.cancelError.None? then s.diagnostic else env.cancelError)
            && w'.drivers[t].pc == Querying(i, w.drivers[t].pc.observed))
  {
    hide Execution, Inv, Good, Tracked, PcGood, Save, Next, StepPolling, StepCancelling, OnlyStep;
    ExecutionKeepsInv(run, k);
    var w := run[k];
    CurrentState(w, t);
    SweepUnfolds(w, t, env);
    if w.drivers[t].pc.Polling? {
      IntentSaves(w, t, env, w.drivers[t].pc.i, w.drivers[t].pc.observed);
    } else {
      AnswerSaves(w, t, env, w.drivers[t].pc.i, w.drivers[t].pc.observed);
    }
  }

  lemma IntentSaves(w: World, t: nat, env: Env, i: nat, observed: bool)
    requires Inv(w) && CanSave(w, t, env) && Tracked(w.record.data) && i < |w.record.data.plan.steps|
    requires var d := w.record.data; var id := d.plan.steps[i].id;
      id in d.steps && Watched(d.steps[id]) && (d.cancelRequested || d.deadlineObserved) && !d.steps[id].cancellationAcknowledged
    ensures var id := w.record.data.plan.steps[i].id; var w' := StepPolling(w, t, w.record.data, i, observed, env);
      && OnlyStep(w.record.data, w'.record.data, id) && t in w'.drivers && w'.drivers[t].pc == Cancelling(i, observed)
      && w'.record.data.steps[id] == w.record.data.steps[id].(cancellationIntent := true)
  {
    hide Inv, Tracked, Save;
    var id := w.record.data.plan.steps[i].id;
    SaveLands(w, t, SetStep(w.record.data, id, w.record.data.steps[id].(cancellationIntent := true)), "task_cancellation_intent", env,
              Cancelling(i, observed));
  }

  lemma AnswerSaves(w: World, t: nat, env: Env, i: nat, observed: bool)
    requires Inv(w) && CanSave(w, t, env) && Tracked(w.record.data) && i < |w.record.data.plan.steps|
    requires w.record.data.plan.steps[i].id in w.record.data.steps
    ensures var id := w.record.data.plan.steps[i].id; var w' := StepCancelling(w, t, w.record.data, i, observed, env);
      && OnlyStep(w.record.data, w'.record.data, id) && t in w'.drivers && w'.drivers[t].pc == Querying(i, observed)
      && var s, s' := w.record.data.steps[id], w'.record.data.steps[id];
      && s' == s.(cancellationSent := true, cancellationAcknowledged := env.cancelError.None?, diagnostic := s'.diagnostic)
      && s'.diagnostic == (if env.cancelError.None? then s.diagnostic else env.cancelError)
  {
    hide Inv, Tracked, Save;
    var id := w.record.data.plan.steps[i].id;
    SaveLands(w, t, SetStep(w.record.data, id, AfterCancel(w.record.data.steps[id], env.cancelError)), "task_cancellation_response", env,
              Querying(i, observed));
  }

  // ---- no step of the plan is passed over ----

  /** Where an up to date driver goes from each point of a sweep that saves nothing. */
  predicate Visits(d: State, pc: Pc, pc': Pc)
    requires Tracked(d)
  {
    var n := |d.plan.steps|;
    match pc
    case Reverifying(i) => i < n && !StepAt(d, i).phase.Verified? ==> pc' == Reverifying(i + 1)
    case Recovering(i) =>
      if i >= n then pc' == Polling(0, false)
      else pc' == if StepAt(d, i).phase.Submitting? then Sending(i, true) else Recovering(i + 1)
    case Polling(i, observed) =>
      if i >= n then pc' == Stopping(observed)
      else if !Watched(StepAt(d, i)) then pc' == Polling(i + 1, observed)
      else if (d.cancelRequested || d.deadlineObserved) && !StepAt(d, i).cancellationAcknowledged then pc' == Cancelling(i, observed)
      else pc' == Querying(i, observed)
    case Dispatching(i) =>
      if i >= n || |ActiveSteps(d)| >= d.plan.maxConcurrency then pc' == Done
      else !Ready(d, d.plan.steps[i]) ==> pc' == Dispatching(i + 1)
    case _ => true
  }

  /**
   * A sweep reads every verified step again, recovers every step whose submission is open, looks at
   * every watched step, and offers every pending step for dispatch while slots are free.
   */
  lemma SweepVisitsEveryStep(run: seq<World>, k: nat, t: nat, env: Env, w': World)
    requires Execution(run) && k < |run| && RunsTo(run[k], t, env, w') && CanSave(run[k], t, env) && !run[k].drivers[t].pc.Done?
    ensures Tracked(run[k].record.data) && t in w'.drivers
    ensures Visits(run[k].record.data, run[k].drivers[t].pc, w'.drivers[t].pc)
  {
    hide Execution, Inv, Good, Tracked, PcGood, Save, Next, Intact, VerifyStep, Ready, ActiveSteps, Authorized, ResolveInputs, SubmissionFor;
    ExecutionKeepsInv(run, k);
    var w := run[k];
    CurrentState(w, t);
    DriverStays(w, t, env);
    match w.drivers[t].pc {
      case Reverifying(i) => SweepUnfolds(w, t, env);
      case Recovering(i) => RecoveringUnfolds(w, t, env);
      case Polling(i, observed) =>
        SweepUnfolds(w, t, env);
        if i < |w.record.data.plan.steps| {
          TrackedAt(w.record.data, i);
          SaveLands(w, t, SetStep(w.record.data, w.record.data.plan.steps[i].id, StepAt(w.record.data, i).(cancellationIntent := true)),
                    "task_cancellation_intent", env, Cancelling(i, observed));
        }
      case Dispatching(i) => RunUnfolds(w, t, env);
      case _ =>
    }
  }

  lemma TrackedAt(d: State, i: nat)
    requires Tracked(d) && i < |d.plan.steps|
    ensures d.plan.steps[i].id in d.steps
  {
  }

  lemma RecoveringUnfolds(w: World, t: nat, env: Env)
    requires t in w.drivers && w.drivers[t].version < |w.saved| && Tracked(w.saved[w.drivers[t].version]) && w.drivers[t].pc.Recovering?
    ensures Next(w, Run(t, env)) == StepRecovering(w, t, w.saved[w.drivers[t].version], w.drivers[t].pc.i)
  {
    hide Tracked, StepRecovering;
  }

  lemma DriverStays(w: World, t: nat, env: Env)
    requires t in w.drivers
    ensures t in Next(w, Run(t, env)).drivers
  {
    hide StepDriver;
    DriverIsOneStep(w, t, env);
  }

  /** A step not yet sent, or skipped, carries nothing of a submission in any saved state. */
  lemma UnsentStepIsBlank(run: seq<World>, k: nat, v: nat, j: nat)
    requires Execution(run) && k < |run| && v < |run[k].saved| && j < |run[k].saved[v].plan.steps|
    ensures var state := run[k].saved[v]; var id := state.plan.steps[j].id;
      && id in state.steps
      && (state.steps[id].phase in {Phase.Pending, Phase.Skipped} ==>
            var s := state.steps[id];
            && s.arguments.None? && s.submission.None? && s.taskId.None? && s.terminal.None?
            && s.verifiedArtifact.None? && s.verification.None?)
  {
    hide Good, Intact, Execution, StateFollows, PcGood, SentGood, RequiredPass, Reports, ReferencesDeclared, ResolveInputs;
    ExecutionKeepsInv(run, k);
    SavedGood(run[k], v);
    GoodStep(run[k].saved[v], j);
  }

  // ---- after a failure ----

  /** The versions a driver works from never go down, and its calls are made from them. */
  ghost predicate SentSince(w: World, n: nat, t: nat, u: nat) {
    && t in w.drivers && u <= w.drivers[t].version
    && n <= |w.sent| && forall i | n <= i < |w.sent| && w.sent[i].driver == t :: u <= w.sent[i].version
  }

  lemma {:induction false} CallsFollowVersion(run: seq<World>, k: nat, m: nat, t: nat)
    requires Execution(run) && k <= m < |run| && t in run[k].drivers
    ensures SentSince(run[m], |run[k].sent|, t, run[k].drivers[t].version)
    decreases m
  {
    hide Init, Next, Enabled;
    if k < m {
      CallsFollowVersion(run, k, m - 1, t);
      assert Steps(run[m - 1], run[m]);
      var a :| Enabled(run[m - 1], a) && Next(run[m - 1], a) == run[m];
      hide SentSince;
      NextKeepsSince(run[m - 1], a, |run[k].sent|, t, run[k].drivers[t].version);
    }
  }

  lemma NextKeepsSince(w: World, a: Action, n: nat, t: nat, u: nat)
    requires Enabled(w, a) && SentSince(w, n, t, u)
    ensures SentSince(Next(w, a), n, t, u)
  {
    hide StepDriver;
    match a {
      case Run(s, env) =>
        DriverIsOneStep(w, s, env);
        StepKeepsSince(w, Next(w, a), s, n, t, u);
      case _ =>
    }
  }

  lemma StepKeepsSince(w: World, w': World, s: nat, n: nat, t: nat, u: nat)
    requires s in w.drivers && OneStep(w, w', s) && SentSince(w, n, t, u)
    ensures SentSince(w', n, t, u)
  {
  }

  /**
   * From the save that records a failed or cancelled step on, whichever driver has seen it makes
   * no call that could start new work: it may only look for what was sent before.
   */
  lemma FailureEndsNewWork(run: seq<World>, k: nat, m: nat, t: nat, id: string, i: nat)
    requires Execution(run) && k <= m < |run| && t in run[k].drivers && run[k].drivers[t].version < |run[k].saved|
    requires id in run[k].saved[run[k].drivers[t].version].steps
    requires run[k].saved[run[k].drivers[t].version].steps[id].phase in {Phase.Failed, Phase.Cancelled}
    requires |run[k].sent| <= i < |run[m].sent| && run[m].sent[i].driver == t
    ensures run[m].sent[i].recoveryOnly
  {
    hide Execution, Inv, StateFollows;
    CallsFollowVersion(run, k, m, t);
    ExecutionKeepsInv(run, m);
    JournalOnlyExtends(run, k, m);
    SentIsGood(run[m], i);
    var u, v := run[k].drivers[t].version, run[m].sent[i].version;
    assert run[m].saved[u] == run[k].saved[u];
    HistoryOnlyMovesForward(run, m, u, v);
    FailureStays(run[m].saved[u], run[m].saved[v], id);
  }

  lemma SentIsGood(w: World, i: nat)
    requires Inv(w) && i < |w.sent|
    ensures w.sent[i].version < |w.saved| && w.sent[i].recoveryOnly == Stopped(w.saved[w.sent[i].version])
  {
    hide JournalInv, DriverGood, AllReverified;
    assert SentGood(w, w.sent[i]);
  }

  lemma FailureStays(a: State, b: State, id: string)
    requires StateFollows(a, b) && id in a.steps && a.steps[id].phase in {Phase.Failed, Phase.Cancelled}
    ensures Stopped(b)
  {
    assert StepFollows(a.steps[id], b.steps[id]);
    assert Blocks(b.steps[id].phase);
  }
}
