/**
 * The run driver as a step system. Any number of drivers and cancel requests work on one stored
 * run record through compare-and-set saves; a driver may be dropped between any two steps, and
 * what it keeps in memory between steps is always a state that some save made durable.
 */
module RunDriver {
  import opened Common
  import opened JsonPointer
  import opened RunPlan
  import opened RunState
  import opened RunJournal

  /** Where a sweep is. `i` indexes the plan's steps; `observed` says an outcome was recorded in this sweep. */
  datatype Pc =
    | Starting
    | ObservingDeadline
    | Reverifying(i: nat)
    | Recovering(i: nat)
    | Sending(i: nat, recovering: bool)
    | AwaitingTask(i: nat, recovering: bool)
    | Polling(i: nat, observed: bool)
    | Cancelling(i: nat, observed: bool)
    | Querying(i: nat, observed: bool)
    | Stopping(observed: bool)
    | Dispatching(i: nat)
    | RequestingCancel
    | Done

  /** `version` is the save this driver last loaded or made; `reverified` the steps it re-verified in this sweep. */
  datatype Driver = Driver(version: nat, pc: Pc, reverified: set<string>)

  /** One call into the task route: by which driver, for which step, from which saved version, whether it may only recover, and with what. */
  datatype Sent = Sent(driver: nat, step: string, version: nat, recoveryOnly: bool, arguments: Arguments, submission: Json,
                       reverified: set<string>)

  /** `saved[v]` is the state that version `v` made durable. */
  datatype World = World(now: nat, record: Record, saved: seq<State>, drivers: map<nat, Driver>, sent: seq<Sent>)

  datatype SubmitReply = Accepted(taskId: string, reconcile: bool) | Uncertain(text: string)

  datatype GetReply = GetError(text: string) | GetValue(value: Json)

  /** What a step takes from outside: leases and schemas, files, replies, and encoded lengths. */
  datatype Env = Env(authorized: bool, inputAccepted: bool, file: Option<File>, submit: SubmitReply, get: GetReply,
                     cancelError: Option<string>, bytes: nat)

  function Goto(w: World, t: nat, pc: Pc): World
    requires t in w.drivers
  {
    w.(drivers := w.drivers[t := w.drivers[t].(pc := pc)])
  }

  /** A save moves the driver on; a save that is refused ends its sweep. */
  function Save(w: World, t: nat, data: State, kind: string, bytes: nat, pc: Pc): World
    requires t in w.drivers
  {
    match Advance(w.record, w.drivers[t].version, data, kind, bytes)
    case Err(_) => Goto(w, t, Done)
    case Ok(r) =>
      w.(record := r, saved := w.saved + [data],
         drivers := w.drivers[t := w.drivers[t].(version := r.version, pc := pc)])
  }

  function SetStep(state: State, id: string, s: StepState): State {
    state.(steps := state.steps[id := s])
  }

  predicate AnyBlocks(state: State) {
    exists id | id in state.steps :: Blocks(state.steps[id].phase)
  }

  predicate Stopped(state: State) {
    state.cancelRequested || state.deadlineObserved || AnyBlocks(state)
  }

  function ActiveSteps(state: State): set<string> {
    set id | id in state.steps && Active(state.steps[id].phase)
  }

  // ---- the saves of a sweep ----

  function MarkDeadline(state: State): State {
    state.(deadlineObserved := true)
  }

  function MarkCancelled(state: State): State {
    state.(cancelRequested := true)
  }

  function FailVerified(s: StepState, error: string): StepState {
    s.(phase := Phase.Failed, diagnostic := Some("GM_RUN_PREDECESSOR_INVALID:" + error))
  }

  function AfterSubmit(s: StepState, reply: SubmitReply): StepState {
    match reply
    case Accepted(id, reconcile) => s.(taskId := Some(id), phase := if reconcile then Unknown else Routed)
    case Uncertain(text) => s.(phase := Unknown, diagnostic := Some("GM_RUN_SUBMISSION_UNCERTAIN:" + text))
  }

  function AfterCancel(s: StepState, error: Option<string>): StepState {
    s.(cancellationSent := true, cancellationAcknowledged := error.None?,
       diagnostic := if error.Some? then error else s.diagnostic)
  }

  predicate Reconciling(value: Json) {
    At(At(At(value, "_meta"), "dev.gaugemesh/taskRoute"), "routePhase") == Str("reconciliation_required")
  }

  /** The step after one poll, or nothing when the poll changes nothing. */
  function AfterGet(runId: string, plan: Plan, step: Step, s: StepState, reply: GetReply, file: Option<File>): (r: Option<StepState>) {
    match reply
    case GetError(text) =>
      if s.phase.Unknown? && s.diagnostic == Some(text) then None
      else Some(s.(phase := Unknown, diagnostic := Some(text)))
    case GetValue(value) =>
      if Reconciling(value) then
        if s.phase.Unknown? && s.terminal == Some(value) then None
        else Some(s.(phase := Unknown, terminal := Some(value), diagnostic := Some("GM_RUN_TASK_RECONCILIATION_REQUIRED")))
      else if At(value, "status") == Str("completed") then
        var done := s.(terminal := Some(value));
        match VerifyStep(runId, plan, step, done, file)
        case Ok((artifact, report)) =>
          Some(done.(phase := Phase.Verified, verifiedArtifact := Some(artifact), verification := Some(report)))
        case Err(error) => Some(done.(phase := Phase.Failed, diagnostic := Some(error)))
      else if At(value, "status") == Str("failed") then Some(s.(phase := Phase.Failed, terminal := Some(value)))
      else if At(value, "status") == Str("cancelled") then Some(s.(phase := Phase.Cancelled, terminal := Some(value)))
      else None
  }

  function SkipPending(state: State): State {
    state.(steps := map id | id in state.steps ::
      if state.steps[id].phase.Pending? then state.steps[id].(phase := Skipped) else state.steps[id])
  }

  /** The submission document a step is dispatched with. */
  function SubmissionFor(runId: string, plan: Plan, step: Step, arguments: Arguments, now: nat): Json {
    var key := AttemptKey(runId, step);
    Obj(map["schemaVersion" := Str("gaugemesh.task-submission/1"),
            "logicalTaskId" := Str(runId + "/" + step.id), "attemptId" := key,
            "correlationId" := Str(runId), "idempotencyKey" := key,
            "inputSha256" := Hash(Obj(arguments)), "acceptancePolicySha256" := step.policyDigest,
            "artifactScopeSha256" := ArtifactScope(runId, plan),
            "providerInterfaceVersion" := Str(step.providerInterface),
            "deadlineUnixMs" := Number(Min(plan.deadline, SaturatingAdd(now, step.maxRuntime))),
            "retentionMs" := Number(RUN_WINDOW),
            "limits" := Obj(map["maxRuntimeMs" := Number(step.maxRuntime), "maxOutputBytes" := Number(32_768),
                                "maxArtifactBytes" := Number(step.maxArtifact), "maxAttempts" := Number(1)]),
            "permittedEffect" := Str("non_idempotent_write"), "cleanupRequired" := Bool(true)])
  }

  function WithIntent(s: StepState, arguments: Arguments, submission: Json): StepState {
    s.(phase := Phase.Submitting, arguments := Some(arguments), submission := Some(submission))
  }

  // ---- the steps of a sweep ----

  ghost predicate Authorized(plan: Plan, env: Env) {
    env.authorized && ReferencesDeclared(plan)
  }

  function StepAt(state: State, i: nat): StepState
    requires i < |state.plan.steps| && state.plan.steps[i].id in state.steps
  {
    state.steps[state.plan.steps[i].id]
  }

  /** Every step of the plan has a state; loading a record checks this. */
  predicate Tracked(state: State) {
    forall i | 0 <= i < |state.plan.steps| :: state.plan.steps[i].id in state.steps
  }

  ghost function StepStarting(w: World, t: nat, state: State, env: Env): World
    requires t in w.drivers
  {
    if !Reloads(state) || (!state.cancelRequested && !Authorized(state.plan, env)) then Goto(w, t, Done)
    else Goto(w, t, ObservingDeadline)
  }

  function StepObservingDeadline(w: World, t: nat, state: State, env: Env): World
    requires t in w.drivers
  {
    if w.now >= state.plan.deadline && !state.deadlineObserved then
      Save(w, t, MarkDeadline(state), "deadline_observed", env.bytes, Reverifying(0))
    else Goto(w, t, Reverifying(0))
  }

  /** Accepted artifacts are read again on every sweep. */
  function StepReverifying(w: World, t: nat, state: State, i: nat, env: Env): World
    requires t in w.drivers && Tracked(state)
  {
    if i >= |state.plan.steps| then Goto(w, t, Recovering(0))
    else
      var step := state.plan.steps[i];
      var s := StepAt(state, i);
      if !s.phase.Verified? then Goto(w, t, Reverifying(i + 1))
      else
        match VerifyStep(w.record.runId, state.plan, step, s, env.file)
        case Ok(_) =>
          w.(drivers := w.drivers[t := w.drivers[t].(pc := Reverifying(i + 1), reverified := w.drivers[t].reverified + {step.id})])
        case Err(error) =>
          Save(w, t, SetStep(state, step.id, FailVerified(s, error)), "artifact_reverification_failed", env.bytes, Reverifying(i + 1))
  }

  function StepRecovering(w: World, t: nat, state: State, i: nat): World
    requires t in w.drivers && Tracked(state)
  {
    if i >= |state.plan.steps| then Goto(w, t, Polling(0, false))
    else if StepAt(state, i).phase.Submitting? then Goto(w, t, Sending(i, true))
    else Goto(w, t, Recovering(i + 1))
  }

  /** Calls the task route for a step whose intent is in the saved state. */
  function StepSending(w: World, t: nat, state: State, i: nat, recovering: bool): World
    requires t in w.drivers && Tracked(state)
  {
    if i >= |state.plan.steps| || StepAt(state, i).arguments.None? || StepAt(state, i).submission.None? then Goto(w, t, Done)
    else
      var s := StepAt(state, i);
      Goto(w, t, AwaitingTask(i, recovering)).(
        sent := w.sent + [Sent(t, state.plan.steps[i].id, w.drivers[t].version, Stopped(state), s.arguments.value,
                               s.submission.value, w.drivers[t].reverified)])
  }

  function StepAwaitingTask(w: World, t: nat, state: State, i: nat, recovering: bool, env: Env): World
    requires t in w.drivers && Tracked(state)
  {
    if i >= |state.plan.steps| then Goto(w, t, Done)
    else
      var next := SetStep(state, state.plan.steps[i].id, AfterSubmit(StepAt(state, i), env.submit));
      var after := if recovering then Recovering(i + 1) else if AnyBlocks(next) then Done else Dispatching(i + 1);
      Save(w, t, next, "task_identity_observed", env.bytes, after)
  }

  function StepPolling(w: World, t: nat, state: State, i: nat, observed: bool, env: Env): World
    requires t in w.drivers && Tracked(state)
  {
    if i >= |state.plan.steps| then Goto(w, t, Stopping(observed))
    else
      var s := StepAt(state, i);
      if !(s.phase.Routed? || s.phase.Unknown?) || s.taskId.None? then Goto(w, t, Polling(i + 1, observed))
      else if (state.cancelRequested || state.deadlineObserved) && !s.cancellationAcknowledged then
        if !s.cancellationIntent then
          Save(w, t, SetStep(state, state.plan.steps[i].id, s.(cancellationIntent := true)),
               "task_cancellation_intent", env.bytes, Cancelling(i, observed))
        else Goto(w, t, Cancelling(i, observed))
      else Goto(w, t, Querying(i, observed))
  }

  function StepCancelling(w: World, t: nat, state: State, i: nat, observed: bool, env: Env): World
    requires t in w.drivers && Tracked(state)
  {
    if i >= |state.plan.steps| then Goto(w, t, Done)
    else
      var s := StepAt(state, i);
      var next := AfterCancel(s, env.cancelError);
      if next == s then Goto(w, t, Querying(i, observed))
      else Save(w, t, SetStep(state, state.plan.steps[i].id, next), "task_cancellation_response", env.bytes, Querying(i, observed))
  }

  function StepQuerying(w: World, t: nat, state: State, i: nat, observed: bool, env: Env): World
    requires t in w.drivers && Tracked(state)
  {
    if i >= |state.plan.steps| then Goto(w, t, Done)
    else
      match AfterGet(w.record.runId, state.plan, state.plan.steps[i], StepAt(state, i), env.get, env.file)
      case None => Goto(w, t, Polling(i + 1, observed))
      case Some(next) =>
        Save(w, t, SetStep(state, state.plan.steps[i].id, next), "task_outcome_observed", env.bytes, Polling(i + 1, true))
  }

  function StepStopping(w: World, t: nat, state: State, observed: bool, env: Env): World
    requires t in w.drivers
  {
    if Stopped(state) then
      if SkipPending(state) != state then Save(w, t, SkipPending(state), "unsent_steps_skipped", env.bytes, Done)
      else Goto(w, t, Done)
    else if observed then Goto(w, t, Done)
    else Goto(w, t, Dispatching(0))
  }

  predicate Ready(state: State, step: Step) {
    && step.id in state.steps && state.steps[step.id].phase.Pending?
    && forall d | d in step.dependsOn :: d in state.steps && state.steps[d].phase.Verified?
  }

  /** A ready step is dispatched by saving the intent first. */
  ghost function StepDispatching(w: World, t: nat, state: State, i: nat, env: Env): World
    requires t in w.drivers && Tracked(state)
  {
    if i >= |state.plan.steps| || |ActiveSteps(state)| >= state.plan.maxConcurrency then Goto(w, t, Done)
    else
      var step := state.plan.steps[i];
      if !Ready(state, step) then Goto(w, t, Dispatching(i + 1))
      else
        var arguments := ResolveInputs(step, state);
        if !Authorized(state.plan, env) || arguments.None? || !env.inputAccepted then Goto(w, t, Done)
        else
          var submission := SubmissionFor(w.record.runId, state.plan, step, arguments.value, w.now);
          var next := SetStep(state, step.id, WithIntent(state.steps[step.id], arguments.value, submission));
          Save(w, t, next, "task_submission_intent", env.bytes, Sending(i, false))
  }

  /** The cancel action: set the flag from whatever version was loaded. */
  ghost function StepRequestingCancel(w: World, t: nat, state: State, env: Env): World
    requires t in w.drivers
  {
    if !Reloads(state) || state.cancelRequested then Goto(w, t, Done)
    else Save(w, t, MarkCancelled(state), "cancellation_intent", env.bytes, Done)
  }

  ghost function StepDriver(w: World, t: nat, env: Env): World
    requires t in w.drivers
  {
    var d := w.drivers[t];
    if d.version >= |w.saved| || (!Tracked(w.saved[d.version]) && !d.pc.Starting?) then Goto(w, t, Done)
    else
      var state := w.saved[d.version];
      match d.pc
      case Starting => StepStarting(w, t, state, env)
      case ObservingDeadline => StepObservingDeadline(w, t, state, env)
      case Reverifying(i) => StepReverifying(w, t, state, i, env)
      case Recovering(i) => StepRecovering(w, t, state, i)
      case Sending(i, recovering) => StepSending(w, t, state, i, recovering)
      case AwaitingTask(i, recovering) => StepAwaitingTask(w, t, state, i, recovering, env)
      case Polling(i, observed) => StepPolling(w, t, state, i, observed, env)
      case Cancelling(i, observed) => StepCancelling(w, t, state, i, observed, env)
      case Querying(i, observed) => StepQuerying(w, t, state, i, observed, env)
      case Stopping(observed) => StepStopping(w, t, state, observed, env)
      case Dispatching(i) => StepDispatching(w, t, state, i, env)
      case RequestingCancel => StepRequestingCancel(w, t, state, env)
      case Done => w
  }

  datatype Action =
    | Tick(to: nat)
    | Resume(t: nat)
    | Cancel(t: nat)
    | Drop(t: nat)
    | Run(t: nat, env: Env)

  predicate Enabled(w: World, a: Action) {
    match a
    case Tick(to) => w.now <= to
    case Resume(t) => t !in w.drivers
    case Cancel(t) => t !in w.drivers
    case Drop(t) => t in w.drivers
    case Run(t, _) => t in w.drivers
  }

  ghost function Next(w: World, a: Action): World
    requires Enabled(w, a)
  {
    match a
    case Tick(to) => w.(now := to)
    case Resume(t) => w.(drivers := w.drivers[t := Driver(w.record.version, Starting, {})])
    case Cancel(t) => w.(drivers := w.drivers[t := Driver(w.record.version, RequestingCancel, {})])
    case Drop(t) => Goto(w, t, Done)
    case Run(t, env) => StepDriver(w, t, env)
  }

  /** A run just accepted: a valid plan, every step pending, nothing sent. */
  ghost predicate Init(w: World) {
    exists runId, owner, plan: Plan, bytes ::
      && AcceptedRecord(runId, owner, plan.runKey, InitialState(plan, w.now), bytes) == Ok(w.record)
      && ValidPlan(plan, w.now)
      && w.saved == [InitialState(plan, w.now)]
      && w.drivers == map[] && w.sent == []
  }

  ghost predicate Steps(w: World, w': World) {
    exists a :: Enabled(w, a) && Next(w, a) == w'
  }

  ghost predicate Execution(run: seq<World>) {
    && |run| > 0
    && Init(run[0])
    && forall k | 0 < k < |run| :: Steps(run[k - 1], run[k])
  }
}
