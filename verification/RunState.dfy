/** The saved state of a run: step phases, input resolution, artifact verification and the reload checks. */
module RunState {
  import opened Common
  import opened JsonPointer
  import opened RunPlan

  datatype Phase = Pending | Submitting | Routed | Verified | Failed | Unknown | Cancelled | Skipped

  predicate Active(p: Phase) {
    p.Submitting? || p.Routed?
  }

  predicate Blocks(p: Phase) {
    p.Failed? || p.Unknown? || p.Cancelled?
  }

  predicate Started(p: Phase) {
    !p.Pending? && !p.Skipped?
  }

  type Arguments = map<string, Json>

  datatype StepState = StepState(
    phase: Phase, arguments: Option<Arguments>, submission: Option<Json>, taskId: Option<string>,
    terminal: Option<Json>, verifiedArtifact: Option<Json>, verification: Option<Json>,
    cancellationIntent: bool, cancellationSent: bool, cancellationAcknowledged: bool, diagnostic: Option<string>)

  const FreshStep := StepState(Pending, None, None, None, None, None, None, false, false, false, None)

  datatype State = State(
    plan: Plan, acceptedAt: nat, cancelRequested: bool, deadlineObserved: bool, steps: map<string, StepState>)

  function InitialState(plan: Plan, acceptedAt: nat): State {
    State(plan, acceptedAt, false, false, map id | id in Ids(plan) :: FreshStep)
  }

  // ---- inputs ----

  function ResolveInput(state: State, i: Input): Option<Json> {
    match i
    case Literal(v) => Some(v)
    case Predecessor(step, pointer) =>
      if step in state.steps && state.steps[step].verifiedArtifact.Some?
      then Pointer(state.steps[step].verifiedArtifact.value, pointer) else None
  }

  /** Arguments taken from the plan's literals and the predecessors' verified artifacts. */
  function ResolveInputs(step: Step, state: State): Option<Arguments> {
    if forall name | name in step.arguments :: ResolveInput(state, step.arguments[name]).Some?
    then Some(map name | name in step.arguments :: ResolveInput(state, step.arguments[name]).value)
    else None
  }

  /** Indexes of the required checks of a policy on one pointer. */
  function RequiredChecks(p: Policy, pointer: string): set<nat> {
    set i: nat | i < |p.checks| && p.checks[i].required && p.checks[i].pointer == pointer
  }

  /** The plan declares exactly one required check for the referenced value, and this is what it expects. */
  ghost predicate Declares(plan: Plan, source: string, pointer: string, expected: Json) {
    exists k, i: nat | 0 <= k < |plan.steps| && plan.steps[k].id == source && i < |plan.steps[k].policy.checks| ::
      && RequiredChecks(plan.steps[k].policy, pointer) == {i}
      && plan.steps[k].policy.checks[i].expected == expected
  }

  ghost predicate SampleValue(plan: Plan, i: Input, v: Json) {
    match i
    case Literal(value) => v == value
    case Predecessor(step, pointer) => Declares(plan, step, pointer, v)
  }

  /** Sample arguments: the values the plan alone promises for a step. */
  ghost predicate SampleArguments(plan: Plan, step: Step, arguments: Arguments) {
    && arguments.Keys == step.arguments.Keys
    && forall name | name in step.arguments :: SampleValue(plan, step.arguments[name], arguments[name])
  }

  ghost predicate HasSample(plan: Plan, step: Step) {
    exists arguments :: SampleArguments(plan, step, arguments)
  }

  /** The part of plan authorization that depends on the plan alone. */
  ghost predicate ReferencesDeclared(plan: Plan) {
    forall k | 0 <= k < |plan.steps| :: HasSample(plan, plan.steps[k])
  }

  // ---- verification of a completed step ----

  /** What reading an artifact file yields: its digest, and its JSON when it parses. */
  datatype File = File(digest: Json, json: Option<Json>)

  function AttemptKey(runId: string, step: Step): Json {
    Hash(Arr([Str(runId), Str(step.id)]))
  }

  function ArtifactScope(runId: string, plan: Plan): Json {
    Hash(Obj(map["runId" := Str(runId), "root" := Str(plan.artifactRoot)]))
  }

  function Without(j: Json, name: string): Json {
    if j.Obj? then Obj(j.fields - {name}) else j
  }

  function Passed(c: Check, artifact: Json): bool {
    Pointer(artifact, c.pointer) == Some(c.expected)
  }

  predicate RequiredPass(p: Policy, artifact: Json) {
    forall i | 0 <= i < |p.checks| && p.checks[i].required :: Passed(p.checks[i], artifact)
  }

  function Report(step: Step, digest: Json, artifact: Json): Json {
    var checks := step.policy.checks;
    Obj(map["status" := Str("verified"), "policySha256" := step.policyDigest, "artifactSha256" := digest,
            "checks" := Arr(seq(|checks|, i requires 0 <= i < |checks| =>
              Obj(map["pointer" := Str(checks[i].pointer), "required" := Bool(checks[i].required),
                      "passed" := Bool(Passed(checks[i], artifact))])))])
  }

  predicate BindingOk(runId: string, plan: Plan, step: Step, s: StepState, terminal: Json, submission: Json) {
    var result := At(At(terminal, "result"), "structuredContent");
    var binding := At(At(At(terminal, "result"), "_meta"), "dev.gaugemesh/taskExecution");
    var attempt := AttemptKey(runId, step);
    && binding.Obj?
    && At(result, "binding") == binding
    && (if At(binding, "publicTaskId").Str? then s.taskId == Some(At(binding, "publicTaskId").text) else s.taskId.None?)
    && At(At(binding, "submission"), "task") == submission
    && At(binding, "requestSha256") == Hash(At(binding, "submission"))
    && At(At(binding, "submission"), "capabilityId") == step.capability
    && At(submission, "attemptId") == attempt
    && At(submission, "idempotencyKey") == attempt
    && At(submission, "artifactScopeSha256") == ArtifactScope(runId, plan)
    && At(submission, "correlationId") == Str(runId)
    && At(submission, "logicalTaskId") == Str(runId + "/" + step.id)
    && At(submission, "acceptancePolicySha256") == step.policyDigest
    && At(submission, "inputSha256") == ArgumentsHash(s.arguments)
  }

  function ArgumentsHash(a: Option<Arguments>): Json {
    Hash(if a.Some? then Obj(a.value) else Null)
  }

  /** `file` is what reading the reported path yields, if it can be read safely and within bounds. */
  function VerifyStep(runId: string, plan: Plan, step: Step, s: StepState, file: Option<File>)
    : (r: Result<(Json, Json), string>)
    ensures r.Ok? ==>
              && RequiredPass(step.policy, r.value.0)
              && (s.verifiedArtifact.Some? ==> s.verifiedArtifact.value == r.value.0)
              && At(r.value.1, "status") == Str("verified")
              && s.terminal.Some? && At(s.terminal.value, "status") == Str("completed")
  {
    if s.terminal.None? then Err("GM_RUN_RESULT_MISSING")
    else
      var terminal := s.terminal.value;
      var result := At(At(terminal, "result"), "structuredContent");
      if At(terminal, "status") != Str("completed") || At(At(terminal, "result"), "isError") == Bool(true) then
        Err("GM_RUN_EXECUTION_NOT_SUCCESSFUL")
      else if s.submission.None? then Err("GM_RUN_SUBMISSION_MISSING")
      else if !BindingOk(runId, plan, step, s, terminal, s.submission.value) then Err("GM_RUN_RESULT_BINDING_INVALID")
      else if !At(At(result, "artifact"), "path").Str? then Err("GM_RUN_ARTIFACT_DESCRIPTOR_MISSING")
      else if file.None? then Err("GM_RUN_ARTIFACT_MISSING_OR_UNSAFE")
      else if At(At(result, "artifact"), "sha256") != file.value.digest then Err("GM_RUN_ARTIFACT_DIGEST_MISMATCH")
      else if file.value.json.None? then Err("GM_RUN_ARTIFACT_JSON_INVALID")
      else
        var artifact := file.value.json.value;
        if !result.Obj? then Err("GM_RUN_RESULT_INVALID")
        else if artifact != Without(result, "artifact")
                || At(artifact, "binding") != At(At(At(terminal, "result"), "_meta"), "dev.gaugemesh/taskExecution") then
          Err("GM_RUN_ARTIFACT_SWAPPED_OR_STALE")
        else if s.verifiedArtifact.Some? && s.verifiedArtifact.value != artifact then
          Err("GM_RUN_STORED_VERIFICATION_MISMATCH")
        else if !RequiredPass(step.policy, artifact) then Err("GM_RUN_REQUIRED_VERIFICATION_FAILED")
        else Ok((artifact, Report(step, file.value.digest, artifact)))
  }

  /** The artifact the provider reported, bound to this step's own submission, is the file that was read. */
  predicate Proven(runId: string, plan: Plan, step: Step, s: StepState, file: Option<File>) {
    && s.terminal.Some? && s.submission.Some?
    && BindingOk(runId, plan, step, s, s.terminal.value, s.submission.value)
    && var result := At(At(s.terminal.value, "result"), "structuredContent");
    && result.Obj? && At(At(result, "artifact"), "path").Str?
    && file.Some? && At(At(result, "artifact"), "sha256") == file.value.digest
    && file.value.json == Some(Without(result, "artifact"))
    && At(Without(result, "artifact"), "binding") == At(At(At(s.terminal.value, "result"), "_meta"), "dev.gaugemesh/taskExecution")
  }

  /**
   * Exactly when a completed step is verified: the provider reported success, the artifact is
   * proven, it is the one stored before if there was one, and it passes every required check.
   */
  lemma VerifyStepAccepts(runId: string, plan: Plan, step: Step, s: StepState, file: Option<File>)
    ensures VerifyStep(runId, plan, step, s, file).Ok? <==>
              && s.terminal.Some? && At(s.terminal.value, "status") == Str("completed")
              && At(At(s.terminal.value, "result"), "isError") != Bool(true)
              && Proven(runId, plan, step, s, file)
              && (s.verifiedArtifact.Some? ==> s.verifiedArtifact == file.value.json)
              && RequiredPass(step.policy, file.value.json.value)
    ensures VerifyStep(runId, plan, step, s, file).Ok? ==>
              VerifyStep(runId, plan, step, s, file).value
              == (file.value.json.value, Report(step, file.value.digest, file.value.json.value))
  {
    hide BindingOk, RequiredPass, Report;
  }

  // ---- the reload checks ----

  predicate NeverSent(s: StepState) {
    && s.arguments.None? && s.submission.None? && s.taskId.None? && s.terminal.None?
    && s.verifiedArtifact.None? && s.verification.None?
  }

  /** What loading a record demands of one step. */
  predicate StepReloads(state: State, step: Step, s: StepState) {
    && (Started(s.phase) ==>
          && s.arguments.Some? && s.arguments == ResolveInputs(step, state)
          && s.submission.Some?)
    && (s.phase.Routed? || s.phase.Verified? || s.phase.Cancelled? ==> s.taskId.Some?)
    && (s.phase.Verified? ==>
          && s.terminal.Some? && s.verifiedArtifact.Some? && s.verification.Some?
          && At(s.verification.value, "status") == Str("verified"))
    && (!Started(s.phase) ==> NeverSent(s))
  }

  /** `state_from` accepts this state. */
  ghost predicate Reloads(state: State) {
    && ValidPlan(state.plan, state.acceptedAt)
    && state.steps.Keys == Ids(state.plan)
    && forall k | 0 <= k < |state.plan.steps| ::
         StepReloads(state, state.plan.steps[k], state.steps[state.plan.steps[k].id])
  }
}
