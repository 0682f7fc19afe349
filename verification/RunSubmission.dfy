/**
 * Runs and task routes together: whatever drivers race over a run, each of its steps has one
 * submission document, and so reaches the provider at most once; the task route can accept that
 * document; and only a result for that very document verifies the step.
 */
module RunSubmission {
  import opened Common
  import opened JsonPointer
  import RunPlan
  import RunState
  import RunDriver
  import RunDriverSafety
  import TaskProtocol
  import TaskProtocolSafety
  import TaskRoute

  /** All calls for one step carry the same arguments and the same submission, whichever drivers made them. */
  lemma OneSubmissionPerStep(run: seq<RunDriver.World>, k: nat, i: nat, j: nat)
    requires RunDriver.Execution(run) && k < |run| && i < |run[k].sent| && j < |run[k].sent|
    requires run[k].sent[i].step == run[k].sent[j].step
    ensures run[k].sent[i].submission == run[k].sent[j].submission
    ensures run[k].sent[i].arguments == run[k].sent[j].arguments
  {
    hide RunDriver.Execution;
    var a, b := run[k].sent[i], run[k].sent[j];
    var _ := RunDriverSafety.SubmissionNeedsDurableIntent(run, k, i);
    var _ := RunDriverSafety.SubmissionNeedsDurableIntent(run, k, j);
    if a.version <= b.version {
      SubmissionStays(run, k, a.version, b.version, a.step);
    } else {
      SubmissionStays(run, k, b.version, a.version, a.step);
    }
  }

  lemma SubmissionStays(run: seq<RunDriver.World>, k: nat, u: nat, v: nat, id: string)
    requires RunDriver.Execution(run) && k < |run| && u <= v < |run[k].saved|
    requires id in run[k].saved[u].steps && id in run[k].saved[v].steps
    requires run[k].saved[u].steps[id].submission.Some? && run[k].saved[u].steps[id].arguments.Some?
    ensures run[k].saved[v].steps[id].submission == run[k].saved[u].steps[id].submission
    ensures run[k].saved[v].steps[id].arguments == run[k].saved[u].steps[id].arguments
  {
    hide RunDriver.Execution;
    RunDriverSafety.HistoryOnlyMovesForward(run, k, u, v);
    assert RunDriverSafety.StepFollows(run[k].saved[u].steps[id], run[k].saved[v].steps[id]);
  }

  /** An upstream call that carries what the task route read from a run's submission. */
  predicate Delivers(call: TaskProtocol.Call, sent: RunDriver.Sent, read: Json -> TaskProtocol.Document) {
    read(sent.submission) == TaskProtocol.Complete(call.task)
  }

  /**
   * However documents are read, over every execution of a run and every execution of the gateway
   * processes that serve its calls, a step of the run makes at most one upstream call for its caller.
   */
  lemma StepReachesProviderOnce(
      run: seq<RunDriver.World>, k: nat, i: nat, j: nat, read: Json -> TaskProtocol.Document,
      gateway: seq<TaskProtocol.World>, m: nat, p: nat, q: nat)
    requires RunDriver.Execution(run) && k < |run| && i < |run[k].sent| && j < |run[k].sent|
    requires TaskProtocol.Execution(gateway) && m < |gateway| && p < |gateway[m].calls| && q < |gateway[m].calls|
    requires run[k].sent[i].step == run[k].sent[j].step
    requires gateway[m].calls[p].caller == gateway[m].calls[q].caller
    requires Delivers(gateway[m].calls[p], run[k].sent[i], read) && Delivers(gateway[m].calls[q], run[k].sent[j], read)
    ensures p == q
  {
    hide RunDriver.Execution, TaskProtocol.Execution;
    OneSubmissionPerStep(run, k, i, j);
    if p < q {
      TaskProtocolSafety.AtMostOneCall(gateway, m, p, q);
    }
    if q < p {
      TaskProtocolSafety.AtMostOneCall(gateway, m, q, p);
    }
  }

  // ---- the task route accepts what a run submits ----

  /** The task route read this submission out of that document. */
  predicate ReadsAs(task: TaskRoute.Submission, doc: Json) {
    && At(doc, "schemaVersion") == Str(task.schemaVersion)
    && At(doc, "deadlineUnixMs") == Number(task.deadline) && At(doc, "retentionMs") == Number(task.retention)
    && At(At(doc, "limits"), "maxRuntimeMs") == Number(task.limits.maxRuntime)
    && At(At(doc, "limits"), "maxOutputBytes") == Number(task.limits.maxOutput)
    && At(At(doc, "limits"), "maxArtifactBytes") == Number(task.limits.maxArtifact)
    && At(At(doc, "limits"), "maxAttempts") == Number(task.limits.maxAttempts)
    && At(doc, "permittedEffect") == Str(EffectName(task.permittedEffect))
    && At(doc, "cleanupRequired") == Bool(task.cleanupRequired)
  }

  function EffectName(e: TaskRoute.Effect): string {
    match e case ReadOnly => "read_only" case IdempotentWrite => "idempotent_write" case NonIdempotentWrite => "non_idempotent_write"
  }

  /**
   * What a run of an admitted plan dispatches is bounded, asks for the one effect tasks may have,
   * and has a deadline within the plan's and within the step's runtime.
   */
  lemma DispatchedIsBounded(plan: RunPlan.Plan, acceptedAt: nat, k: nat, runId: string, arguments: RunState.Arguments, now: nat, task: TaskRoute.Submission)
    requires RunPlan.ValidPlan(plan, acceptedAt) && acceptedAt <= now < plan.deadline && k < |plan.steps|
    requires ReadsAs(task, RunDriver.SubmissionFor(runId, plan, plan.steps[k], arguments, now))
    ensures TaskProtocol.Bounded(task) && task.permittedEffect.NonIdempotentWrite? && task.schemaVersion == "gaugemesh.task-submission/1"
    ensures now < task.deadline <= plan.deadline && task.deadline <= now + plan.steps[k].maxRuntime && task.deadline <= MAX_U64
    ensures task.limits.maxRuntime == plan.steps[k].maxRuntime
  {
    hide RunPlan.ValidPlan, RunPlan.StepAdmitted, RunPlan.Acyclic, RunDriver.SubmissionFor;
    RunPlan.AdmittedExactly(plan, acceptedAt);
    var step := plan.steps[k];
    assert RunPlan.StepAdmitted(plan, step);
    StepBounds(plan, step);
    SubmissionTimes(runId, plan, step, arguments, now);
    SubmissionLimits(runId, plan, step, arguments, now);
    SubmissionEffect(runId, plan, step, arguments, now);
  }

  lemma SubmissionTimes(runId: string, plan: RunPlan.Plan, step: RunPlan.Step, arguments: RunState.Arguments, now: nat)
    ensures var doc := RunDriver.SubmissionFor(runId, plan, step, arguments, now);
      && At(doc, "deadlineUnixMs") == Number(Min(plan.deadline, SaturatingAdd(now, step.maxRuntime)))
      && At(doc, "retentionMs") == Number(3_600_000)
  {
  }

  lemma SubmissionEffect(runId: string, plan: RunPlan.Plan, step: RunPlan.Step, arguments: RunState.Arguments, now: nat)
    ensures var doc := RunDriver.SubmissionFor(runId, plan, step, arguments, now);
      && At(doc, "schemaVersion") == Str("gaugemesh.task-submission/1")
      && At(doc, "permittedEffect") == Str("non_idempotent_write") && At(doc, "cleanupRequired") == Bool(true)
  {
  }

  lemma SubmissionLimits(runId: string, plan: RunPlan.Plan, step: RunPlan.Step, arguments: RunState.Arguments, now: nat)
    ensures var limits := At(RunDriver.SubmissionFor(runId, plan, step, arguments, now), "limits");
      && At(limits, "maxRuntimeMs") == Number(step.maxRuntime) && At(limits, "maxOutputBytes") == Number(32_768)
      && At(limits, "maxArtifactBytes") == Number(step.maxArtifact) && At(limits, "maxAttempts") == Number(1)
  {
  }

  lemma StepBounds(plan: RunPlan.Plan, step: RunPlan.Step)
    requires RunPlan.StepAdmitted(plan, step)
    ensures 1 <= step.maxRuntime <= 30_000 && 1 <= step.maxArtifact <= 1_048_576
  {
  }

  /** So the task route accepts it at any time before its deadline, if its identifiers and digests fit what it is called with. */
  lemma DispatchedIsAcceptable(
      plan: RunPlan.Plan, acceptedAt: nat, k: nat, runId: string, arguments: RunState.Arguments, now: nat, task: TaskRoute.Submission,
      content: TaskProtocol.Arguments, provider: string, read: nat)
    requires RunPlan.ValidPlan(plan, acceptedAt) && acceptedAt <= now < plan.deadline && k < |plan.steps|
    requires ReadsAs(task, RunDriver.SubmissionFor(runId, plan, plan.steps[k], arguments, now))
    requires now <= read < task.deadline && content.bytes <= 65_536
    requires TaskProtocol.Identified(task, content, provider, task.permittedEffect)
    ensures TaskProtocol.Parse(TaskProtocol.Complete(task), content, provider, TaskRoute.NonIdempotentWrite, read) == Ok(task)
  {
    hide RunPlan.ValidPlan, ReadsAs, TaskProtocol.Parse, TaskProtocol.Bounded, TaskProtocol.Identified, RunDriver.SubmissionFor;
    DispatchedIsBounded(plan, acceptedAt, k, runId, arguments, now, task);
    StaysParsable(plan, k, now, task, read);
    TaskProtocol.ParseAccepts(TaskProtocol.Complete(task), content, provider, TaskRoute.NonIdempotentWrite, read);
  }

  lemma StaysParsable(plan: RunPlan.Plan, k: nat, now: nat, task: TaskRoute.Submission, read: nat)
    requires k < |plan.steps| && TaskProtocol.Bounded(task) && task.deadline <= now + plan.steps[k].maxRuntime
    requires plan.steps[k].maxRuntime <= task.limits.maxRuntime && now <= read && task.deadline <= MAX_U64
    ensures task.deadline <= SaturatingAdd(read, task.retention) && task.deadline <= read + TaskProtocol.MAX_RETENTION
  {
  }

  // ---- only a result for this very submission verifies the step ----

  /** What the provider says it executed. */
  function Execution(s: RunState.StepState): Json {
    if s.terminal.Some? then At(At(At(s.terminal.value, "result"), "_meta"), "dev.gaugemesh/taskExecution") else Null
  }

  /** Every name that the submission of a verified step carries is the step's own, and the provider repeats that submission. */
  lemma VerifiedSubmissionIsOwn(runId: string, plan: RunPlan.Plan, step: RunPlan.Step, s: RunState.StepState, file: Option<RunState.File>)
    requires RunState.VerifyStep(runId, plan, step, s, file).Ok?
    ensures s.submission.Some? && At(At(Execution(s), "submission"), "task") == s.submission.value
    ensures At(Execution(s), "requestSha256") == Hash(At(Execution(s), "submission"))
    ensures var doc := s.submission.value;
      && At(doc, "attemptId") == Hash(Arr([Str(runId), Str(step.id)])) && At(doc, "idempotencyKey") == Hash(Arr([Str(runId), Str(step.id)]))
      && At(doc, "correlationId") == Str(runId) && At(doc, "logicalTaskId") == Str(runId + "/" + step.id)
      && At(doc, "acceptancePolicySha256") == step.policyDigest
  {
    RunState.VerifyStepAccepts(runId, plan, step, s, file);
    hide RunState.VerifyStep, RunState.RequiredPass, RunState.Report;
  }

  /**
   * A step is never verified by a result for another step, run, artifact root, policy, capability,
   * task or input, whatever document its own state carries.
   */
  lemma ForeignResultIsRefused(
      runId: string, plan: RunPlan.Plan, step: RunPlan.Step, s: RunState.StepState, file: Option<RunState.File>,
      runId': string, plan': RunPlan.Plan, step': RunPlan.Step, arguments: RunState.Arguments, now: nat)
    requires RunState.VerifyStep(runId, plan, step, s, file).Ok?
    requires At(At(Execution(s), "submission"), "task") == RunDriver.SubmissionFor(runId', plan', step', arguments, now)
    ensures runId == runId' && step.id == step'.id && plan.artifactRoot == plan'.artifactRoot && step.policyDigest == step'.policyDigest
    ensures s.arguments == Some(arguments) && At(At(Execution(s), "submission"), "capabilityId") == step.capability
    ensures At(Execution(s), "publicTaskId").Str? ==> s.taskId == Some(At(Execution(s), "publicTaskId").text)
    ensures !At(Execution(s), "publicTaskId").Str? ==> s.taskId.None?
    ensures s.submission == Some(RunDriver.SubmissionFor(runId', plan', step', arguments, now))
  {
    RunState.VerifyStepAccepts(runId, plan, step, s, file);
    hide RunState.VerifyStep, RunState.RequiredPass, RunState.Report, RunDriver.SubmissionFor;
    BoundToItself(runId, plan, step, s, s.terminal.value, s.submission.value);
    SubmissionNames(runId', plan', step', arguments, now);
    ScopeNamesRoot(runId, plan, runId', plan');
    hide RunState.BindingOk;
    assert RunState.AttemptKey(runId, step).of.items == [Str(runId), Str(step.id)];
    assert RunState.AttemptKey(runId', step').of.items == [Str(runId'), Str(step'.id)];
  }

  lemma BoundToItself(runId: string, plan: RunPlan.Plan, step: RunPlan.Step, s: RunState.StepState, terminal: Json, submission: Json)
    requires RunState.BindingOk(runId, plan, step, s, terminal, submission)
    ensures var binding := At(At(At(terminal, "result"), "_meta"), "dev.gaugemesh/taskExecution");
      && At(At(binding, "submission"), "task") == submission && At(At(binding, "submission"), "capabilityId") == step.capability
      && (At(binding, "publicTaskId").Str? ==> s.taskId == Some(At(binding, "publicTaskId").text))
      && (!At(binding, "publicTaskId").Str? ==> s.taskId.None?)
      && At(submission, "attemptId") == RunState.AttemptKey(runId, step)
      && At(submission, "artifactScopeSha256") == RunState.ArtifactScope(runId, plan)
      && At(submission, "acceptancePolicySha256") == step.policyDigest
      && At(submission, "inputSha256") == Hash(if s.arguments.Some? then Obj(s.arguments.value) else Null)
  {
  }

  lemma SubmissionNames(runId: string, plan: RunPlan.Plan, step: RunPlan.Step, arguments: RunState.Arguments, now: nat)
    ensures var doc := RunDriver.SubmissionFor(runId, plan, step, arguments, now);
      && At(doc, "attemptId") == RunState.AttemptKey(runId, step) && At(doc, "artifactScopeSha256") == RunState.ArtifactScope(runId, plan)
      && At(doc, "acceptancePolicySha256") == step.policyDigest && At(doc, "inputSha256") == Hash(Obj(arguments))
  {
  }

  lemma ScopeNamesRoot(runId: string, plan: RunPlan.Plan, runId': string, plan': RunPlan.Plan)
    requires RunState.ArtifactScope(runId, plan) == RunState.ArtifactScope(runId', plan')
    ensures plan.artifactRoot == plan'.artifactRoot
  {
    var x, y := RunState.ArtifactScope(runId, plan).of.fields, RunState.ArtifactScope(runId', plan').of.fields;
    assert x["root"] == y["root"];
  }

  // ---- and an honest result for it does ----

  /** What an honest provider says it executed. */
  function Receipt(taskId: string, capability: Json, submission: Json): Json {
    var envelope := Obj(map["task" := submission, "capabilityId" := capability]);
    Obj(map["publicTaskId" := Str(taskId), "submission" := envelope, "requestSha256" := Hash(envelope)])
  }

  /** The result of an honest provider: its receipt, the artifact's fields, and where the artifact lies. */
  function HonestReport(receipt: Json, fields: map<string, Json>, path: string, digest: Json): Json {
    Obj(map["status" := Str("completed"),
            "result" := Obj(map["structuredContent" := Obj(Artifact(receipt, fields)["artifact" := Obj(map["path" := Str(path), "sha256" := digest])]),
                                "_meta" := Obj(map["dev.gaugemesh/taskExecution" := receipt])])])
  }

  function Artifact(receipt: Json, fields: map<string, Json>): map<string, Json> {
    (fields - {"artifact"})["binding" := receipt]
  }

  /**
   * A step that was dispatched, and whose provider reports honestly for it and leaves the reported
   * artifact in place, is verified exactly when the artifact passes the required checks.
   */
  lemma HonestResultIsVerified(
      runId: string, plan: RunPlan.Plan, step: RunPlan.Step, s: RunState.StepState, arguments: RunState.Arguments, now: nat,
      taskId: string, fields: map<string, Json>, path: string, digest: Json)
    requires s.arguments == Some(arguments) && s.taskId == Some(taskId) && s.verifiedArtifact.None?
    requires s.submission == Some(RunDriver.SubmissionFor(runId, plan, step, arguments, now))
    requires s.terminal == Some(HonestReport(Receipt(taskId, step.capability, s.submission.value), fields, path, digest))
    ensures var artifact := Obj(Artifact(Receipt(taskId, step.capability, s.submission.value), fields));
      RunState.VerifyStep(runId, plan, step, s, Some(RunState.File(digest, Some(artifact)))).Ok? <==> RunState.RequiredPass(step.policy, artifact)
  {
    var receipt := Receipt(taskId, step.capability, s.submission.value);
    var artifact := Obj(Artifact(receipt, fields));
    var file := Some(RunState.File(digest, Some(artifact)));
    RunState.VerifyStepAccepts(runId, plan, step, s, file);
    HonestBinding(runId, plan, step, s, arguments, now, taskId, fields, path, digest);
    HonestFields(receipt, fields, path, digest);
    hide RunState.VerifyStep, RunState.RequiredPass, RunState.BindingOk, RunDriver.SubmissionFor, HonestReport, Receipt, Artifact, RunState.Report;
  }

  lemma HonestFields(receipt: Json, fields: map<string, Json>, path: string, digest: Json)
    ensures var terminal := HonestReport(receipt, fields, path, digest); var result := At(At(terminal, "result"), "structuredContent");
      && At(terminal, "status") == Str("completed") && At(At(terminal, "result"), "isError") != Bool(true)
      && At(At(At(terminal, "result"), "_meta"), "dev.gaugemesh/taskExecution") == receipt && At(result, "binding") == receipt
      && result.Obj? && At(At(result, "artifact"), "path") == Str(path) && At(At(result, "artifact"), "sha256") == digest
      && RunState.Without(result, "artifact") == Obj(Artifact(receipt, fields))
      && At(Obj(Artifact(receipt, fields)), "binding") == receipt
  {
    var with := Artifact(receipt, fields)["artifact" := Obj(map["path" := Str(path), "sha256" := digest])];
    assert with - {"artifact"} == Artifact(receipt, fields);
  }

  lemma HonestBinding(
      runId: string, plan: RunPlan.Plan, step: RunPlan.Step, s: RunState.StepState, arguments: RunState.Arguments, now: nat,
      taskId: string, fields: map<string, Json>, path: string, digest: Json)
    requires s.arguments == Some(arguments) && s.taskId == Some(taskId)
    requires s.submission == Some(RunDriver.SubmissionFor(runId, plan, step, arguments, now))
    ensures var receipt := Receipt(taskId, step.capability, s.submission.value);
      RunState.BindingOk(runId, plan, step, s, HonestReport(receipt, fields, path, digest), s.submission.value)
  {
    var receipt := Receipt(taskId, step.capability, s.submission.value);
    HonestFields(receipt, fields, path, digest);
    ReceiptFields(taskId, step.capability, s.submission.value);
    SubmissionNames(runId, plan, step, arguments, now);
    SubmissionIdentity(runId, plan, step, arguments, now);
    hide HonestReport, Receipt, RunDriver.SubmissionFor, RunState.ArtifactScope, RunState.AttemptKey, Artifact, At;
  }

  lemma ReceiptFields(taskId: string, capability: Json, submission: Json)
    ensures var receipt := Receipt(taskId, capability, submission);
      && receipt.Obj? && At(receipt, "publicTaskId") == Str(taskId)
      && At(At(receipt, "submission"), "task") == submission && At(At(receipt, "submission"), "capabilityId") == capability
      && At(receipt, "requestSha256") == Hash(At(receipt, "submission"))
  {
  }

  lemma SubmissionIdentity(runId: string, plan: RunPlan.Plan, step: RunPlan.Step, arguments: RunState.Arguments, now: nat)
    ensures var doc := RunDriver.SubmissionFor(runId, plan, step, arguments, now);
      && At(doc, "idempotencyKey") == RunState.AttemptKey(runId, step) && At(doc, "correlationId") == Str(runId)
      && At(doc, "logicalTaskId") == Str(runId + "/" + step.id)
  {
  }
}
