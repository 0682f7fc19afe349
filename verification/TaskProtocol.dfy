/**
 * The durable task-route protocol as a step system. Any number of gateway handlers share one
 * store and one non-decreasing clock; each atomic store operation, clock read, upstream call
 * and cancel request is one step, and a handler may be dropped between any two steps.
 */
module TaskProtocol {
  import opened Common
  import opened TaskRoute
  import opened RouteStore

  const SUBMISSION_SCHEMA := "gaugemesh.task-submission/1"
  const MAX_INPUT_BYTES: nat := 64 * 1024
  const MAX_RUNTIME: nat := 30_000
  const MAX_OUTPUT_BYTES: nat := 64 * 1024
  const MAX_ARTIFACT_BYTES: nat := 8 * 1024 * 1024
  const MAX_RETENTION: nat := 60 * 60 * 1_000
  const MAX_CAS_ATTEMPTS: nat := 4
  const PURGE_BATCH: nat := 128
  const RUNTIME_BOUND := "GM_TASK_RUNTIME_BOUND_REACHED"

  datatype Arguments = Arguments(content: string, bytes: nat)

  /** The JSON a caller sends: either a complete document, or something with at most a deadline and a key. */
  datatype Document =
    | Complete(task: Submission)
    | Incomplete(deadline: Option<nat>, key: Option<string>)

  function DocumentDeadline(d: Document): Option<nat> {
    match d case Complete(t) => Some(t.deadline) case Incomplete(deadline, _) => deadline
  }

  function DocumentKey(d: Document): Option<string> {
    match d case Complete(t) => Some(t.idempotencyKey) case Incomplete(_, key) => key
  }

  predicate TaskIdentifier(s: string) {
    ValidIdentifier(s, 128) && forall i | 0 <= i < |s| :: !IsWhitespace(s[i])
  }

  function Parse(d: Document, args: Arguments, provider: string, effect: Effect, now: nat): (r: Result<Submission, string>)
    ensures r.Ok? ==>
              && d == Complete(r.value)
              && now < r.value.deadline <= SaturatingAdd(now, r.value.retention)
  {
    if args.bytes > MAX_INPUT_BYTES then Err("GM_TASK_INPUT_LIMIT_EXCEEDED")
    else if d.Incomplete? then Err("GM_TASK_SUBMISSION_INVALID")
    else
      var s := d.task;
      if s.schemaVersion != SUBMISSION_SCHEMA then Err("GM_TASK_SCHEMA_UNSUPPORTED")
      else if !TaskIdentifier(s.logicalTaskId) || !TaskIdentifier(s.attemptId) || !TaskIdentifier(s.correlationId)
              || !TaskIdentifier(s.idempotencyKey) || !TaskIdentifier(s.providerInterface) then
        Err("GM_TASK_IDENTITY_INVALID")
      else if s.input != Of(args.content) then Err("GM_TASK_INPUT_IDENTITY_MISMATCH")
      else if s.providerInterface != provider then Err("GM_TASK_PROVIDER_VERSION_UNSUPPORTED")
      else if s.policy == Zero || s.artifactScope == Zero then Err("GM_TASK_POLICY_IDENTITY_INVALID")
      else if s.deadline <= now || SaturatingSub(s.deadline, now) > MAX_RETENTION then Err("GM_TASK_DEADLINE_INVALID")
      else if s.retention < s.limits.maxRuntime || s.deadline > SaturatingAdd(now, s.retention)
              || s.retention > MAX_RETENTION || s.limits.maxRuntime == 0 || s.limits.maxRuntime > MAX_RUNTIME
              || s.limits.maxOutput == 0 || s.limits.maxOutput > MAX_OUTPUT_BYTES
              || s.limits.maxArtifact == 0 || s.limits.maxArtifact > MAX_ARTIFACT_BYTES
              || s.limits.maxAttempts != 1 then
        Err("GM_TASK_RESOURCE_LIMIT_INVALID")
      else if s.permittedEffect != effect then Err("GM_TASK_EFFECT_MISMATCH")
      else if !s.cleanupRequired then Err("GM_TASK_CLEANUP_REQUIRED")
      else Ok(s)
  }

  /** Bounded work: every limit positive and capped, one attempt, and time to keep what it may produce. */
  predicate Bounded(s: Submission) {
    && 0 < s.limits.maxRuntime <= 30_000 && s.limits.maxRuntime <= s.retention <= 3_600_000
    && 0 < s.limits.maxOutput <= 65_536 && 0 < s.limits.maxArtifact <= 8_388_608
    && s.limits.maxAttempts == 1 && s.cleanupRequired
  }

  /** A short word without whitespace or control characters. */
  predicate Named(s: string) {
    s != "" && Utf8Length(s) <= 128 && forall i | 0 <= i < |s| :: !IsControl(s[i]) && !IsWhitespace(s[i])
  }

  /** The document says who it is for, and speaks of exactly these arguments, this interface and this effect. */
  predicate Identified(s: Submission, args: Arguments, provider: string, effect: Effect) {
    && s.schemaVersion == "gaugemesh.task-submission/1"
    && Named(s.logicalTaskId) && Named(s.attemptId) && Named(s.correlationId) && Named(s.idempotencyKey) && Named(s.providerInterface)
    && s.input == Of(args.content) && s.providerInterface == provider && s.permittedEffect == effect
    && s.policy != Zero && s.artifactScope != Zero
  }

  /** Exactly which documents are accepted: identified, bounded, and due after now but within their retention. */
  lemma ParseAccepts(d: Document, args: Arguments, provider: string, effect: Effect, now: nat)
    ensures Parse(d, args, provider, effect, now).Ok? <==>
              && args.bytes <= 65_536 && d.Complete?
              && Identified(d.task, args, provider, effect) && Bounded(d.task)
              && now < d.task.deadline <= SaturatingAdd(now, d.task.retention) && d.task.deadline <= now + 3_600_000
    ensures Parse(d, args, provider, effect, now).Ok? ==> Parse(d, args, provider, effect, now).value == d.task
  {
    assert forall s :: TaskIdentifier(s) <==> Named(s);
    hide TaskIdentifier, Named;
  }

  /** What each refusal of a complete document says. */
  lemma ParseRefuses(t: Submission, args: Arguments, provider: string, effect: Effect, now: nat)
    requires Parse(Complete(t), args, provider, effect, now).Err?
    ensures match Parse(Complete(t), args, provider, effect, now).error
            case "GM_TASK_INPUT_LIMIT_EXCEEDED" => args.bytes > 65_536
            case "GM_TASK_SCHEMA_UNSUPPORTED" => t.schemaVersion != "gaugemesh.task-submission/1"
            case "GM_TASK_IDENTITY_INVALID" =>
              !Named(t.logicalTaskId) || !Named(t.attemptId) || !Named(t.correlationId) || !Named(t.idempotencyKey) || !Named(t.providerInterface)
            case "GM_TASK_INPUT_IDENTITY_MISMATCH" => t.input != Of(args.content)
            case "GM_TASK_PROVIDER_VERSION_UNSUPPORTED" => t.providerInterface != provider
            case "GM_TASK_POLICY_IDENTITY_INVALID" => t.policy == Zero || t.artifactScope == Zero
            case "GM_TASK_DEADLINE_INVALID" => t.deadline <= now || t.deadline > now + 3_600_000
            case "GM_TASK_RESOURCE_LIMIT_INVALID" => !Bounded(t) || t.deadline > SaturatingAdd(now, t.retention)
            case "GM_TASK_EFFECT_MISMATCH" => t.permittedEffect != effect
            case "GM_TASK_CLEANUP_REQUIRED" => !t.cleanupRequired
            case _ => false
  {
    assert forall s :: TaskIdentifier(s) <==> Named(s);
    hide TaskIdentifier, Named;
  }

  /** Dispatch is only allowed strictly before this time. */
  function ExecutionCutoff(r: Route): nat {
    match r.binding
    case TaskBinding(_, _, task) => Min(task.deadline, SaturatingAdd(r.created, task.limits.maxRuntime))
    case OtherBinding(_, _) => Min(r.expires, SaturatingAdd(r.created, MAX_RUNTIME))
  }

  // ---- handlers ----

  datatype Request = Request(caller: Caller, document: Document, arguments: Arguments, tool: Capability, recoveryOnly: bool)

  /** What a compare-and-set loop is trying to reach. */
  datatype Goal = Reconcile | RecordCancel | Finish(state: TerminalState)

  /** What the handler does with the record its loop returns. */
  datatype After = Return | RequestCancel | RequestCancelIfCurrent

  datatype Pc =
    | SubmitStart(request: Request)
    | SubmitClocked(request: Request, read: nat)
    | Recovering(request: Request, read: nat)
    | Preparing(request: Request, read: nat, task: Submission)
    | Beginning(request: Request, read: nat, task: Submission, record: Route)
    | Claiming(task: Submission, record: Route)
    | Claimed(task: Submission, record: Route)
    | Committed(task: Submission, record: Route)
    | Awaiting(record: Route)
    | CancellingRaw(record: Route)
    | Binding(record: Route, current: Route, uid: string, ack: bool, attempts: nat)
    | Rebinding(record: Route, uid: string, ack: bool, attempts: nat)
    | Bound(route: Route, uid: string, cancelRequired: bool, ack: bool)
    | Abandoning(record: Route, uid: string)
    | DecliningDispatch(record: Route)
    | Looping(goal: Goal, current: Route, attempts: nat, after: After)
    | Refetching(goal: Goal, current: Route, attempts: nat, after: After)
    | CheckingSource(record: Route)
    | ForwardingCancel(record: Route)
    | GetStart(caller: Caller, id: string)
    | GetRead(record: Route)
    | Polling(record: Route)
    | Polled(record: Route)
    | Reviving(record: Route, status: string, terminal: bool, bytes: nat)
    | CancelStart(caller: Caller, id: string)
    | CancelRead(record: Route)
    | Finished
    | Dropped(at: Pc)

  /** An upstream task id handed to a route by its dispatch, or asked to stop. */
  datatype Receipt = Receipt(route: string, uid: string)

  datatype Thread = Thread(instance: string, pc: Pc, received: Option<Receipt>)

  /** One submission sent upstream: for whom, which document, under which claimed record. */
  datatype Call = Call(caller: Caller, task: Submission, record: Route)

  /**
   * `minted`, `commits`, `calls` and `cancels` are history: public ids ever generated, records
   * ever made durable, submissions ever sent and cancel requests ever sent.
   */
  datatype World = World(now: nat, table: Table, threads: map<nat, Thread>, minted: set<string>,
                         commits: set<Route>, calls: seq<Call>, cancels: set<Receipt>)

  datatype Reply =
    | NoReply
    | Unexpected
    | TaskCreated(raw: string, ack: bool)
    | TaskCompleted(ack: bool, oversized: bool, bytes: nat)

  datatype PollReply =
    | PollFailed
    | PollTimedOut
    | PollMismatch
    | PollReported(status: string, terminal: bool, cancelled: bool, oversized: bool, bytes: nat)

  /** Everything a step takes from outside the gateway. */
  datatype Env = Env(freshId: string, snapshot: Option<string>, session: Option<string>, sourceCurrent: bool,
                     reply: Reply, poll: PollReply, cancelAcknowledged: bool)

  function Goto(w: World, tid: nat, pc: Pc): World
    requires tid in w.threads
  {
    w.(threads := w.threads[tid := w.threads[tid].(pc := pc)])
  }

  function SendCancel(w: World, route: string, uid: string): World {
    w.(cancels := w.cancels + {Receipt(route, uid)})
  }

  datatype CasOutcome = Won(route: Route) | Missing | Lost | Refused

  /** A compare-and-set from the version a handler last saw. */
  function Cas(w: World, seen: Route, u: Update): (World, CasOutcome) {
    var out := SqlCas(w.table, seen.caller, seen.id, seen.version, u);
    match out.1
    case Err(Stale) => (w, Lost)
    case Err(_) => (w, Refused)
    case Ok(None) => (w, Missing)
    case Ok(Some(next)) => (w.(table := out.0, commits := w.commits + {next}), Won(next))
  }

  function TransitionTime(w: World, r: Route): nat {
    Max(w.now, r.updated)
  }

  function Loop(goal: Goal, current: Route): Pc {
    Looping(goal, current, MAX_CAS_ATTEMPTS, Return)
  }

  function LoopThenCancel(current: Route): Pc {
    Looping(RecordCancel, current, MAX_CAS_ATTEMPTS, RequestCancel)
  }

  // ---- steps of a submission ----

  function StepSubmitStart(w: World, tid: nat, request: Request): World
    requires tid in w.threads
  {
    if !ValidCaller(request.caller) then Goto(w, tid, Finished)
    else Goto(w, tid, SubmitClocked(request, w.now))
  }

  /** Purge, then choose read-only recovery for an elapsed deadline. */
  function StepSubmitClocked(w: World, tid: nat, request: Request, read: nat): World
    requires tid in w.threads
  {
    var purged := w.(table := SqlPurge(w.table, read, PURGE_BATCH).0);
    var deadline := DocumentDeadline(request.document);
    if request.recoveryOnly || (deadline.Some? && deadline.value <= read) then Goto(purged, tid, Recovering(request, read))
    else
      match Parse(request.document, request.arguments, request.tool.schemaDigest, NonIdempotentWrite, read)
      case Err(_) => Goto(purged, tid, Finished)
      case Ok(task) => Goto(purged, tid, Preparing(request, read, task))
  }

  ghost function StepRecovering(w: World, tid: nat, request: Request, read: nat, env: Env): World
    requires tid in w.threads
  {
    var key := DocumentKey(request.document);
    if key.None? || !ValidIdentifier(key.value, MAX_IDENTIFIER_BYTES) then Goto(w, tid, Finished)
    else
      match SqlFind(w.table, request.caller, key.value)
      case None => Goto(w, tid, Finished)
      case Some(r) =>
        if IsExpired(r, read) then Goto(w, tid, Finished)
        else
          match Parse(request.document, request.arguments, request.tool.schemaDigest, NonIdempotentWrite, r.created)
          case Err(_) => Goto(w, tid, Finished)
          case Ok(task) =>
            if env.snapshot.None? || RequestDigest(TaskBinding(request.tool, env.snapshot.value, task)) != r.request then
              Goto(w, tid, Finished)
            else if r.phase.Prepared? then Goto(w, tid, DecliningDispatch(r))
            else if !r.phase.Terminal? && (r.phase.Dispatching? || !env.sourceCurrent) then Goto(w, tid, Loop(Reconcile, r))
            else Goto(w, tid, Finished)
  }

  function StepPreparing(w: World, tid: nat, request: Request, read: nat, task: Submission, env: Env): World
    requires tid in w.threads
  {
    if env.snapshot.None? || env.session.None? then Goto(w, tid, Finished)
    else
      var binding := TaskBinding(request.tool, env.snapshot.value, task);
      match PrepareWithId(env.freshId, request.caller, Some(task.idempotencyKey), RequestDigest(binding), binding,
                          request.tool, env.session.value, read, task.retention)
      case Err(_) => Goto(w, tid, Finished)
      case Ok(r) => Goto(w, tid, Beginning(request, read, task, r)).(minted := w.minted + {env.freshId})
  }

  ghost function StepBeginning(w: World, tid: nat, read: nat, task: Submission, record: Route, env: Env): World
    requires tid in w.threads
  {
    var out := SqlBegin(w.table, record);
    match out.1
    case Err(_) => Goto(w, tid, Finished)
    case Ok(Inserted(r)) => Goto(w.(table := out.0, commits := w.commits + {r}), tid, Claiming(task, r))
    case Ok(Existing(r)) =>
      if !r.phase.Terminal? && !env.sourceCurrent then Goto(w, tid, Loop(Reconcile, r))
      else if r.phase.Prepared? then Goto(w, tid, Claiming(task, r))
      else if r.phase.Dispatching? && (r.owner != Some(w.threads[tid].instance) || read >= ExecutionCutoff(r)) then
        Goto(w, tid, Loop(Reconcile, r))
      else Goto(w, tid, Finished)
  }

  function StepClaiming(w: World, tid: nat, task: Submission, record: Route): World
    requires tid in w.threads
  {
    var (w', outcome) := Cas(w, record, ToDispatching(w.threads[tid].instance, TransitionTime(w, record)));
    match outcome
    case Won(r) => Goto(w', tid, Claimed(task, r))
    case _ => Goto(w', tid, Finished)
  }

  /** The second clock read: no time left means the claim is given up. */
  function StepClaimed(w: World, tid: nat, task: Submission, record: Route): World
    requires tid in w.threads
  {
    if Min(SaturatingSub(ExecutionCutoff(record), w.now), MAX_RUNTIME) == 0 then Goto(w, tid, DecliningDispatch(record))
    else Goto(w, tid, Committed(task, record))
  }

  function StepCommitted(w: World, tid: nat, task: Submission, record: Route): World
    requires tid in w.threads
  {
    Goto(w, tid, Awaiting(record)).(calls := w.calls + [Call(record.caller, task, record)])
  }

  function StepAwaiting(w: World, tid: nat, record: Route, env: Env): World
    requires tid in w.threads
  {
    match env.reply
    case NoReply => Goto(w, tid, Loop(Reconcile, record))
    case Unexpected => Goto(w, tid, Loop(Reconcile, record))
    case TaskCreated(raw, ack) =>
      if !ValidIdentifier(raw, MAX_UPSTREAM_ID_BYTES) then Goto(w, tid, CancellingRaw(record))
      else
        w.(threads := w.threads[tid := w.threads[tid].(
             pc := Binding(record, record, raw, ack, MAX_CAS_ATTEMPTS), received := Some(Receipt(record.id, raw)))])
    case TaskCompleted(ack, oversized, bytes) =>
      if !ack then Goto(w, tid, Loop(Reconcile, record))
      else if w.now >= ExecutionCutoff(record) then
        Goto(w, tid, Loop(Finish(TerminalState(Rejected("GM_TASK_DEADLINE_EXCEEDED"), bytes)), record))
      else if oversized then
        Goto(w, tid, Loop(Finish(TerminalState(Rejected("GM_TASK_OUTPUT_LIMIT_EXCEEDED"), bytes)), record))
      else Goto(w, tid, Loop(Finish(TerminalState(Reported("completed"), bytes)), record))
  }

  /** One turn of the loop that binds an acknowledged upstream task to its route. */
  function StepBinding(w: World, tid: nat, record: Route, current: Route, uid: string, ack: bool, attempts: nat): World
    requires tid in w.threads
  {
    if attempts == 0 then Goto(w, tid, Abandoning(record, uid))
    else if current.upstream == Some(uid) then Goto(w, tid, Bound(current, uid, current.phase.CancelRequested?, ack))
    else if current.upstream.Some? || current.phase.Terminal? then Goto(w, tid, Bound(current, uid, true, ack))
    else
      var time := TransitionTime(w, current);
      match current.phase
      case Dispatching =>
        if current.owner == record.owner then BindWith(w, tid, record, current, uid, ack, attempts, ToRouted(uid, time))
        else Goto(w, tid, Bound(current, uid, true, ack))
      case ReconciliationRequired => BindWith(w, tid, record, current, uid, ack, attempts, ToRouted(uid, time))
      case CancelRequested => BindWith(w, tid, record, current, uid, ack, attempts, ToCancelWithUpstream(uid, time))
      case _ => Goto(w, tid, Abandoning(record, uid))
  }

  function BindWith(w: World, tid: nat, record: Route, current: Route, uid: string, ack: bool, attempts: nat, u: Update): World
    requires tid in w.threads && attempts > 0
  {
    var (w', outcome) := Cas(w, current, u);
    match outcome
    case Won(r) => Goto(w', tid, Bound(r, uid, r.phase.CancelRequested?, ack))
    case Lost => Goto(w', tid, Rebinding(record, uid, ack, attempts - 1))
    case _ => Goto(w', tid, Abandoning(record, uid))
  }

  function StepRebinding(w: World, tid: nat, record: Route, uid: string, ack: bool, attempts: nat): World
    requires tid in w.threads
  {
    match SqlGet(w.table, record.caller, record.id)
    case None => Goto(w, tid, Abandoning(record, uid))
    case Some(r) => Goto(w, tid, Binding(record, r, uid, ack, attempts))
  }

  function StepBound(w: World, tid: nat, route: Route, uid: string, cancelRequired: bool, ack: bool): World
    requires tid in w.threads
  {
    if cancelRequired then
      if route.upstream == Some(uid) && !route.phase.Terminal? then Goto(w, tid, LoopThenCancel(route))
      else Goto(w, tid, Abandoning(route, uid))
    else if !route.phase.Routed? then Goto(w, tid, Abandoning(route, uid))
    else if !ack || w.now >= ExecutionCutoff(route) then Goto(w, tid, LoopThenCancel(route))
    else Goto(w, tid, Finished)
  }

  // ---- shared store helpers ----

  /** The verdict that nothing was dispatched is written against the observed version only, once. */
  function StepDecliningDispatch(w: World, tid: nat, record: Route): World
    requires tid in w.threads
  {
    var (w', _) := Cas(w, record, ToTerminal(TransitionTime(w, record), NotDispatchedState()));
    Goto(w', tid, Finished)
  }

  function NotDispatchedState(): TerminalState {
    TerminalState(NotDispatched(RUNTIME_BOUND), 0)
  }

  predicate Reached(goal: Goal, phase: Phase) {
    match goal
    case Reconcile => phase.ReconciliationRequired? || phase.CancelRequested? || phase.Terminal?
    case RecordCancel => phase.CancelRequested? || phase.Terminal?
    case Finish(_) => phase.Terminal?
  }

  function GoalUpdate(goal: Goal, time: nat): Update {
    match goal
    case Reconcile => ToReconciliation(time)
    case RecordCancel => ToCancel(time)
    case Finish(state) => ToTerminal(time, state)
  }

  /** A fourth attempt may commit and the handler still report failure. */
  function StepLooping(w: World, tid: nat, goal: Goal, current: Route, attempts: nat, after: After): World
    requires tid in w.threads
  {
    if attempts == 0 then Goto(w, tid, Finished)
    else if Reached(goal, current.phase) then
      Goto(w, tid, match after
                   case Return => Finished
                   case RequestCancel => ForwardingCancel(current)
                   case RequestCancelIfCurrent => CheckingSource(current))
    else
      var (w', outcome) := Cas(w, current, GoalUpdate(goal, TransitionTime(w, current)));
      match outcome
      case Won(r) => Goto(w', tid, Looping(goal, r, attempts - 1, after))
      case Lost => Goto(w', tid, Refetching(goal, current, attempts - 1, after))
      case _ => Goto(w', tid, Finished)
  }

  function StepRefetching(w: World, tid: nat, goal: Goal, current: Route, attempts: nat, after: After): World
    requires tid in w.threads
  {
    match SqlGet(w.table, current.caller, current.id)
    case None => Goto(w, tid, Finished)
    case Some(r) => Goto(w, tid, Looping(goal, r, attempts, after))
  }

  /** A caller's cancellation is forwarded only while the bound session is current. */
  function StepCheckingSource(w: World, tid: nat, record: Route, env: Env): World
    requires tid in w.threads
  {
    if record.upstream.Some? && !env.sourceCurrent then Goto(w, tid, Finished)
    else Goto(w, tid, ForwardingCancel(record))
  }

  /** Cancellation intent is durable; ask the upstream to stop when its task is known. */
  function StepForwardingCancel(w: World, tid: nat, record: Route, env: Env): World
    requires tid in w.threads
  {
    if record.phase.Terminal? || record.upstream.None? then Goto(w, tid, Finished)
    else
      var sent := SendCancel(w, record.id, record.upstream.value);
      if env.cancelAcknowledged then Goto(sent, tid, Finished) else Goto(sent, tid, Loop(Reconcile, record))
  }

  // ---- steps of get and cancel ----

  function StepGetStart(w: World, tid: nat, caller: Caller, id: string): World
    requires tid in w.threads
  {
    match SqlGet(w.table, caller, id)
    case None => Goto(w, tid, Finished)
    case Some(r) => Goto(w, tid, GetRead(r))
  }

  function StepGetRead(w: World, tid: nat, r: Route, env: Env): World
    requires tid in w.threads
  {
    var late := w.now >= ExecutionCutoff(r);
    if IsExpired(r, w.now) || r.phase.Terminal? then Goto(w, tid, Finished)
    else if r.upstream.Some? && !env.sourceCurrent then Goto(w, tid, Loop(Reconcile, r))
    else
      match r.phase
      case Prepared => Goto(w, tid, if late then DecliningDispatch(r) else Finished)
      case Dispatching =>
        Goto(w, tid, if late || r.owner != Some(w.threads[tid].instance) then Loop(Reconcile, r) else Finished)
      case CancelRequested => Goto(w, tid, if r.upstream.None? then Finished else Polling(r))
      case _ =>
        if r.upstream.None? then Goto(w, tid, Finished)
        else if late then Goto(w, tid, LoopThenCancel(r))
        else Goto(w, tid, Polling(r))
  }

  function StepPolling(w: World, tid: nat, r: Route): World
    requires tid in w.threads
  {
    if r.upstream.None? then Goto(w, tid, Finished)
    else
      var sent := if r.phase.CancelRequested? then SendCancel(w, r.id, r.upstream.value) else w;
      if w.now >= ExecutionCutoff(r) && !r.phase.CancelRequested? then Goto(sent, tid, LoopThenCancel(r))
      else Goto(sent, tid, Polled(r))
  }

  function StepPolled(w: World, tid: nat, r: Route, env: Env): World
    requires tid in w.threads
  {
    match env.poll
    case PollFailed => Goto(w, tid, Loop(Reconcile, r))
    case PollTimedOut => Goto(w, tid, LoopThenCancel(r))
    case PollMismatch => Goto(w, tid, Loop(Reconcile, r))
    case PollReported(status, terminal, cancelled, oversized, bytes) =>
      if w.now >= ExecutionCutoff(r) && !cancelled then
        if terminal then Goto(w, tid, Loop(Finish(TerminalState(Rejected("GM_TASK_DEADLINE_EXCEEDED"), bytes)), r))
        else Goto(w, tid, LoopThenCancel(r))
      else if oversized then
        if terminal then Goto(w, tid, Loop(Finish(TerminalState(Rejected("GM_TASK_OUTPUT_LIMIT_EXCEEDED"), bytes)), r))
        else Goto(w, tid, LoopThenCancel(r))
      else if r.phase.ReconciliationRequired? then Goto(w, tid, Reviving(r, status, terminal, bytes))
      else if terminal then Goto(w, tid, Loop(Finish(TerminalState(Reported(status), bytes)), r))
      else Goto(w, tid, Finished)
  }

  /** A matching report moves a route of unknown outcome back to routed, if nobody moved it first. */
  function StepReviving(w: World, tid: nat, r: Route, status: string, terminal: bool, bytes: nat): World
    requires tid in w.threads
  {
    if r.upstream.None? then Goto(w, tid, Finished)
    else
      var (w', outcome) := Cas(w, r, ToRouted(r.upstream.value, TransitionTime(w, r)));
      var finish := Finish(TerminalState(Reported(status), bytes));
      match outcome
      case Won(active) => Goto(w', tid, if terminal then Loop(finish, active) else Finished)
      case Lost => Goto(w', tid, if terminal then Refetching(finish, r, MAX_CAS_ATTEMPTS, Return) else Finished)
      case _ => Goto(w', tid, Finished)
  }

  function StepCancelStart(w: World, tid: nat, caller: Caller, id: string): World
    requires tid in w.threads
  {
    match SqlGet(w.table, caller, id)
    case None => Goto(w, tid, Finished)
    case Some(r) => Goto(w, tid, CancelRead(r))
  }

  function StepCancelRead(w: World, tid: nat, r: Route): World
    requires tid in w.threads
  {
    if IsExpired(r, w.now) || r.phase.Terminal? then Goto(w, tid, Finished)
    else Goto(w, tid, Looping(RecordCancel, r, MAX_CAS_ATTEMPTS, RequestCancelIfCurrent))
  }

  // ---- the system ----

  ghost function StepThread(w: World, tid: nat, env: Env): World
    requires tid in w.threads
  {
    match w.threads[tid].pc
    case SubmitStart(q) => StepSubmitStart(w, tid, q)
    case SubmitClocked(q, read) => StepSubmitClocked(w, tid, q, read)
    case Recovering(q, read) => StepRecovering(w, tid, q, read, env)
    case Preparing(q, read, task) => StepPreparing(w, tid, q, read, task, env)
    case Beginning(q, read, task, r) => StepBeginning(w, tid, read, task, r, env)
    case Claiming(task, r) => StepClaiming(w, tid, task, r)
    case Claimed(task, r) => StepClaimed(w, tid, task, r)
    case Committed(task, r) => StepCommitted(w, tid, task, r)
    case Awaiting(r) => StepAwaiting(w, tid, r, env)
    case CancellingRaw(r) => Goto(w, tid, Loop(Reconcile, r))
    case Binding(r, current, uid, ack, n) => StepBinding(w, tid, r, current, uid, ack, n)
    case Rebinding(r, uid, ack, n) => StepRebinding(w, tid, r, uid, ack, n)
    case Bound(r, uid, must, ack) => StepBound(w, tid, r, uid, must, ack)
    case Abandoning(r, uid) => Goto(SendCancel(w, r.id, uid), tid, Finished)
    case DecliningDispatch(r) => StepDecliningDispatch(w, tid, r)
    case Looping(goal, current, n, after) => StepLooping(w, tid, goal, current, n, after)
    case Refetching(goal, current, n, after) => StepRefetching(w, tid, goal, current, n, after)
    case CheckingSource(r) => StepCheckingSource(w, tid, r, env)
    case ForwardingCancel(r) => StepForwardingCancel(w, tid, r, env)
    case GetStart(c, id) => StepGetStart(w, tid, c, id)
    case GetRead(r) => StepGetRead(w, tid, r, env)
    case Polling(r) => StepPolling(w, tid, r)
    case Polled(r) => StepPolled(w, tid, r, env)
    case Reviving(r, status, terminal, bytes) => StepReviving(w, tid, r, status, terminal, bytes)
    case CancelStart(c, id) => StepCancelStart(w, tid, c, id)
    case CancelRead(r) => StepCancelRead(w, tid, r)
    case Finished => w
    case Dropped(_) => w
  }

  datatype Action =
    | Tick(to: nat)
    | Spawn(tid: nat, instance: string, pc: Pc)
    | Drop(tid: nat)
    | Run(tid: nat, env: Env)

  predicate Entry(pc: Pc) {
    pc.SubmitStart? || pc.GetStart? || pc.CancelStart?
  }

  /** Time never goes back, handlers are numbered apart, and generated public ids are never repeated. */
  predicate Enabled(w: World, a: Action) {
    match a
    case Tick(to) => w.now <= to
    case Spawn(tid, _, pc) => tid !in w.threads && Entry(pc)
    case Drop(tid) => tid in w.threads
    case Run(tid, env) => tid in w.threads && (w.threads[tid].pc.Preparing? ==> env.freshId !in w.minted)
  }

  ghost function Next(w: World, a: Action): World
    requires Enabled(w, a)
  {
    match a
    case Tick(to) => w.(now := to)
    case Spawn(tid, instance, pc) => w.(threads := w.threads[tid := Thread(instance, pc, None)])
    case Drop(tid) => Goto(w, tid, Dropped(w.threads[tid].pc))
    case Run(tid, env) => StepThread(w, tid, env)
  }

  ghost predicate Init(w: World) {
    w.table == map[] && w.threads == map[] && w.minted == {} && w.commits == {} && w.calls == [] && w.cancels == {}
  }

  /** Worlds some finite run from an empty store passes through. */
  ghost predicate Execution(run: seq<World>) {
    && |run| > 0
    && Init(run[0])
    && forall k | 0 < k < |run| :: Steps(run[k - 1], run[k])
  }

  ghost predicate Steps(w: World, w': World) {
    exists a :: Enabled(w, a) && Next(w, a) == w'
  }
}
