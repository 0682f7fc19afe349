/**
 * Where verdicts and calls come from: a recorded outcome is one that the provider reported for that
 * route, judged against its limits when it was heard, and every call was decided within them.
 */
module TaskProtocolReports {
  import opened Common
  import opened TaskRoute
  import opened RouteStore
  import opened TaskProtocol
  import opened TaskProtocolSafety
  import opened TaskProtocolIsolation

  // ---- the time a task has ----

  /**
   * The task's deadline has passed, or it has had its whole runtime since its route was prepared; what
   * is not a task has until its route expires, and at most half a minute.
   */
  predicate Late(now: nat, r: Route) {
    match r.binding
    case TaskBinding(_, _, task) => now >= task.deadline || now >= r.created + task.limits.maxRuntime
    case OtherBinding(_, _) => now >= r.expires || now >= r.created + 30_000
  }

  /** Dispatch is allowed exactly until then. */
  lemma CutoffIsLateness(now: nat, r: Route)
    requires WellShaped(r) && (r.binding.TaskBinding? ==> r.binding.task.deadline <= r.expires)
    ensures now >= ExecutionCutoff(r) <==> Late(now, r)
  {
    ExpiresInTime(r);
    hide WellShaped;
  }

  lemma CutoffLaw(now: nat, r: Route)
    requires RouteOk(r)
    ensures now >= ExecutionCutoff(r) <==> Late(now, r)
  {
    hide WellShaped, Late, ExecutionCutoff;
    CutoffIsLateness(now, r);
  }

  lemma ExpiresInTime(r: Route)
    requires WellShaped(r)
    ensures r.expires <= MAX_U64
  {
  }

  // ---- what a handler hears ----

  /** What a finished task is worth: late unless it was cancelled, too large, or what was reported. */
  predicate Judged(now: nat, r: Route, cancelled: bool, oversized: bool, status: string, verdict: Verdict) {
    if Late(now, r) && !cancelled then verdict == Rejected("GM_TASK_DEADLINE_EXCEEDED")
    else if oversized then verdict == Rejected("GM_TASK_OUTPUT_LIMIT_EXCEEDED")
    else verdict == Reported(status)
  }

  /** This handler, in this step, is told by the provider that the task of this route has ended so. */
  predicate Hears(w: World, tid: nat, env: Env, id: string, state: TerminalState) {
    tid in w.threads
    && match w.threads[tid].pc
       case Awaiting(r) =>
         && r.id == id && env.reply.TaskCompleted? && env.reply.ack && state.bytes == env.reply.bytes
         && Judged(w.now, r, false, env.reply.oversized, "completed", state.verdict)
       case Polled(r) =>
         && r.id == id && env.poll.PollReported? && env.poll.terminal && state.bytes == env.poll.bytes
         && Judged(w.now, r, env.poll.cancelled, env.poll.oversized, env.poll.status, state.verdict)
       case _ => false
  }

  /** The outcome a handler is about to record. */
  predicate Carries(pc: Pc, id: string, state: TerminalState) {
    match pc
    case Looping(Finish(x), r, _, _) => r.id == id && x == state
    case Refetching(Finish(x), r, _, _) => r.id == id && x == state
    case Reviving(r, status, terminal, bytes) => r.id == id && terminal && state == TerminalState(Reported(status), bytes)
    case _ => false
  }

  /** The record holds an outcome that came from the provider. */
  predicate Outcome(r: Route, state: TerminalState) {
    r.cached == Some(state) && !state.verdict.NotDispatched?
  }

  /** This handler holds the claim of a route whose task still has time. */
  predicate Decides(w: World, tid: nat, r: Route) {
    tid in w.threads && w.threads[tid].pc.Claimed? && w.threads[tid].pc.record == r && !Late(w.now, r)
  }

  /**
   * What a handler's step records it carried, and what it carries after the step it carried or heard;
   * it decides to call only in time, and calls only what it decided.
   */
  ghost predicate Honest(w: World, w': World, tid: nat, env: Env) {
    && tid in w.threads && tid in w'.threads
    && (forall id, x | Carries(w'.threads[tid].pc, id, x) :: Carries(w.threads[tid].pc, id, x) || Hears(w, tid, env, id, x))
    && (forall r, x | r in w'.commits && r !in w.commits && Outcome(r, x) :: Carries(w.threads[tid].pc, r.id, x))
    && (w'.threads[tid].pc.Committed? ==> Decides(w, tid, w'.threads[tid].pc.record))
    && (w'.calls == w.calls
        || (w.threads[tid].pc.Committed? && w'.calls == w.calls + [Call(w.threads[tid].pc.record.caller, w.threads[tid].pc.task, w.threads[tid].pc.record)]))
  }

  predicate Silent(pc: Pc) {
    && !pc.Reviving? && !pc.Committed?
    && (pc.Looping? ==> !pc.goal.Finish?)
    && (pc.Refetching? ==> !pc.goal.Finish?)
  }

  lemma SilentCarriesNothing(pc: Pc, id: string, x: TerminalState)
    requires Silent(pc)
    ensures !Carries(pc, id, x)
  {
  }

  /** A step that records no outcome and leaves nothing to record. */
  lemma SilentStep(w: World, w': World, tid: nat, env: Env)
    requires tid in w.threads && tid in w'.threads && Silent(w'.threads[tid].pc)
    requires w'.calls == w.calls && forall r, x | r in w'.commits && r !in w.commits :: !Outcome(r, x)
    ensures Honest(w, w', tid, env)
  {
    hide Carries, Hears, Outcome, Decides;
    forall id, x
      ensures !Carries(w'.threads[tid].pc, id, x)
    {
      SilentCarriesNothing(w'.threads[tid].pc, id, x);
    }
  }

  // ---- steps of a submission ----

  lemma SubmitStartIsHonest(w: World, tid: nat, q: Request, env: Env)
    requires tid in w.threads
    ensures Honest(w, StepSubmitStart(w, tid, q), tid, env)
  {
    hide ValidCaller, Honest, Outcome;
    SilentStep(w, StepSubmitStart(w, tid, q), tid, env);
  }

  lemma ClockedIsHonest(w: World, tid: nat, q: Request, read: nat, env: Env)
    requires tid in w.threads
    ensures Honest(w, StepSubmitClocked(w, tid, q, read), tid, env)
  {
    hide Parse, SqlPurge, Honest, Outcome;
    SilentStep(w, StepSubmitClocked(w, tid, q, read), tid, env);
  }

  lemma RecoveringIsHonest(w: World, tid: nat, q: Request, read: nat, env: Env)
    requires tid in w.threads
    ensures Honest(w, StepRecovering(w, tid, q, read, env), tid, env)
  {
    hide Parse, SqlFind, ValidIdentifier, Honest, Outcome;
    SilentStep(w, StepRecovering(w, tid, q, read, env), tid, env);
  }

  lemma PreparingIsHonest(w: World, tid: nat, q: Request, read: nat, task: Submission, env: Env)
    requires tid in w.threads
    ensures Honest(w, StepPreparing(w, tid, q, read, task, env), tid, env)
  {
    hide PrepareWithId, Honest, Outcome;
    SilentStep(w, StepPreparing(w, tid, q, read, task, env), tid, env);
  }

  lemma InsertedHasNoOutcome(t: Table, rec: Route)
    ensures SqlBegin(t, rec).1.Ok? && SqlBegin(t, rec).1.value.Inserted? ==> forall x :: !Outcome(SqlBegin(t, rec).1.value.route, x)
  {
    if VerifyPreparedForBegin(rec).None? {
      PreparedIsWellShaped(rec);
    }
    hide VerifyPreparedForBegin, WithoutExpired, Active, SqlLookup;
  }

  lemma BeginningIsHonest(w: World, tid: nat, read: nat, task: Submission, r: Route, env: Env)
    requires tid in w.threads
    ensures Honest(w, StepBeginning(w, tid, read, task, r, env), tid, env)
  {
    InsertedHasNoOutcome(w.table, r);
    hide SqlBegin, ExecutionCutoff, Honest, Outcome;
    SilentStep(w, StepBeginning(w, tid, read, task, r, env), tid, env);
  }

  /** A compare-and-set records what its update holds, for the route it names. */
  lemma CasRecords(w: World, seen: Route, u: Update)
    requires StoreInv(w)
    ensures var (w', outcome) := Cas(w, seen, u);
      && w'.threads == w.threads && w'.calls == w.calls
      && (outcome.Won? ==> outcome.route.id == seen.id)
      && forall r | r in w'.commits && r !in w.commits :: r.id == seen.id && r.cached == u.cached
  {
    hide Transition, RouteOk, Agree, WellShaped;
    if seen.id in w.table && w.table[seen.id].caller == seen.caller && Transition(w.table[seen.id], u).Ok? {
      assert WellShaped(w.table[seen.id]);
      TransitionFacts(w.table[seen.id], u);
    }
  }

  /** A compare-and-set without an outcome, and then a silent point. */
  lemma SilentCas(w: World, w': World, tid: nat, env: Env, seen: Route, u: Update)
    requires StoreInv(w) && tid in w.threads && tid in w'.threads && Silent(w'.threads[tid].pc)
    requires w'.commits == Cas(w, seen, u).0.commits && w'.calls == w.calls
    requires u.cached.None? || u.cached.value.verdict.NotDispatched?
    ensures Honest(w, w', tid, env)
  {
    CasRecords(w, seen, u);
    hide Cas, StoreInv, Silent, Honest;
    SilentStep(w, w', tid, env);
  }

  lemma ClaimingIsHonest(w: World, tid: nat, task: Submission, r: Route, env: Env)
    requires StoreInv(w) && tid in w.threads
    ensures Honest(w, StepClaiming(w, tid, task, r), tid, env)
  {
    var u := ToDispatching(w.threads[tid].instance, TransitionTime(w, r));
    CasRecords(w, r, u);
    hide Cas, StoreInv, Honest;
    SilentCas(w, StepClaiming(w, tid, task, r), tid, env, r, u);
  }

  lemma ClaimedIsHonest(w: World, tid: nat, task: Submission, r: Route, env: Env)
    requires tid in w.threads && w.threads[tid].pc == Claimed(task, r) && RouteOk(r)
    ensures Honest(w, StepClaimed(w, tid, task, r), tid, env)
  {
    CutoffLaw(w.now, r);
    hide ExecutionCutoff, RouteOk, Late, Outcome, Hears;
  }

  lemma CommittedIsHonest(w: World, tid: nat, task: Submission, r: Route, env: Env)
    requires tid in w.threads && w.threads[tid].pc == Committed(task, r)
    ensures Honest(w, StepCommitted(w, tid, task, r), tid, env)
  {
    hide Outcome, Hears;
  }

  // ---- steps that hear ----

  lemma AwaitingIsHonest(w: World, tid: nat, r: Route, env: Env)
    requires tid in w.threads && w.threads[tid].pc == Awaiting(r) && RouteOk(r)
    ensures Honest(w, StepAwaiting(w, tid, r, env), tid, env)
  {
    CutoffLaw(w.now, r);
    hide ExecutionCutoff, ValidIdentifier, RouteOk, Late, Outcome;
  }

  lemma PolledIsHonest(w: World, tid: nat, r: Route, env: Env)
    requires tid in w.threads && w.threads[tid].pc == Polled(r) && RouteOk(r)
    ensures Honest(w, StepPolled(w, tid, r, env), tid, env)
  {
    CutoffLaw(w.now, r);
    hide ExecutionCutoff, RouteOk, Late, Outcome;
  }

  // ---- steps after a reply ----

  lemma BindWithIsHonest(w: World, tid: nat, r: Route, current: Route, uid: string, ack: bool, n: nat, u: Update, env: Env)
    requires StoreInv(w) && tid in w.threads && n > 0 && u.cached.None?
    ensures Honest(w, BindWith(w, tid, r, current, uid, ack, n, u), tid, env)
  {
    CasRecords(w, current, u);
    hide Cas, StoreInv, Honest;
    SilentCas(w, BindWith(w, tid, r, current, uid, ack, n, u), tid, env, current, u);
  }

  lemma BindingIsHonest(w: World, tid: nat, r: Route, current: Route, uid: string, ack: bool, n: nat, env: Env)
    requires StoreInv(w) && tid in w.threads
    ensures Honest(w, StepBinding(w, tid, r, current, uid, ack, n), tid, env)
  {
    hide StoreInv, BindWith, Honest, Outcome;
    var time := TransitionTime(w, current);
    if n > 0 {
      BindWithIsHonest(w, tid, r, current, uid, ack, n, ToRouted(uid, time), env);
      BindWithIsHonest(w, tid, r, current, uid, ack, n, ToCancelWithUpstream(uid, time), env);
    }
    SilentStep(w, Goto(w, tid, Abandoning(r, uid)), tid, env);
    SilentStep(w, Goto(w, tid, Bound(current, uid, current.phase.CancelRequested?, ack)), tid, env);
    SilentStep(w, Goto(w, tid, Bound(current, uid, true, ack)), tid, env);
    hide Goto;
  }

  lemma BoundIsHonest(w: World, tid: nat, r: Route, uid: string, must: bool, ack: bool, n: nat, env: Env)
    requires tid in w.threads
    ensures Honest(w, StepRebinding(w, tid, r, uid, ack, n), tid, env) && Honest(w, StepBound(w, tid, r, uid, must, ack), tid, env)
  {
    hide SqlGet, ExecutionCutoff, Honest, Outcome;
    SilentStep(w, StepRebinding(w, tid, r, uid, ack, n), tid, env);
    SilentStep(w, StepBound(w, tid, r, uid, must, ack), tid, env);
  }

  lemma AbandoningIsHonest(w: World, tid: nat, r: Route, uid: string, env: Env)
    requires tid in w.threads
    ensures Honest(w, Goto(SendCancel(w, r.id, uid), tid, Finished), tid, env) && Honest(w, Goto(w, tid, Loop(Reconcile, r)), tid, env)
  {
    hide Honest, Outcome;
    SilentStep(w, Goto(SendCancel(w, r.id, uid), tid, Finished), tid, env);
    SilentStep(w, Goto(w, tid, Loop(Reconcile, r)), tid, env);
  }

  lemma DecliningIsHonest(w: World, tid: nat, r: Route, env: Env)
    requires StoreInv(w) && tid in w.threads
    ensures Honest(w, StepDecliningDispatch(w, tid, r), tid, env)
  {
    var u := ToTerminal(TransitionTime(w, r), NotDispatchedState());
    CasRecords(w, r, u);
    hide Cas, StoreInv, Honest;
    SilentCas(w, StepDecliningDispatch(w, tid, r), tid, env, r, u);
  }

  // ---- steps that settle ----

  lemma LoopsCarryAlike(goal: Goal, r: Route, r': Route, n: nat, n': nat, after: After, id: string, x: TerminalState)
    requires r.id == r'.id
    ensures Carries(Looping(goal, r', n', after), id, x) <==> Carries(Looping(goal, r, n, after), id, x)
    ensures Carries(Refetching(goal, r', n', after), id, x) <==> Carries(Looping(goal, r, n, after), id, x)
    ensures !Carries(Finished, id, x)
  {
  }

  lemma GoalIsCarried(goal: Goal, current: Route, time: nat, n: nat, after: After, r: Route, x: TerminalState)
    requires r.id == current.id && r.cached == GoalUpdate(goal, time).cached && Outcome(r, x)
    ensures Carries(Looping(goal, current, n, after), r.id, x)
  {
  }

  lemma LoopingIsHonest(w: World, tid: nat, goal: Goal, current: Route, n: nat, after: After, env: Env)
    requires StoreInv(w) && tid in w.threads && w.threads[tid].pc == Looping(goal, current, n, after)
    ensures Honest(w, StepLooping(w, tid, goal, current, n, after), tid, env)
  {
    hide Cas, StoreInv, Hears, Outcome, Reached, GoalUpdate, Carries;
    if n == 0 || Reached(goal, current.phase) {
      ReachedIsHonest(w, tid, goal, current, n, after, env);
    } else {
      var time := TransitionTime(w, current);
      var u := GoalUpdate(goal, time);
      CasRecords(w, current, u);
      var w' := StepLooping(w, tid, goal, current, n, after);
      forall id, x | Carries(w'.threads[tid].pc, id, x)
        ensures Carries(w.threads[tid].pc, id, x)
      {
        var outcome := Cas(w, current, u).1;
        LoopsCarryAlike(goal, current, if outcome.Won? then outcome.route else current, n, n - 1, after, id, x);
      }
      forall r, x | r in w'.commits && r !in w.commits && Outcome(r, x)
        ensures Carries(w.threads[tid].pc, r.id, x)
      {
        GoalIsCarried(goal, current, time, n, after, r, x);
      }
    }
  }

  lemma ReachedIsHonest(w: World, tid: nat, goal: Goal, current: Route, n: nat, after: After, env: Env)
    requires tid in w.threads && (n == 0 || Reached(goal, current.phase))
    ensures Honest(w, StepLooping(w, tid, goal, current, n, after), tid, env)
  {
    hide Cas, Honest, Outcome, Reached, GoalUpdate;
    SilentStep(w, StepLooping(w, tid, goal, current, n, after), tid, env);
  }

  lemma RefetchingIsHonest(w: World, tid: nat, goal: Goal, current: Route, n: nat, after: After, env: Env)
    requires StoreInv(w) && tid in w.threads && w.threads[tid].pc == Refetching(goal, current, n, after)
    ensures Honest(w, StepRefetching(w, tid, goal, current, n, after), tid, env)
  {
    hide RouteOk, Agree, WellShaped, Hears, Outcome;
  }

  lemma RevivedCarriesAlike(r: Route, r': Route, status: string, bytes: nat, n: nat, id: string, x: TerminalState)
    requires r.id == r'.id
    ensures var finish := Finish(TerminalState(Reported(status), bytes));
      && (Carries(Looping(finish, r', n, Return), id, x) <==> Carries(Reviving(r, status, true, bytes), id, x))
      && (Carries(Refetching(finish, r', n, Return), id, x) <==> Carries(Reviving(r, status, true, bytes), id, x))
    ensures !Carries(Finished, id, x)
  {
  }

  lemma RevivingIsHonest(w: World, tid: nat, r: Route, status: string, terminal: bool, bytes: nat, env: Env)
    requires StoreInv(w) && tid in w.threads && w.threads[tid].pc == Reviving(r, status, terminal, bytes)
    ensures Honest(w, StepReviving(w, tid, r, status, terminal, bytes), tid, env)
  {
    hide Cas, StoreInv, Hears, Carries;
    var w' := StepReviving(w, tid, r, status, terminal, bytes);
    var u := ToRouted(if r.upstream.Some? then r.upstream.value else "", TransitionTime(w, r));
    CasRecords(w, r, u);
    var outcome := Cas(w, r, u).1;
    forall id, x | Carries(w'.threads[tid].pc, id, x)
      ensures Carries(w.threads[tid].pc, id, x)
    {
      RevivedCarriesAlike(r, if outcome.Won? then outcome.route else r, status, bytes, MAX_CAS_ATTEMPTS, id, x);
    }
  }

  lemma CancelsAreHonest(w: World, tid: nat, r: Route, env: Env)
    requires tid in w.threads
    ensures Honest(w, StepCheckingSource(w, tid, r, env), tid, env) && Honest(w, StepForwardingCancel(w, tid, r, env), tid, env)
    ensures Honest(w, StepCancelRead(w, tid, r), tid, env)
  {
    hide Honest, Outcome;
    SilentStep(w, StepCheckingSource(w, tid, r, env), tid, env);
    SilentStep(w, StepForwardingCancel(w, tid, r, env), tid, env);
    SilentStep(w, StepCancelRead(w, tid, r), tid, env);
  }

  lemma StartIsHonest(w: World, tid: nat, caller: Caller, id: string, env: Env)
    requires tid in w.threads
    ensures Honest(w, StepGetStart(w, tid, caller, id), tid, env) && Honest(w, StepCancelStart(w, tid, caller, id), tid, env)
  {
    hide SqlGet, Honest, Outcome;
    SilentStep(w, StepGetStart(w, tid, caller, id), tid, env);
    SilentStep(w, StepCancelStart(w, tid, caller, id), tid, env);
  }

  lemma GetReadIsHonest(w: World, tid: nat, r: Route, env: Env)
    requires tid in w.threads
    ensures Honest(w, StepGetRead(w, tid, r, env), tid, env) && Honest(w, StepPolling(w, tid, r), tid, env)
  {
    hide ExecutionCutoff, Honest, Outcome;
    SilentStep(w, StepGetRead(w, tid, r, env), tid, env);
    SilentStep(w, StepPolling(w, tid, r), tid, env);
  }

  // ---- one step, and whole executions ----

  lemma InvHasStore(w: World)
    requires Inv(w)
    ensures StoreInv(w)
  {
  }

  lemma SubmittingIsHonest(w: World, tid: nat, env: Env)
    requires Inv(w) && tid in w.threads && Submitting(w.threads[tid].pc)
    ensures Honest(w, StepThread(w, tid, env), tid, env)
  {
    hide Inv, StoreInv, ThreadInv, PcOk, RouteOk, Carries, Hears, Outcome, Honest, StepSubmitStart, StepSubmitClocked, StepRecovering, StepPreparing, StepBeginning, StepClaiming,
      StepClaimed, StepCommitted, StepAwaiting, StepBinding, StepRebinding, StepBound, StepDecliningDispatch, StepLooping,
      StepRefetching, StepCheckingSource, StepForwardingCancel, StepGetStart, StepGetRead, StepPolling, StepPolled, StepReviving,
      StepCancelStart, StepCancelRead, Goto;
    InvHasStore(w);
    match w.threads[tid].pc {
      case SubmitStart(q) => SubmitStartIsHonest(w, tid, q, env);
      case SubmitClocked(q, read) => ClockedIsHonest(w, tid, q, read, env);
      case Recovering(q, read) => RecoveringIsHonest(w, tid, q, read, env);
      case Preparing(q, read, task) => PreparingIsHonest(w, tid, q, read, task, env);
      case Beginning(q, read, task, r) => BeginningIsHonest(w, tid, read, task, r, env);
      case Claiming(task, r) => ClaimingIsHonest(w, tid, task, r, env);
      case Claimed(task, r) =>
        RecordIsOk(w, tid);
        ClaimedIsHonest(w, tid, task, r, env);
      case Committed(task, r) => CommittedIsHonest(w, tid, task, r, env);
    }
  }

  lemma ReplyingIsHonest(w: World, tid: nat, env: Env)
    requires Inv(w) && tid in w.threads && Replying(w.threads[tid].pc)
    ensures Honest(w, StepThread(w, tid, env), tid, env)
  {
    hide Inv, StoreInv, ThreadInv, PcOk, RouteOk, Carries, Hears, Outcome, Honest, StepSubmitStart, StepSubmitClocked, StepRecovering, StepPreparing, StepBeginning, StepClaiming,
      StepClaimed, StepCommitted, StepAwaiting, StepBinding, StepRebinding, StepBound, StepDecliningDispatch, StepLooping,
      StepRefetching, StepCheckingSource, StepForwardingCancel, StepGetStart, StepGetRead, StepPolling, StepPolled, StepReviving,
      StepCancelStart, StepCancelRead, Goto;
    InvHasStore(w);
    match w.threads[tid].pc {
      case Awaiting(r) =>
        RecordIsOk(w, tid);
        AwaitingIsHonest(w, tid, r, env);
      case CancellingRaw(r) => AbandoningIsHonest(w, tid, r, "", env);
      case Binding(r, current, uid, ack, n) => BindingIsHonest(w, tid, r, current, uid, ack, n, env);
      case Rebinding(r, uid, ack, n) => BoundIsHonest(w, tid, r, uid, true, ack, n, env);
      case Bound(r, uid, must, ack) => BoundIsHonest(w, tid, r, uid, must, ack, 0, env);
      case Abandoning(r, uid) => AbandoningIsHonest(w, tid, r, uid, env);
      case DecliningDispatch(r) => DecliningIsHonest(w, tid, r, env);
    }
  }

  lemma SettlingIsHonest(w: World, tid: nat, env: Env)
    requires Inv(w) && tid in w.threads && Settling(w.threads[tid].pc)
    ensures Honest(w, StepThread(w, tid, env), tid, env)
  {
    hide Inv, StoreInv, ThreadInv, PcOk, RouteOk, Carries, Hears, Outcome, Honest, StepSubmitStart, StepSubmitClocked, StepRecovering, StepPreparing, StepBeginning, StepClaiming,
      StepClaimed, StepCommitted, StepAwaiting, StepBinding, StepRebinding, StepBound, StepDecliningDispatch, StepLooping,
      StepRefetching, StepCheckingSource, StepForwardingCancel, StepGetStart, StepGetRead, StepPolling, StepPolled, StepReviving,
      StepCancelStart, StepCancelRead, Goto;
    InvHasStore(w);
    match w.threads[tid].pc {
      case Looping(goal, current, n, after) => LoopingIsHonest(w, tid, goal, current, n, after, env);
      case Refetching(goal, current, n, after) => RefetchingIsHonest(w, tid, goal, current, n, after, env);
      case CheckingSource(r) => CancelsAreHonest(w, tid, r, env);
      case ForwardingCancel(r) => CancelsAreHonest(w, tid, r, env);
      case Reviving(r, status, terminal, bytes) => RevivingIsHonest(w, tid, r, status, terminal, bytes, env);
      case CancelRead(r) => CancelsAreHonest(w, tid, r, env);
    }
  }

  lemma ReadingIsHonest(w: World, tid: nat, env: Env)
    requires Inv(w) && tid in w.threads && Reading(w.threads[tid].pc)
    ensures Honest(w, StepThread(w, tid, env), tid, env)
  {
    hide Inv, StoreInv, ThreadInv, PcOk, RouteOk, Carries, Hears, Outcome, Honest, StepSubmitStart, StepSubmitClocked, StepRecovering, StepPreparing, StepBeginning, StepClaiming,
      StepClaimed, StepCommitted, StepAwaiting, StepBinding, StepRebinding, StepBound, StepDecliningDispatch, StepLooping,
      StepRefetching, StepCheckingSource, StepForwardingCancel, StepGetStart, StepGetRead, StepPolling, StepPolled, StepReviving,
      StepCancelStart, StepCancelRead, Goto;
    InvHasStore(w);
    match w.threads[tid].pc {
      case GetStart(c, id) => StartIsHonest(w, tid, c, id, env);
      case GetRead(r) => GetReadIsHonest(w, tid, r, env);
      case Polling(r) => GetReadIsHonest(w, tid, r, env);
      case Polled(r) =>
        RecordIsOk(w, tid);
        PolledIsHonest(w, tid, r, env);
      case CancelStart(c, id) => StartIsHonest(w, tid, c, id, env);
      case Finished => StayIsHonest(w, tid, env);
      case Dropped(_) => StayIsHonest(w, tid, env);
    }
  }

  lemma RecordIsOk(w: World, tid: nat)
    requires Inv(w) && tid in w.threads
    ensures w.threads[tid].pc.Awaiting? || w.threads[tid].pc.Polled? || w.threads[tid].pc.Claimed? ==> RouteOk(w.threads[tid].pc.record)
  {
    hide TokenInv, DeadlineInv, OnceInv, SettleInv, RouteOk, Agree;
    assert PcOk(w, w.threads[tid].pc);
  }

  lemma StayIsHonest(w: World, tid: nat, env: Env)
    requires tid in w.threads
    requires !w.threads[tid].pc.Committed?
    ensures Honest(w, w, tid, env)
  {
    hide Outcome, Carries, Hears;
  }

  /** A handler records only what it carried, and carries only what it heard. */
  lemma StepIsHonest(w: World, tid: nat, env: Env)
    requires Inv(w) && tid in w.threads
    ensures Honest(w, StepThread(w, tid, env), tid, env)
  {
    hide Inv, Honest, StepThread;
    if Submitting(w.threads[tid].pc) {
      SubmittingIsHonest(w, tid, env);
    } else if Replying(w.threads[tid].pc) {
      ReplyingIsHonest(w, tid, env);
    } else if Settling(w.threads[tid].pc) {
      SettlingIsHonest(w, tid, env);
    } else {
      ReadingIsHonest(w, tid, env);
    }
  }

  /** At some step before world `k` a handler heard that the task of this route has ended so. */
  ghost predicate HeardBefore(run: seq<World>, k: nat, id: string, state: TerminalState)
    requires k <= |run|
  {
    exists j, tid, env | 0 <= j < k :: Hears(run[j], tid, env, id, state)
  }

  /** At some step before world `k` a handler held the route's claim while its task still had time. */
  ghost predicate DecidedBefore(run: seq<World>, k: nat, r: Route)
    requires k <= |run|
  {
    exists j, tid | 0 <= j < k :: Decides(run[j], tid, r)
  }

  /** Everything recorded or about to be recorded was heard, and everything called or about to be called decided. */
  ghost predicate AllHeard(run: seq<World>, k: nat)
    requires k < |run|
  {
    && (forall r, x | r in run[k].commits && Outcome(r, x) :: HeardBefore(run, k, r.id, x))
    && (forall t, id, x | t in run[k].threads && Carries(run[k].threads[t].pc, id, x) :: HeardBefore(run, k, id, x))
    && (forall t | t in run[k].threads && run[k].threads[t].pc.Committed? :: DecidedBefore(run, k, run[k].threads[t].pc.record))
    && (forall i | 0 <= i < |run[k].calls| :: DecidedBefore(run, k, run[k].calls[i].record))
  }

  lemma {:induction false} ExecutionHears(run: seq<World>, k: nat)
    requires Execution(run) && k < |run|
    ensures AllHeard(run, k)
  {
    hide Inv, Init, Next, Enabled, Carries, Outcome, Hears;
    if k == 0 {
      NothingYet(run);
    } else {
      ExecutionHears(run, k - 1);
      ExecutionKeepsInv(run, k - 1);
      assert Steps(run[k - 1], run[k]);
      var a :| Enabled(run[k - 1], a) && Next(run[k - 1], a) == run[k];
      NextHears(run, k, a);
    }
  }

  lemma NothingYet(run: seq<World>)
    requires |run| > 0 && Init(run[0])
    ensures AllHeard(run, 0)
  {
    hide Carries, Outcome, Hears;
  }

  lemma HeardStays(run: seq<World>, k: nat, id: string, x: TerminalState)
    requires 0 < k < |run| && HeardBefore(run, k - 1, id, x)
    ensures HeardBefore(run, k, id, x)
  {
    hide Hears;
  }

  lemma DecidedStays(run: seq<World>, k: nat, r: Route)
    requires 0 < k < |run| && DecidedBefore(run, k - 1, r)
    ensures DecidedBefore(run, k, r)
  {
    hide Decides;
  }

  lemma DecidesNow(run: seq<World>, k: nat, tid: nat, r: Route)
    requires 0 < k < |run| && Decides(run[k - 1], tid, r)
    ensures DecidedBefore(run, k, r)
  {
    hide Decides;
  }

  lemma NextHears(run: seq<World>, k: nat, a: Action)
    requires 0 < k < |run| && AllHeard(run, k - 1) && Inv(run[k - 1]) && Enabled(run[k - 1], a) && Next(run[k - 1], a) == run[k]
    ensures AllHeard(run, k)
  {
    hide Inv, StepThread, AllHeard;
    match a {
      case Run(tid, env) =>
        StepIsHonest(run[k - 1], tid, env);
        OthersStay(run[k - 1], tid, env);
        HandlerHears(run, k, tid, env);
      case Tick(_) => QuietHears(run, k);
      case Spawn(tid, instance, pc) =>
        EntryCarriesNothing(pc);
        NewPointHears(run, k, tid);
      case Drop(tid) =>
        DroppedCarriesNothing(run[k - 1].threads[tid].pc);
        NewPointHears(run, k, tid);
    }
  }

  lemma QuietHears(run: seq<World>, k: nat)
    requires 0 < k < |run| && AllHeard(run, k - 1) && run[k].commits == run[k - 1].commits && run[k].calls == run[k - 1].calls && run[k].threads == run[k - 1].threads
    ensures AllHeard(run, k)
  {
    hide Carries, Outcome, Hears, HeardBefore, Decides, DecidedBefore;
    forall id, x | HeardBefore(run, k - 1, id, x)
      ensures HeardBefore(run, k, id, x)
    {
      HeardStays(run, k, id, x);
    }
    forall r | DecidedBefore(run, k - 1, r)
      ensures DecidedBefore(run, k, r)
    {
      DecidedStays(run, k, r);
    }
  }

  /** A handler put at a point that carries nothing. */
  lemma NewPointHears(run: seq<World>, k: nat, tid: nat)
    requires 0 < k < |run| && AllHeard(run, k - 1) && run[k].commits == run[k - 1].commits && run[k].calls == run[k - 1].calls
    requires tid in run[k].threads && run[k].threads == run[k - 1].threads[tid := run[k].threads[tid]]
    requires !run[k].threads[tid].pc.Committed? && forall id, x :: !Carries(run[k].threads[tid].pc, id, x)
    ensures AllHeard(run, k)
  {
    hide Carries, Outcome, Hears, HeardBefore, Decides, DecidedBefore;
    forall id, x | HeardBefore(run, k - 1, id, x)
      ensures HeardBefore(run, k, id, x)
    {
      HeardStays(run, k, id, x);
    }
    forall r | DecidedBefore(run, k - 1, r)
      ensures DecidedBefore(run, k, r)
    {
      DecidedStays(run, k, r);
    }
  }

  lemma EntryCarriesNothing(pc: Pc)
    requires Entry(pc)
    ensures forall id, x :: !Carries(pc, id, x)
  {
  }

  lemma DroppedCarriesNothing(pc: Pc)
    ensures forall id, x :: !Carries(Dropped(pc), id, x)
  {
  }

  lemma HandlerHears(run: seq<World>, k: nat, tid: nat, env: Env)
    requires 0 < k < |run| && AllHeard(run, k - 1) && tid in run[k - 1].threads && Honest(run[k - 1], run[k], tid, env)
    requires OthersSame(run[k - 1], run[k], tid)
    ensures AllHeard(run, k)
  {
    hide Carries, Outcome, Hears, HeardBefore, Decides, DecidedBefore;
    var w, w' := run[k - 1], run[k];
    forall id, x | HeardBefore(run, k - 1, id, x)
      ensures HeardBefore(run, k, id, x)
    {
      HeardStays(run, k, id, x);
    }
    forall r | DecidedBefore(run, k - 1, r)
      ensures DecidedBefore(run, k, r)
    {
      DecidedStays(run, k, r);
    }
    forall id, x | Hears(w, tid, env, id, x)
      ensures HeardBefore(run, k, id, x)
    {
      HearsNow(run, k, tid, env, id, x);
    }
    if w'.threads[tid].pc.Committed? {
      DecidesNow(run, k, tid, w'.threads[tid].pc.record);
    }
  }

  lemma HearsNow(run: seq<World>, k: nat, tid: nat, env: Env, id: string, x: TerminalState)
    requires 0 < k < |run| && Hears(run[k - 1], tid, env, id, x)
    ensures HeardBefore(run, k, id, x)
  {
    hide Hears;
  }

  /**
   * An outcome other than the gateway's own verdict of no dispatch is only ever recorded after a
   * handler heard the provider end the task of that very route, and it is what that report was worth
   * at the time: the reported status, or rejected as late or as too large.
   */
  lemma RecordedOutcomeWasHeard(run: seq<World>, k: nat, r: Route) returns (j: nat, tid: nat, env: Env)
    requires Execution(run) && k < |run| && r in run[k].commits && r.cached.Some? && !r.cached.value.verdict.NotDispatched?
    ensures j < k && Hears(run[j], tid, env, r.id, r.cached.value)
  {
    hide Execution, Carries, Hears;
    ExecutionHears(run, k);
    assert Outcome(r, r.cached.value);
    j, tid, env :| 0 <= j < k && Hears(run[j], tid, env, r.id, r.cached.value);
  }

  /**
   * Every upstream call was decided by a handler that held the route's claim before the task's
   * deadline and before it had used up its runtime.
   */
  lemma CallWasDecidedInTime(run: seq<World>, k: nat, i: nat) returns (j: nat, tid: nat)
    requires Execution(run) && k < |run| && i < |run[k].calls|
    ensures var r := run[k].calls[i].record;
      && j < k && tid in run[j].threads && run[j].threads[tid].pc.Claimed? && run[j].threads[tid].pc.record == r
      && r.binding.TaskBinding? && r.binding.task == run[k].calls[i].task
      && run[j].now < r.binding.task.deadline && run[j].now < r.created + r.binding.task.limits.maxRuntime
  {
    hide Execution, Carries, Hears, Outcome;
    ExecutionHears(run, k);
    ExecutionKeepsInv(run, k);
    CallFacts(run[k], i);
    var r := run[k].calls[i].record;
    assert DecidedBefore(run, k, r);
    j, tid :| 0 <= j < k && Decides(run[j], tid, r);
  }

  lemma CallFacts(w: World, i: nat)
    requires Inv(w) && i < |w.calls|
    ensures w.calls[i].record.binding.TaskBinding? && w.calls[i].record.binding.task == w.calls[i].task
  {
    hide StoreInv, ThreadInv, DeadlineInv, OnceInv, SettleInv;
    assert CallOk(w, w.calls[i]);
  }

  // ---- and what is heard is recorded ----

  /** A handler that hears the end of a task goes on to record it, for what it is worth. */
  lemma HeardIsCarried(run: seq<World>, k: nat, tid: nat, env: Env, id: string, x: TerminalState)
    requires Execution(run) && k < |run| && Hears(run[k], tid, env, id, x)
    ensures tid in StepThread(run[k], tid, env).threads && Carries(StepThread(run[k], tid, env).threads[tid].pc, id, x)
  {
    ExecutionKeepsInv(run, k);
    HearingStep(run[k], tid, env, id, x);
  }

  lemma HearingStep(w: World, tid: nat, env: Env, id: string, x: TerminalState)
    requires Inv(w) && Hears(w, tid, env, id, x)
    ensures tid in StepThread(w, tid, env).threads && Carries(StepThread(w, tid, env).threads[tid].pc, id, x)
  {
    hide Inv, ExecutionCutoff, RouteOk, Late, StepPolled, StepAwaiting, Judged, Carries;
    RecordIsOk(w, tid);
    CutoffLaw(w.now, w.threads[tid].pc.record);
    if w.threads[tid].pc.Awaiting? {
      AwaitingCarries(w, tid, w.threads[tid].pc.record, env, x);
    } else {
      PolledCarries(w, tid, w.threads[tid].pc.record, env, x);
    }
  }

  lemma AwaitingCarries(w: World, tid: nat, r: Route, env: Env, x: TerminalState)
    requires tid in w.threads && env.reply.TaskCompleted? && env.reply.ack && x.bytes == env.reply.bytes
    requires Judged(w.now, r, false, env.reply.oversized, "completed", x.verdict) && (w.now >= ExecutionCutoff(r) <==> Late(w.now, r))
    ensures tid in StepAwaiting(w, tid, r, env).threads && Carries(StepAwaiting(w, tid, r, env).threads[tid].pc, r.id, x)
  {
    hide ExecutionCutoff, Late;
  }

  lemma PolledCarries(w: World, tid: nat, r: Route, env: Env, x: TerminalState)
    requires tid in w.threads && env.poll.PollReported? && env.poll.terminal && x.bytes == env.poll.bytes
    requires Judged(w.now, r, env.poll.cancelled, env.poll.oversized, env.poll.status, x.verdict)
    requires w.now >= ExecutionCutoff(r) <==> Late(w.now, r)
    ensures tid in StepPolled(w, tid, r, env).threads && Carries(StepPolled(w, tid, r, env).threads[tid].pc, r.id, x)
  {
    hide ExecutionCutoff, Late;
  }

  /** An outcome carried for the record that is stored, and that fits the store, is recorded by the next step. */
  lemma CarriedIsRecorded(w: World, tid: nat, env: Env, r: Route, x: TerminalState, n: nat, after: After)
    requires Inv(w) && tid in w.threads && w.threads[tid].pc == Looping(Finish(x), r, n, after) && n > 0
    requires r.id in w.table && w.table[r.id] == r && !r.phase.Terminal?
    requires x.bytes <= MAX_TERMINAL_BYTES && w.now <= MAX_SQLITE_INTEGER && r.version < MAX_SQLITE_INTEGER
    ensures r.id in StepThread(w, tid, env).table
    ensures var next := StepThread(w, tid, env).table[r.id]; next.phase.Terminal? && next.cached == Some(x) && SameIdentity(r, next)
  {
    TableIsShaped(w, r);
    hide Inv;
    var u := ToTerminal(TransitionTime(w, r), x);
    TransitionAccepts(r, u);
    UpdatedInRange(r);
    TransitionFacts(r, u);
    hide Transition, ValidateShape;
  }

  lemma TableIsShaped(w: World, r: Route)
    requires Inv(w) && r.id in w.table && w.table[r.id] == r
    ensures WellShaped(r)
  {
    hide ThreadInv, TokenInv, DeadlineInv, OnceInv, SettleInv;
  }

  lemma UpdatedInRange(r: Route)
    requires WellShaped(r)
    ensures r.updated <= MAX_SQLITE_INTEGER
  {
  }
}
