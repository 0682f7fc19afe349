/**
 * What a handler achieves when nobody gets in its way: a submission is called and bound, a poll is
 * recorded, a cancel is made durable and forwarded, and a late or abandoned route is settled.
 */
module TaskProtocolOutcomes {
  import opened Common
  import opened TaskRoute
  import opened RouteStore
  import opened TaskProtocol
  import opened TaskProtocolSafety
  import opened TaskProtocolIsolation
  import opened TaskProtocolReports

  /** `n` steps of one handler in a row. */
  ghost function Alone(w: World, tid: nat, env: Env, n: nat): (w': World)
    requires tid in w.threads
    ensures tid in w'.threads
    decreases n
  {
    if n == 0 then w
    else
      OthersStay(w, tid, env);
      Alone(StepThread(w, tid, env), tid, env, n - 1)
  }

  lemma AloneOnce(w: World, tid: nat, env: Env, n: nat)
    requires tid in w.threads && n > 0
    ensures tid in StepThread(w, tid, env).threads && Alone(w, tid, env, n) == Alone(StepThread(w, tid, env), tid, env, n - 1)
  {
    OthersStay(w, tid, env);
    hide StepThread;
  }

  lemma {:induction false} FinishedStays(w: World, tid: nat, env: Env, n: nat)
    requires tid in w.threads && w.threads[tid].pc.Finished?
    ensures Alone(w, tid, env, n) == w
  {
    if n > 0 {
      AloneOnce(w, tid, env, n);
      assert StepThread(w, tid, env) == w;
      hide StepThread, Alone;
      FinishedStays(w, tid, env, n - 1);
    }
  }

  // ---- one compare-and-set ----

  /** The record is the stored one. */
  predicate Present(w: World, r: Route) {
    r.id in w.table && w.table[r.id] == r && WellShaped(r) && w.now <= MAX_SQLITE_INTEGER
  }

  /** And neither the clock nor its version has run out. */
  predicate Stored(w: World, r: Route) {
    Present(w, r) && r.version < MAX_SQLITE_INTEGER
  }

  /** What the step of a handler is at each point. */
  lemma StepUnfolds(w: World, tid: nat, env: Env)
    requires tid in w.threads
    ensures match w.threads[tid].pc
            case SubmitStart(q) => StepThread(w, tid, env) == StepSubmitStart(w, tid, q)
            case SubmitClocked(q, read) => StepThread(w, tid, env) == StepSubmitClocked(w, tid, q, read)
            case Recovering(q, read) => StepThread(w, tid, env) == StepRecovering(w, tid, q, read, env)
            case Preparing(q, read, task) => StepThread(w, tid, env) == StepPreparing(w, tid, q, read, task, env)
            case Beginning(q, read, task, r) => StepThread(w, tid, env) == StepBeginning(w, tid, read, task, r, env)
            case Claiming(task, r) => StepThread(w, tid, env) == StepClaiming(w, tid, task, r)
            case Claimed(task, r) => StepThread(w, tid, env) == StepClaimed(w, tid, task, r)
            case Committed(task, r) => StepThread(w, tid, env) == StepCommitted(w, tid, task, r)
            case Awaiting(r) => StepThread(w, tid, env) == StepAwaiting(w, tid, r, env)
            case Binding(r, current, uid, ack, n) => StepThread(w, tid, env) == StepBinding(w, tid, r, current, uid, ack, n)
            case Bound(r, uid, must, ack) => StepThread(w, tid, env) == StepBound(w, tid, r, uid, must, ack)
            case DecliningDispatch(r) => StepThread(w, tid, env) == StepDecliningDispatch(w, tid, r)
            case Looping(goal, current, n, after) => StepThread(w, tid, env) == StepLooping(w, tid, goal, current, n, after)
            case CheckingSource(r) => StepThread(w, tid, env) == StepCheckingSource(w, tid, r, env)
            case ForwardingCancel(r) => StepThread(w, tid, env) == StepForwardingCancel(w, tid, r, env)
            case GetStart(c, id) => StepThread(w, tid, env) == StepGetStart(w, tid, c, id)
            case GetRead(r) => StepThread(w, tid, env) == StepGetRead(w, tid, r, env)
            case Polling(r) => StepThread(w, tid, env) == StepPolling(w, tid, r)
            case Polled(r) => StepThread(w, tid, env) == StepPolled(w, tid, r, env)
            case Reviving(r, status, terminal, bytes) => StepThread(w, tid, env) == StepReviving(w, tid, r, status, terminal, bytes)
            case CancelStart(c, id) => StepThread(w, tid, env) == StepCancelStart(w, tid, c, id)
            case CancelRead(r) => StepThread(w, tid, env) == StepCancelRead(w, tid, r)
            case _ => true
  {
    hide StepSubmitStart, StepSubmitClocked, StepRecovering, StepPreparing, StepBeginning, StepClaiming, StepClaimed, StepCommitted,
      StepAwaiting, StepBinding, StepRebinding, StepBound, StepDecliningDispatch, StepLooping, StepRefetching, StepCheckingSource,
      StepForwardingCancel, StepGetStart, StepGetRead, StepPolling, StepPolled, StepReviving, StepCancelStart, StepCancelRead;
  }

  /** One step whose result is known, and then the rest. */
  lemma Stepped(w: World, tid: nat, env: Env, n: nat, w1: World)
    requires tid in w.threads && n > 0 && StepThread(w, tid, env) == w1
    ensures tid in w1.threads && Alone(w, tid, env, n) == Alone(w1, tid, env, n - 1)
  {
    AloneOnce(w, tid, env, n);
    hide StepThread, Alone;
  }

  /** The world after this handler replaced the stored record by `next` and went on to `pc`. */
  function Wrote(w: World, tid: nat, next: Route, pc: Pc): World
    requires tid in w.threads
  {
    Goto(w.(table := w.table[next.id := next], commits := w.commits + {next}), tid, pc)
  }

  lemma Wins(w: World, r: Route, u: Update) returns (next: Route)
    requires Stored(w, r) && AcceptsUpdate(r, u)
    ensures Transition(r, u) == Ok(next) && next.id == r.id
    ensures Cas(w, r, u) == (w.(table := w.table[r.id := next], commits := w.commits + {next}), Won(next))
  {
    TransitionAccepts(r, u);
    next := Transition(r, u).value;
    TransitionFacts(r, u);
    hide Transition, WellShaped;
  }

  lemma TimeFits(w: World, r: Route)
    requires Stored(w, r)
    ensures r.updated <= TransitionTime(w, r) <= MAX_SQLITE_INTEGER
  {
  }

  /** A loop that has not reached its goal reaches it with one write. */
  lemma LoopWrites(w: World, tid: nat, env: Env, goal: Goal, r: Route, n: nat, after: After) returns (next: Route)
    requires tid in w.threads && w.threads[tid].pc == Looping(goal, r, n, after) && n > 0
    requires Stored(w, r) && !Reached(goal, r.phase) && !r.phase.Terminal? && (goal.Finish? ==> goal.state.bytes <= MAX_TERMINAL_BYTES)
    ensures StepThread(w, tid, env) == Wrote(w, tid, next, Looping(goal, next, n - 1, after))
    ensures SameIdentity(r, next) && next.upstream == r.upstream && next.version == r.version + 1 && WellShaped(next)
    ensures match goal
            case Reconcile => next.phase.ReconciliationRequired?
            case RecordCancel => next.phase.CancelRequested?
            case Finish(x) => next.phase.Terminal? && next.cached == Some(x)
  {
    var u := GoalUpdate(goal, TransitionTime(w, r));
    TimeFits(w, r);
    GoalIsAccepted(goal, r, TransitionTime(w, r));
    next := Wins(w, r, u);
    TransitionFacts(r, u);
    hide Transition, WellShaped, Cas, AcceptsUpdate;
  }

  lemma GoalIsAccepted(goal: Goal, r: Route, time: nat)
    requires !Reached(goal, r.phase) && !r.phase.Terminal? && r.updated <= time <= MAX_SQLITE_INTEGER && r.version < MAX_SQLITE_INTEGER
    requires goal.Finish? ==> goal.state.bytes <= MAX_TERMINAL_BYTES
    ensures AcceptsUpdate(r, GoalUpdate(goal, time))
  {
  }

  lemma LoopLeaves(w: World, tid: nat, env: Env, goal: Goal, r: Route, n: nat, after: After)
    requires tid in w.threads && w.threads[tid].pc == Looping(goal, r, n, after) && n > 0 && Reached(goal, r.phase)
    ensures StepThread(w, tid, env) == Goto(w, tid, match after
                                                  case Return => Finished
                                                  case RequestCancel => ForwardingCancel(r)
                                                  case RequestCancelIfCurrent => CheckingSource(r))
  {
  }

  /** What a loop with nobody in its way leaves behind. */
  predicate Settles(w: World, w': World, goal: Goal, r: Route) {
    && r.id in w'.table && SameIdentity(r, w'.table[r.id]) && w'.table[r.id].upstream == r.upstream
    && WellShaped(w'.table[r.id]) && w'.table[r.id].version <= r.version + 1
    && Reached(goal, w'.table[r.id].phase)
    && (!Reached(goal, r.phase) ==>
          match goal
          case Reconcile => w'.table[r.id].phase.ReconciliationRequired?
          case RecordCancel => w'.table[r.id].phase.CancelRequested?
          case Finish(x) => w'.table[r.id].cached == Some(x))
    && (Reached(goal, r.phase) ==> w'.table[r.id] == r)
    && w'.now == w.now && w'.calls == w.calls && w.cancels <= w'.cancels
    && (forall id | id in w.table && id != r.id :: id in w'.table && w'.table[id] == w.table[id])
  }

  lemma NothingSettles(w: World, tid: nat, goal: Goal, r: Route, pc: Pc)
    requires tid in w.threads && Stored(w, r) && Reached(goal, r.phase)
    ensures Settles(w, Goto(w, tid, pc), goal, r)
  {
    hide WellShaped;
  }

  lemma WriteSettles(w: World, tid: nat, next: Route, goal: Goal, r: Route, pc: Pc, pc': Pc)
    requires tid in w.threads && Stored(w, r) && !Reached(goal, r.phase)
    requires SameIdentity(r, next) && next.upstream == r.upstream && next.version == r.version + 1 && WellShaped(next)
    requires match goal
             case Reconcile => next.phase.ReconciliationRequired?
             case RecordCancel => next.phase.CancelRequested?
             case Finish(x) => next.phase.Terminal? && next.cached == Some(x)
    ensures Reached(goal, next.phase)
    ensures Settles(w, Wrote(w, tid, next, pc), goal, r) && Settles(w, Goto(Wrote(w, tid, next, pc), tid, pc'), goal, r)
  {
    hide WellShaped;
  }

  /** A loop that returns is done after two steps. */
  lemma LoopAlone(w: World, tid: nat, env: Env, goal: Goal, r: Route, n: nat, k: nat)
    requires tid in w.threads && w.threads[tid].pc == Looping(goal, r, n, Return) && n >= 2 && k >= 2
    requires Stored(w, r) && (!Reached(goal, r.phase) ==> !r.phase.Terminal?) && (goal.Finish? ==> goal.state.bytes <= MAX_TERMINAL_BYTES)
    ensures var w' := Alone(w, tid, env, k); w'.threads[tid].pc.Finished? && Settles(w, w', goal, r)
  {
    hide StepThread, WellShaped, Settles, Stored, Reached, SameIdentity, Alone;
    AloneOnce(w, tid, env, k);
    if Reached(goal, r.phase) {
      LoopLeaves(w, tid, env, goal, r, n, Return);
      NothingSettles(w, tid, goal, r, Finished);
      FinishedStays(Goto(w, tid, Finished), tid, env, k - 1);
    } else {
      var next := LoopWrites(w, tid, env, goal, r, n, Return);
      var w1 := Wrote(w, tid, next, Looping(goal, next, n - 1, Return));
      WriteSettles(w, tid, next, goal, r, Looping(goal, next, n - 1, Return), Finished);
      AloneOnce(w1, tid, env, k - 1);
      LoopLeaves(w1, tid, env, goal, next, n - 1, Return);
      FinishedStays(Goto(w1, tid, Finished), tid, env, k - 2);
    }
  }

  // ---- cancelling ----

  /** A cancellation that was asked for: durable, and sent to the provider whose task is known. */
  predicate Stopped(w: World, w': World, r: Route, forwarded: bool) {
    && r.id in w'.table && SameIdentity(r, w'.table[r.id]) && w'.table[r.id].upstream == r.upstream
    && w'.table[r.id].phase.CancelRequested?
    && (forwarded && r.upstream.Some? ==> Receipt(r.id, r.upstream.value) in w'.cancels)
    && w'.calls == w.calls && (forall id | id in w.table && id != r.id :: id in w'.table && w'.table[id] == w.table[id])
  }

  lemma ForwardPoint(w: World, tid: nat, env: Env, r: Route)
    requires tid in w.threads && !r.phase.Terminal?
    ensures StepForwardingCancel(w, tid, r, env)
         == Goto(if r.upstream.None? then w else SendCancel(w, r.id, r.upstream.value), tid,
                 if r.upstream.None? || env.cancelAcknowledged then Finished else Loop(Reconcile, r))
  {
  }

  lemma ForwardAlone(w: World, tid: nat, env: Env, r: Route, k: nat)
    requires tid in w.threads && w.threads[tid].pc == ForwardingCancel(r) && k >= 3 && Present(w, r) && r.phase.CancelRequested?
    ensures var w' := Alone(w, tid, env, k); w'.threads[tid].pc.Finished? && Stopped(w, w', r, true)
  {
    hide StepThread, WellShaped, Alone, StepForwardingCancel;
    var sent := if r.upstream.None? then w else SendCancel(w, r.id, r.upstream.value);
    var pc := if r.upstream.None? || env.cancelAcknowledged then Finished else Loop(Reconcile, r);
    var w1 := Goto(sent, tid, pc);
    ForwardPoint(w, tid, env, r);
    StepUnfolds(w, tid, env);
    Stepped(w, tid, env, k, w1);
    if pc.Finished? {
      FinishedStays(w1, tid, env, k - 1);
    } else {
      LoopLeaves(w1, tid, env, Reconcile, r, MAX_CAS_ATTEMPTS, Return);
      var w2 := Goto(w1, tid, Finished);
      Stepped(w1, tid, env, k - 1, w2);
      FinishedStays(w2, tid, env, k - 2);
    }
  }

  lemma StillPresent(w: World, tid: nat, r: Route, pc: Pc)
    requires tid in w.threads && Present(w, r)
    ensures Present(Goto(w, tid, pc), r)
  {
  }

  lemma NotForwarded(w: World, tid: nat, r: Route)
    requires tid in w.threads && Present(w, r) && r.phase.CancelRequested?
    ensures Stopped(w, Goto(w, tid, Finished), r, false)
  {
    hide WellShaped;
  }

  lemma CheckedStopped(w1: World, w: World, w': World, r: Route, forwarded: bool)
    requires Stopped(w1, w', r, true) && w1.table == w.table && w1.calls == w.calls
    ensures Stopped(w, w', r, forwarded)
  {
  }

  lemma CheckAlone(w: World, tid: nat, env: Env, r: Route, k: nat)
    requires tid in w.threads && w.threads[tid].pc == CheckingSource(r) && k >= 4 && Present(w, r) && r.phase.CancelRequested?
    ensures var w' := Alone(w, tid, env, k); w'.threads[tid].pc.Finished? && Stopped(w, w', r, env.sourceCurrent)
  {
    hide StepThread, WellShaped, Alone, Stopped, Present;
    StepUnfolds(w, tid, env);
    if r.upstream.Some? && !env.sourceCurrent {
      var w1 := Goto(w, tid, Finished);
      Stepped(w, tid, env, k, w1);
      FinishedStays(w1, tid, env, k - 1);
      NotForwarded(w, tid, r);
    } else {
      var w1 := Goto(w, tid, ForwardingCancel(r));
      Stepped(w, tid, env, k, w1);
      StillPresent(w, tid, r, ForwardingCancel(r));
      ForwardAlone(w1, tid, env, r, k - 1);
      CheckedStopped(w1, w, Alone(w1, tid, env, k - 1), r, env.sourceCurrent);
    }
  }

  /** The intent is recorded, and what remains is to forward it. */
  lemma ReachedCancelAlone(w: World, tid: nat, env: Env, r: Route, n: nat, after: After, k: nat)
    requires tid in w.threads && w.threads[tid].pc == Looping(RecordCancel, r, n, after) && n > 0 && !after.Return? && k >= 5
    requires Present(w, r) && r.phase.CancelRequested?
    ensures var w' := Alone(w, tid, env, k); w'.threads[tid].pc.Finished? && Stopped(w, w', r, after.RequestCancel? || env.sourceCurrent)
  {
    hide StepThread, WellShaped, Alone;
    AloneOnce(w, tid, env, k);
    LoopLeaves(w, tid, env, RecordCancel, r, n, after);
    var w1 := StepThread(w, tid, env);
    if after.RequestCancel? {
      ForwardAlone(w1, tid, env, r, k - 1);
    } else {
      CheckAlone(w1, tid, env, r, k - 1);
    }
  }

  lemma CancelLoopAlone(w: World, tid: nat, env: Env, r: Route, n: nat, after: After, k: nat)
    requires tid in w.threads && w.threads[tid].pc == Looping(RecordCancel, r, n, after) && n >= 2 && !after.Return? && k >= 6
    requires Stored(w, r) && !r.phase.Terminal?
    ensures var w' := Alone(w, tid, env, k); w'.threads[tid].pc.Finished? && Stopped(w, w', r, after.RequestCancel? || env.sourceCurrent)
  {
    hide StepThread, WellShaped, Alone;
    if r.phase.CancelRequested? {
      ReachedCancelAlone(w, tid, env, r, n, after, k);
    } else {
      AloneOnce(w, tid, env, k);
      var next := LoopWrites(w, tid, env, RecordCancel, r, n, after);
      var w1 := Wrote(w, tid, next, Looping(RecordCancel, next, n - 1, after));
      ReachedCancelAlone(w1, tid, env, next, n - 1, after, k - 1);
    }
  }

  /**
   * A caller's cancel of its own live route makes the intent durable, and asks the provider to stop
   * when its task is known and its session current.
   */
  lemma CancelAlone(w: World, tid: nat, env: Env, r: Route)
    requires tid in w.threads && w.threads[tid].pc == CancelStart(r.caller, r.id)
    requires Stored(w, r) && w.now < r.expires && !r.phase.Terminal?
    ensures var w' := Alone(w, tid, env, 8); w'.threads[tid].pc.Finished? && Stopped(w, w', r, env.sourceCurrent)
  {
    hide StepThread, WellShaped, Alone, Stopped;
    StepUnfolds(w, tid, env);
    var w1 := Goto(w, tid, CancelRead(r));
    Stepped(w, tid, env, 8, w1);
    StepUnfolds(w1, tid, env);
    var w2 := Goto(w1, tid, Looping(RecordCancel, r, MAX_CAS_ATTEMPTS, RequestCancelIfCurrent));
    Stepped(w1, tid, env, 7, w2);
    CancelLoopAlone(w2, tid, env, r, MAX_CAS_ATTEMPTS, RequestCancelIfCurrent, 6);
    SameStopped(w2, w, Alone(w2, tid, env, 6), r, env.sourceCurrent);
  }

  /** What is stopped is judged by the table and the calls alone. */
  lemma SameStopped(w1: World, w: World, w': World, r: Route, forwarded: bool)
    requires Stopped(w1, w', r, forwarded) && w1.table == w.table && w1.calls == w.calls
    ensures Stopped(w, w', r, forwarded)
  {
  }

  // ---- reading ----

  lemma ReadAlone(w: World, tid: nat, env: Env, r: Route, k: nat)
    requires tid in w.threads && w.threads[tid].pc == GetStart(r.caller, r.id) && Present(w, r) && k > 0
    ensures Alone(w, tid, env, k) == Alone(Goto(w, tid, GetRead(r)), tid, env, k - 1)
  {
    hide StepThread, Alone, WellShaped;
    StepUnfolds(w, tid, env);
    Stepped(w, tid, env, k, Goto(w, tid, GetRead(r)));
  }

  /** Where reading a record leads. */
  lemma ReadLeads(w: World, tid: nat, env: Env, r: Route, k: nat, pc: Pc)
    requires tid in w.threads && w.threads[tid].pc == GetStart(r.caller, r.id) && Present(w, r) && k > 1
    requires StepGetRead(Goto(w, tid, GetRead(r)), tid, r, env) == Goto(Goto(w, tid, GetRead(r)), tid, pc)
    ensures Alone(w, tid, env, k) == Alone(Goto(w, tid, pc), tid, env, k - 2)
  {
    hide StepThread, Alone, WellShaped, StepGetRead;
    ReadAlone(w, tid, env, r, k);
    var w1 := Goto(w, tid, GetRead(r));
    StepUnfolds(w1, tid, env);
    assert Goto(w1, tid, pc) == Goto(w, tid, pc);
    Stepped(w1, tid, env, k - 1, Goto(w, tid, pc));
  }

  lemma LatePoint(w: World, tid: nat, env: Env, r: Route)
    requires tid in w.threads && w.now < r.expires && w.now >= ExecutionCutoff(r) && r.upstream.Some? && env.sourceCurrent
    requires r.phase.Routed? || r.phase.ReconciliationRequired?
    ensures StepGetRead(w, tid, r, env) == Goto(w, tid, LoopThenCancel(r))
  {
    hide ExecutionCutoff;
  }

  lemma UnknownPoint(w: World, tid: nat, env: Env, r: Route)
    requires tid in w.threads && w.now < r.expires
    requires if r.upstream.Some? then !env.sourceCurrent && r.phase.Routed?
             else r.phase.Dispatching? && (w.now >= ExecutionCutoff(r) || r.owner != Some(w.threads[tid].instance))
    ensures StepGetRead(w, tid, r, env) == Goto(w, tid, Loop(Reconcile, r))
  {
    hide ExecutionCutoff;
  }

  lemma UnclaimedPoint(w: World, tid: nat, env: Env, r: Route)
    requires tid in w.threads && w.now < r.expires && w.now >= ExecutionCutoff(r) && r.phase.Prepared? && r.upstream.None?
    ensures StepGetRead(w, tid, r, env) == Goto(w, tid, DecliningDispatch(r))
  {
    hide ExecutionCutoff;
  }

  lemma PollPoint(w: World, tid: nat, env: Env, r: Route)
    requires tid in w.threads && w.now < r.expires && r.upstream.Some? && env.sourceCurrent
    requires r.phase.CancelRequested? || ((r.phase.Routed? || r.phase.ReconciliationRequired?) && w.now < ExecutionCutoff(r))
    ensures StepGetRead(w, tid, r, env) == Goto(w, tid, Polling(r))
  {
    hide ExecutionCutoff;
  }

  lemma PollingPoint(w: World, tid: nat, r: Route)
    requires tid in w.threads && r.upstream.Some? && (r.phase.CancelRequested? || w.now < ExecutionCutoff(r))
    ensures StepPolling(w, tid, r)
         == Goto(if r.phase.CancelRequested? then SendCancel(w, r.id, r.upstream.value) else w, tid, Polled(r))
  {
    hide ExecutionCutoff;
  }

  lemma RevivingPoint(w: World, tid: nat, env: Env, r: Route)
    requires tid in w.threads && r.phase.ReconciliationRequired? && w.now < ExecutionCutoff(r)
    requires env.poll.PollReported? && !env.poll.oversized
    ensures StepPolled(w, tid, r, env) == Goto(w, tid, Reviving(r, env.poll.status, env.poll.terminal, env.poll.bytes))
  {
    hide ExecutionCutoff;
  }

  /** A read that finds a routed task late stops it. */
  lemma LateTaskIsStopped(w: World, tid: nat, env: Env, r: Route)
    requires tid in w.threads && w.threads[tid].pc == GetStart(r.caller, r.id) && Stored(w, r) && RouteOk(r) && w.now < r.expires
    requires Late(w.now, r) && r.upstream.Some? && env.sourceCurrent && (r.phase.Routed? || r.phase.ReconciliationRequired?)
    ensures var w' := Alone(w, tid, env, 10); w'.threads[tid].pc.Finished? && Stopped(w, w', r, true)
  {
    hide StepThread, WellShaped, Alone, RouteOk, Late, ExecutionCutoff, Stopped, StepGetRead;
    CutoffLaw(w.now, r);
    LatePoint(Goto(w, tid, GetRead(r)), tid, env, r);
    ReadLeads(w, tid, env, r, 10, LoopThenCancel(r));
    var w1 := Goto(w, tid, LoopThenCancel(r));
    CancelLoopAlone(w1, tid, env, r, MAX_CAS_ATTEMPTS, RequestCancel, 8);
    SameStopped(w1, w, Alone(w1, tid, env, 8), r, true);
  }

  /** A read that finds the task's session gone, or its dispatch late or in other hands, leaves its outcome to be reconciled. */
  lemma UnknownTaskIsReconciled(w: World, tid: nat, env: Env, r: Route)
    requires tid in w.threads && w.threads[tid].pc == GetStart(r.caller, r.id) && Stored(w, r) && RouteOk(r) && w.now < r.expires
    requires if r.upstream.Some? then !env.sourceCurrent && r.phase.Routed?
             else r.phase.Dispatching? && (Late(w.now, r) || r.owner != Some(w.threads[tid].instance))
    ensures var w' := Alone(w, tid, env, 10);
      w'.threads[tid].pc.Finished? && r.id in w'.table && w'.table[r.id].phase.ReconciliationRequired? && SameIdentity(r, w'.table[r.id])
  {
    hide StepThread, WellShaped, Alone, RouteOk, Late, ExecutionCutoff, StepGetRead;
    CutoffLaw(w.now, r);
    UnknownPoint(Goto(w, tid, GetRead(r)), tid, env, r);
    ReadLeads(w, tid, env, r, 10, Loop(Reconcile, r));
    LoopAlone(Goto(w, tid, Loop(Reconcile, r)), tid, env, Reconcile, r, MAX_CAS_ATTEMPTS, 8);
  }

  /** A read that finds a route still unclaimed when its time is over records that nothing was dispatched. */
  lemma UnclaimedTaskIsDeclined(w: World, tid: nat, env: Env, r: Route)
    requires tid in w.threads && w.threads[tid].pc == GetStart(r.caller, r.id) && Stored(w, r) && RouteOk(r) && w.now < r.expires
    requires Late(w.now, r) && r.phase.Prepared? && r.upstream.None?
    ensures var w' := Alone(w, tid, env, 10);
      && w'.threads[tid].pc.Finished? && r.id in w'.table && SameIdentity(r, w'.table[r.id])
      && w'.table[r.id].cached == Some(TerminalState(NotDispatched("GM_TASK_RUNTIME_BOUND_REACHED"), 0))
  {
    hide StepThread, WellShaped, Alone, RouteOk, Late, ExecutionCutoff, StepGetRead;
    CutoffLaw(w.now, r);
    UnclaimedPoint(Goto(w, tid, GetRead(r)), tid, env, r);
    ReadLeads(w, tid, env, r, 10, DecliningDispatch(r));
    DeclineAlone(Goto(w, tid, DecliningDispatch(r)), tid, env, r, 8);
  }

  lemma DeclineWrites(w: World, tid: nat, r: Route) returns (next: Route)
    requires tid in w.threads && Stored(w, r) && (r.phase.Prepared? || r.phase.Dispatching?)
    ensures SameIdentity(r, next) && next.cached == Some(TerminalState(NotDispatched("GM_TASK_RUNTIME_BOUND_REACHED"), 0))
    ensures StepDecliningDispatch(w, tid, r) == Wrote(w, tid, next, Finished)
  {
    var u := ToTerminal(TransitionTime(w, r), NotDispatchedState());
    TimeFits(w, r);
    next := Wins(w, r, u);
    TransitionFacts(r, u);
    hide WellShaped, Transition, Cas;
  }

  lemma DeclineAlone(w: World, tid: nat, env: Env, r: Route, k: nat)
    requires tid in w.threads && w.threads[tid].pc == DecliningDispatch(r) && Stored(w, r) && (r.phase.Prepared? || r.phase.Dispatching?) && k > 0
    ensures var w' := Alone(w, tid, env, k);
      && w'.threads[tid].pc.Finished? && r.id in w'.table && SameIdentity(r, w'.table[r.id]) && w'.calls == w.calls
      && w'.table[r.id].cached == Some(TerminalState(NotDispatched("GM_TASK_RUNTIME_BOUND_REACHED"), 0))
  {
    hide StepThread, WellShaped, Alone, StepDecliningDispatch;
    var next := DeclineWrites(w, tid, r);
    StepUnfolds(w, tid, env);
    Stepped(w, tid, env, k, Wrote(w, tid, next, Finished));
    FinishedStays(Wrote(w, tid, next, Finished), tid, env, k - 1);
  }

  /** What the provider ends a task with, at a moment when its time is not over or it was being cancelled. */
  predicate EndsAs(w: World, r: Route, env: Env, x: TerminalState) {
    && env.poll.PollReported? && env.poll.terminal && x.bytes == env.poll.bytes <= MAX_TERMINAL_BYTES
    && Judged(w.now, r, env.poll.cancelled, env.poll.oversized, env.poll.status, x.verdict)
  }

  /** A read of a running task whose provider reports its end records exactly that end. */
  lemma EndedTaskIsRecorded(w: World, tid: nat, env: Env, r: Route, x: TerminalState)
    requires tid in w.threads && w.threads[tid].pc == GetStart(r.caller, r.id) && Stored(w, r) && RouteOk(r) && w.now < r.expires
    requires r.upstream.Some? && env.sourceCurrent && EndsAs(w, r, env, x)
    requires (r.phase.Routed? && !Late(w.now, r)) || r.phase.CancelRequested?
    ensures var w' := Alone(w, tid, env, 10);
      && w'.threads[tid].pc.Finished? && r.id in w'.table && SameIdentity(r, w'.table[r.id]) && w'.table[r.id].cached == Some(x)
      && (r.phase.CancelRequested? ==> Receipt(r.id, r.upstream.value) in w'.cancels)
  {
    hide StepThread, WellShaped, Alone, RouteOk, Late, ExecutionCutoff, EndsAs, StepGetRead;
    CutoffLaw(w.now, r);
    PollPoint(Goto(w, tid, GetRead(r)), tid, env, r);
    ReadLeads(w, tid, env, r, 10, Polling(r));
    SameEnd(w, Goto(w, tid, Polling(r)), r, env, x);
    PollAlone(Goto(w, tid, Polling(r)), tid, env, r, x);
  }

  lemma SameEnd(w: World, w': World, r: Route, env: Env, x: TerminalState)
    requires EndsAs(w, r, env, x) && w'.now == w.now
    ensures EndsAs(w', r, env, x)
  {
  }

  lemma PolledEnds(w: World, tid: nat, env: Env, r: Route, x: TerminalState)
    requires tid in w.threads && EndsAs(w, r, env, x) && !r.phase.ReconciliationRequired? && (w.now >= ExecutionCutoff(r) <==> Late(w.now, r))
    ensures StepPolled(w, tid, r, env) == Goto(w, tid, Loop(Finish(x), r))
  {
    hide ExecutionCutoff, Late;
  }

  /** A poll of a cancelled task asks again for it to stop. */
  function Sent(w: World, r: Route): World {
    if r.phase.CancelRequested? && r.upstream.Some? then SendCancel(w, r.id, r.upstream.value) else w
  }

  lemma SentStores(w: World, tid: nat, r: Route, pc: Pc)
    requires tid in w.threads && Stored(w, r)
    ensures Stored(Goto(Sent(w, r), tid, pc), r)
    ensures r.phase.CancelRequested? && r.upstream.Some? ==> Receipt(r.id, r.upstream.value) in Goto(Sent(w, r), tid, pc).cancels
  {
  }

  lemma EndFits(w: World, r: Route, env: Env, x: TerminalState)
    requires EndsAs(w, r, env, x)
    ensures x.bytes <= MAX_TERMINAL_BYTES
  {
  }

  /** Where polling a record leads. */
  lemma PollLeads(w: World, tid: nat, env: Env, r: Route, k: nat, pc: Pc)
    requires tid in w.threads && w.threads[tid].pc == Polling(r) && r.upstream.Some? && k > 1
    requires r.phase.CancelRequested? || w.now < ExecutionCutoff(r)
    requires var w1 := Goto(Sent(w, r), tid, Polled(r)); StepPolled(w1, tid, r, env) == Goto(w1, tid, pc)
    ensures Alone(w, tid, env, k) == Alone(Goto(Sent(w, r), tid, pc), tid, env, k - 2)
  {
    hide StepThread, Alone, ExecutionCutoff, StepPolling, StepPolled;
    PollingPoint(w, tid, r);
    var w1 := Goto(Sent(w, r), tid, Polled(r));
    StepUnfolds(w, tid, env);
    Stepped(w, tid, env, k, w1);
    StepUnfolds(w1, tid, env);
    assert Goto(w1, tid, pc) == Goto(Sent(w, r), tid, pc);
    Stepped(w1, tid, env, k - 1, Goto(Sent(w, r), tid, pc));
  }

  lemma PollAlone(w: World, tid: nat, env: Env, r: Route, x: TerminalState)
    requires tid in w.threads && w.threads[tid].pc == Polling(r) && Stored(w, r) && RouteOk(r) && r.upstream.Some? && EndsAs(w, r, env, x)
    requires (r.phase.Routed? && !Late(w.now, r)) || r.phase.CancelRequested?
    ensures var w' := Alone(w, tid, env, 8);
      && w'.threads[tid].pc.Finished? && r.id in w'.table && SameIdentity(r, w'.table[r.id]) && w'.table[r.id].cached == Some(x)
      && (r.phase.CancelRequested? ==> Receipt(r.id, r.upstream.value) in w'.cancels)
  {
    hide StepThread, WellShaped, Alone, RouteOk, Late, ExecutionCutoff, StepPolled, Judged, Present;
    CutoffLaw(w.now, r);
    var sent := Sent(w, r);
    SameEnd(w, Goto(sent, tid, Polled(r)), r, env, x);
    hide EndsAs;
    PolledEnds(Goto(sent, tid, Polled(r)), tid, env, r, x);
    PollLeads(w, tid, env, r, 8, Loop(Finish(x), r));
    SentStores(w, tid, r, Loop(Finish(x), r));
    EndFits(w, r, env, x);
    LoopAlone(Goto(sent, tid, Loop(Finish(x), r)), tid, env, Finish(x), r, MAX_CAS_ATTEMPTS, 6);
  }

  /** What becomes of a running task whose provider reports no end. */
  predicate Unended(w: World, w': World, r: Route, poll: PollReply) {
    && r.id in w'.table && SameIdentity(r, w'.table[r.id])
    && match poll
       case PollFailed => w'.table[r.id].phase.ReconciliationRequired?
       case PollMismatch => w'.table[r.id].phase.ReconciliationRequired?
       case PollTimedOut => Stopped(w, w', r, true)
       case PollReported(_, terminal, _, oversized, _) => !terminal ==> if oversized then Stopped(w, w', r, true) else w'.table[r.id] == r
  }

  lemma UnendedPoint(w: World, tid: nat, env: Env, r: Route)
    requires tid in w.threads && r.phase.Routed? && w.now < ExecutionCutoff(r) && (env.poll.PollReported? ==> !env.poll.terminal)
    ensures StepPolled(w, tid, r, env)
         == Goto(w, tid, match env.poll
                         case PollFailed => Loop(Reconcile, r)
                         case PollMismatch => Loop(Reconcile, r)
                         case PollTimedOut => LoopThenCancel(r)
                         case PollReported(_, _, _, oversized, _) => if oversized then LoopThenCancel(r) else Finished)
  {
    hide ExecutionCutoff;
  }

  /**
   * A read of a running task whose provider reports no end: an answer that cannot be trusted leaves it
   * to be reconciled, no answer in time or too much output stops it, and otherwise it runs on.
   */
  lemma UnendedTaskIsKept(w: World, tid: nat, env: Env, r: Route)
    requires tid in w.threads && w.threads[tid].pc == GetStart(r.caller, r.id) && Stored(w, r) && RouteOk(r) && w.now < r.expires
    requires r.upstream.Some? && env.sourceCurrent && r.phase.Routed? && !Late(w.now, r) && (env.poll.PollReported? ==> !env.poll.terminal)
    ensures var w' := Alone(w, tid, env, 12); w'.threads[tid].pc.Finished? && Unended(w, w', r, env.poll)
  {
    hide StepThread, WellShaped, Alone, RouteOk, Late, ExecutionCutoff, StepGetRead, StepPolled, Stopped;
    CutoffLaw(w.now, r);
    PollPoint(Goto(w, tid, GetRead(r)), tid, env, r);
    ReadLeads(w, tid, env, r, 12, Polling(r));
    var w2 := Goto(w, tid, Polling(r));
    var w3 := Goto(w2, tid, Polled(r));
    UnendedPoint(w3, tid, env, r);
    var pc := StepPolled(w3, tid, r, env).threads[tid].pc;
    PollLeads(w2, tid, env, r, 10, pc);
    UnendedAlone(w, Goto(w2, tid, pc), tid, env, r);
  }

  lemma UnendedAlone(w: World, w4: World, tid: nat, env: Env, r: Route)
    requires tid in w4.threads && Stored(w4, r) && r.phase.Routed? && w4.table == w.table && w4.calls == w.calls
    requires env.poll.PollReported? ==> !env.poll.terminal
    requires w4.threads[tid].pc == match env.poll
                                   case PollFailed => Loop(Reconcile, r)
                                   case PollMismatch => Loop(Reconcile, r)
                                   case PollTimedOut => LoopThenCancel(r)
                                   case PollReported(_, _, _, oversized, _) => if oversized then LoopThenCancel(r) else Finished
    ensures var w' := Alone(w4, tid, env, 8); w'.threads[tid].pc.Finished? && Unended(w, w', r, env.poll)
  {
    hide StepThread, WellShaped, Alone;
    if w4.threads[tid].pc.Finished? {
      FinishedStays(w4, tid, env, 8);
    } else if w4.threads[tid].pc == LoopThenCancel(r) {
      CancelLoopAlone(w4, tid, env, r, MAX_CAS_ATTEMPTS, RequestCancel, 8);
      SameStopped(w4, w, Alone(w4, tid, env, 8), r, true);
    } else {
      LoopAlone(w4, tid, env, Reconcile, r, MAX_CAS_ATTEMPTS, 8);
    }
  }

  /** A write that comes too late reads the route again and settles what it finds. */
  lemma LostWriteTriesAgain(w: World, tid: nat, env: Env, goal: Goal, seen: Route, r: Route)
    requires tid in w.threads && w.threads[tid].pc == Loop(goal, seen) && !Reached(goal, seen.phase)
    requires Stored(w, r) && seen.id == r.id && seen.caller == r.caller && seen.version != r.version
    requires (!Reached(goal, r.phase) ==> !r.phase.Terminal?) && (goal.Finish? ==> goal.state.bytes <= MAX_TERMINAL_BYTES)
    ensures var w' := Alone(w, tid, env, 4); w'.threads[tid].pc.Finished? && Settles(w, w', goal, r)
  {
    hide StepThread, WellShaped, Alone, Reached, StepLooping, StepRefetching;
    var w1 := Goto(w, tid, Refetching(goal, seen, MAX_CAS_ATTEMPTS - 1, Return));
    LostPoint(w, tid, goal, seen, r);
    StepUnfolds(w, tid, env);
    Stepped(w, tid, env, 4, w1);
    var w2 := Goto(w1, tid, Looping(goal, r, MAX_CAS_ATTEMPTS - 1, Return));
    RefetchUnfolds(w1, tid, env, goal, seen, r);
    Stepped(w1, tid, env, 3, w2);
    LoopAlone(w2, tid, env, goal, r, MAX_CAS_ATTEMPTS - 1, 2);
    SameSettles(w, w2, Alone(w2, tid, env, 2), goal, r);
  }

  lemma LostPoint(w: World, tid: nat, goal: Goal, seen: Route, r: Route)
    requires tid in w.threads && !Reached(goal, seen.phase)
    requires r.id in w.table && w.table[r.id] == r && seen.id == r.id && seen.caller == r.caller && seen.version != r.version
    ensures StepLooping(w, tid, goal, seen, MAX_CAS_ATTEMPTS, Return) == Goto(w, tid, Refetching(goal, seen, MAX_CAS_ATTEMPTS - 1, Return))
  {
    hide Reached, Transition, GoalUpdate;
  }

  lemma RefetchUnfolds(w: World, tid: nat, env: Env, goal: Goal, seen: Route, r: Route)
    requires tid in w.threads && w.threads[tid].pc == Refetching(goal, seen, MAX_CAS_ATTEMPTS - 1, Return)
    requires r.id in w.table && w.table[r.id] == r && seen.id == r.id && seen.caller == r.caller
    ensures StepThread(w, tid, env) == Goto(w, tid, Looping(goal, r, MAX_CAS_ATTEMPTS - 1, Return))
  {
  }

  lemma SameSettles(w: World, w2: World, w': World, goal: Goal, r: Route)
    requires Settles(w2, w', goal, r) && w2.table == w.table && w2.now == w.now && w2.calls == w.calls && w2.cancels == w.cancels
    ensures Settles(w, w', goal, r)
  {
    hide WellShaped, Reached;
  }

  /** A report revives a route of unknown outcome, and its end is recorded. */
  lemma RevivedTaskIsRecorded(w: World, tid: nat, env: Env, r: Route)
    requires tid in w.threads && w.threads[tid].pc == GetStart(r.caller, r.id) && Stored(w, r) && RouteOk(r) && w.now < r.expires
    requires r.upstream.Some? && env.sourceCurrent && r.phase.ReconciliationRequired? && !Late(w.now, r)
    requires env.poll.PollReported? && !env.poll.oversized && env.poll.bytes <= MAX_TERMINAL_BYTES && r.version + 1 < MAX_SQLITE_INTEGER
    ensures var w' := Alone(w, tid, env, 10);
      && w'.threads[tid].pc.Finished? && r.id in w'.table && SameIdentity(r, w'.table[r.id])
      && if env.poll.terminal then w'.table[r.id].cached == Some(TerminalState(Reported(env.poll.status), env.poll.bytes))
         else w'.table[r.id].phase.Routed?
  {
    hide StepThread, WellShaped, Alone, RouteOk, Late, ExecutionCutoff, StepGetRead, StepPolled;
    CutoffLaw(w.now, r);
    PollPoint(Goto(w, tid, GetRead(r)), tid, env, r);
    ReadLeads(w, tid, env, r, 10, Polling(r));
    var w2 := Goto(w, tid, Polling(r));
    var pc := Reviving(r, env.poll.status, env.poll.terminal, env.poll.bytes);
    RevivingPoint(Goto(Sent(w2, r), tid, Polled(r)), tid, env, r);
    PollLeads(w2, tid, env, r, 8, pc);
    ReviveAlone(Goto(w2, tid, pc), tid, env, r, env.poll.status, env.poll.terminal, env.poll.bytes);
  }

  lemma UpstreamIsValid(r: Route)
    requires WellShaped(r) && r.upstream.Some?
    ensures ValidIdentifier(r.upstream.value, MAX_UPSTREAM_ID_BYTES)
  {
  }

  lemma NotYetFinished(goal: Goal, r: Route)
    requires goal.Finish? && r.phase.Routed?
    ensures !Reached(goal, r.phase)
  {
  }

  lemma ReviveWrites(w: World, tid: nat, r: Route, status: string, terminal: bool, bytes: nat) returns (active: Route)
    requires tid in w.threads && Stored(w, r) && r.upstream.Some? && r.phase.ReconciliationRequired?
    ensures SameIdentity(r, active) && active.phase.Routed? && WellShaped(active) && active.version == r.version + 1
    ensures StepReviving(w, tid, r, status, terminal, bytes)
         == Wrote(w, tid, active, if terminal then Loop(Finish(TerminalState(Reported(status), bytes)), active) else Finished)
  {
    var u := ToRouted(r.upstream.value, TransitionTime(w, r));
    TimeFits(w, r);
    UpstreamIsValid(r);
    active := Wins(w, r, u);
    TransitionFacts(r, u);
    hide WellShaped, Transition, Cas;
  }

  lemma ReviveAlone(w: World, tid: nat, env: Env, r: Route, status: string, terminal: bool, bytes: nat)
    requires tid in w.threads && w.threads[tid].pc == Reviving(r, status, terminal, bytes) && Stored(w, r)
    requires r.upstream.Some? && r.phase.ReconciliationRequired? && bytes <= MAX_TERMINAL_BYTES && r.version + 1 < MAX_SQLITE_INTEGER
    ensures var w' := Alone(w, tid, env, 6);
      && w'.threads[tid].pc.Finished? && r.id in w'.table && SameIdentity(r, w'.table[r.id])
      && if terminal then w'.table[r.id].cached == Some(TerminalState(Reported(status), bytes)) else w'.table[r.id].phase.Routed?
  {
    hide StepThread, WellShaped, Alone, Reached, StepReviving;
    var active := ReviveWrites(w, tid, r, status, terminal, bytes);
    StepUnfolds(w, tid, env);
    var finish := Finish(TerminalState(Reported(status), bytes));
    var w1 := Wrote(w, tid, active, if terminal then Loop(finish, active) else Finished);
    Stepped(w, tid, env, 6, w1);
    if terminal {
      NotYetFinished(finish, active);
      LoopAlone(w1, tid, env, finish, active, MAX_CAS_ATTEMPTS, 5);
    } else {
      FinishedStays(w1, tid, env, 5);
    }
  }

  // ---- submitting ----

  /** A submission that everything is ready for. */
  ghost predicate Submits(w: World, tid: nat, env: Env, q: Request, task: Submission, r: Route) {
    && tid in w.threads && w.threads[tid].pc == SubmitStart(q) && ValidIdentifier(w.threads[tid].instance, MAX_IDENTIFIER_BYTES)
    && ValidCaller(q.caller) && !q.recoveryOnly && q.document == Complete(task) && w.now <= MAX_SQLITE_INTEGER
    && Parse(q.document, q.arguments, q.tool.schemaDigest, NonIdempotentWrite, w.now) == Ok(task)
    && env.snapshot.Some? && env.session.Some?
    && PrepareWithId(env.freshId, q.caller, Some(task.idempotencyKey), RequestDigest(TaskBinding(q.tool, env.snapshot.value, task)),
                     TaskBinding(q.tool, env.snapshot.value, task), q.tool, env.session.value, w.now, task.retention) == Ok(r)
  }

  /** And there is a free place for its route. */
  ghost predicate FindsPlace(w: World, r: Route) {
    SqlBegin(SqlPurge(w.table, w.now, PURGE_BATCH).0, r).1 == Ok(Inserted(r))
  }

  lemma SubmissionTimes(w: World, tid: nat, env: Env, q: Request, task: Submission, r: Route)
    requires Submits(w, tid, env, q, task, r)
    ensures w.now < task.deadline && w.now < ExecutionCutoff(r) && WellShaped(r) && r.phase.Prepared? && r.version == 0 && r.upstream.None?
    ensures r.caller == q.caller && r.id == env.freshId && r.binding == TaskBinding(q.tool, env.snapshot.value, task)
  {
    ParseAccepts(q.document, q.arguments, q.tool.schemaDigest, NonIdempotentWrite, w.now);
    PreparedIsWellShaped(r);
    hide Parse, Identified, SqlBegin, SqlPurge, ValidCaller, WellShaped, VerifyPreparedForBegin;
  }

  /** The submission's route is stored. */
  ghost function Arrived(w: World, tid: nat, env: Env, task: Submission, r: Route): World
    requires tid in w.threads
  {
    var purged := SqlPurge(w.table, w.now, PURGE_BATCH).0;
    Goto(w.(table := SqlBegin(purged, r).0, minted := w.minted + {env.freshId}, commits := w.commits + {r}), tid, Claiming(task, r))
  }

  lemma ClockedPoint(w: World, tid: nat, env: Env, q: Request, task: Submission, r: Route)
    requires Submits(w, tid, env, q, task, r)
    ensures var w1 := Goto(w, tid, SubmitClocked(q, w.now));
      && StepSubmitStart(w, tid, q) == w1
      && StepSubmitClocked(w1, tid, q, w.now)
         == Goto(w1.(table := SqlPurge(w.table, w.now, PURGE_BATCH).0), tid, Preparing(q, w.now, task))
  {
    SubmissionTimes(w, tid, env, q, task, r);
    hide Parse, SqlBegin, SqlPurge, PrepareWithId, ValidCaller, WellShaped, ExecutionCutoff, ValidIdentifier;
  }

  lemma PreparedPoint(w: World, tid: nat, env: Env, q: Request, task: Submission, r: Route, w2: World)
    requires Submits(w, tid, env, q, task, r) && tid in w2.threads
    ensures StepPreparing(w2, tid, q, w.now, task, env) == Goto(w2, tid, Beginning(q, w.now, task, r)).(minted := w2.minted + {env.freshId})
  {
    hide Parse, SqlBegin, SqlPurge, PrepareWithId, ValidCaller, WellShaped, ExecutionCutoff, ValidIdentifier;
  }

  lemma BegunPoint(w: World, tid: nat, env: Env, task: Submission, r: Route, w3: World)
    requires FindsPlace(w, r) && tid in w3.threads && w3.table == SqlPurge(w.table, w.now, PURGE_BATCH).0
    ensures StepBeginning(w3, tid, w.now, task, r, env)
         == Goto(w3.(table := SqlBegin(w3.table, r).0, commits := w3.commits + {r}), tid, Claiming(task, r))
  {
    hide Parse, SqlBegin, SqlPurge, PrepareWithId, ValidCaller, WellShaped, ExecutionCutoff, ValidIdentifier;
  }

  /** The handler has prepared a record and is about to insert it. */
  ghost function Ready(w: World, tid: nat, env: Env, q: Request, task: Submission, r: Route): World
    requires tid in w.threads
  {
    Goto(w.(table := SqlPurge(w.table, w.now, PURGE_BATCH).0, minted := w.minted + {env.freshId}), tid, Beginning(q, w.now, task, r))
  }

  lemma SubmissionGetsReady(w: World, tid: nat, env: Env, q: Request, task: Submission, r: Route, k: nat)
    requires Submits(w, tid, env, q, task, r) && k >= 3
    ensures tid in w.threads && Alone(w, tid, env, k) == Alone(Ready(w, tid, env, q, task, r), tid, env, k - 3)
  {
    hide StepThread, Alone, SqlPurge, StepSubmitStart, StepSubmitClocked, StepPreparing;
    ClockedPoint(w, tid, env, q, task, r);
    StartsAt(w, tid, env, q, task, r);
    var w1 := Goto(w, tid, SubmitClocked(q, w.now));
    StepUnfolds(w, tid, env);
    Stepped(w, tid, env, k, w1);
    var w2 := Goto(w1.(table := SqlPurge(w.table, w.now, PURGE_BATCH).0), tid, Preparing(q, w.now, task));
    PreparedPoint(w, tid, env, q, task, r, w2);
    hide Submits;
    StepUnfolds(w1, tid, env);
    Stepped(w1, tid, env, k - 1, w2);
    var w3 := Goto(w2, tid, Beginning(q, w.now, task, r)).(minted := w2.minted + {env.freshId});
    StepUnfolds(w2, tid, env);
    Stepped(w2, tid, env, k - 2, w3);
    ReadyIs(w, tid, env, q, task, r);
  }

  lemma ReadyIs(w: World, tid: nat, env: Env, q: Request, task: Submission, r: Route)
    requires tid in w.threads
    ensures var w2 := Goto(Goto(w, tid, SubmitClocked(q, w.now)).(table := SqlPurge(w.table, w.now, PURGE_BATCH).0), tid, Preparing(q, w.now, task));
      Goto(w2, tid, Beginning(q, w.now, task, r)).(minted := w2.minted + {env.freshId}) == Ready(w, tid, env, q, task, r)
  {
    hide SqlPurge;
  }

  lemma SubmissionArrives(w: World, tid: nat, env: Env, q: Request, task: Submission, r: Route, k: nat)
    requires Submits(w, tid, env, q, task, r) && FindsPlace(w, r) && k >= 4
    ensures Alone(w, tid, env, k) == Alone(Arrived(w, tid, env, task, r), tid, env, k - 4)
  {
    hide StepThread, Alone, SqlBegin, SqlPurge, StepBeginning, Arrived, Submits, FindsPlace;
    SubmissionGetsReady(w, tid, env, q, task, r, k);
    var w3 := Ready(w, tid, env, q, task, r);
    var w4 := Goto(w3.(table := SqlBegin(w3.table, r).0, commits := w3.commits + {r}), tid, Claiming(task, r));
    BegunPoint(w, tid, env, task, r, w3);
    StepUnfolds(w3, tid, env);
    Stepped(w3, tid, env, k - 3, w4);
    ArrivedIs(w, tid, env, q, task, r);
  }

  lemma ArrivedIs(w: World, tid: nat, env: Env, q: Request, task: Submission, r: Route)
    requires tid in w.threads
    ensures var w3 := Ready(w, tid, env, q, task, r);
      Goto(w3.(table := SqlBegin(w3.table, r).0, commits := w3.commits + {r}), tid, Claiming(task, r)) == Arrived(w, tid, env, task, r)
  {
    hide SqlBegin, SqlPurge;
  }

  lemma StartsAt(w: World, tid: nat, env: Env, q: Request, task: Submission, r: Route)
    requires Submits(w, tid, env, q, task, r)
    ensures tid in w.threads && w.threads[tid].pc == SubmitStart(q)
    ensures ValidIdentifier(w.threads[tid].instance, MAX_IDENTIFIER_BYTES) && w.now <= MAX_SQLITE_INTEGER
  {
    hide ValidIdentifier, Parse, PrepareWithId, SqlBegin, SqlPurge, ValidCaller;
  }

  lemma ArrivedFacts(w: World, tid: nat, env: Env, q: Request, task: Submission, r: Route)
    requires Submits(w, tid, env, q, task, r) && FindsPlace(w, r)
    ensures tid in w.threads
    ensures var w4 := Arrived(w, tid, env, task, r);
      && tid in w4.threads && w4.threads[tid].pc == Claiming(task, r) && w4.threads[tid].instance == w.threads[tid].instance
      && w4.now == w.now && w4.calls == w.calls && Stored(w4, r)
  {
    SubmissionTimes(w, tid, env, q, task, r);
    StartsAt(w, tid, env, q, task, r);
    InsertedIsPresent(SqlPurge(w.table, w.now, PURGE_BATCH).0, r);
    hide WellShaped, SqlBegin, SqlPurge, Parse, PrepareWithId, ValidIdentifier, ValidCaller, ExecutionCutoff;
  }

  lemma InsertedIsPresent(t: Table, r: Route)
    requires SqlBegin(t, r).1 == Ok(Inserted(r))
    ensures r.id in SqlBegin(t, r).0 && SqlBegin(t, r).0[r.id] == r
  {
    hide VerifyPreparedForBegin, WithoutExpired, Active, SqlLookup;
  }

  /** The claim is won, the call made, and its record is the one that awaits the reply. */
  lemma ClaimAlone(w: World, tid: nat, env: Env, task: Submission, r: Route, k: nat) returns (claimed: Route, w': World)
    requires tid in w.threads && w.threads[tid].pc == Claiming(task, r) && ValidIdentifier(w.threads[tid].instance, MAX_IDENTIFIER_BYTES)
    requires Stored(w, r) && r.phase.Prepared? && w.now < ExecutionCutoff(r) && k >= 3
    ensures SameIdentity(r, claimed) && claimed.phase.Dispatching? && claimed.upstream == r.upstream && claimed.version == r.version + 1
    ensures Present(w', claimed) && tid in w'.threads && w'.threads[tid].pc == Awaiting(claimed)
    ensures w'.now == w.now && w'.calls == w.calls + [Call(r.caller, task, claimed)]
    ensures Alone(w, tid, env, k) == Alone(w', tid, env, k - 3)
  {
    var u := ToDispatching(w.threads[tid].instance, TransitionTime(w, r));
    TimeFits(w, r);
    claimed := Wins(w, r, u);
    TransitionFacts(r, u);
    CutoffIsIdentity(r, claimed);
    hide StepThread, Alone, WellShaped, ExecutionCutoff, Cas, Transition, ValidIdentifier;
    var w1 := Wrote(w, tid, claimed, Claimed(task, claimed));
    StepUnfolds(w, tid, env);
    Stepped(w, tid, env, k, w1);
    var w2 := Goto(w1, tid, Committed(task, claimed));
    StepUnfolds(w1, tid, env);
    Stepped(w1, tid, env, k - 1, w2);
    w' := Goto(w2, tid, Awaiting(claimed)).(calls := w2.calls + [Call(claimed.caller, task, claimed)]);
    StepUnfolds(w2, tid, env);
    Stepped(w2, tid, env, k - 2, w');
  }

  lemma CutoffIsIdentity(a: Route, b: Route)
    requires SameIdentity(a, b)
    ensures ExecutionCutoff(a) == ExecutionCutoff(b)
  {
  }

  /** An acknowledged task is bound to its route. */
  lemma BindAlone(w: World, tid: nat, env: Env, r: Route, raw: string, k: nat)
    requires tid in w.threads && w.threads[tid].pc == Awaiting(r) && Stored(w, r) && r.phase.Dispatching? && r.upstream.None? && k >= 3
    requires env.reply == TaskCreated(raw, true) && ValidIdentifier(raw, MAX_UPSTREAM_ID_BYTES) && w.now < ExecutionCutoff(r)
    ensures var w' := Alone(w, tid, env, k);
      && w'.threads[tid].pc.Finished? && w'.threads[tid].received == Some(Receipt(r.id, raw)) && w'.calls == w.calls
      && r.id in w'.table && SameIdentity(r, w'.table[r.id]) && w'.table[r.id].phase.Routed? && w'.table[r.id].upstream == Some(raw)
  {
    hide StepThread, Alone, WellShaped, ExecutionCutoff, ValidIdentifier, StepAwaiting, StepBinding, StepBound;
    var w1 := w.(threads := w.threads[tid := w.threads[tid].(
                   pc := Binding(r, r, raw, true, MAX_CAS_ATTEMPTS), received := Some(Receipt(r.id, raw)))]);
    CreatedPoint(w, tid, env, r, raw);
    StepUnfolds(w, tid, env);
    Stepped(w, tid, env, k, w1);
    var bound := BindWrites(w1, tid, r, raw);
    CutoffIsIdentity(r, bound);
    var w2 := Wrote(w1, tid, bound, Bound(bound, raw, false, true));
    StepUnfolds(w1, tid, env);
    Stepped(w1, tid, env, k - 1, w2);
    BoundAlone(w2, tid, env, bound, raw, k - 2);
  }

  lemma CreatedPoint(w: World, tid: nat, env: Env, r: Route, raw: string)
    requires tid in w.threads && env.reply == TaskCreated(raw, true) && ValidIdentifier(raw, MAX_UPSTREAM_ID_BYTES)
    ensures StepAwaiting(w, tid, r, env) == w.(threads := w.threads[tid := w.threads[tid].(
                                              pc := Binding(r, r, raw, true, MAX_CAS_ATTEMPTS), received := Some(Receipt(r.id, raw)))])
  {
    hide ValidIdentifier;
  }

  lemma BoundPoint(w: World, tid: nat, r: Route, raw: string)
    requires tid in w.threads && r.phase.Routed? && w.now < ExecutionCutoff(r)
    ensures StepBound(w, tid, r, raw, false, true) == Goto(w, tid, Finished)
  {
    hide ExecutionCutoff;
  }

  lemma BoundAlone(w: World, tid: nat, env: Env, r: Route, raw: string, k: nat)
    requires tid in w.threads && w.threads[tid].pc == Bound(r, raw, false, true) && r.phase.Routed? && w.now < ExecutionCutoff(r) && k > 0
    ensures Alone(w, tid, env, k) == Goto(w, tid, Finished)
  {
    hide StepThread, Alone, ExecutionCutoff, StepBound;
    var w1 := Goto(w, tid, Finished);
    BoundPoint(w, tid, r, raw);
    StepUnfolds(w, tid, env);
    Stepped(w, tid, env, k, w1);
    FinishedStays(w1, tid, env, k - 1);
  }

  lemma BindWrites(w: World, tid: nat, r: Route, raw: string) returns (bound: Route)
    requires tid in w.threads && Stored(w, r) && r.phase.Dispatching? && r.upstream.None? && ValidIdentifier(raw, MAX_UPSTREAM_ID_BYTES)
    ensures SameIdentity(r, bound) && bound.phase.Routed? && bound.upstream == Some(raw)
    ensures StepBinding(w, tid, r, r, raw, true, MAX_CAS_ATTEMPTS) == Wrote(w, tid, bound, Bound(bound, raw, false, true))
  {
    var u := ToRouted(raw, TransitionTime(w, r));
    TimeFits(w, r);
    bound := Wins(w, r, u);
    TransitionFacts(r, u);
    hide WellShaped, Transition, Cas, ValidIdentifier;
  }

  /**
   * A new submission that is accepted and finds a free place is called exactly once, under a record of
   * its own, and the task the provider creates for it is bound to that record.
   */
  lemma SubmissionIsRouted(w: World, tid: nat, env: Env, q: Request, task: Submission, r: Route, raw: string) returns (claimed: Route)
    requires Submits(w, tid, env, q, task, r) && FindsPlace(w, r) && env.reply == TaskCreated(raw, true) && ValidIdentifier(raw, MAX_UPSTREAM_ID_BYTES)
    ensures claimed.id == r.id && claimed.caller == q.caller
    ensures var w' := Alone(w, tid, env, 10);
      && w'.threads[tid].pc.Finished? && w'.calls == w.calls + [Call(q.caller, task, claimed)]
      && r.id in w'.table && w'.table[r.id].phase.Routed? && w'.table[r.id].upstream == Some(raw)
      && w'.table[r.id].caller == q.caller && w'.table[r.id].binding == TaskBinding(q.tool, env.snapshot.value, task)
  {
    hide Submits, FindsPlace, Alone, WellShaped, ExecutionCutoff, ValidIdentifier, Arrived, Present;
    SubmissionTimes(w, tid, env, q, task, r);
    StartsAt(w, tid, env, q, task, r);
    ArrivedFacts(w, tid, env, q, task, r);
    SubmissionArrives(w, tid, env, q, task, r, 10);
    var w7;
    claimed, w7 := ClaimAlone(Arrived(w, tid, env, task, r), tid, env, task, r, 6);
    CutoffIsIdentity(r, claimed);
    BindAlone(w7, tid, env, claimed, raw, 3);
  }

  // ---- submitting again ----

  lemma ExistingPoint(w: World, tid: nat, env: Env, task: Submission, r: Route, x: Route, w3: World)
    requires tid in w3.threads && SqlBegin(w3.table, r).1 == Ok(Existing(x)) && !x.phase.Prepared? && w3.now == w.now
    ensures StepBeginning(w3, tid, w.now, task, r, env)
         == Goto(w3, tid, if (!x.phase.Terminal? && !env.sourceCurrent)
                             || (x.phase.Dispatching? && (x.owner != Some(w3.threads[tid].instance) || w.now >= ExecutionCutoff(x)))
                          then Loop(Reconcile, x) else Finished)
  {
    hide SqlBegin, ExecutionCutoff;
  }

  /**
   * A submission whose route is already there makes no call of its own: a route in good hands stays as
   * it is, and one whose session is gone, or whose dispatch is late or in other hands, is left to be reconciled.
   */
  lemma RepeatMakesNoCall(w: World, tid: nat, env: Env, q: Request, task: Submission, r: Route, x: Route)
    requires Submits(w, tid, env, q, task, r) && SqlBegin(SqlPurge(w.table, w.now, PURGE_BATCH).0, r).1 == Ok(Existing(x))
    requires Stored(w.(table := SqlPurge(w.table, w.now, PURGE_BATCH).0), x) && RouteOk(x) && !x.phase.Prepared?
    ensures var w' := Alone(w, tid, env, 6);
      && w'.threads[tid].pc.Finished? && w'.calls == w.calls && x.id in w'.table && SameIdentity(x, w'.table[x.id])
      && match x.phase
         case Dispatching =>
           if env.sourceCurrent && x.owner == Some(w.threads[tid].instance) && !Late(w.now, x) then w'.table[x.id] == x
           else w'.table[x.id].phase.ReconciliationRequired?
         case Routed => if env.sourceCurrent then w'.table[x.id] == x else w'.table[x.id].phase.ReconciliationRequired?
         case _ => w'.table[x.id] == x
  {
    hide StepThread, Alone, SqlPurge, SqlBegin, Submits, WellShaped, RouteOk, Late, ExecutionCutoff, ValidIdentifier, Ready, Present;
    CutoffLaw(w.now, x);
    StartsAt(w, tid, env, q, task, r);
    SubmissionGetsReady(w, tid, env, q, task, r, 6);
    ReadyFacts(w, tid, env, q, task, r, x);
    JoinAlone(w, Ready(w, tid, env, q, task, r), tid, env, q, task, r, x);
  }

  lemma ReadyFacts(w: World, tid: nat, env: Env, q: Request, task: Submission, r: Route, x: Route)
    requires tid in w.threads && Stored(w.(table := SqlPurge(w.table, w.now, PURGE_BATCH).0), x)
    ensures var w3 := Ready(w, tid, env, q, task, r);
      && tid in w3.threads && w3.threads[tid].pc == Beginning(q, w.now, task, r) && w3.threads[tid].instance == w.threads[tid].instance
      && w3.table == SqlPurge(w.table, w.now, PURGE_BATCH).0 && w3.now == w.now && w3.calls == w.calls && Stored(w3, x)
  {
    hide SqlPurge, WellShaped;
  }

  lemma JoinAlone(w: World, w3: World, tid: nat, env: Env, q: Request, task: Submission, r: Route, x: Route)
    requires tid in w3.threads && w3.threads[tid].pc == Beginning(q, w.now, task, r) && w3.now == w.now && Stored(w3, x)
    requires SqlBegin(w3.table, r).1 == Ok(Existing(x)) && !x.phase.Prepared? && (w.now >= ExecutionCutoff(x) <==> Late(w.now, x))
    ensures var w' := Alone(w3, tid, env, 3);
      && w'.threads[tid].pc.Finished? && w'.calls == w3.calls && x.id in w'.table && SameIdentity(x, w'.table[x.id])
      && match x.phase
         case Dispatching =>
           if env.sourceCurrent && x.owner == Some(w3.threads[tid].instance) && !Late(w.now, x) then w'.table[x.id] == x
           else w'.table[x.id].phase.ReconciliationRequired?
         case Routed => if env.sourceCurrent then w'.table[x.id] == x else w'.table[x.id].phase.ReconciliationRequired?
         case _ => w'.table[x.id] == x
  {
    hide StepThread, Alone, SqlBegin, WellShaped, Late, ExecutionCutoff, StepBeginning;
    ExistingPoint(w, tid, env, task, r, x, w3);
    StepUnfolds(w3, tid, env);
    var pc := if (!x.phase.Terminal? && !env.sourceCurrent)
                 || (x.phase.Dispatching? && (x.owner != Some(w3.threads[tid].instance) || w.now >= ExecutionCutoff(x)))
              then Loop(Reconcile, x) else Finished;
    var w4 := Goto(w3, tid, pc);
    Stepped(w3, tid, env, 3, w4);
    if pc.Finished? {
      FinishedStays(w4, tid, env, 2);
    } else {
      LoopAlone(w4, tid, env, Reconcile, x, MAX_CAS_ATTEMPTS, 2);
    }
  }

  /** The steps before a route is looked for: the clock is read and expired routes are purged. */
  lemma RecoveryStarts(w: World, tid: nat, env: Env, q: Request, k: nat)
    requires tid in w.threads && w.threads[tid].pc == SubmitStart(q) && ValidCaller(q.caller) && k >= 2
    requires q.recoveryOnly || (DocumentDeadline(q.document).Some? && DocumentDeadline(q.document).value <= w.now)
    ensures Alone(w, tid, env, k)
         == Alone(Goto(w.(table := SqlPurge(w.table, w.now, PURGE_BATCH).0), tid, Recovering(q, w.now)), tid, env, k - 2)
  {
    hide StepThread, Alone, SqlPurge, ValidCaller, Parse;
    var w1 := Goto(w, tid, SubmitClocked(q, w.now));
    StepUnfolds(w, tid, env);
    Stepped(w, tid, env, k, w1);
    var w2 := Goto(w1.(table := SqlPurge(w.table, w.now, PURGE_BATCH).0), tid, Recovering(q, w.now));
    StepUnfolds(w1, tid, env);
    Stepped(w1, tid, env, k - 1, w2);
    assert w2 == Goto(w.(table := SqlPurge(w.table, w.now, PURGE_BATCH).0), tid, Recovering(q, w.now));
  }

  /** The route that a read-only recovery finds: live, of the caller, and made for this very request. */
  ghost predicate Recovers(w: World, env: Env, q: Request, r: Route) {
    && DocumentKey(q.document).Some? && ValidIdentifier(DocumentKey(q.document).value, MAX_IDENTIFIER_BYTES)
    && SqlFind(w.table, q.caller, DocumentKey(q.document).value) == Some(r) && w.now < r.expires
    && Parse(q.document, q.arguments, q.tool.schemaDigest, NonIdempotentWrite, r.created).Ok?
    && env.snapshot.Some?
    && r.request == RequestDigest(TaskBinding(q.tool, env.snapshot.value,
                                   Parse(q.document, q.arguments, q.tool.schemaDigest, NonIdempotentWrite, r.created).value))
  }

  lemma RecoveringPoint(w: World, tid: nat, env: Env, q: Request, r: Route)
    requires tid in w.threads && Recovers(w, env, q, r)
    ensures StepRecovering(w, tid, q, w.now, env)
         == Goto(w, tid, if r.phase.Prepared? then DecliningDispatch(r)
                         else if !r.phase.Terminal? && (r.phase.Dispatching? || !env.sourceCurrent) then Loop(Reconcile, r)
                         else Finished)
  {
    hide ValidIdentifier, SqlFind, Parse;
  }

  /**
   * A recovery never calls the provider: a route not yet claimed is declined for good, one whose call
   * may be under way is left to be reconciled, and any other is only looked at.
   */
  lemma RecoveryNeverCalls(w: World, tid: nat, env: Env, q: Request, r: Route)
    requires tid in w.threads && w.threads[tid].pc == SubmitStart(q) && ValidCaller(q.caller)
    requires q.recoveryOnly || (DocumentDeadline(q.document).Some? && DocumentDeadline(q.document).value <= w.now)
    requires var purged := w.(table := SqlPurge(w.table, w.now, PURGE_BATCH).0); Stored(purged, r) && Recovers(purged, env, q, r)
    ensures var w' := Alone(w, tid, env, 6);
      && w'.threads[tid].pc.Finished? && w'.calls == w.calls && r.id in w'.table && SameIdentity(r, w'.table[r.id])
      && match r.phase
         case Prepared => w'.table[r.id].cached == Some(TerminalState(NotDispatched("GM_TASK_RUNTIME_BOUND_REACHED"), 0))
         case Dispatching => w'.table[r.id].phase.ReconciliationRequired?
         case Routed => if env.sourceCurrent then w'.table[r.id] == r else w'.table[r.id].phase.ReconciliationRequired?
         case _ => w'.table[r.id] == r
  {
    hide StepThread, Alone, SqlPurge, ValidCaller, Parse, SqlFind, WellShaped, ValidIdentifier, StepRecovering;
    RecoveryStarts(w, tid, env, q, 6);
    var w2 := Goto(w.(table := SqlPurge(w.table, w.now, PURGE_BATCH).0), tid, Recovering(q, w.now));
    RecoversSame(w.(table := SqlPurge(w.table, w.now, PURGE_BATCH).0), w2, env, q, r);
    hide Recovers;
    RecoveringPoint(w2, tid, env, q, r);
    StepUnfolds(w2, tid, env);
    var w3 := StepRecovering(w2, tid, q, w.now, env);
    Stepped(w2, tid, env, 4, w3);
    if r.phase.Prepared? {
      DeclineAlone(w3, tid, env, r, 3);
    } else if !r.phase.Terminal? && (r.phase.Dispatching? || !env.sourceCurrent) {
      LoopAlone(w3, tid, env, Reconcile, r, MAX_CAS_ATTEMPTS, 3);
    } else {
      FinishedStays(w3, tid, env, 3);
    }
  }

  lemma RecoversSame(w: World, w': World, env: Env, q: Request, r: Route)
    requires Recovers(w, env, q, r) && w'.table == w.table && w'.now == w.now
    ensures Recovers(w', env, q, r)
  {
    hide ValidIdentifier, SqlFind, Parse;
  }
}
