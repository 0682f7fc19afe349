/**
 * Whose routes a handler works on: from its start to its end, only those of the caller it was
 * started for, whatever other callers do meanwhile.
 */
module TaskProtocolIsolation {
  import opened Common
  import opened TaskRoute
  import opened RouteStore
  import opened TaskProtocol
  import opened TaskProtocolSafety

  /** Whom a handler is started for. */
  function Starter(pc: Pc): Caller
    requires Entry(pc)
  {
    match pc
    case SubmitStart(q) => q.caller
    case GetStart(c, _) => c
    case CancelStart(c, _) => c
  }

  /** Every record and request the handler has belongs to this caller. */
  predicate Serves(pc: Pc, caller: Caller) {
    match pc
    case SubmitStart(q) => q.caller == caller
    case SubmitClocked(q, _) => q.caller == caller
    case Recovering(q, _) => q.caller == caller
    case Preparing(q, _, _) => q.caller == caller
    case Beginning(q, _, _, r) => r.caller == caller
    case Claiming(_, r) => r.caller == caller
    case Claimed(_, r) => r.caller == caller
    case Committed(_, r) => r.caller == caller
    case Awaiting(r) => r.caller == caller
    case CancellingRaw(r) => r.caller == caller
    case Binding(r, current, _, _, _) => r.caller == caller && current.caller == caller
    case Rebinding(r, _, _, _) => r.caller == caller
    case Bound(r, _, _, _) => r.caller == caller
    case Abandoning(r, _) => r.caller == caller
    case DecliningDispatch(r) => r.caller == caller
    case Looping(_, r, _, _) => r.caller == caller
    case Refetching(_, r, _, _) => r.caller == caller
    case CheckingSource(r) => r.caller == caller
    case ForwardingCancel(r) => r.caller == caller
    case GetStart(c, _) => c == caller
    case GetRead(r) => r.caller == caller
    case Polling(r) => r.caller == caller
    case Polled(r) => r.caller == caller
    case Reviving(r, _, _, _) => r.caller == caller
    case CancelStart(c, _) => c == caller
    case CancelRead(r) => r.caller == caller
    case Finished => true
    case Dropped(at) => Serves(at, caller)
  }

  /** Rows of other callers stay, except that a purge may take expired ones; new records and calls are the caller's own. */
  ghost predicate TouchesOnly(w: World, w': World, caller: Caller) {
    && (forall id | id in w'.table && w'.table[id].caller != caller :: id in w.table && w'.table[id] == w.table[id])
    && (forall id | id in w.table && w.table[id].caller != caller && w.table[id].expires > w.now ::
          id in w'.table && w'.table[id] == w.table[id])
    && (forall r | r in w'.commits && r !in w.commits :: r.caller == caller)
    && (w'.calls == w.calls || exists c: Call :: c.caller == caller && w'.calls == w.calls + [c])
  }

  /** Nothing but the handler itself changes. */
  lemma MoveTouches(w: World, w': World, caller: Caller)
    requires w'.table == w.table && w'.commits == w.commits && w'.calls == w.calls
    ensures TouchesOnly(w, w', caller)
  {
  }

  /** A compare-and-set from a record of the caller gives one of the caller's and touches no other row. */
  lemma CasTouches(w: World, seen: Route, u: Update)
    requires StoreInv(w)
    ensures var (w', outcome) := Cas(w, seen, u);
      && TouchesOnly(w, w', seen.caller) && w'.threads == w.threads && w'.calls == w.calls
      && (outcome.Won? ==> outcome.route.caller == seen.caller)
  {
    hide Transition, RouteOk, Agree, WellShaped;
    if seen.id in w.table && w.table[seen.id].caller == seen.caller && Transition(w.table[seen.id], u).Ok? {
      assert WellShaped(w.table[seen.id]);
      TransitionFacts(w.table[seen.id], u);
    }
  }

  lemma TouchesThenMove(w: World, w1: World, w': World, caller: Caller)
    requires TouchesOnly(w, w1, caller) && w'.table == w1.table && w'.commits == w1.commits && w'.calls == w1.calls
    ensures TouchesOnly(w, w', caller)
  {
  }

  /** Reading by public id gives a route of the reader's caller. */
  lemma GetServes(t: Table, caller: Caller, id: string)
    ensures SqlGet(t, caller, id).Some? ==> SqlGet(t, caller, id).value.caller == caller
  {
  }

  ghost predicate StepServes(w: World, w': World, tid: nat, caller: Caller) {
    tid in w'.threads && Serves(w'.threads[tid].pc, caller) && TouchesOnly(w, w', caller)
  }

  lemma FinishedServes(caller: Caller)
    ensures Serves(Finished, caller)
  {
  }

  lemma LoopingServesCaller(goal: Goal, r: Route, n: nat, after: After)
    ensures Serves(Looping(goal, r, n, after), r.caller) && Serves(Refetching(goal, r, n, after), r.caller)
  {
  }

  lemma CancelPointsServe(r: Route, uid: string)
    ensures Serves(CheckingSource(r), r.caller) && Serves(ForwardingCancel(r), r.caller) && Serves(Abandoning(r, uid), r.caller)
  {
  }

  lemma ClaimPointsServe(task: Submission, r: Route)
    ensures Serves(Claiming(task, r), r.caller) && Serves(Claimed(task, r), r.caller)
  {
  }

  lemma BindPointsServe(r: Route, x: Route, uid: string, must: bool, ack: bool, n: nat)
    requires x.caller == r.caller
    ensures Serves(Bound(x, uid, must, ack), r.caller) && Serves(Rebinding(r, uid, ack, n), r.caller)
  {
  }

  /** A handler moves to a point that serves its caller after touching only its caller's routes. */
  lemma GoServes(w: World, w1: World, tid: nat, pc: Pc, caller: Caller)
    requires tid in w1.threads && TouchesOnly(w, w1, caller) && Serves(pc, caller)
    ensures StepServes(w, Goto(w1, tid, pc), tid, caller)
  {
    hide Serves;
    TouchesThenMove(w, w1, Goto(w1, tid, pc), caller);
  }

  lemma StayTouches(w: World, caller: Caller)
    ensures TouchesOnly(w, w, caller)
  {
  }

  // ---- steps of a submission ----

  lemma ClockedServes(w: World, tid: nat, q: Request, read: nat)
    requires tid in w.threads && read <= w.now
    ensures StepServes(w, StepSubmitClocked(w, tid, q, read), tid, q.caller)
  {
    hide Parse;
    forall id | id in w.table && w.table[id].expires > w.now
      ensures id !in SqlPurged(w.table, read, PURGE_BATCH)
    {
      hide Before;
      assert (w.table[id].expires, id) !in ExpiredPairs(w.table, Min(read, MAX_SQLITE_INTEGER));
    }
    hide SqlPurged;
  }

  lemma RecoveringServes(w: World, tid: nat, q: Request, read: nat, env: Env)
    requires tid in w.threads
    ensures StepServes(w, StepRecovering(w, tid, q, read, env), tid, q.caller)
  {
    hide Parse, TouchesOnly, ValidIdentifier;
    MoveTouches(w, StepRecovering(w, tid, q, read, env), q.caller);
  }

  lemma PreparingServes(w: World, tid: nat, q: Request, read: nat, task: Submission, env: Env)
    requires tid in w.threads
    ensures StepServes(w, StepPreparing(w, tid, q, read, task, env), tid, q.caller)
  {
    hide TouchesOnly;
    MoveTouches(w, StepPreparing(w, tid, q, read, task, env), q.caller);
  }

  lemma BeginTouches(w: World, rec: Route)
    requires StoreInv(w) && rec.created <= w.now
    ensures var out := SqlBegin(w.table, rec);
      && (out.1.Ok? ==> (if out.1.value.Inserted? then out.1.value.route == rec else out.1.value.route.caller == rec.caller))
      && (forall id | id in out.0 && out.0[id].caller != rec.caller :: id in w.table && out.0[id] == w.table[id])
      && (forall id | id in w.table && w.table[id].caller != rec.caller :: id in out.0 && out.0[id] == w.table[id])
  {
    hide VerifyPreparedForBegin, Active, RouteOk, Agree, WellShaped;
    if rec.key.Some? && SqlFind(w.table, rec.caller, rec.key.value).Some? {
      SqlFindIsRow(w.table, rec.caller, rec.key.value);
    }
  }

  lemma InsertedTouches(w: World, rec: Route, x: Route)
    requires StoreInv(w) && rec.created <= w.now && SqlBegin(w.table, rec).1 == Ok(Inserted(x))
    ensures x.caller == rec.caller && TouchesOnly(w, w.(table := SqlBegin(w.table, rec).0, commits := w.commits + {x}), rec.caller)
  {
    hide SqlBegin, StoreInv;
    BeginTouches(w, rec);
  }

  lemma BeginningServes(w: World, tid: nat, read: nat, task: Submission, r: Route, env: Env)
    requires StoreInv(w) && tid in w.threads && r.created <= w.now
    ensures StepServes(w, StepBeginning(w, tid, read, task, r, env), tid, r.caller)
  {
    hide SqlBegin, StoreInv, ExecutionCutoff, StepServes, Serves, Goto, TouchesOnly;
    BeginTouches(w, r);
    var out := SqlBegin(w.table, r);
    match out.1 {
      case Err(_) =>
        FinishedServes(r.caller);
        StayTouches(w, r.caller);
        GoServes(w, w, tid, Finished, r.caller);
      case Ok(Inserted(x)) =>
        InsertedTouches(w, r, x);
        ClaimPointsServe(task, x);
        GoServes(w, w.(table := out.0, commits := w.commits + {x}), tid, Claiming(task, x), r.caller);
      case Ok(Existing(x)) => ExistingServes(w, tid, read, task, r, x, env);
    }
  }

  lemma ExistingServes(w: World, tid: nat, read: nat, task: Submission, r: Route, x: Route, env: Env)
    requires tid in w.threads && SqlBegin(w.table, r).1 == Ok(Existing(x)) && x.caller == r.caller
    ensures StepServes(w, StepBeginning(w, tid, read, task, r, env), tid, r.caller)
  {
    hide SqlBegin, ExecutionCutoff, StepServes, Serves, Goto, TouchesOnly;
    StayTouches(w, r.caller);
    FinishedServes(r.caller);
    ClaimPointsServe(task, x);
    LoopingServesCaller(Reconcile, x, MAX_CAS_ATTEMPTS, Return);
    GoServes(w, w, tid, Loop(Reconcile, x), r.caller);
    GoServes(w, w, tid, Claiming(task, x), r.caller);
    GoServes(w, w, tid, Finished, r.caller);
  }

  lemma ClaimingServes(w: World, tid: nat, task: Submission, r: Route)
    requires StoreInv(w) && tid in w.threads
    ensures StepServes(w, StepClaiming(w, tid, task, r), tid, r.caller)
  {
    hide Cas, StoreInv, TouchesOnly, StepServes, Serves, Goto;
    var u := ToDispatching(w.threads[tid].instance, TransitionTime(w, r));
    CasTouches(w, r, u);
    FinishedServes(r.caller);
    var (w1, outcome) := Cas(w, r, u);
    match outcome {
      case Won(x) =>
        ClaimPointsServe(task, x);
        GoServes(w, w1, tid, Claimed(task, x), r.caller);
      case _ => GoServes(w, w1, tid, Finished, r.caller);
    }
  }

  // ---- steps that follow a reply ----

  lemma BindWithServes(w: World, tid: nat, r: Route, current: Route, uid: string, ack: bool, n: nat, u: Update)
    requires StoreInv(w) && tid in w.threads && n > 0 && current.caller == r.caller
    ensures StepServes(w, BindWith(w, tid, r, current, uid, ack, n, u), tid, r.caller)
  {
    CasTouches(w, current, u);
    var (w1, outcome) := Cas(w, current, u);
    hide Cas, StoreInv, TouchesOnly, StepServes, Serves, Goto;
    CancelPointsServe(r, uid);
    if outcome.Won? {
      BindPointsServe(r, outcome.route, uid, outcome.route.phase.CancelRequested?, ack, n - 1);
    } else {
      BindPointsServe(r, r, uid, true, ack, n - 1);
    }
    match outcome {
      case Won(x) => GoServes(w, w1, tid, Bound(x, uid, x.phase.CancelRequested?, ack), r.caller);
      case Lost => GoServes(w, w1, tid, Rebinding(r, uid, ack, n - 1), r.caller);
      case _ => GoServes(w, w1, tid, Abandoning(r, uid), r.caller);
    }
  }

  lemma BindingServes(w: World, tid: nat, r: Route, current: Route, uid: string, ack: bool, n: nat)
    requires StoreInv(w) && tid in w.threads && current.caller == r.caller
    ensures StepServes(w, StepBinding(w, tid, r, current, uid, ack, n), tid, r.caller)
  {
    hide StoreInv, BindWith, TouchesOnly;
    var time := TransitionTime(w, current);
    if n > 0 {
      BindWithServes(w, tid, r, current, uid, ack, n, ToRouted(uid, time));
      BindWithServes(w, tid, r, current, uid, ack, n, ToCancelWithUpstream(uid, time));
    }
    if StepBinding(w, tid, r, current, uid, ack, n).table == w.table && StepBinding(w, tid, r, current, uid, ack, n).commits == w.commits
       && StepBinding(w, tid, r, current, uid, ack, n).calls == w.calls {
      MoveTouches(w, StepBinding(w, tid, r, current, uid, ack, n), r.caller);
    }
  }

  lemma DecliningServes(w: World, tid: nat, r: Route)
    requires StoreInv(w) && tid in w.threads
    ensures StepServes(w, StepDecliningDispatch(w, tid, r), tid, r.caller)
  {
    hide Cas, StoreInv, TouchesOnly, StepServes, Serves, Goto;
    var u := ToTerminal(TransitionTime(w, r), NotDispatchedState());
    CasTouches(w, r, u);
    FinishedServes(r.caller);
    GoServes(w, Cas(w, r, u).0, tid, Finished, r.caller);
  }

  lemma LoopingServes(w: World, tid: nat, goal: Goal, current: Route, n: nat, after: After)
    requires StoreInv(w) && tid in w.threads
    ensures StepServes(w, StepLooping(w, tid, goal, current, n, after), tid, current.caller)
  {
    hide Cas, StoreInv, TouchesOnly, StepServes, Serves, Goto, Reached, GoalUpdate;
    var u := GoalUpdate(goal, TransitionTime(w, current));
    CasTouches(w, current, u);
    FinishedServes(current.caller);
    if n == 0 || Reached(goal, current.phase) {
      ReachedServes(w, tid, goal, current, n, after);
    } else {
      var (w1, outcome) := Cas(w, current, u);
      match outcome {
        case Won(x) =>
          LoopingServesCaller(goal, x, n - 1, after);
          GoServes(w, w1, tid, Looping(goal, x, n - 1, after), current.caller);
        case Lost =>
          LoopingServesCaller(goal, current, n - 1, after);
          GoServes(w, w1, tid, Refetching(goal, current, n - 1, after), current.caller);
        case _ => GoServes(w, w1, tid, Finished, current.caller);
      }
    }
  }

  lemma ReachedServes(w: World, tid: nat, goal: Goal, current: Route, n: nat, after: After)
    requires tid in w.threads && (n == 0 || Reached(goal, current.phase))
    ensures StepServes(w, StepLooping(w, tid, goal, current, n, after), tid, current.caller)
  {
    hide Cas, StepServes, Reached, GoalUpdate;
    QuietMove(w, StepLooping(w, tid, goal, current, n, after), tid, current.caller);
  }

  lemma RevivingServes(w: World, tid: nat, r: Route, status: string, terminal: bool, bytes: nat)
    requires StoreInv(w) && tid in w.threads
    ensures StepServes(w, StepReviving(w, tid, r, status, terminal, bytes), tid, r.caller)
  {
    hide Cas, StoreInv, TouchesOnly;
    var w' := StepReviving(w, tid, r, status, terminal, bytes);
    if r.upstream.None? {
      MoveTouches(w, w', r.caller);
    } else {
      var u := ToRouted(r.upstream.value, TransitionTime(w, r));
      CasTouches(w, r, u);
      TouchesThenMove(w, Cas(w, r, u).0, w', r.caller);
    }
  }

  /** Where a handler goes when its step leaves the table, the records and the calls alone. */
  lemma QuietMove(w: World, w': World, tid: nat, caller: Caller)
    requires tid in w'.threads && Serves(w'.threads[tid].pc, caller)
    requires w'.table == w.table && w'.commits == w.commits && w'.calls == w.calls
    ensures StepServes(w, w', tid, caller)
  {
    hide Serves;
  }

  lemma AwaitingServes(w: World, tid: nat, r: Route, env: Env)
    requires tid in w.threads
    ensures StepServes(w, StepAwaiting(w, tid, r, env), tid, r.caller)
  {
    hide ExecutionCutoff, ValidIdentifier, StepServes;
    QuietMove(w, StepAwaiting(w, tid, r, env), tid, r.caller);
  }

  lemma BoundServes(w: World, tid: nat, r: Route, uid: string, must: bool, ack: bool)
    requires tid in w.threads
    ensures StepServes(w, StepBound(w, tid, r, uid, must, ack), tid, r.caller)
  {
    hide ExecutionCutoff, StepServes;
    QuietMove(w, StepBound(w, tid, r, uid, must, ack), tid, r.caller);
  }

  lemma RebindingServes(w: World, tid: nat, r: Route, uid: string, ack: bool, n: nat)
    requires tid in w.threads
    ensures StepServes(w, StepRebinding(w, tid, r, uid, ack, n), tid, r.caller)
  {
    GetServes(w.table, r.caller, r.id);
    hide SqlGet, StepServes;
    QuietMove(w, StepRebinding(w, tid, r, uid, ack, n), tid, r.caller);
  }

  lemma RefetchingServes(w: World, tid: nat, goal: Goal, r: Route, n: nat, after: After)
    requires tid in w.threads
    ensures StepServes(w, StepRefetching(w, tid, goal, r, n, after), tid, r.caller)
  {
    GetServes(w.table, r.caller, r.id);
    hide SqlGet, StepServes;
    QuietMove(w, StepRefetching(w, tid, goal, r, n, after), tid, r.caller);
  }

  lemma StartsServe(w: World, tid: nat, caller: Caller, id: string)
    requires tid in w.threads
    ensures StepServes(w, StepGetStart(w, tid, caller, id), tid, caller)
    ensures StepServes(w, StepCancelStart(w, tid, caller, id), tid, caller)
  {
    GetServes(w.table, caller, id);
    hide SqlGet, StepServes;
    QuietMove(w, StepGetStart(w, tid, caller, id), tid, caller);
    QuietMove(w, StepCancelStart(w, tid, caller, id), tid, caller);
  }

  lemma GetReadServes(w: World, tid: nat, r: Route, env: Env)
    requires tid in w.threads
    ensures StepServes(w, StepGetRead(w, tid, r, env), tid, r.caller)
  {
    hide ExecutionCutoff, StepServes;
    QuietMove(w, StepGetRead(w, tid, r, env), tid, r.caller);
  }

  lemma PollingServes(w: World, tid: nat, r: Route)
    requires tid in w.threads
    ensures StepServes(w, StepPolling(w, tid, r), tid, r.caller)
  {
    hide ExecutionCutoff, StepServes;
    QuietMove(w, StepPolling(w, tid, r), tid, r.caller);
  }

  lemma PolledServes(w: World, tid: nat, r: Route, env: Env)
    requires tid in w.threads
    ensures StepServes(w, StepPolled(w, tid, r, env), tid, r.caller)
  {
    hide ExecutionCutoff, StepServes;
    QuietMove(w, StepPolled(w, tid, r, env), tid, r.caller);
  }

  lemma CheckingServes(w: World, tid: nat, r: Route, env: Env)
    requires tid in w.threads
    ensures StepServes(w, StepCheckingSource(w, tid, r, env), tid, r.caller)
    ensures StepServes(w, StepCancelRead(w, tid, r), tid, r.caller)
  {
    hide StepServes;
    QuietMove(w, StepCheckingSource(w, tid, r, env), tid, r.caller);
    QuietMove(w, StepCancelRead(w, tid, r), tid, r.caller);
  }

  lemma ForwardingServes(w: World, tid: nat, r: Route, env: Env)
    requires tid in w.threads
    ensures StepServes(w, StepForwardingCancel(w, tid, r, env), tid, r.caller)
  {
    hide StepServes;
    QuietMove(w, StepForwardingCancel(w, tid, r, env), tid, r.caller);
  }

  lemma SubmitStartServes(w: World, tid: nat, q: Request)
    requires tid in w.threads
    ensures StepServes(w, StepSubmitStart(w, tid, q), tid, q.caller)
  {
    hide ValidCaller, StepServes;
    QuietMove(w, StepSubmitStart(w, tid, q), tid, q.caller);
  }

  lemma ClaimedServes(w: World, tid: nat, task: Submission, r: Route)
    requires tid in w.threads
    ensures StepServes(w, StepClaimed(w, tid, task, r), tid, r.caller)
  {
    hide ExecutionCutoff, StepServes;
    QuietMove(w, StepClaimed(w, tid, task, r), tid, r.caller);
  }

  lemma CallTouches(w: World, tid: nat, task: Submission, r: Route)
    requires tid in w.threads
    ensures StepServes(w, StepCommitted(w, tid, task, r), tid, r.caller)
  {
    var c := Call(r.caller, task, r);
    assert c.caller == r.caller;
  }

  lemma ReconcileServes(w: World, tid: nat, r: Route)
    requires tid in w.threads
    ensures StepServes(w, Goto(w, tid, Loop(Reconcile, r)), tid, r.caller)
  {
    hide StepServes;
    QuietMove(w, Goto(w, tid, Loop(Reconcile, r)), tid, r.caller);
  }

  lemma AbandoningServes(w: World, tid: nat, r: Route, uid: string)
    requires tid in w.threads
    ensures StepServes(w, Goto(SendCancel(w, r.id, uid), tid, Finished), tid, r.caller)
  {
    hide StepServes;
    QuietMove(w, Goto(SendCancel(w, r.id, uid), tid, Finished), tid, r.caller);
  }

  lemma InvGives(w: World, tid: nat)
    requires Inv(w) && tid in w.threads
    ensures StoreInv(w)
    ensures w.threads[tid].pc.SubmitClocked? ==> w.threads[tid].pc.read <= w.now
    ensures w.threads[tid].pc.Beginning? ==> w.threads[tid].pc.record.created <= w.now
  {
    hide StoreInv, TokenInv, DeadlineInv, OnceInv, SettleInv;
    assert PcOk(w, w.threads[tid].pc);
  }

  predicate Submitting(pc: Pc) {
    pc.SubmitStart? || pc.SubmitClocked? || pc.Recovering? || pc.Preparing? || pc.Beginning? || pc.Claiming? || pc.Claimed? || pc.Committed?
  }

  lemma SubmittingServes(w: World, tid: nat, env: Env, caller: Caller)
    requires Inv(w) && tid in w.threads && Serves(w.threads[tid].pc, caller)
    requires Submitting(w.threads[tid].pc)
    ensures StepServes(w, StepThread(w, tid, env), tid, caller)
  {
    hide Inv, StoreInv, StepServes, StepSubmitStart, StepSubmitClocked, StepRecovering, StepPreparing, StepBeginning,
      StepClaiming, StepClaimed, StepCommitted, StepAwaiting, StepBinding, StepRebinding, StepBound, StepDecliningDispatch, StepLooping,
      StepRefetching, StepCheckingSource, StepForwardingCancel, StepGetStart, StepGetRead, StepPolling, StepPolled, StepReviving,
      StepCancelStart, StepCancelRead, Goto;
    InvGives(w, tid);
    match w.threads[tid].pc {
      case SubmitStart(q) => SubmitStartServes(w, tid, q);
      case SubmitClocked(q, read) => ClockedServes(w, tid, q, read);
      case Recovering(q, read) => RecoveringServes(w, tid, q, read, env);
      case Preparing(q, read, task) => PreparingServes(w, tid, q, read, task, env);
      case Beginning(q, read, task, r) => BeginningServes(w, tid, read, task, r, env);
      case Claiming(task, r) => ClaimingServes(w, tid, task, r);
      case Claimed(task, r) => ClaimedServes(w, tid, task, r);
      case Committed(task, r) => CallTouches(w, tid, task, r);
    }
  }

  predicate Replying(pc: Pc) {
    pc.Awaiting? || pc.CancellingRaw? || pc.Binding? || pc.Rebinding? || pc.Bound? || pc.Abandoning? || pc.DecliningDispatch?
  }

  lemma ReplyingServes(w: World, tid: nat, env: Env, caller: Caller)
    requires Inv(w) && tid in w.threads && Serves(w.threads[tid].pc, caller)
    requires Replying(w.threads[tid].pc)
    ensures StepServes(w, StepThread(w, tid, env), tid, caller)
  {
    hide Inv, StoreInv, StepServes, StepSubmitStart, StepSubmitClocked, StepRecovering, StepPreparing, StepBeginning,
      StepClaiming, StepClaimed, StepCommitted, StepAwaiting, StepBinding, StepRebinding, StepBound, StepDecliningDispatch, StepLooping,
      StepRefetching, StepCheckingSource, StepForwardingCancel, StepGetStart, StepGetRead, StepPolling, StepPolled, StepReviving,
      StepCancelStart, StepCancelRead, Goto;
    InvGives(w, tid);
    match w.threads[tid].pc {
      case Awaiting(r) => AwaitingServes(w, tid, r, env);
      case CancellingRaw(r) => ReconcileServes(w, tid, r);
      case Binding(r, current, uid, ack, n) => BindingServes(w, tid, r, current, uid, ack, n);
      case Rebinding(r, uid, ack, n) => RebindingServes(w, tid, r, uid, ack, n);
      case Bound(r, uid, must, ack) => BoundServes(w, tid, r, uid, must, ack);
      case Abandoning(r, uid) => AbandoningServes(w, tid, r, uid);
      case DecliningDispatch(r) => DecliningServes(w, tid, r);
    }
  }

  predicate Settling(pc: Pc) {
    pc.Looping? || pc.Refetching? || pc.CheckingSource? || pc.ForwardingCancel? || pc.Reviving? || pc.CancelRead?
  }

  lemma SettlingServes(w: World, tid: nat, env: Env, caller: Caller)
    requires Inv(w) && tid in w.threads && Serves(w.threads[tid].pc, caller)
    requires Settling(w.threads[tid].pc)
    ensures StepServes(w, StepThread(w, tid, env), tid, caller)
  {
    hide Inv, StoreInv, StepServes, StepSubmitStart, StepSubmitClocked, StepRecovering, StepPreparing, StepBeginning,
      StepClaiming, StepClaimed, StepCommitted, StepAwaiting, StepBinding, StepRebinding, StepBound, StepDecliningDispatch, StepLooping,
      StepRefetching, StepCheckingSource, StepForwardingCancel, StepGetStart, StepGetRead, StepPolling, StepPolled, StepReviving,
      StepCancelStart, StepCancelRead, Goto;
    InvGives(w, tid);
    match w.threads[tid].pc {
      case Looping(goal, current, n, after) => LoopingServes(w, tid, goal, current, n, after);
      case Refetching(goal, current, n, after) => RefetchingServes(w, tid, goal, current, n, after);
      case CheckingSource(r) => CheckingServes(w, tid, r, env);
      case ForwardingCancel(r) => ForwardingServes(w, tid, r, env);
      case Reviving(r, status, terminal, bytes) => RevivingServes(w, tid, r, status, terminal, bytes);
      case CancelRead(r) => CheckingServes(w, tid, r, env);
    }
  }

  predicate Reading(pc: Pc) {
    pc.GetStart? || pc.GetRead? || pc.Polling? || pc.Polled? || pc.CancelStart? || pc.Finished? || pc.Dropped?
  }

  lemma ReadingServes(w: World, tid: nat, env: Env, caller: Caller)
    requires Inv(w) && tid in w.threads && Serves(w.threads[tid].pc, caller)
    requires Reading(w.threads[tid].pc)
    ensures StepServes(w, StepThread(w, tid, env), tid, caller)
  {
    hide Inv, StoreInv, StepServes, StepSubmitStart, StepSubmitClocked, StepRecovering, StepPreparing, StepBeginning,
      StepClaiming, StepClaimed, StepCommitted, StepAwaiting, StepBinding, StepRebinding, StepBound, StepDecliningDispatch, StepLooping,
      StepRefetching, StepCheckingSource, StepForwardingCancel, StepGetStart, StepGetRead, StepPolling, StepPolled, StepReviving,
      StepCancelStart, StepCancelRead, Goto;
    InvGives(w, tid);
    match w.threads[tid].pc {
      case GetStart(c, id) => StartsServe(w, tid, c, id);
      case GetRead(r) => GetReadServes(w, tid, r, env);
      case Polling(r) => PollingServes(w, tid, r);
      case Polled(r) => PolledServes(w, tid, r, env);
      case CancelStart(c, id) => StartsServe(w, tid, c, id);
      case Finished => QuietMove(w, w, tid, caller);
      case Dropped(_) => QuietMove(w, w, tid, caller);
    }
  }

  /** One step of a handler works on its caller's routes only, and leaves it with routes of that caller only. */
  lemma StepThreadServes(w: World, tid: nat, env: Env, caller: Caller)
    requires Inv(w) && tid in w.threads && Serves(w.threads[tid].pc, caller)
    ensures StepServes(w, StepThread(w, tid, env), tid, caller)
  {
    hide Inv, Serves, StepServes, StepThread;
    if Submitting(w.threads[tid].pc) {
      SubmittingServes(w, tid, env, caller);
    } else if Replying(w.threads[tid].pc) {
      ReplyingServes(w, tid, env, caller);
    } else if Settling(w.threads[tid].pc) {
      SettlingServes(w, tid, env, caller);
    } else {
      ReadingServes(w, tid, env, caller);
    }
  }

  // ---- whole executions ----

  lemma NextServes(w: World, a: Action, tid: nat, caller: Caller)
    requires Inv(w) && Enabled(w, a) && tid in w.threads && Serves(w.threads[tid].pc, caller)
    ensures tid in Next(w, a).threads && Serves(Next(w, a).threads[tid].pc, caller)
  {
    hide Inv, StepThread, Serves;
    match a {
      case Tick(to) =>
      case Spawn(u, instance, pc) =>
      case Drop(u) =>
        if u == tid {
          DroppedServes(w.threads[tid].pc, caller);
        }
      case Run(u, env) =>
        if u == tid {
          StepThreadServes(w, tid, env, caller);
        } else {
          OthersStay(w, u, env);
        }
    }
  }

  lemma DroppedServes(pc: Pc, caller: Caller)
    requires Serves(pc, caller)
    ensures Serves(Dropped(pc), caller)
  {
  }

  /** Every other handler is where it was. */
  ghost predicate OthersSame(w: World, w': World, u: nat) {
    && w'.threads.Keys == w.threads.Keys
    && forall t | t in w.threads && t != u :: w'.threads[t] == w.threads[t]
  }

  lemma SubmitStartLeavesOthers(w: World, u: nat, q: Request)
    requires u in w.threads
    ensures OthersSame(w, StepSubmitStart(w, u, q), u)
  {
    hide ValidCaller;
  }

  lemma ClockedLeavesOthers(w: World, u: nat, q: Request, read: nat)
    requires u in w.threads
    ensures OthersSame(w, StepSubmitClocked(w, u, q, read), u)
  {
    hide Parse, SqlPurge;
  }

  lemma PreparingLeavesOthers(w: World, u: nat, q: Request, read: nat, task: Submission, env: Env)
    requires u in w.threads
    ensures OthersSame(w, StepPreparing(w, u, q, read, task, env), u)
  {
    hide PrepareWithId;
  }

  lemma RecoverLeavesOthers(w: World, u: nat, q: Request, read: nat, env: Env)
    requires u in w.threads
    ensures OthersSame(w, StepRecovering(w, u, q, read, env), u)
  {
    hide Parse, SqlFind, ValidIdentifier;
  }

  lemma BeginLeavesOthers(w: World, u: nat, read: nat, task: Submission, r: Route, env: Env)
    requires u in w.threads
    ensures OthersSame(w, StepBeginning(w, u, read, task, r, env), u)
  {
    hide SqlBegin, ExecutionCutoff;
  }

  lemma CasLeavesThreads(w: World, seen: Route, u: Update)
    ensures Cas(w, seen, u).0.threads == w.threads
  {
    hide SqlCas;
  }

  lemma ClaimLeavesOthers(w: World, u: nat, task: Submission, r: Route)
    requires u in w.threads
    ensures OthersSame(w, StepClaiming(w, u, task, r), u) && OthersSame(w, StepClaimed(w, u, task, r), u)
    ensures OthersSame(w, StepCommitted(w, u, task, r), u)
  {
    CasLeavesThreads(w, r, ToDispatching(w.threads[u].instance, TransitionTime(w, r)));
    hide Cas, ExecutionCutoff;
  }

  lemma DeclineLeavesOthers(w: World, u: nat, r: Route)
    requires u in w.threads
    ensures OthersSame(w, StepDecliningDispatch(w, u, r), u)
  {
    CasLeavesThreads(w, r, ToTerminal(TransitionTime(w, r), NotDispatchedState()));
    hide Cas;
  }

  lemma StayLeavesOthers(w: World, u: nat)
    ensures OthersSame(w, w, u)
  {
  }

  lemma AwaitLeavesOthers(w: World, u: nat, r: Route, env: Env)
    requires u in w.threads
    ensures OthersSame(w, StepAwaiting(w, u, r, env), u)
  {
    hide ExecutionCutoff, ValidIdentifier;
  }

  lemma BindWithLeavesOthers(w: World, u: nat, r: Route, current: Route, uid: string, ack: bool, n: nat, x: Update)
    requires u in w.threads && n > 0
    ensures OthersSame(w, BindWith(w, u, r, current, uid, ack, n, x), u)
  {
    CasLeavesThreads(w, current, x);
    hide Cas;
  }

  lemma GotoLeavesOthers(w: World, u: nat, pc: Pc)
    requires u in w.threads
    ensures OthersSame(w, Goto(w, u, pc), u)
  {
  }

  lemma BindLeavesOthers(w: World, u: nat, r: Route, current: Route, uid: string, ack: bool, n: nat)
    requires u in w.threads
    ensures OthersSame(w, StepBinding(w, u, r, current, uid, ack, n), u)
  {
    hide BindWith, Goto, OthersSame;
    var time := TransitionTime(w, current);
    if n > 0 {
      BindWithLeavesOthers(w, u, r, current, uid, ack, n, ToRouted(uid, time));
      BindWithLeavesOthers(w, u, r, current, uid, ack, n, ToCancelWithUpstream(uid, time));
    }
    GotoLeavesOthers(w, u, Abandoning(r, uid));
    GotoLeavesOthers(w, u, Bound(current, uid, current.phase.CancelRequested?, ack));
    GotoLeavesOthers(w, u, Bound(current, uid, true, ack));
  }

  lemma BoundLeavesOthers(w: World, u: nat, r: Route, uid: string, must: bool, ack: bool, n: nat)
    requires u in w.threads
    ensures OthersSame(w, StepRebinding(w, u, r, uid, ack, n), u) && OthersSame(w, StepBound(w, u, r, uid, must, ack), u)
    ensures OthersSame(w, Goto(SendCancel(w, r.id, uid), u, Finished), u) && OthersSame(w, Goto(w, u, Loop(Reconcile, r)), u)
  {
    hide SqlGet, ExecutionCutoff;
  }

  lemma LoopLeavesOthers(w: World, u: nat, goal: Goal, r: Route, n: nat, after: After)
    requires u in w.threads
    ensures OthersSame(w, StepLooping(w, u, goal, r, n, after), u) && OthersSame(w, StepRefetching(w, u, goal, r, n, after), u)
  {
    CasLeavesThreads(w, r, GoalUpdate(goal, TransitionTime(w, r)));
    hide Cas, SqlGet, GoalUpdate, Reached;
  }

  lemma CancelLeavesOthers(w: World, u: nat, r: Route, env: Env)
    requires u in w.threads
    ensures OthersSame(w, StepCheckingSource(w, u, r, env), u) && OthersSame(w, StepForwardingCancel(w, u, r, env), u)
    ensures OthersSame(w, StepCancelRead(w, u, r), u)
  {
  }

  lemma StartLeavesOthers(w: World, u: nat, caller: Caller, id: string)
    requires u in w.threads
    ensures OthersSame(w, StepGetStart(w, u, caller, id), u) && OthersSame(w, StepCancelStart(w, u, caller, id), u)
  {
    hide SqlGet;
  }

  lemma GetReadLeavesOthers(w: World, u: nat, r: Route, env: Env)
    requires u in w.threads
    ensures OthersSame(w, StepGetRead(w, u, r, env), u) && OthersSame(w, StepPolling(w, u, r), u)
  {
    hide ExecutionCutoff;
  }

  lemma PolledLeavesOthers(w: World, u: nat, r: Route, env: Env)
    requires u in w.threads
    ensures OthersSame(w, StepPolled(w, u, r, env), u)
  {
    hide ExecutionCutoff;
  }

  lemma ReviveLeavesOthers(w: World, u: nat, r: Route, status: string, terminal: bool, bytes: nat)
    requires u in w.threads
    ensures OthersSame(w, StepReviving(w, u, r, status, terminal, bytes), u)
  {
    if r.upstream.Some? {
      CasLeavesThreads(w, r, ToRouted(r.upstream.value, TransitionTime(w, r)));
    }
    hide Cas;
  }

  /** A handler's step leaves every other handler where it was. */
  lemma OthersStay(w: World, u: nat, env: Env)
    requires u in w.threads
    ensures OthersSame(w, StepThread(w, u, env), u)
  {
    hide OthersSame, StepSubmitStart, StepSubmitClocked, StepRecovering, StepPreparing, StepBeginning, StepClaiming, StepClaimed,
      StepCommitted, StepAwaiting, StepBinding, StepRebinding, StepBound, StepDecliningDispatch, StepLooping, StepRefetching,
      StepCheckingSource, StepForwardingCancel, StepGetStart, StepGetRead, StepPolling, StepPolled, StepReviving, StepCancelStart,
      StepCancelRead;
    match w.threads[u].pc {
      case SubmitStart(q) => SubmitStartLeavesOthers(w, u, q);
      case SubmitClocked(q, read) => ClockedLeavesOthers(w, u, q, read);
      case Recovering(q, read) => RecoverLeavesOthers(w, u, q, read, env);
      case Preparing(q, read, task) => PreparingLeavesOthers(w, u, q, read, task, env);
      case Beginning(q, read, task, r) => BeginLeavesOthers(w, u, read, task, r, env);
      case Claiming(task, r) => ClaimLeavesOthers(w, u, task, r);
      case Claimed(task, r) => ClaimLeavesOthers(w, u, task, r);
      case Committed(task, r) => ClaimLeavesOthers(w, u, task, r);
      case Awaiting(r) => AwaitLeavesOthers(w, u, r, env);
      case CancellingRaw(r) => BoundLeavesOthers(w, u, r, "", true, true, 0);
      case Binding(r, current, uid, ack, n) => BindLeavesOthers(w, u, r, current, uid, ack, n);
      case Rebinding(r, uid, ack, n) => BoundLeavesOthers(w, u, r, uid, true, ack, n);
      case Bound(r, uid, must, ack) => BoundLeavesOthers(w, u, r, uid, must, ack, 0);
      case Abandoning(r, uid) => BoundLeavesOthers(w, u, r, uid, true, true, 0);
      case DecliningDispatch(r) => DeclineLeavesOthers(w, u, r);
      case Looping(goal, current, n, after) => LoopLeavesOthers(w, u, goal, current, n, after);
      case Refetching(goal, current, n, after) => LoopLeavesOthers(w, u, goal, current, n, after);
      case CheckingSource(r) => CancelLeavesOthers(w, u, r, env);
      case ForwardingCancel(r) => CancelLeavesOthers(w, u, r, env);
      case GetStart(c, id) => StartLeavesOthers(w, u, c, id);
      case GetRead(r) => GetReadLeavesOthers(w, u, r, env);
      case Polling(r) => GetReadLeavesOthers(w, u, r, env);
      case Polled(r) => PolledLeavesOthers(w, u, r, env);
      case Reviving(r, status, terminal, bytes) => ReviveLeavesOthers(w, u, r, status, terminal, bytes);
      case CancelStart(c, id) => StartLeavesOthers(w, u, c, id);
      case CancelRead(r) => CancelLeavesOthers(w, u, r, env);
      case Finished => StayLeavesOthers(w, u);
      case Dropped(_) => StayLeavesOthers(w, u);
    }
  }

  lemma StartServes(pc: Pc)
    requires Entry(pc)
    ensures Serves(pc, Starter(pc))
  {
  }

  /** Wherever a handler is in any execution, all it has belongs to the caller it was started for. */
  lemma {:induction false} HandlerServesItsCaller(run: seq<World>, k: nat, m: nat, tid: nat)
    requires Execution(run) && k <= m < |run| && tid in run[k].threads && Entry(run[k].threads[tid].pc)
    ensures tid in run[m].threads && Serves(run[m].threads[tid].pc, Starter(run[k].threads[tid].pc))
    decreases m
  {
    hide Init, Inv, Next, Enabled, Serves;
    if k == m {
      StartServes(run[k].threads[tid].pc);
    } else {
      HandlerServesItsCaller(run, k, m - 1, tid);
      ExecutionKeepsInv(run, m - 1);
      assert Steps(run[m - 1], run[m]);
      var a :| Enabled(run[m - 1], a) && Next(run[m - 1], a) == run[m];
      NextServes(run[m - 1], a, tid, Starter(run[k].threads[tid].pc));
    }
  }

  /** And no step it makes adds, changes or removes a route of anybody else, except by purging expired ones. */
  lemma HandlerTouchesItsCaller(run: seq<World>, k: nat, m: nat, tid: nat, env: Env)
    requires Execution(run) && k <= m < |run| && tid in run[k].threads && Entry(run[k].threads[tid].pc)
    requires Enabled(run[m], Run(tid, env))
    ensures TouchesOnly(run[m], Next(run[m], Run(tid, env)), Starter(run[k].threads[tid].pc))
  {
    hide Execution, Inv, Serves, TouchesOnly, StepThread;
    HandlerServesItsCaller(run, k, m, tid);
    ExecutionKeepsInv(run, m);
    StepThreadServes(run[m], tid, env, Starter(run[k].threads[tid].pc));
  }
}
