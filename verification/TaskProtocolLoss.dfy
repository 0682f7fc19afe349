/**
 * When an acknowledged upstream task is lost. A route's dispatch right, the awaited reply and the
 * unrecorded task are one thing that at most one handler has, and while it has it no record names
 * an upstream task of the route and nobody asked for its cancellation.
 */
module TaskProtocolLoss {
  import opened Common
  import opened TaskRoute
  import opened RouteStore
  import opened TaskProtocol
  import opened TaskProtocolSafety

  /** The handler has the route's dispatch: its claim, the reply it waits for, or the task not yet recorded. */
  predicate Pending(pc: Pc, id: string) {
    match pc
    case Claimed(_, r) => r.id == id
    case Committed(_, r) => r.id == id
    case Awaiting(r) => r.id == id
    case Binding(r, _, _, _, _) => r.id == id
    case Rebinding(r, _, _, _) => r.id == id
    case Bound(r, uid, _, _) => r.id == id && r.upstream != Some(uid)
    case Abandoning(r, uid) => r.id == id && r.upstream != Some(uid)
    case Dropped(at) => Pending(at, id)
    case _ => false
  }

  /** The route is past its first record. */
  ghost predicate Past(w: World, id: string) {
    exists c | c in w.commits :: c.id == id && c.version > 0
  }

  /** No record of the route names an upstream task, and no cancel request was sent for it. */
  ghost predicate Unrecorded(w: World, id: string) {
    && (forall c | c in w.commits && c.id == id :: c.upstream.None?)
    && (forall x | x in w.cancels :: x.route != id)
  }

  ghost predicate LossInv(w: World) {
    && (forall t, u, id | t in w.threads && u in w.threads && Pending(w.threads[t].pc, id) && Pending(w.threads[u].pc, id) :: t == u)
    && (forall t, id | t in w.threads && Pending(w.threads[t].pc, id) :: Unrecorded(w, id) && Past(w, id))
    && (forall x | x in w.cancels :: Past(w, x.route))
  }

  /** Nobody else has this route's dispatch. */
  ghost predicate Alone(w: World, tid: nat, id: string) {
    forall u | u in w.threads && u != tid :: !Pending(w.threads[u].pc, id)
  }

  /** One handler moves, and the histories only grow. */
  ghost predicate Moves(w: World, w': World, tid: nat) {
    && tid in w.threads && tid in w'.threads
    && w'.threads == w.threads[tid := w'.threads[tid]]
    && w.commits <= w'.commits && w.cancels <= w'.cancels
  }

  lemma {:induction false} InHandIsPending(pc: Pc, x: Receipt)
    requires InHand(pc, x)
    ensures Pending(pc, x.route)
    decreases pc
  {
    if pc.Dropped? {
      InHandIsPending(pc.at, x);
    }
  }

  // ---- what a step must respect ----

  lemma PastGrows(w: World, w': World, id: string)
    requires Past(w, id) && w.commits <= w'.commits
    ensures Past(w', id)
  {
  }

  /** Only the handler that has a dispatch records or cancels its task, and gives it up with that. */
  lemma StepKeepsLoss(w: World, w': World, tid: nat)
    requires LossInv(w) && Moves(w, w', tid)
    requires forall id | Pending(w'.threads[tid].pc, id) ::
               Pending(w.threads[tid].pc, id) || (Past(w', id) && Unrecorded(w', id) && Alone(w, tid, id))
    requires forall c | c in w'.commits && c !in w.commits && c.upstream.Some? ::
               Alone(w, tid, c.id) && !Pending(w'.threads[tid].pc, c.id)
    requires forall x | x in w'.cancels && x !in w.cancels ::
               Past(w', x.route) && Alone(w, tid, x.route) && !Pending(w'.threads[tid].pc, x.route)
    ensures LossInv(w')
  {
    hide Pending, Past;
    forall id | Past(w, id)
      ensures Past(w', id)
    {
      PastGrows(w, w', id);
    }
    forall t, id | t in w'.threads && Pending(w'.threads[t].pc, id)
      ensures Unrecorded(w', id) && Past(w', id)
    {
      assert t != tid ==> Pending(w.threads[t].pc, id) && !Alone(w, tid, id);
      if t != tid || Pending(w.threads[tid].pc, id) {
        assert Unrecorded(w, id);
        forall c | c in w'.commits && c.id == id
          ensures c.upstream.None?
        {
          assert c in w.commits ==> c.upstream.None?;
        }
        forall x | x in w'.cancels
          ensures x.route != id
        {
          assert x in w.cancels ==> x.route != id;
        }
      }
    }
  }

  predicate SameHistories(w: World, w': World) {
    w'.commits == w.commits && w'.cancels == w.cancels
  }

  lemma QuietKeepsLoss(w: World, w': World, tid: nat)
    requires LossInv(w) && IsQuiet(w, w', tid)
    ensures LossInv(w')
  {
    hide LossInv, Pending, Past, Unrecorded;
    StepKeepsLoss(w, w', tid);
  }

  // ---- steps that write nothing ----

  /** A step that writes nothing and takes up no dispatch. */
  ghost predicate IsQuiet(w: World, w': World, tid: nat) {
    && Moves(w, w', tid) && SameHistories(w, w')
    && forall id | Pending(w'.threads[tid].pc, id) :: Pending(w.threads[tid].pc, id)
  }

  predicate Opening(pc: Pc) {
    pc.SubmitStart? || pc.SubmitClocked? || pc.Recovering? || pc.Preparing?
  }

  /** A handler that goes on without taking up any dispatch. */
  lemma GoingOnIsQuiet(w: World, w': World, tid: nat)
    requires Moves(w, w', tid) && SameHistories(w, w') && forall id :: !Pending(w'.threads[tid].pc, id)
    ensures IsQuiet(w, w', tid)
  {
  }

  lemma SubmitIsQuiet(w: World, tid: nat, q: Request, read: nat)
    requires tid in w.threads
    ensures IsQuiet(w, StepSubmitStart(w, tid, q), tid) && IsQuiet(w, StepSubmitClocked(w, tid, q, read), tid)
  {
    hide IsQuiet, SqlPurge, Parse, ValidCaller;
    GoingOnIsQuiet(w, StepSubmitStart(w, tid, q), tid);
    GoingOnIsQuiet(w, StepSubmitClocked(w, tid, q, read), tid);
  }

  lemma RecoveringIsQuiet(w: World, tid: nat, q: Request, read: nat, env: Env)
    requires tid in w.threads
    ensures IsQuiet(w, StepRecovering(w, tid, q, read, env), tid)
  {
    hide IsQuiet, IsExpired, SqlFind, Parse, ValidIdentifier;
    GoingOnIsQuiet(w, StepRecovering(w, tid, q, read, env), tid);
  }

  lemma PreparingIsQuiet(w: World, tid: nat, q: Request, read: nat, task: Submission, env: Env)
    requires tid in w.threads
    ensures IsQuiet(w, StepPreparing(w, tid, q, read, task, env), tid)
  {
    hide IsQuiet, PrepareWithId;
    GoingOnIsQuiet(w, StepPreparing(w, tid, q, read, task, env), tid);
  }

  lemma OpeningIsQuiet(w: World, tid: nat, env: Env)
    requires tid in w.threads && Opening(w.threads[tid].pc)
    ensures IsQuiet(w, StepThread(w, tid, env), tid)
  {
    hide IsQuiet, StepSubmitStart, StepSubmitClocked, StepRecovering, StepPreparing, StepClaimed, StepAwaiting,
      StepRebinding, StepBound, StepRefetching, StepCheckingSource, StepGetStart, StepGetRead, StepPolled,
      StepCancelStart, StepCancelRead, StepClaiming, StepDecliningDispatch, StepLooping, StepBinding, StepReviving,
      StepBeginning, StepCommitted, StepForwardingCancel, StepPolling;
    match w.threads[tid].pc {
      case SubmitStart(q) => SubmitIsQuiet(w, tid, q, 0);
      case SubmitClocked(q, read) => SubmitIsQuiet(w, tid, q, read);
      case Recovering(q, read) => RecoveringIsQuiet(w, tid, q, read, env);
      case Preparing(q, read, task) => PreparingIsQuiet(w, tid, q, read, task, env);
    }
  }

  lemma CallingIsQuiet(w: World, tid: nat, env: Env)
    requires tid in w.threads && (w.threads[tid].pc.Claimed? || w.threads[tid].pc.Awaiting?)
    ensures IsQuiet(w, StepThread(w, tid, env), tid)
  {
    hide ExecutionCutoff, ValidIdentifier, StepSubmitStart, StepSubmitClocked, StepRecovering, StepPreparing,
      StepRebinding, StepBound, StepRefetching, StepCheckingSource, StepGetStart, StepGetRead, StepPolled,
      StepCancelStart, StepCancelRead, StepClaiming, StepDecliningDispatch, StepLooping, StepBinding, StepReviving,
      StepBeginning, StepCommitted, StepForwardingCancel, StepPolling;
  }

  predicate TaskMoves(pc: Pc) {
    pc.Rebinding? || pc.Bound? || pc.CancellingRaw? || pc.Finished? || pc.Dropped?
  }

  lemma TaskMoveIsQuiet(w: World, tid: nat, env: Env)
    requires tid in w.threads && TaskMoves(w.threads[tid].pc)
    ensures IsQuiet(w, StepThread(w, tid, env), tid)
  {
    hide SqlGet, ExecutionCutoff, StepRefetching, StepCheckingSource, StepGetStart, StepGetRead, StepPolled,
      StepCancelStart, StepCancelRead, StepSubmitStart, StepSubmitClocked, StepRecovering, StepPreparing, StepClaimed,
      StepAwaiting, StepClaiming, StepDecliningDispatch, StepLooping, StepBinding, StepReviving, StepBeginning,
      StepCommitted, StepForwardingCancel, StepPolling;
  }

  predicate Reads(pc: Pc) {
    pc.GetStart? || pc.GetRead? || pc.CancelStart? || pc.CancelRead?
  }

  lemma ReadIsQuiet(w: World, tid: nat, env: Env)
    requires tid in w.threads && Reads(w.threads[tid].pc)
    ensures IsQuiet(w, StepThread(w, tid, env), tid)
  {
    hide IsExpired, SqlGet, ExecutionCutoff, StepRebinding, StepBound, StepRefetching, StepCheckingSource, StepPolled,
      StepSubmitStart, StepSubmitClocked, StepRecovering, StepPreparing, StepClaimed, StepAwaiting, StepClaiming,
      StepDecliningDispatch, StepLooping, StepBinding, StepReviving, StepBeginning, StepCommitted,
      StepForwardingCancel, StepPolling;
  }

  lemma PollIsQuiet(w: World, tid: nat, env: Env)
    requires tid in w.threads && (w.threads[tid].pc.Refetching? || w.threads[tid].pc.CheckingSource? || w.threads[tid].pc.Polled?)
    ensures IsQuiet(w, StepThread(w, tid, env), tid)
  {
    hide SqlGet, ExecutionCutoff, StepRebinding, StepBound, StepGetStart, StepGetRead, StepCancelStart, StepCancelRead,
      StepSubmitStart, StepSubmitClocked, StepRecovering, StepPreparing, StepClaimed, StepAwaiting, StepClaiming,
      StepDecliningDispatch, StepLooping, StepBinding, StepReviving, StepBeginning, StepCommitted,
      StepForwardingCancel, StepPolling;
  }

  lemma MoveKeepsLoss(w: World, tid: nat, env: Env)
    requires LossInv(w) && tid in w.threads && !Writes(w.threads[tid].pc) && !Records(w.threads[tid].pc)
    ensures Moves(w, StepThread(w, tid, env), tid) && LossInv(StepThread(w, tid, env))
  {
    hide StepThread, LossInv, Pending, Moves;
    if Opening(w.threads[tid].pc) {
      OpeningIsQuiet(w, tid, env);
    } else if SubmitMoves(w.threads[tid].pc) {
      CallingIsQuiet(w, tid, env);
    } else if TaskMoves(w.threads[tid].pc) {
      TaskMoveIsQuiet(w, tid, env);
    } else if Reads(w.threads[tid].pc) {
      ReadIsQuiet(w, tid, env);
    } else {
      PollIsQuiet(w, tid, env);
    }
    QuietKeepsLoss(w, StepThread(w, tid, env), tid);
  }

  // ---- steps that write ----

  /** A route whose upstream task is on record is past its first record, and nobody has its dispatch any more. */
  lemma RecordedIsOver(w: World, r: Route)
    requires Inv(w) && LossInv(w) && r in w.commits && r.upstream.Some?
    ensures Past(w, r.id) && forall t | t in w.threads :: !Pending(w.threads[t].pc, r.id)
  {
    hide Pending, TableOk, SameIdentity, Agree, ThreadInv, TokenInv, DeadlineInv, OnceInv, SettleInv;
    assert RouteOk(r);
  }

  lemma ThreadKnows(w: World, tid: nat)
    requires Inv(w) && tid in w.threads
    ensures PcOk(w, w.threads[tid].pc) && StoreInv(w)
  {
    hide StoreInv, TokenInv, DeadlineInv, OnceInv, SettleInv, PcOk;
  }

  lemma WonUpstream(w: World, seen: Route, u: Update, w': World, next: Route)
    requires Inv(w) && seen in w.commits && Wins(w, seen, u, w', next)
    ensures next.id == seen.id && next.version == seen.version + 1 && w' == w.(table := w'.table, commits := w.commits + {next})
    ensures next.upstream == if seen.upstream.Some? then seen.upstream else u.upstream
    ensures seen.id in w.table && w.table[seen.id] == seen && CanTransition(seen.phase, u.phase) && RouteOk(next) && next.phase == u.phase
  {
    hide ValidateShape, Cas, StoreInv, ThreadInv, TokenInv, DeadlineInv, OnceInv, SettleInv, RouteOk;
    WinFacts(w, seen, u, w', next);
    WinKeepsStore(w, seen, u, w', next);
    TransitionFacts(seen, u);
  }

  /** A compare-and-set that names no new upstream task, followed by a move that takes up no dispatch. */
  lemma WriteKeepsLoss(w: World, tid: nat, seen: Route, u: Update, w': World)
    requires Inv(w) && LossInv(w) && tid in w.threads && seen in w.commits && (u.upstream.None? || seen.upstream.Some?)
    requires Moves(w, w', tid) && (SameHistories(w, w') || SameHistories(Cas(w, seen, u).0, w'))
    requires forall id :: !Pending(w'.threads[tid].pc, id)
    ensures LossInv(w')
  {
    hide Pending, Inv, Past, Unrecorded, Cas, LossInv;
    var (written, outcome) := Cas(w, seen, u);
    if outcome.Won? {
      WonUpstream(w, seen, u, written, outcome.route);
      if seen.upstream.Some? {
        RecordedIsOver(w, seen);
      }
    } else {
      CasElseUnchanged(w, seen, u);
    }
    StepKeepsLoss(w, w', tid);
  }

  lemma CasShape(w: World, seen: Route, u: Update)
    ensures var written := Cas(w, seen, u).0; written == w.(table := written.table, commits := written.commits) && w.commits <= written.commits
  {
    hide SqlCas;
  }

  lemma DecliningKeepsLoss(w: World, tid: nat, r: Route)
    requires Inv(w) && LossInv(w) && tid in w.threads && w.threads[tid].pc == DecliningDispatch(r)
    ensures Moves(w, StepDecliningDispatch(w, tid, r), tid) && LossInv(StepDecliningDispatch(w, tid, r))
  {
    hide Inv, LossInv, Cas;
    ThreadKnows(w, tid);
    var u := ToTerminal(TransitionTime(w, r), NotDispatchedState());
    CasShape(w, r, u);
    WriteKeepsLoss(w, tid, r, u, StepDecliningDispatch(w, tid, r));
  }

  /** The step goes on from the compare-and-set or from where it was, and takes up no dispatch. */
  ghost predicate GoesOnFrom(w: World, written: World, w': World, tid: nat) {
    Moves(w, w', tid) && (SameHistories(w, w') || SameHistories(written, w')) && forall id :: !Pending(w'.threads[tid].pc, id)
  }

  lemma LoopingShape(w: World, tid: nat, goal: Goal, r: Route, n: nat, after: After)
    requires tid in w.threads
    ensures GoesOnFrom(w, Cas(w, r, GoalUpdate(goal, TransitionTime(w, r))).0, StepLooping(w, tid, goal, r, n, after), tid)
  {
    hide Cas, Reached, GoalUpdate, TransitionTime;
    CasShape(w, r, GoalUpdate(goal, TransitionTime(w, r)));
  }

  lemma LoopingKeepsLoss(w: World, tid: nat, goal: Goal, r: Route, n: nat, after: After)
    requires Inv(w) && LossInv(w) && tid in w.threads && w.threads[tid].pc == Looping(goal, r, n, after)
    ensures Moves(w, StepLooping(w, tid, goal, r, n, after), tid) && LossInv(StepLooping(w, tid, goal, r, n, after))
  {
    hide Inv, LossInv, Cas, StepLooping, Moves, SameHistories, Pending, TransitionTime;
    ThreadKnows(w, tid);
    var u := GoalUpdate(goal, TransitionTime(w, r));
    LoopingShape(w, tid, goal, r, n, after);
    WriteKeepsLoss(w, tid, r, u, StepLooping(w, tid, goal, r, n, after));
  }

  lemma RevivingShape(w: World, tid: nat, r: Route, status: string, terminal: bool, bytes: nat)
    requires tid in w.threads && r.upstream.Some?
    ensures GoesOnFrom(w, Cas(w, r, ToRouted(r.upstream.value, TransitionTime(w, r))).0, StepReviving(w, tid, r, status, terminal, bytes), tid)
  {
    hide Cas, TransitionTime;
    CasShape(w, r, ToRouted(r.upstream.value, TransitionTime(w, r)));
  }

  lemma RevivingKeepsLoss(w: World, tid: nat, r: Route, status: string, terminal: bool, bytes: nat)
    requires Inv(w) && LossInv(w) && tid in w.threads && w.threads[tid].pc == Reviving(r, status, terminal, bytes)
    ensures Moves(w, StepReviving(w, tid, r, status, terminal, bytes), tid) && LossInv(StepReviving(w, tid, r, status, terminal, bytes))
  {
    hide Inv, LossInv, Cas, TransitionTime, Past, Unrecorded;
    ThreadKnows(w, tid);
    if r.upstream.None? {
      QuietKeepsLoss(w, StepReviving(w, tid, r, status, terminal, bytes), tid);
    } else {
      hide StepReviving, Moves, SameHistories, Pending;
      RevivingShape(w, tid, r, status, terminal, bytes);
      WriteKeepsLoss(w, tid, r, ToRouted(r.upstream.value, TransitionTime(w, r)), StepReviving(w, tid, r, status, terminal, bytes));
    }
  }

  /** Winning the claim of a prepared route: everything about it is still at its first record. */
  lemma ClaimIsFresh(w: World, seen: Route, u: Update, w': World, next: Route)
    requires Inv(w) && LossInv(w) && seen in w.commits && Wins(w, seen, u, w', next) && u.phase.Dispatching?
    ensures Past(w', seen.id) && Unrecorded(w', seen.id) && forall t | t in w.threads :: !Pending(w.threads[t].pc, seen.id)
  {
    hide Pending, ValidateShape, Cas, Transition, ThreadInv, TokenInv, DeadlineInv, OnceInv, SettleInv;
    WonUpstream(w, seen, u, w', next);
    NewClaimHasNoTask(next);
    forall c | c in w.commits && c.id == seen.id
      ensures c == seen && c.version == 0 && c.upstream.None?
    {
      assert Agree(c, seen) && RouteOk(seen);
      PreparedHasNoTask(seen);
    }
    assert !Past(w, seen.id);
    assert next in w'.commits;
    forall c | c in w'.commits && c.id == seen.id
      ensures c.upstream.None?
    {
      assert c == next || c in w.commits;
    }
  }

  lemma NewClaimHasNoTask(r: Route)
    requires RouteOk(r)
    ensures r.phase.Dispatching? ==> r.upstream.None?
  {
  }

  lemma PreparedHasNoTask(r: Route)
    requires RouteOk(r)
    ensures r.version == 0 ==> r.upstream.None?
  {
  }

  lemma ClaimingKeepsLoss(w: World, tid: nat, task: Submission, r: Route)
    requires Inv(w) && LossInv(w) && tid in w.threads && w.threads[tid].pc == Claiming(task, r)
    ensures Moves(w, StepClaiming(w, tid, task, r), tid) && LossInv(StepClaiming(w, tid, task, r))
  {
    hide Inv, LossInv, Cas, Past, Unrecorded, TransitionTime, IsQuiet;
    ThreadKnows(w, tid);
    var u := ToDispatching(w.threads[tid].instance, TransitionTime(w, r));
    var (written, outcome) := Cas(w, r, u);
    if outcome.Won? {
      WonUpstream(w, r, u, written, outcome.route);
      ClaimIsFresh(w, r, u, written, outcome.route);
      ClaimWonKeepsLoss(w, tid, task, r, u, written, outcome.route);
    } else {
      CasElseUnchanged(w, r, u);
      ClaimLostIsQuiet(w, tid, task, r);
      QuietKeepsLoss(w, StepClaiming(w, tid, task, r), tid);
    }
  }

  lemma ClaimLostIsQuiet(w: World, tid: nat, task: Submission, r: Route)
    requires tid in w.threads && w.threads[tid].pc == Claiming(task, r)
    requires var u := ToDispatching(w.threads[tid].instance, TransitionTime(w, r)); !Cas(w, r, u).1.Won? && Cas(w, r, u).0 == w
    ensures IsQuiet(w, StepClaiming(w, tid, task, r), tid) && Moves(w, StepClaiming(w, tid, task, r), tid)
  {
    hide Cas, TransitionTime;
  }

  lemma ClaimWonKeepsLoss(w: World, tid: nat, task: Submission, r: Route, u: Update, written: World, next: Route)
    requires LossInv(w) && tid in w.threads && w.threads[tid].pc == Claiming(task, r)
    requires u == ToDispatching(w.threads[tid].instance, TransitionTime(w, r)) && Cas(w, r, u) == (written, Won(next))
    requires next.id == r.id && written == w.(table := written.table, commits := w.commits + {next})
    requires Past(written, r.id) && Unrecorded(written, r.id) && forall t | t in w.threads :: !Pending(w.threads[t].pc, r.id)
    ensures Moves(w, StepClaiming(w, tid, task, r), tid) && LossInv(StepClaiming(w, tid, task, r))
  {
    hide Cas, LossInv, Past, Unrecorded, TransitionTime;
    var w' := StepClaiming(w, tid, task, r);
    SameCommitsSame(written, w', r.id);
    WonClaimHasNoTask(written, next);
    StepKeepsLoss(w, w', tid);
  }

  lemma SameCommitsSame(w: World, w': World, id: string)
    requires SameHistories(w, w')
    ensures Past(w, id) == Past(w', id) && Unrecorded(w, id) == Unrecorded(w', id)
  {
  }

  lemma WonClaimHasNoTask(w: World, r: Route)
    requires r in w.commits && Unrecorded(w, r.id)
    ensures r.upstream.None?
  {
  }

  lemma BindingMoveIsQuiet(w: World, tid: nat, r: Route, current: Route, uid: string, ack: bool, n: nat)
    requires tid in w.threads && w.threads[tid].pc == Binding(r, current, uid, ack, n) && r.id == current.id
    requires n == 0 || current.upstream.Some? || current.phase.Terminal? || (current.phase.Dispatching? && current.owner != r.owner)
             || current.phase.Prepared? || current.phase.Routed?
    ensures IsQuiet(w, StepBinding(w, tid, r, current, uid, ack, n), tid) && Moves(w, StepBinding(w, tid, r, current, uid, ack, n), tid)
  {
    hide BindWith;
  }

  lemma BindingKeepsLoss(w: World, tid: nat, r: Route, current: Route, uid: string, ack: bool, n: nat)
    requires Inv(w) && LossInv(w) && tid in w.threads && w.threads[tid].pc == Binding(r, current, uid, ack, n)
    ensures Moves(w, StepBinding(w, tid, r, current, uid, ack, n), tid) && LossInv(StepBinding(w, tid, r, current, uid, ack, n))
  {
    hide Inv, LossInv, BindWith, IsQuiet, Moves;
    ThreadKnows(w, tid);
    var time := TransitionTime(w, current);
    if n > 0 && current.upstream.None? && !current.phase.Terminal?
       && ((current.phase.Dispatching? && current.owner == r.owner) || current.phase.ReconciliationRequired?) {
      BindWithKeepsLoss(w, tid, r, current, uid, ack, n, ToRouted(uid, time));
    } else if n > 0 && current.upstream.None? && current.phase.CancelRequested? {
      BindWithKeepsLoss(w, tid, r, current, uid, ack, n, ToCancelWithUpstream(uid, time));
    } else {
      BindingMoveIsQuiet(w, tid, r, current, uid, ack, n);
      QuietKeepsLoss(w, StepBinding(w, tid, r, current, uid, ack, n), tid);
    }
  }

  lemma PendingIsAlone(w: World, tid: nat, id: string)
    requires LossInv(w) && tid in w.threads && Pending(w.threads[tid].pc, id)
    ensures Alone(w, tid, id) && Past(w, id)
  {
    hide Pending, Past, Unrecorded;
  }

  lemma BindWithKeepsLoss(w: World, tid: nat, r: Route, current: Route, uid: string, ack: bool, n: nat, u: Update)
    requires Inv(w) && LossInv(w) && tid in w.threads && w.threads[tid].pc == Binding(r, current, uid, ack, n) && n > 0
    requires current.upstream.None? && u.upstream == Some(uid)
    ensures Moves(w, BindWith(w, tid, r, current, uid, ack, n, u), tid) && LossInv(BindWith(w, tid, r, current, uid, ack, n, u))
  {
    hide Inv, Cas, Past, Unrecorded, LossInv, Alone, IsQuiet;
    ThreadKnows(w, tid);
    var (written, outcome) := Cas(w, current, u);
    if outcome.Won? {
      WonUpstream(w, current, u, written, outcome.route);
      BindWonKeepsLoss(w, tid, r, current, uid, ack, n, u, written, outcome.route);
    } else {
      CasElseUnchanged(w, current, u);
      BindLostIsQuiet(w, tid, r, current, uid, ack, n, u);
      QuietKeepsLoss(w, BindWith(w, tid, r, current, uid, ack, n, u), tid);
    }
  }

  lemma BindLostIsQuiet(w: World, tid: nat, r: Route, current: Route, uid: string, ack: bool, n: nat, u: Update)
    requires tid in w.threads && w.threads[tid].pc == Binding(r, current, uid, ack, n) && n > 0
    requires !Cas(w, current, u).1.Won? && Cas(w, current, u).0 == w
    ensures IsQuiet(w, BindWith(w, tid, r, current, uid, ack, n, u), tid) && Moves(w, BindWith(w, tid, r, current, uid, ack, n, u), tid)
  {
    hide Cas;
  }

  lemma BindWonKeepsLoss(w: World, tid: nat, r: Route, current: Route, uid: string, ack: bool, n: nat, u: Update, written: World, next: Route)
    requires LossInv(w) && tid in w.threads && w.threads[tid].pc == Binding(r, current, uid, ack, n) && n > 0 && r.id == current.id
    requires Cas(w, current, u) == (written, Won(next)) && next.id == current.id && next.upstream == Some(uid)
    requires written == w.(table := written.table, commits := w.commits + {next})
    ensures Moves(w, BindWith(w, tid, r, current, uid, ack, n, u), tid) && LossInv(BindWith(w, tid, r, current, uid, ack, n, u))
  {
    hide Cas, LossInv, Alone, Past, Unrecorded;
    PendingIsAlone(w, tid, current.id);
    StepKeepsLoss(w, BindWith(w, tid, r, current, uid, ack, n, u), tid);
  }

  // ---- steps that insert, call or cancel ----

  lemma BeginningKeepsLoss(w: World, tid: nat, q: Request, read: nat, task: Submission, r: Route, env: Env)
    requires LossInv(w) && tid in w.threads && w.threads[tid].pc == Beginning(q, read, task, r)
    ensures Moves(w, StepBeginning(w, tid, read, task, r, env), tid) && LossInv(StepBeginning(w, tid, read, task, r, env))
  {
    hide LossInv, SqlBegin, VerifyPreparedForBegin, ExecutionCutoff, Past, Unrecorded;
    var w' := StepBeginning(w, tid, read, task, r, env);
    InsertedIsPrepared(w.table, r);
    PreparedNamesNone(r);
    StepKeepsLoss(w, w', tid);
  }

  lemma PreparedNamesNone(r: Route)
    ensures VerifyPreparedForBegin(r).None? ==> r.upstream.None?
  {
  }

  /** Asking for the cancellation of the task that a committed record names. */
  lemma RecordedCancelKeepsLoss(w: World, tid: nat, r: Route, w': World)
    requires Inv(w) && LossInv(w) && tid in w.threads && r in w.commits && r.upstream.Some? && Moves(w, w', tid)
    requires w'.commits == w.commits && w'.cancels == w.cancels + {Receipt(r.id, r.upstream.value)}
    requires forall id | Pending(w'.threads[tid].pc, id) :: Pending(w.threads[tid].pc, id)
    ensures LossInv(w')
  {
    hide Inv, Pending, LossInv, Past, Unrecorded;
    RecordedIsOver(w, r);
    PastGrows(w, w', r.id);
    StepKeepsLoss(w, w', tid);
  }

  lemma AbandoningKeepsLoss(w: World, tid: nat, r: Route, uid: string)
    requires Inv(w) && LossInv(w) && tid in w.threads && w.threads[tid].pc == Abandoning(r, uid)
    ensures var w' := Goto(SendCancel(w, r.id, uid), tid, Finished); Moves(w, w', tid) && LossInv(w')
  {
    hide Inv, Past, Unrecorded;
    ThreadKnows(w, tid);
    var w' := Goto(SendCancel(w, r.id, uid), tid, Finished);
    if r.upstream == Some(uid) {
      RecordedCancelKeepsLoss(w, tid, r, w');
    } else {
      hide LossInv, Alone;
      PendingIsAlone(w, tid, r.id);
      PastGrows(w, w', r.id);
      StepKeepsLoss(w, w', tid);
    }
  }

  lemma ForwardingKeepsLoss(w: World, tid: nat, r: Route, env: Env)
    requires Inv(w) && LossInv(w) && tid in w.threads && w.threads[tid].pc == ForwardingCancel(r)
    ensures Moves(w, StepForwardingCancel(w, tid, r, env), tid) && LossInv(StepForwardingCancel(w, tid, r, env))
  {
    hide Inv, LossInv;
    ThreadKnows(w, tid);
    if r.phase.Terminal? || r.upstream.None? {
      QuietKeepsLoss(w, StepForwardingCancel(w, tid, r, env), tid);
    } else {
      RecordedCancelKeepsLoss(w, tid, r, StepForwardingCancel(w, tid, r, env));
    }
  }

  lemma PollingKeepsLoss(w: World, tid: nat, r: Route)
    requires Inv(w) && LossInv(w) && tid in w.threads && w.threads[tid].pc == Polling(r)
    ensures Moves(w, StepPolling(w, tid, r), tid) && LossInv(StepPolling(w, tid, r))
  {
    hide Inv, LossInv, ExecutionCutoff;
    ThreadKnows(w, tid);
    PollingShape(w, tid, r);
    hide StepPolling, Moves, Pending;
    if r.upstream.Some? && r.phase.CancelRequested? {
      RecordedCancelKeepsLoss(w, tid, r, StepPolling(w, tid, r));
    } else {
      QuietKeepsLoss(w, StepPolling(w, tid, r), tid);
    }
  }

  lemma PollingShape(w: World, tid: nat, r: Route)
    requires tid in w.threads
    ensures Moves(w, StepPolling(w, tid, r), tid) && forall id :: !Pending(StepPolling(w, tid, r).threads[tid].pc, id)
    ensures StepPolling(w, tid, r).commits == w.commits
    ensures StepPolling(w, tid, r).cancels
         == if r.upstream.Some? && r.phase.CancelRequested? then w.cancels + {Receipt(r.id, r.upstream.value)} else w.cancels
  {
    hide ExecutionCutoff;
  }

  lemma CallKeepsLoss(w: World, tid: nat, task: Submission, r: Route)
    requires LossInv(w) && tid in w.threads && w.threads[tid].pc == Committed(task, r)
    ensures Moves(w, StepCommitted(w, tid, task, r), tid) && LossInv(StepCommitted(w, tid, task, r))
  {
    hide LossInv;
    QuietKeepsLoss(w, StepCommitted(w, tid, task, r), tid);
  }

  // ---- whole executions ----

  lemma ThreadStepKeepsLoss(w: World, tid: nat, env: Env)
    requires Inv(w) && LossInv(w) && tid in w.threads
    ensures Moves(w, StepThread(w, tid, env), tid) && LossInv(StepThread(w, tid, env))
  {
    hide Inv, LossInv, Moves, StepSubmitStart, StepSubmitClocked, StepRecovering, StepPreparing, StepClaimed,
      StepAwaiting, StepRebinding, StepBound, StepRefetching, StepCheckingSource, StepGetStart, StepGetRead,
      StepPolled, StepCancelStart, StepCancelRead, StepClaiming, StepDecliningDispatch, StepLooping, StepBinding,
      StepReviving, StepBeginning, StepCommitted, StepForwardingCancel, StepPolling;
    match w.threads[tid].pc {
      case Claiming(task, r) => ClaimingKeepsLoss(w, tid, task, r);
      case DecliningDispatch(r) => DecliningKeepsLoss(w, tid, r);
      case Looping(goal, r, n, after) => LoopingKeepsLoss(w, tid, goal, r, n, after);
      case Binding(r, current, uid, ack, n) => BindingKeepsLoss(w, tid, r, current, uid, ack, n);
      case Reviving(r, status, terminal, bytes) => RevivingKeepsLoss(w, tid, r, status, terminal, bytes);
      case Beginning(q, read, task, r) => BeginningKeepsLoss(w, tid, q, read, task, r, env);
      case Committed(task, r) => CallKeepsLoss(w, tid, task, r);
      case Abandoning(r, uid) => AbandoningKeepsLoss(w, tid, r, uid);
      case ForwardingCancel(r) => ForwardingKeepsLoss(w, tid, r, env);
      case Polling(r) => PollingKeepsLoss(w, tid, r);
      case _ => MoveKeepsLoss(w, tid, env);
    }
  }

  lemma NextKeepsLoss(w: World, a: Action)
    requires Inv(w) && LossInv(w) && Enabled(w, a)
    ensures LossInv(Next(w, a))
  {
    hide Inv, StepThread, Past, Unrecorded;
    match a {
      case Run(tid, env) => ThreadStepKeepsLoss(w, tid, env);
      case Drop(tid) => QuietKeepsLoss(w, Next(w, a), tid);
      case Tick(_) => SameThreadsKeepLoss(w, Next(w, a));
      case Spawn(tid, instance, pc) => SpawnKeepsLoss(w, tid, Thread(instance, pc, None));
    }
  }

  lemma SameThreadsKeepLoss(w: World, w': World)
    requires LossInv(w) && w'.threads == w.threads && SameHistories(w, w')
    ensures LossInv(w')
  {
    hide Pending, Past, Unrecorded;
    forall id
      ensures Past(w, id) == Past(w', id) && Unrecorded(w, id) == Unrecorded(w', id)
    {
      SameCommitsSame(w, w', id);
    }
  }

  lemma SpawnKeepsLoss(w: World, tid: nat, t: Thread)
    requires LossInv(w) && tid !in w.threads && Entry(t.pc)
    ensures LossInv(w.(threads := w.threads[tid := t]))
  {
    var w' := w.(threads := w.threads[tid := t]);
    assert forall id :: !Pending(t.pc, id);
    hide Pending, Past, Unrecorded;
    forall id
      ensures Past(w, id) == Past(w', id) && Unrecorded(w, id) == Unrecorded(w', id)
    {
      SameCommitsSame(w, w', id);
    }
  }

  lemma {:induction false} ExecutionKeepsLoss(run: seq<World>, k: nat)
    requires Execution(run) && k < |run|
    ensures LossInv(run[k])
  {
    hide Inv, Next, Enabled, Pending, Past, Unrecorded;
    if k > 0 {
      hide LossInv;
      ExecutionKeepsLoss(run, k - 1);
      ExecutionKeepsInv(run, k - 1);
      assert Steps(run[k - 1], run[k]);
      var a :| Enabled(run[k - 1], a) && Next(run[k - 1], a) == run[k];
      NextKeepsLoss(run[k - 1], a);
    }
  }

  // ---- results ----

  lemma InHandIsUnsettled(w: World, tid: nat, x: Receipt)
    requires LossInv(w) && tid in w.threads && InHand(w.threads[tid].pc, x)
    ensures !Settled(w, x)
  {
    InHandIsPending(w.threads[tid].pc, x);
    hide Pending, InHand, Past;
    assert Unrecorded(w, x.route);
  }

  /**
   * In every world an upstream task that a handler received is in a durable record of its route,
   * or the subject of a cancel request, if and only if it is not in the handler's hand.
   */
  lemma SettledExactly(run: seq<World>, k: nat, tid: nat)
    requires Execution(run) && k < |run| && tid in run[k].threads && run[k].threads[tid].received.Some?
    ensures Settled(run[k], run[k].threads[tid].received.value) <==> !InHand(run[k].threads[tid].pc, run[k].threads[tid].received.value)
  {
    hide Execution, LossInv, Settled, InHand;
    ExecutionKeepsLoss(run, k);
    if InHand(run[k].threads[tid].pc, run[k].threads[tid].received.value) {
      InHandIsUnsettled(run[k], tid, run[k].threads[tid].received.value);
    } else {
      AcknowledgedTaskIsSettled(run, k, k, tid);
    }
  }

  /** A dropped handler stays dropped, with whatever it had in hand. */
  lemma DroppedStays(w: World, a: Action, tid: nat, x: Receipt)
    requires Inv(w) && LossInv(w) && Enabled(w, a) && tid in w.threads
    requires w.threads[tid].pc.Dropped? && w.threads[tid].received == Some(x) && InHand(w.threads[tid].pc, x)
    ensures var w' := Next(w, a);
      tid in w'.threads && w'.threads[tid].pc.Dropped? && w'.threads[tid].received == Some(x) && InHand(w'.threads[tid].pc, x)
  {
    hide Inv, LossInv, StepThread;
    if a.Run? {
      if a.tid == tid {
        DroppedDoesNothing(w, tid, a.env);
      } else {
        ThreadStepKeepsLoss(w, a.tid, a.env);
      }
    }
  }

  lemma DroppedDoesNothing(w: World, tid: nat, env: Env)
    requires tid in w.threads && w.threads[tid].pc.Dropped?
    ensures StepThread(w, tid, env) == w
  {
    hide StepSubmitStart, StepSubmitClocked, StepRecovering, StepPreparing, StepClaimed, StepAwaiting, StepRebinding,
      StepBound, StepRefetching, StepCheckingSource, StepGetStart, StepGetRead, StepPolled, StepCancelStart,
      StepCancelRead, StepClaiming, StepDecliningDispatch, StepLooping, StepBinding, StepReviving, StepBeginning,
      StepCommitted, StepForwardingCancel, StepPolling;
  }

  lemma {:induction false} DroppedInHandStays(run: seq<World>, k: nat, m: nat, tid: nat)
    requires Execution(run) && k <= m < |run| && tid in run[k].threads && run[k].threads[tid].pc.Dropped?
    requires run[k].threads[tid].received.Some? && InHand(run[k].threads[tid].pc, run[k].threads[tid].received.value)
    ensures tid in run[m].threads && run[m].threads[tid].pc.Dropped? && run[m].threads[tid].received == run[k].threads[tid].received
    ensures InHand(run[m].threads[tid].pc, run[k].threads[tid].received.value)
    decreases m
  {
    hide Init, Inv, LossInv, Next, Enabled, InHand;
    if k < m {
      DroppedInHandStays(run, k, m - 1, tid);
      ExecutionKeepsInv(run, m - 1);
      ExecutionKeepsLoss(run, m - 1);
      assert Steps(run[m - 1], run[m]);
      var a :| Enabled(run[m - 1], a) && Next(run[m - 1], a) == run[m];
      DroppedStays(run[m - 1], a, tid, run[k].threads[tid].received.value);
    }
  }

  /**
   * Once its handler is dropped, an upstream task is lost for good if it was in hand, and otherwise
   * settled for good: in every later world it is settled if and only if it was not in hand.
   */
  lemma DropDecides(run: seq<World>, k: nat, m: nat, tid: nat)
    requires Execution(run) && k <= m < |run| && tid in run[k].threads && run[k].threads[tid].pc.Dropped?
    requires run[k].threads[tid].received.Some?
    ensures Settled(run[m], run[k].threads[tid].received.value)
       <==> !InHand(run[k].threads[tid].pc, run[k].threads[tid].received.value)
  {
    hide Execution, Settled, InHand;
    if InHand(run[k].threads[tid].pc, run[k].threads[tid].received.value) {
      DroppedInHandStays(run, k, m, tid);
      SettledExactly(run, m, tid);
    } else {
      AcknowledgedTaskIsSettled(run, k, m, tid);
    }
  }
}
