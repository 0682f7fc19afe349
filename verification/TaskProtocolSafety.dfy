/** What every execution of the task-route protocol keeps, and the safety results that follow. */
module TaskProtocolSafety {
  import opened Common
  import opened TaskRoute
  import opened RouteStore
  import opened TaskProtocol

  // ---- the invariant ----

  /** What every durable record satisfies in this protocol. */
  predicate RouteOk(r: Route) {
    && WellShaped(r)
    && r.binding.TaskBinding?
    && r.key == Some(r.binding.task.idempotencyKey)
    && r.binding.task.deadline <= r.expires
    && (r.phase.Prepared? <==> r.version == 0)
    && (r.phase.Dispatching? ==> r.version == 1)
  }

  /** The table shows the newest version of each stored route, and history never holds two records of one version. */
  ghost predicate StoreInv(w: World) {
    && TableOk(w.table)
    && (forall id | id in w.table :: w.table[id] in w.commits)
    && (forall r | r in w.commits && r.id in w.table :: r.version <= w.table[r.id].version)
    && (forall r | r in w.commits :: RouteOk(r) && r.id in w.minted)
    && (forall a, b | a in w.commits && b in w.commits && a.id == b.id :: Agree(a, b))
  }

  /** Two records of one route: same identity, one per version, and the later one builds on the earlier. */
  predicate Agree(a: Route, b: Route) {
    && SameIdentity(a, b)
    && (a.version == b.version ==> a == b)
    && (a.version <= b.version ==> LaterRecord(a, b))
  }

  predicate IsVerdict(r: Route) {
    r.cached.Some? && r.cached.value.verdict.NotDispatched?
  }

  /** A goal never carries the broker's own verdict that nothing was dispatched. */
  predicate GoalOk(g: Goal) {
    g.Finish? ==> !g.state.verdict.NotDispatched?
  }

  predicate TaskOf(r: Route, task: Submission) {
    r.binding.TaskBinding? && r.binding.task == task
  }

  /** What a handler may rely on about its own local data. */
  ghost predicate PcOk(w: World, pc: Pc) {
    match pc
    case SubmitStart(_) => true
    case SubmitClocked(_, read) => read <= w.now
    case Recovering(_, read) => read <= w.now
    case Preparing(_, read, task) => read <= w.now && read < task.deadline <= SaturatingAdd(read, task.retention)
    case Beginning(_, read, task, r) =>
      && read <= w.now && RouteOk(r) && r.version == 0 && TaskOf(r, task) && r.created == read
      && r.id in w.minted && (forall c | c in w.commits :: c.id != r.id)
    case Claiming(task, r) => r in w.commits && TaskOf(r, task)
    case Claimed(task, r) => r in w.commits && TaskOf(r, task) && r.phase.Dispatching?
    case Committed(task, r) => r in w.commits && TaskOf(r, task) && r.phase.Dispatching?
    case Awaiting(r) => r in w.commits
    case CancellingRaw(r) => r in w.commits
    case Binding(r, current, _, _, _) => r in w.commits && current in w.commits && r.id == current.id
    case Rebinding(r, _, _, _) => r in w.commits
    case Bound(r, uid, must, _) => r in w.commits && (!must ==> r.upstream == Some(uid))
    case Abandoning(r, _) => r in w.commits
    case DecliningDispatch(r) => r in w.commits && (r.phase.Prepared? || r.phase.Dispatching?)
    case Looping(g, r, _, _) => r in w.commits && GoalOk(g)
    case Refetching(g, r, _, _) => r in w.commits && GoalOk(g)
    case CheckingSource(r) => r in w.commits
    case ForwardingCancel(r) => r in w.commits
    case GetStart(_, _) => true
    case GetRead(r) => r in w.commits
    case Polling(r) => r in w.commits
    case Polled(r) => r in w.commits
    case Reviving(r, _, _, _) => r in w.commits
    case CancelStart(_, _) => true
    case CancelRead(r) => r in w.commits
    case Finished => true
    case Dropped(_) => true
  }

  ghost predicate ThreadInv(w: World) {
    && (forall t | t in w.threads :: PcOk(w, w.threads[t].pc))
    && (forall t, u | t in w.threads && u in w.threads && t != u
          && w.threads[t].pc.Beginning? && w.threads[u].pc.Beginning? :: w.threads[t].pc.record.id != w.threads[u].pc.record.id)
  }

  /** A handler holds the dispatch of a route from winning the claim until it calls or gives up. */
  predicate Holds(pc: Pc, id: string) {
    match pc
    case Claimed(_, r) => r.id == id
    case Committed(_, r) => r.id == id
    case DecliningDispatch(r) => r.phase.Dispatching? && r.id == id
    case _ => false
  }

  ghost predicate CallOk(w: World, c: Call) {
    c.record in w.commits && c.record.phase.Dispatching? && TaskOf(c.record, c.task) && c.caller == c.record.caller
  }

  /** The right to dispatch a route is held, spent on one call, or given up for good: never two of these. */
  ghost predicate TokenInv(w: World) {
    && (forall t, u, id | t in w.threads && u in w.threads && Holds(w.threads[t].pc, id) && Holds(w.threads[u].pc, id) :: t == u)
    && (forall i | 0 <= i < |w.calls| :: CallOk(w, w.calls[i]))
    && (forall t, i | t in w.threads && 0 <= i < |w.calls| :: !Holds(w.threads[t].pc, w.calls[i].record.id))
    && (forall i, j | 0 <= i < j < |w.calls| :: w.calls[i].record.id != w.calls[j].record.id)
    && (forall v, i | v in w.commits && IsVerdict(v) && 0 <= i < |w.calls| :: w.calls[i].record.id != v.id)
    && (forall v, t | v in w.commits && IsVerdict(v) && t in w.threads :: !Holds(w.threads[t].pc, v.id))
  }

  /** A route leaves the table only once its deadline has passed. */
  predicate StoredOrLate(w: World, r: Route) {
    r.binding.TaskBinding? ==> r.id in w.table || w.now >= r.binding.task.deadline
  }

  ghost predicate DeadlineInv(w: World) {
    && (forall i | 0 <= i < |w.calls| :: StoredOrLate(w, w.calls[i].record))
    && (forall t | t in w.threads && w.threads[t].pc.Claimed? :: StoredOrLate(w, w.threads[t].pc.record))
    && (forall t | t in w.threads && w.threads[t].pc.Committed? :: StoredOrLate(w, w.threads[t].pc.record))
  }

  /** Records for one caller, key and deadline; equal submission documents always agree on these. */
  predicate SameSubmission(a: Route, b: Route) {
    && a.caller == b.caller && a.binding.TaskBinding? && b.binding.TaskBinding?
    && a.binding.task.idempotencyKey == b.binding.task.idempotencyKey && a.binding.task.deadline == b.binding.task.deadline
  }

  /** Calls made and calls irrevocably decided are pairwise for different submissions. */
  ghost predicate OnceInv(w: World) {
    && (forall i, j | 0 <= i < j < |w.calls| :: !SameSubmission(w.calls[i].record, w.calls[j].record))
    && (forall t, i | t in w.threads && w.threads[t].pc.Committed? && 0 <= i < |w.calls| ::
          !SameSubmission(w.calls[i].record, w.threads[t].pc.record))
    && (forall t, u | t in w.threads && u in w.threads && t != u && w.threads[t].pc.Committed? && w.threads[u].pc.Committed? ::
          !SameSubmission(w.threads[t].pc.record, w.threads[u].pc.record))
  }

  /** The upstream task is in a durable record of its route, or a cancel request was sent for it. */
  ghost predicate Settled(w: World, x: Receipt) {
    x in w.cancels || exists r | r in w.commits :: r.id == x.route && r.upstream == Some(x.uid)
  }

  /**
   * The upstream task is with the handler alone, between its receipt and the record or cancel
   * request that settles it, or was when the handler was dropped.
   */
  predicate InHand(pc: Pc, x: Receipt) {
    match pc
    case Binding(r, _, uid, _, _) => x == Receipt(r.id, uid)
    case Rebinding(r, uid, _, _) => x == Receipt(r.id, uid)
    case Bound(r, uid, _, _) => x == Receipt(r.id, uid) && r.upstream != Some(uid)
    case Abandoning(r, uid) => x == Receipt(r.id, uid) && r.upstream != Some(uid)
    case Dropped(at) => InHand(at, x)
    case _ => false
  }

  ghost predicate SettleInv(w: World) {
    forall t | t in w.threads && w.threads[t].received.Some? ::
      InHand(w.threads[t].pc, w.threads[t].received.value) || Settled(w, w.threads[t].received.value)
  }

  ghost predicate Inv(w: World) {
    StoreInv(w) && ThreadInv(w) && TokenInv(w) && DeadlineInv(w) && OnceInv(w) && SettleInv(w)
  }

  // ---- what growth keeps ----

  /** History only grows, time only advances, and nothing commits an id somebody is about to insert. */
  ghost predicate Grows(w: World, w': World) {
    w.now <= w'.now && w.commits <= w'.commits && w.minted <= w'.minted && w.cancels <= w'.cancels
  }

  lemma PcStable(w: World, w': World, pc: Pc)
    requires PcOk(w, pc) && Grows(w, w')
    requires pc.Beginning? ==> forall c | c in w'.commits :: c.id != pc.record.id
    ensures PcOk(w', pc)
  {
    hide RouteOk;
  }

  lemma SettledStable(w: World, w': World, x: Receipt)
    requires Settled(w, x) && Grows(w, w')
    ensures Settled(w', x)
  {
  }

  // ---- local moves ----

  /** Points of a handler that hold neither a dispatch nor an unused public id. */
  predicate Plain(pc: Pc) {
    !pc.Beginning? && !pc.Claimed? && !pc.Committed? && (pc.DecliningDispatch? ==> !pc.record.phase.Dispatching?)
  }

  lemma PlainHoldsNothing(pc: Pc, id: string)
    requires Plain(pc)
    ensures !Holds(pc, id)
  {
  }

  /** One handler changes, everything else is the same. */
  ghost predicate OnlyMoves(w: World, w': World, tid: nat) {
    && tid in w.threads && tid in w'.threads
    && w' == w.(threads := w.threads[tid := w'.threads[tid]])
  }

  lemma MoveKeepsThreads(w: World, w': World, tid: nat)
    requires ThreadInv(w) && OnlyMoves(w, w', tid) && PcOk(w, w'.threads[tid].pc) && !w'.threads[tid].pc.Beginning?
    ensures ThreadInv(w')
  {
    hide PcOk;
    forall t | t in w'.threads
      ensures PcOk(w', w'.threads[t].pc)
    {
      if w'.threads[t].pc.Beginning? {
        BeginningIsFresh(w, w'.threads[t].pc);
      }
      PcStable(w, w', w'.threads[t].pc);
    }
  }

  lemma BeginningIsFresh(w: World, pc: Pc)
    requires PcOk(w, pc) && pc.Beginning?
    ensures forall c | c in w.commits :: c.id != pc.record.id
  {
  }

  lemma MoveKeepsTokens(w: World, w': World, tid: nat)
    requires TokenInv(w) && OnlyMoves(w, w', tid)
    requires forall id | Holds(w'.threads[tid].pc, id) :: Holds(w.threads[tid].pc, id)
    ensures TokenInv(w')
  {
    hide Holds, IsVerdict, TaskOf;
    forall i | 0 <= i < |w'.calls|
      ensures CallOk(w', w'.calls[i])
    {
      assert CallOk(w, w.calls[i]);
    }
  }

  lemma MoveKeepsSettled(w: World, w': World, tid: nat)
    requires SettleInv(w) && OnlyMoves(w, w', tid)
    requires w'.threads[tid].received.Some? ==>
               InHand(w'.threads[tid].pc, w'.threads[tid].received.value) || Settled(w, w'.threads[tid].received.value)
    ensures SettleInv(w')
  {
    hide InHand, Settled;
    forall t | t in w'.threads && w'.threads[t].received.Some?
      ensures InHand(w'.threads[t].pc, w'.threads[t].received.value) || Settled(w', w'.threads[t].received.value)
    {
      if !InHand(w'.threads[t].pc, w'.threads[t].received.value) {
        SettledStable(w, w', w'.threads[t].received.value);
      }
    }
  }

  lemma MoveKeepsStore(w: World, w': World, tid: nat)
    requires StoreInv(w) && OnlyMoves(w, w', tid)
    ensures StoreInv(w')
  {
    hide TableOk, RouteOk, Agree;
  }

  lemma MoveKeepsDeadlines(w: World, w': World, tid: nat)
    requires DeadlineInv(w) && OnlyMoves(w, w', tid)
    requires w'.threads[tid].pc.Claimed? || w'.threads[tid].pc.Committed? ==> StoredOrLate(w, w'.threads[tid].pc.record)
    ensures DeadlineInv(w')
  {
  }

  lemma MoveKeepsOnce(w: World, w': World, tid: nat)
    requires OnceInv(w) && OnlyMoves(w, w', tid) && !w'.threads[tid].pc.Committed?
    ensures OnceInv(w')
  {
    hide SameSubmission;
  }

  lemma StoreKeepsOnce(w: World, w': World)
    requires OnceInv(w) && OnlyStore(w, w')
    ensures OnceInv(w')
  {
    hide SameSubmission;
  }

  /** A handler that moves to a harmless point breaks nothing. */
  lemma MoveKeepsInv(w: World, w': World, tid: nat)
    requires Inv(w) && OnlyMoves(w, w', tid) && Plain(w'.threads[tid].pc) && PcOk(w, w'.threads[tid].pc)
    requires w'.threads[tid].received.Some? ==>
               InHand(w'.threads[tid].pc, w'.threads[tid].received.value) || Settled(w, w'.threads[tid].received.value)
    ensures Inv(w')
  {
    hide PcOk, Holds, Settled, InHand, StoredOrLate, StoreInv, ThreadInv, TokenInv, DeadlineInv, OnceInv, SettleInv;
    MoveKeepsThreads(w, w', tid);
    MoveKeepsStore(w, w', tid);
    MoveKeepsDeadlines(w, w', tid);
    MoveKeepsOnce(w, w', tid);
    forall id
      ensures !Holds(w'.threads[tid].pc, id)
    {
      PlainHoldsNothing(w'.threads[tid].pc, id);
    }
    MoveKeepsTokens(w, w', tid);
    MoveKeepsSettled(w, w', tid);
  }

  // ---- changes of the store ----

  /** Handlers and calls stay as they are while the store, the clock or the histories change. */
  ghost predicate OnlyStore(w: World, w': World) {
    w'.threads == w.threads && w'.calls == w.calls && Grows(w, w')
  }

  lemma StoreKeepsThreads(w: World, w': World)
    requires ThreadInv(w) && OnlyStore(w, w')
    requires forall t, c | t in w.threads && w.threads[t].pc.Beginning? && c in w'.commits :: c.id != w.threads[t].pc.record.id
    ensures ThreadInv(w')
  {
    hide PcOk;
    forall t | t in w'.threads
      ensures PcOk(w', w'.threads[t].pc)
    {
      PcStable(w, w', w'.threads[t].pc);
    }
  }

  lemma StoreKeepsTokens(w: World, w': World)
    requires TokenInv(w) && OnlyStore(w, w')
    requires forall v, t | v in w'.commits && v !in w.commits && IsVerdict(v) && t in w.threads :: !Holds(w.threads[t].pc, v.id)
    requires forall v, i | v in w'.commits && v !in w.commits && IsVerdict(v) && 0 <= i < |w.calls| :: w.calls[i].record.id != v.id
    ensures TokenInv(w')
  {
    hide Holds, IsVerdict, TaskOf;
    forall i | 0 <= i < |w'.calls|
      ensures CallOk(w', w'.calls[i])
    {
      assert CallOk(w, w.calls[i]);
    }
  }

  lemma StoreKeepsDeadlines(w: World, w': World)
    requires DeadlineInv(w) && TokenInv(w) && ThreadInv(w) && OnlyStore(w, w')
    requires forall r | r in w.commits && r.id in w.table && r.id !in w'.table && r.binding.TaskBinding? ::
               w'.now >= r.binding.task.deadline
    ensures DeadlineInv(w')
  {
    forall i | 0 <= i < |w'.calls|
      ensures StoredOrLate(w', w'.calls[i].record)
    {
      assert CallOk(w, w.calls[i]);
      assert StoredOrLate(w, w.calls[i].record);
    }
    forall t | t in w'.threads && (w'.threads[t].pc.Claimed? || w'.threads[t].pc.Committed?)
      ensures StoredOrLate(w', w'.threads[t].pc.record)
    {
      assert PcOk(w, w.threads[t].pc);
      assert StoredOrLate(w, w.threads[t].pc.record);
    }
  }

  lemma StoreKeepsSettled(w: World, w': World)
    requires SettleInv(w) && OnlyStore(w, w')
    ensures SettleInv(w')
  {
    hide InHand, Settled;
    forall t | t in w'.threads && w'.threads[t].received.Some?
      ensures InHand(w'.threads[t].pc, w'.threads[t].received.value) || Settled(w', w'.threads[t].received.value)
    {
      if !InHand(w'.threads[t].pc, w'.threads[t].received.value) {
        SettledStable(w, w', w'.threads[t].received.value);
      }
    }
  }

  // ---- one committed transition ----

  lemma TransitionKeepsRouteOk(r: Route, u: Update)
    requires RouteOk(r) && Transition(r, u).Ok?
    ensures RouteOk(Transition(r, u).value)
  {
    hide ValidateShape, Transition;
    TransitionFacts(r, u);
  }

  ghost predicate Wins(w: World, seen: Route, u: Update, w': World, next: Route) {
    Cas(w, seen, u) == (w', Won(next))
  }

  lemma WinFacts(w: World, seen: Route, u: Update, w': World, next: Route)
    requires StoreInv(w) && seen in w.commits && Wins(w, seen, u, w', next)
    ensures seen.id in w.table && w.table[seen.id] == seen
    ensures Transition(seen, u) == Ok(next) && next.id == seen.id
    ensures w' == w.(table := w.table[seen.id := next], commits := w.commits + {next})
  {
    hide ValidateShape, Transition, RouteOk;
    assert w.table[seen.id] in w.commits;
    TransitionFacts(seen, u);
  }

  lemma WinKeepsStore(w: World, seen: Route, u: Update, w': World, next: Route)
    requires StoreInv(w) && seen in w.commits && Wins(w, seen, u, w', next)
    ensures StoreInv(w') && OnlyStore(w, w') && next in w'.commits && RouteOk(next) && SameIdentity(seen, next)
    ensures w'.table.Keys == w.table.Keys && next.version == seen.version + 1 && next.cached == u.cached && next.phase == u.phase
    ensures u.upstream.Some? ==> next.upstream == u.upstream
  {
    hide ValidateShape, Transition, TableOk;
    WinFacts(w, seen, u, w', next);
    SqlCasKeepsTable(w.table, seen.caller, seen.id, seen.version, u);
    TransitionFacts(seen, u);
    TransitionKeepsRouteOk(seen, u);
    hide RouteOk;
    forall a | a in w.commits && a.id == next.id
      ensures Agree(a, next) && Agree(next, a)
    {
      assert Agree(a, seen);
    }
    assert Agree(next, next);
  }

  /** No handler holds the dispatch of this route, no call was made for it and no verdict given up on it. */
  ghost predicate NoTokens(w: World, id: string) {
    && (forall t | t in w.threads :: !Holds(w.threads[t].pc, id))
    && (forall i | 0 <= i < |w.calls| :: w.calls[i].record.id != id)
  }

  /**
   * A won compare-and-set keeps the invariant, provided the verdict that nothing was
   * dispatched is only written for a route nobody is dispatching or has dispatched.
   */
  lemma WinKeepsInv(w: World, seen: Route, u: Update, w': World, next: Route)
    requires Inv(w) && seen in w.commits && Wins(w, seen, u, w', next)
    requires u.cached.Some? && u.cached.value.verdict.NotDispatched? ==> NoTokens(w, seen.id)
    ensures Inv(w')
  {
    hide ValidateShape, Transition, TableOk, RouteOk, PcOk, Holds, Settled, Cas, StoredOrLate, DeadlineInv, OnceInv, SettleInv;
    WinKeepsStore(w, seen, u, w', next);
    WinFacts(w, seen, u, w', next);
    assert w'.commits == w.commits + {next};
    forall t, c | t in w.threads && w.threads[t].pc.Beginning? && c in w'.commits
      ensures c.id != w.threads[t].pc.record.id
    {
      BeginningIsFresh(w, w.threads[t].pc);
    }
    StoreKeepsThreads(w, w');
    StoreKeepsTokens(w, w');
    StoreKeepsDeadlines(w, w');
    StoreKeepsOnce(w, w');
    StoreKeepsSettled(w, w');
  }

  // ---- winning and spending the dispatch claim ----

  lemma PreparedHasNoTokens(w: World, r: Route)
    requires Inv(w) && r in w.commits && r.id in w.table && w.table[r.id] == r && r.version == 0
    ensures NoTokens(w, r.id)
    ensures forall v | v in w.commits && IsVerdict(v) :: v.id != r.id
  {
    hide TableOk, ValidateShape, SameIdentity, Settled, StoredOrLate;
    forall c | c in w.commits && c.id == r.id
      ensures c.version == 0 && !c.phase.Dispatching? && !IsVerdict(c)
    {
      assert RouteOk(c);
      VerdictIsTerminal(c);
    }
    forall t | t in w.threads
      ensures !Holds(w.threads[t].pc, r.id)
    {
      assert PcOk(w, w.threads[t].pc);
    }
    forall i | 0 <= i < |w.calls|
      ensures w.calls[i].record.id != r.id
    {
      assert CallOk(w, w.calls[i]);
    }
  }

  lemma VerdictIsTerminal(r: Route)
    requires RouteOk(r)
    ensures IsVerdict(r) ==> r.phase.Terminal? && r.version > 0
  {
  }

  /** A handler may start holding a stored route that nobody holds. */
  lemma HoldKeepsInv(w: World, w': World, tid: nat, task: Submission, r: Route)
    requires Inv(w) && OnlyMoves(w, w', tid)
    requires w'.threads[tid] == w.threads[tid].(pc := Claimed(task, r)) && PcOk(w, Claimed(task, r)) && r.id in w.table
    requires NoTokens(w, r.id) && (forall v | v in w.commits && IsVerdict(v) :: v.id != r.id)
    requires w.threads[tid].pc.Claiming?
    ensures Inv(w')
  {
    hide PcOk, Settled, IsVerdict, NoTokens, StoredOrLate, StoreInv, ThreadInv, TokenInv, DeadlineInv, OnceInv, SettleInv;
    MoveKeepsThreads(w, w', tid);
    MoveKeepsStore(w, w', tid);
    ReceiptIsSettled(w, tid);
    MoveKeepsSettled(w, w', tid);
    StoredIsEnough(w, r);
    MoveKeepsDeadlines(w, w', tid);
    MoveKeepsOnce(w, w', tid);
    HoldKeepsTokens(w, w', tid, task, r);
  }

  lemma ReceiptIsSettled(w: World, tid: nat)
    requires SettleInv(w) && tid in w.threads
    requires w.threads[tid].pc.Claiming? || w.threads[tid].pc.Preparing? || w.threads[tid].pc.Claimed?
    ensures w.threads[tid].received.Some? ==> Settled(w, w.threads[tid].received.value)
  {
    hide Settled;
  }

  lemma StoredIsEnough(w: World, r: Route)
    requires r.id in w.table
    ensures StoredOrLate(w, r)
  {
  }

  lemma HoldKeepsTokens(w: World, w': World, tid: nat, task: Submission, r: Route)
    requires TokenInv(w) && OnlyMoves(w, w', tid) && w'.threads[tid].pc == Claimed(task, r)
    requires NoTokens(w, r.id) && (forall v | v in w.commits && IsVerdict(v) :: v.id != r.id)
    ensures TokenInv(w')
  {
    hide IsVerdict, TaskOf;
    forall i | 0 <= i < |w'.calls|
      ensures CallOk(w', w'.calls[i])
    {
      assert CallOk(w, w.calls[i]);
    }
    assert forall id | Holds(w'.threads[tid].pc, id) :: id == r.id;
  }

  lemma ClaimingKeepsInv(w: World, tid: nat, task: Submission, r: Route)
    requires Inv(w) && tid in w.threads && w.threads[tid].pc == Claiming(task, r)
    ensures Inv(StepClaiming(w, tid, task, r))
  {
    hide PcOk, TableOk, Settled, SettleInv, TokenInv, DeadlineInv, OnceInv, Transition, Holds, SameIdentity, RouteOk, ValidateShape, Cas;
    var u := ToDispatching(w.threads[tid].instance, TransitionTime(w, r));
    var (w', outcome) := Cas(w, r, u);
    ClaimingOk(w, task, r);
    if outcome.Won? {
      WinFacts(w, r, u, w', outcome.route);
      WinKeepsStore(w, r, u, w', outcome.route);
      ClaimStartsPrepared(w, r, u, w', outcome.route);
      PreparedHasNoTokens(w, r);
      WinKeepsInv(w, r, u, w', outcome.route);
      NoTokensCarry(w, w', r.id, outcome.route);
      ClaimedOk(w', task, r, outcome.route);
      HoldKeepsInv(w', Goto(w', tid, Claimed(task, outcome.route)), tid, task, outcome.route);
    } else {
      CasElseUnchanged(w, r, u);
      FinishKeepsInv(w, tid);
    }
  }

  lemma ClaimingOk(w: World, task: Submission, r: Route)
    requires PcOk(w, Claiming(task, r))
    ensures r in w.commits && TaskOf(r, task)
  {
  }

  lemma ClaimedOk(w: World, task: Submission, r: Route, next: Route)
    requires next in w.commits && next.phase.Dispatching? && TaskOf(r, task) && SameIdentity(r, next)
    ensures PcOk(w, Claimed(task, next))
  {
  }

  lemma NoTokensCarry(w: World, w': World, id: string, next: Route)
    requires NoTokens(w, id) && OnlyStore(w, w') && w'.commits == w.commits + {next} && !IsVerdict(next)
    requires forall v | v in w.commits && IsVerdict(v) :: v.id != id
    ensures NoTokens(w', id) && forall v | v in w'.commits && IsVerdict(v) :: v.id != id
  {
  }

  lemma ClaimStartsPrepared(w: World, r: Route, u: Update, w': World, next: Route)
    requires StoreInv(w) && r in w.commits && Wins(w, r, u, w', next) && u.phase.Dispatching?
    ensures r.version == 0
  {
    hide ValidateShape, Transition, TableOk;
    WinFacts(w, r, u, w', next);
    TransitionFacts(r, u);
    assert RouteOk(r);
  }

  lemma CasElseUnchanged(w: World, seen: Route, u: Update)
    ensures !Cas(w, seen, u).1.Won? ==> Cas(w, seen, u).0 == w
  {
  }

  /** Finishing is always safe for a handler whose upstream task, if any, is settled. */
  lemma FinishKeepsInv(w: World, tid: nat)
    requires Inv(w) && tid in w.threads
    requires w.threads[tid].received.Some? ==> Settled(w, w.threads[tid].received.value) || !InHand(w.threads[tid].pc, w.threads[tid].received.value)
    ensures Inv(Goto(w, tid, Finished))
  {
    MoveKeepsInv(w, Goto(w, tid, Finished), tid);
  }

  lemma CutoffBeforeDeadline(r: Route, task: Submission)
    requires TaskOf(r, task)
    ensures ExecutionCutoff(r) <= task.deadline
  {
  }

  /** Two stored routes for the same caller and document are one route. */
  lemma OneRoutePerSubmission(w: World, a: Route, b: Route)
    requires StoreInv(w) && a in w.commits && b in w.commits && a.id in w.table && b.id in w.table && SameSubmission(a, b)
    ensures a.id == b.id
  {
    hide ValidateShape;
    var x, y := w.table[a.id], w.table[b.id];
    assert x in w.commits && y in w.commits;
    assert x.id == a.id && y.id == b.id;
    assert SameIdentity(a, x) && SameIdentity(b, y);
    assert RouteOk(a) && RouteOk(b);
  }

  /** Passing the second clock check in time means nobody else called, or will call, for this submission. */
  lemma CommitKeepsInv(w: World, tid: nat, task: Submission, r: Route)
    requires Inv(w) && tid in w.threads && w.threads[tid].pc == Claimed(task, r) && w.now < ExecutionCutoff(r)
    ensures Inv(Goto(w, tid, Committed(task, r)))
  {
    hide Settled, ExecutionCutoff, StoreInv, ThreadInv, TokenInv, DeadlineInv, OnceInv, SettleInv;
    var w' := Goto(w, tid, Committed(task, r));
    ClaimFacts(w, tid, task, r);
    CommitKeepsOnce(w, tid, task, r);
    MoveKeepsThreads(w, w', tid);
    MoveKeepsStore(w, w', tid);
    MoveKeepsTokens(w, w', tid);
    MoveKeepsSettled(w, w', tid);
    MoveKeepsDeadlines(w, w', tid);
  }

  lemma ClaimFacts(w: World, tid: nat, task: Submission, r: Route)
    requires Inv(w) && tid in w.threads && w.threads[tid].pc == Claimed(task, r)
    ensures PcOk(w, Claimed(task, r)) && StoredOrLate(w, r)
    ensures w.threads[tid].received.Some? ==> Settled(w, w.threads[tid].received.value)
  {
    hide PcOk, StoredOrLate, Settled, StoreInv, TokenInv, OnceInv;
    assert PcOk(w, w.threads[tid].pc);
  }

  lemma CommitKeepsOnce(w: World, tid: nat, task: Submission, r: Route)
    requires Inv(w) && tid in w.threads && w.threads[tid].pc == Claimed(task, r) && w.now < ExecutionCutoff(r)
    ensures OnceInv(Goto(w, tid, Committed(task, r)))
  {
    hide ExecutionCutoff, SameSubmission, StoredOrLate, StoreInv, ThreadInv, TokenInv, DeadlineInv, SettleInv;
    ClaimFacts(w, tid, task, r);
    CutoffBeforeDeadline(r, task);
    forall i | 0 <= i < |w.calls|
      ensures !SameSubmission(w.calls[i].record, r)
    {
      CallRivalImpossible(w, tid, r, i);
    }
    forall u | u in w.threads && u != tid && w.threads[u].pc.Committed?
      ensures !SameSubmission(w.threads[u].pc.record, r) && !SameSubmission(r, w.threads[u].pc.record)
    {
      ThreadRivalImpossible(w, tid, r, u);
      SameSubmissionSymmetric(r, w.threads[u].pc.record);
    }
  }

  lemma SameSubmissionSymmetric(a: Route, b: Route)
    ensures SameSubmission(a, b) <==> SameSubmission(b, a)
  {
  }

  lemma CallRivalImpossible(w: World, tid: nat, r: Route, i: nat)
    requires Inv(w) && tid in w.threads && Holds(w.threads[tid].pc, r.id) && i < |w.calls|
    requires r in w.commits && r.binding.TaskBinding? && w.now < r.binding.task.deadline && StoredOrLate(w, r)
    ensures !SameSubmission(w.calls[i].record, r)
  {
    hide TableOk, RouteOk, SameIdentity, Settled, IsVerdict, PcOk;
    if SameSubmission(w.calls[i].record, r) {
      assert CallOk(w, w.calls[i]);
      assert StoredOrLate(w, w.calls[i].record);
      OneRoutePerSubmission(w, w.calls[i].record, r);
    }
  }

  lemma ThreadRivalImpossible(w: World, tid: nat, r: Route, u: nat)
    requires Inv(w) && tid in w.threads && Holds(w.threads[tid].pc, r.id)
    requires u in w.threads && u != tid && w.threads[u].pc.Committed?
    requires r in w.commits && r.binding.TaskBinding? && w.now < r.binding.task.deadline && StoredOrLate(w, r)
    ensures !SameSubmission(w.threads[u].pc.record, r)
  {
    hide TableOk, RouteOk, SameIdentity, Settled, IsVerdict;
    var x := w.threads[u].pc.record;
    if SameSubmission(x, r) {
      assert PcOk(w, w.threads[u].pc);
      assert StoredOrLate(w, x);
      OneRoutePerSubmission(w, x, r);
    }
  }

  lemma ClaimedKeepsInv(w: World, tid: nat, task: Submission, r: Route)
    requires Inv(w) && tid in w.threads && w.threads[tid].pc == Claimed(task, r)
    ensures Inv(StepClaimed(w, tid, task, r))
  {
    hide PcOk, TableOk, Settled, OnceInv, SameIdentity, RouteOk, ValidateShape, ExecutionCutoff, ThreadInv, StoreInv, SettleInv, TokenInv;
    if w.now < ExecutionCutoff(r) {
      CommitKeepsInv(w, tid, task, r);
    } else {
      var w' := Goto(w, tid, DecliningDispatch(r));
      DeclineKeepsInv(w, tid, task, r);
    }
  }

  lemma DecliningOk(w: World, task: Submission, r: Route)
    requires PcOk(w, Claimed(task, r))
    ensures PcOk(w, DecliningDispatch(r)) && r in w.commits
    ensures forall id | Holds(DecliningDispatch(r), id) :: Holds(Claimed(task, r), id)
  {
  }

  /** Outside the binding steps an acknowledged upstream task is already settled. */
  lemma NotInHand(w: World, tid: nat)
    requires SettleInv(w) && tid in w.threads && w.threads[tid].received.Some?
    requires !InHand(w.threads[tid].pc, w.threads[tid].received.value)
    ensures Settled(w, w.threads[tid].received.value)
  {
  }

  /** Giving up the claim keeps holding it until the verdict is written. */
  lemma DeclineKeepsInv(w: World, tid: nat, task: Submission, r: Route)
    requires Inv(w) && tid in w.threads && w.threads[tid].pc == Claimed(task, r)
    ensures Inv(Goto(w, tid, DecliningDispatch(r)))
  {
    hide TableOk, RouteOk, SameIdentity, Settled, IsVerdict, SameSubmission, PcOk, Holds, TokenInv, SettleInv;
    var w' := Goto(w, tid, DecliningDispatch(r));
    DecliningOk(w, task, r);
    if w.threads[tid].received.Some? {
      NotInHand(w, tid);
    }
    MoveKeepsThreads(w, w', tid);
    MoveKeepsTokens(w, w', tid);
    MoveKeepsSettled(w, w', tid);
  }

  /** The call is recorded as the claim is spent. */
  lemma CallKeepsInv(w: World, tid: nat, task: Submission, r: Route)
    requires Inv(w) && tid in w.threads && w.threads[tid].pc == Committed(task, r)
    ensures Inv(StepCommitted(w, tid, task, r))
  {
    hide TableOk, RouteOk, SameIdentity, Settled, IsVerdict, SameSubmission, PcOk, Holds, TokenInv, DeadlineInv, OnceInv, ThreadInv;
    var moved := Goto(w, tid, Awaiting(r));
    CommittedOk(w, tid, task, r);
    MoveKeepsInv(w, moved, tid);
    var w' := StepCommitted(w, tid, task, r);
    assert w' == moved.(calls := w.calls + [Call(r.caller, task, r)]);
    SpendKeepsTokens(w, w', moved, tid, task, r);
    SpendKeepsThreads(moved, w');
    SpendKeepsOnce(w, w', moved, tid, task, r);
  }

  lemma CommittedOk(w: World, tid: nat, task: Submission, r: Route)
    requires ThreadInv(w) && tid in w.threads && w.threads[tid].pc == Committed(task, r)
    ensures PcOk(w, Committed(task, r)) && PcOk(w, Awaiting(r))
  {
    assert PcOk(w, w.threads[tid].pc);
  }

  lemma SpendKeepsOnce(w: World, w': World, moved: World, tid: nat, task: Submission, r: Route)
    requires OnceInv(w) && DeadlineInv(w) && tid in w.threads && w.threads[tid].pc == Committed(task, r)
    requires moved == Goto(w, tid, Awaiting(r)) && w' == moved.(calls := w.calls + [Call(r.caller, task, r)])
    ensures OnceInv(w') && DeadlineInv(w')
  {
    hide SameSubmission;
    assert forall i | 0 <= i < |w.calls| :: w'.calls[i] == w.calls[i];
    forall u | u in w'.threads && w'.threads[u].pc.Committed?
      ensures !SameSubmission(r, w'.threads[u].pc.record)
    {
      assert u != tid && w'.threads[u] == w.threads[u];
    }
    assert StoredOrLate(w, r);
  }

  lemma SpendKeepsThreads(w: World, w': World)
    requires ThreadInv(w) && SettleInv(w) && w' == w.(calls := w'.calls)
    ensures ThreadInv(w') && SettleInv(w')
  {
    hide PcOk, Settled, InHand;
    forall t | t in w'.threads
      ensures PcOk(w', w'.threads[t].pc)
    {
      if w'.threads[t].pc.Beginning? {
        BeginningIsFresh(w, w'.threads[t].pc);
      }
      PcStable(w, w', w'.threads[t].pc);
    }
    forall t | t in w'.threads && w'.threads[t].received.Some? && !InHand(w'.threads[t].pc, w'.threads[t].received.value)
      ensures Settled(w', w'.threads[t].received.value)
    {
      SettledStable(w, w', w'.threads[t].received.value);
    }
  }

  lemma SpendKeepsTokens(w: World, w': World, moved: World, tid: nat, task: Submission, r: Route)
    requires TokenInv(w) && TokenInv(moved) && tid in w.threads && w.threads[tid].pc == Committed(task, r) && PcOk(w, Committed(task, r))
    requires moved == Goto(w, tid, Awaiting(r)) && w' == moved.(calls := w.calls + [Call(r.caller, task, r)])
    ensures TokenInv(w')
  {
    assert Holds(w.threads[tid].pc, r.id);
    assert forall id :: !Holds(w'.threads[tid].pc, id);
    hide IsVerdict, TaskOf, Holds;
    var n := |w.calls|;
    forall i | 0 <= i < |w'.calls|
      ensures CallOk(w', w'.calls[i]) && (i < n ==> w'.calls[i] == w.calls[i] && w.calls[i].record.id != r.id)
    {
      assert i < n ==> CallOk(w, w.calls[i]);
    }
    forall t | t in w'.threads
      ensures !Holds(w'.threads[t].pc, r.id)
    {
      assert t != tid ==> w'.threads[t] == w.threads[t];
    }
  }

  // ---- the verdict that nothing was dispatched ----

  lemma DecliningKeepsInv(w: World, tid: nat, r: Route)
    requires Inv(w) && tid in w.threads && w.threads[tid].pc == DecliningDispatch(r)
    ensures Inv(StepDecliningDispatch(w, tid, r))
  {
    hide TableOk, RouteOk, SameIdentity, Settled, IsVerdict, SameSubmission, StoredOrLate, Cas, Transition, ValidateShape, DeadlineInv, OnceInv;
    assert PcOk(w, w.threads[tid].pc);
    var u := ToTerminal(TransitionTime(w, r), NotDispatchedState());
    var (w', outcome) := Cas(w, r, u);
    var idle := Goto(w, tid, Finished);
    FinishKeepsInv(w, tid);
    CasIgnoresThreads(w, tid, r, u);
    if outcome.Won? {
      assert NoTokens(idle, r.id) by {
        if r.phase.Dispatching? {
          assert Holds(w.threads[tid].pc, r.id);
        } else {
          WinFacts(w, r, u, w', outcome.route);
          PreparedIsVersionZero(w, r);
          PreparedHasNoTokens(w, r);
        }
      }
      WinKeepsInv(idle, r, u, Goto(w', tid, Finished), outcome.route);
    } else {
      CasElseUnchanged(w, r, u);
    }
  }

  lemma PreparedIsVersionZero(w: World, r: Route)
    requires StoreInv(w) && r in w.commits && r.phase.Prepared?
    ensures r.version == 0
  {
    assert RouteOk(r);
  }

  lemma CasIgnoresThreads(w: World, tid: nat, r: Route, u: Update)
    requires tid in w.threads
    ensures Cas(w, r, u).0.threads == w.threads
    ensures Cas(Goto(w, tid, Finished), r, u) == (Goto(Cas(w, r, u).0, tid, Finished), Cas(w, r, u).1)
  {
    hide SqlCas;
  }

  // ---- purge, insertion and lookup ----

  lemma RowIsCommitted(w: World, id: string)
    requires StoreInv(w) && id in w.table
    ensures w.table[id] in w.commits && w.table[id].id == id && RouteOk(w.table[id])
  {
    hide RouteOk, ValidateShape;
  }

  lemma DeadlineBeforeExpiry(w: World, r: Route)
    requires StoreInv(w) && r in w.commits && r.id in w.table
    ensures r.binding.TaskBinding? && r.binding.task.deadline <= w.table[r.id].expires
  {
    hide ValidateShape;
    RowIsCommitted(w, r.id);
    assert SameIdentity(r, w.table[r.id]) && RouteOk(r);
  }

  /** Dropping rows that have expired by now keeps the invariant. */
  lemma RemovalKeepsInv(w: World, gone: set<string>)
    requires Inv(w) && gone <= w.table.Keys && forall id | id in gone :: w.table[id].expires <= w.now
    ensures Inv(w.(table := w.table - gone))
  {
    hide PcOk, RouteOk, Agree, Holds, ValidateShape, Settled, IsVerdict, StoredOrLate, TokenInv, DeadlineInv, OnceInv, SettleInv;
    var w' := w.(table := w.table - gone);
    forall t, c | t in w.threads && w.threads[t].pc.Beginning? && c in w'.commits
      ensures c.id != w.threads[t].pc.record.id
    {
      BeginningIsFresh(w, w.threads[t].pc);
    }
    StoreKeepsThreads(w, w');
    StoreKeepsTokens(w, w');
    forall r | r in w.commits && r.id in w.table && r.id !in w'.table && r.binding.TaskBinding?
      ensures w'.now >= r.binding.task.deadline
    {
      DeadlineBeforeExpiry(w, r);
    }
    StoreKeepsDeadlines(w, w');
    StoreKeepsOnce(w, w');
    StoreKeepsSettled(w, w');
  }

  lemma PurgedAreExpired(t: Table, now: nat, maximum: nat)
    ensures SqlPurged(t, now, maximum) <= t.Keys
    ensures forall id | id in SqlPurged(t, now, maximum) :: t[id].expires <= now
  {
  }

  lemma ClockedKeepsInv(w: World, tid: nat, q: Request, read: nat)
    requires Inv(w) && tid in w.threads && w.threads[tid].pc == SubmitClocked(q, read)
    ensures Inv(StepSubmitClocked(w, tid, q, read))
  {
    hide StoreInv, ThreadInv, TokenInv, DeadlineInv, OnceInv, SqlPurged, Parse;
    assert read <= w.now by {
      assert ThreadInv(w);
      ClockedOk(w, tid, q, read);
    }
    PurgedAreExpired(w.table, read, PURGE_BATCH);
    var purged := w.(table := w.table - SqlPurged(w.table, read, PURGE_BATCH));
    RemovalKeepsInv(w, SqlPurged(w.table, read, PURGE_BATCH));
    MoveKeepsInv(purged, StepSubmitClocked(w, tid, q, read), tid);
  }

  lemma ClockedOk(w: World, tid: nat, q: Request, read: nat)
    requires ThreadInv(w) && tid in w.threads && w.threads[tid].pc == SubmitClocked(q, read)
    ensures read <= w.now
  {
    assert PcOk(w, w.threads[tid].pc);
  }

  lemma RecoveringKeepsInv(w: World, tid: nat, q: Request, read: nat, env: Env)
    requires Inv(w) && tid in w.threads && w.threads[tid].pc == Recovering(q, read)
    ensures Inv(StepRecovering(w, tid, q, read, env))
  {
    hide ThreadInv, TokenInv, DeadlineInv, OnceInv, Settled, Parse, RouteOk, SameIdentity, TableOk, Agree, SqlFind;
    var key := DocumentKey(q.document);
    if key.Some? && SqlFind(w.table, q.caller, key.value).Some? {
      SqlFindIsRow(w.table, q.caller, key.value);
    }
    MoveKeepsInv(w, StepRecovering(w, tid, q, read, env), tid);
  }

  lemma PreparingKeepsInv(w: World, tid: nat, q: Request, read: nat, task: Submission, env: Env)
    requires Inv(w) && tid in w.threads && w.threads[tid].pc == Preparing(q, read, task) && env.freshId !in w.minted
    ensures Inv(StepPreparing(w, tid, q, read, task, env))
  {
    hide PcOk, RouteOk, SameIdentity, Settled, Holds, TableOk, SameSubmission, IsVerdict, StoredOrLate, PrepareWithId;
    var w' := StepPreparing(w, tid, q, read, task, env);
    if w'.threads[tid].pc.Finished? {
      FinishKeepsInv(w, tid);
    } else {
      var r := w'.threads[tid].pc.record;
      PreparedRecordOk(w, w', tid, q, read, task, env, r);
      var minted := w.(minted := w.minted + {env.freshId});
      MintKeepsInv(w, minted);
      assert w' == Goto(minted, tid, Beginning(q, read, task, r));
      StartInsertKeepsInv(minted, w', tid, r);
    }
  }

  lemma PreparedRecordOk(w: World, w': World, tid: nat, q: Request, read: nat, task: Submission, env: Env, r: Route)
    requires Inv(w) && tid in w.threads && w.threads[tid].pc == Preparing(q, read, task) && env.freshId !in w.minted
    requires w' == StepPreparing(w, tid, q, read, task, env) && w'.threads[tid].pc == Beginning(q, read, task, r)
    ensures RouteOk(r) && r.version == 0 && TaskOf(r, task) && r.created == read && r.id == env.freshId
    ensures PcOk(w.(minted := w.minted + {env.freshId}), Beginning(q, read, task, r))
    ensures forall t | t in w.threads && w.threads[t].pc.Beginning? :: w.threads[t].pc.record.id != r.id
  {
    hide TokenInv, DeadlineInv, OnceInv, SettleInv, SameIdentity;
    assert PcOk(w, w.threads[tid].pc);
    assert forall c | c in w.commits :: c.id in w.minted;
    forall t | t in w.threads && w.threads[t].pc.Beginning?
      ensures w.threads[t].pc.record.id in w.minted
    {
      assert PcOk(w, w.threads[t].pc);
    }
    hide ThreadInv, StoreInv;
  }

  lemma MintKeepsInv(w: World, w': World)
    requires Inv(w) && w' == w.(minted := w'.minted) && w.minted <= w'.minted
    ensures Inv(w')
  {
    hide PcOk, RouteOk, SameIdentity, Holds, TableOk, Settled, SameSubmission, IsVerdict, StoredOrLate;
    forall t, c | t in w.threads && w.threads[t].pc.Beginning? && c in w'.commits
      ensures c.id != w.threads[t].pc.record.id
    {
      BeginningIsFresh(w, w.threads[t].pc);
    }
    StoreKeepsThreads(w, w');
    StoreKeepsTokens(w, w');
    StoreKeepsDeadlines(w, w') by {
      hide StoredOrLate;
    }
    StoreKeepsSettled(w, w');
  }

  lemma StartInsertKeepsInv(w: World, w': World, tid: nat, r: Route)
    requires Inv(w) && OnlyMoves(w, w', tid) && w'.threads[tid].pc.Beginning? && w'.threads[tid].pc.record == r
    requires PcOk(w, w'.threads[tid].pc)
    requires forall t | t in w.threads && w.threads[t].pc.Beginning? :: w.threads[t].pc.record.id != r.id
    requires w'.threads[tid].received == w.threads[tid].received && w.threads[tid].pc.Preparing?
    ensures Inv(w')
  {
    hide PcOk, Settled, StoredOrLate, StoreInv, ThreadInv, TokenInv, DeadlineInv, OnceInv, SettleInv;
    StartInsertKeepsThreads(w, w', tid, r);
    MoveKeepsStore(w, w', tid);
    MoveKeepsTokens(w, w', tid);
    ReceiptIsSettled(w, tid);
    MoveKeepsSettled(w, w', tid);
    MoveKeepsDeadlines(w, w', tid);
    MoveKeepsOnce(w, w', tid);
  }

  lemma StartInsertKeepsThreads(w: World, w': World, tid: nat, r: Route)
    requires ThreadInv(w) && OnlyMoves(w, w', tid) && w'.threads[tid].pc.Beginning? && w'.threads[tid].pc.record == r
    requires PcOk(w, w'.threads[tid].pc)
    requires forall t | t in w.threads && w.threads[t].pc.Beginning? :: w.threads[t].pc.record.id != r.id
    ensures ThreadInv(w')
  {
    hide PcOk;
    forall t | t in w'.threads
      ensures PcOk(w', w'.threads[t].pc)
    {
      if w'.threads[t].pc.Beginning? {
        BeginningIsFresh(w, w'.threads[t].pc);
      }
      PcStable(w, w', w'.threads[t].pc);
    }
  }

  lemma InsertionKeepsStore(w: World, w': World, r: Route)
    requires StoreInv(w) && w' == w.(table := w.table[r.id := r], commits := w.commits + {r})
    requires RouteOk(r) && r.id in w.minted && r.id !in w.table
    requires forall c | c in w.commits :: c.id != r.id
    requires forall id | id in w.table :: !HasKey(w.table[id], r.caller, r.key.value)
    ensures StoreInv(w')
  {
    hide ValidateShape;
    InsertKeepsTable(w.table, r);
    hide RouteOk, TableOk;
    assert Agree(r, r);
  }

  /** A record with an unused id and a free key may be inserted. */
  lemma InsertionKeepsInv(w: World, w': World, r: Route)
    requires Inv(w) && w' == w.(table := w.table[r.id := r], commits := w.commits + {r})
    requires RouteOk(r) && r.version == 0 && r.id in w.minted && r.id !in w.table
    requires forall c | c in w.commits :: c.id != r.id
    requires forall t | t in w.threads && w.threads[t].pc.Beginning? :: w.threads[t].pc.record.id != r.id
    requires forall id | id in w.table :: !HasKey(w.table[id], r.caller, r.key.value)
    ensures Inv(w')
  {
    hide PcOk, Holds, Settled, SameSubmission, StoredOrLate, StoreInv, TokenInv, DeadlineInv, RouteOk, IsVerdict, SettleInv;
    InsertionKeepsStore(w, w', r);
    VerdictIsTerminal(r);
    forall t, c | t in w.threads && w.threads[t].pc.Beginning? && c in w'.commits
      ensures c.id != w.threads[t].pc.record.id
    {
      BeginningIsFresh(w, w.threads[t].pc);
    }
    StoreKeepsThreads(w, w');
    StoreKeepsTokens(w, w');
    StoreKeepsDeadlines(w, w');
    StoreKeepsSettled(w, w');
  }

  lemma BeginningFacts(w: World, tid: nat, q: Request, read: nat, task: Submission, r: Route)
    requires ThreadInv(w) && tid in w.threads && w.threads[tid].pc == Beginning(q, read, task, r)
    ensures read <= w.now && RouteOk(r) && r.version == 0 && TaskOf(r, task) && r.created == read && r.id in w.minted
    ensures forall c | c in w.commits :: c.id != r.id
  {
    hide RouteOk;
    assert PcOk(w, w.threads[tid].pc);
  }

  lemma InsertedFacts(t: Table, r: Route) returns (gone: set<string>)
    requires TableOk(t) && SqlBegin(t, r).1 == Ok(Inserted(r))
    ensures gone <= t.Keys && WithoutExpired(t, r) == t - gone
    ensures forall id | id in gone :: t[id].expires <= r.created
    ensures r.id !in t - gone && SqlBegin(t, r).0 == (t - gone)[r.id := r]
    ensures r.key.Some? ==> forall id | id in t - gone :: !HasKey(t[id], r.caller, r.key.value)
  {
    hide ValidateShape, VerifyPreparedForBegin, Active, SqlLookup, TableOk;
    WithoutExpiredFacts(t, r);
    gone := if SqlLookup(t, r).Some? then {SqlLookup(t, r).value.id} else {};
    if gone == {} {
      assert t - gone == t;
    }
  }

  lemma InsertingKeepsInv(w: World, tid: nat, q: Request, read: nat, task: Submission, r: Route)
    requires Inv(w) && tid in w.threads && w.threads[tid].pc == Beginning(q, read, task, r)
    requires SqlBegin(w.table, r).1 == Ok(Inserted(r))
    ensures Inv(Goto(w.(table := SqlBegin(w.table, r).0, commits := w.commits + {r}), tid, Claiming(task, r)))
  {
    hide SqlBegin, WithoutExpired, TableOk, RouteOk, Settled, TokenInv, DeadlineInv, OnceInv, PcOk, ThreadInv, SettleInv;
    BeginningFacts(w, tid, q, read, task, r);
    var idle := Goto(w, tid, Finished);
    InsertingThenFinishing(w, tid);
    var gone := InsertedFacts(w.table, r);
    RemovalKeepsInv(idle, gone);
    hide StoreInv;
    var kept := idle.(table := w.table - gone);
    var inserted := kept.(table := kept.table[r.id := r], commits := w.commits + {r});
    OthersInsertOtherIds(w, kept, tid, r);
    RouteOkHasKey(r);
    InsertionKeepsInv(kept, inserted, r);
    ClaimingIsOk(inserted, task, r);
    if inserted.threads[tid].received.Some? {
      NotInHand(inserted, tid);
    }
    var done := Goto(inserted, tid, Claiming(task, r));
    MoveKeepsInv(inserted, done, tid);
    assert done == Goto(w.(table := SqlBegin(w.table, r).0, commits := w.commits + {r}), tid, Claiming(task, r));
  }

  lemma InsertingThenFinishing(w: World, tid: nat)
    requires Inv(w) && tid in w.threads && w.threads[tid].pc.Beginning?
    ensures Inv(Goto(w, tid, Finished))
  {
    hide StoreInv, ThreadInv, TokenInv, DeadlineInv, OnceInv, SettleInv, Settled;
    FinishKeepsInv(w, tid);
  }

  lemma RouteOkHasKey(r: Route)
    requires RouteOk(r)
    ensures r.key.Some?
  {
  }

  lemma ClaimingIsOk(w: World, task: Submission, r: Route)
    requires r in w.commits && TaskOf(r, task)
    ensures PcOk(w, Claiming(task, r))
  {
  }

  lemma OthersInsertOtherIds(w: World, kept: World, tid: nat, r: Route)
    requires ThreadInv(w) && tid in w.threads && w.threads[tid].pc.Beginning? && w.threads[tid].pc.record == r
    requires kept.threads == Goto(w, tid, Finished).threads
    ensures forall t | t in kept.threads && kept.threads[t].pc.Beginning? :: kept.threads[t].pc.record.id != r.id
  {
    hide PcOk;
  }

  lemma ExistingSharesTask(w: World, r: Route, existing: Route, task: Submission)
    requires StoreInv(w) && RouteOk(r) && existing in w.commits && existing.request == r.request && TaskOf(r, task)
    ensures TaskOf(existing, task)
  {
    assert RouteOk(existing);
  }

  lemma BeginningKeepsInv(w: World, tid: nat, q: Request, read: nat, task: Submission, r: Route, env: Env)
    requires Inv(w) && tid in w.threads && w.threads[tid].pc == Beginning(q, read, task, r)
    ensures Inv(StepBeginning(w, tid, read, task, r, env))
  {
    hide ValidateShape, VerifyPreparedForBegin, TableOk, Active, Holds, SameIdentity, RouteOk, SameSubmission, DeadlineInv, OnceInv, TokenInv, ThreadInv, ExecutionCutoff, SqlLookup, WithoutExpired;
    BeginningFacts(w, tid, q, read, task, r);
    var out := SqlBegin(w.table, r).1;
    if out.Ok? && out.value.Inserted? {
      InsertingKeepsInv(w, tid, q, read, task, r);
    } else {
      if out.Ok? {
        WithoutExpiredFacts(w.table, r);
        RowIsCommitted(w, out.value.route.id);
        ExistingSharesTask(w, r, out.value.route, task);
      }
      MoveKeepsInv(w, StepBeginning(w, tid, read, task, r, env), tid);
    }
  }

  // ---- the remaining handler steps ----

  lemma ThreadOk(w: World, tid: nat)
    requires ThreadInv(w) && tid in w.threads
    ensures PcOk(w, w.threads[tid].pc)
  {
  }

  /** A compare-and-set that may be won, lost or refused, followed by a harmless move. */
  lemma CasThenMoveKeepsInv(w: World, tid: nat, seen: Route, u: Update, pc: Pc)
    requires Inv(w) && tid in w.threads && seen in w.commits && Plain(pc)
    requires u.cached.Some? ==> !u.cached.value.verdict.NotDispatched?
    requires PcOk(Cas(w, seen, u).0, pc)
    requires var w' := Cas(w, seen, u).0; w.threads[tid].received.Some? ==>
               InHand(pc, w.threads[tid].received.value) || Settled(w', w.threads[tid].received.value)
    ensures Cas(w, seen, u).0.threads == w.threads && Inv(Goto(Cas(w, seen, u).0, tid, pc))
  {
    hide PcOk, Settled, InHand, Cas, StoreInv, ThreadInv, TokenInv, DeadlineInv, OnceInv, SettleInv;
    var (w', outcome) := Cas(w, seen, u);
    CasIgnoresThreads(w, tid, seen, u);
    if outcome.Won? {
      WinKeepsInv(w, seen, u, w', outcome.route);
    } else {
      CasElseUnchanged(w, seen, u);
    }
    MoveKeepsInv(w', Goto(w', tid, pc), tid);
  }

  lemma CasCommits(w: World, seen: Route, u: Update)
    requires StoreInv(w) && seen in w.commits
    ensures var (w', outcome) := Cas(w, seen, u);
      && Grows(w, w')
      && (outcome.Won? ==> outcome.route in w'.commits && outcome.route.id == seen.id)
      && (outcome.Won? && u.upstream.Some? ==> outcome.route.upstream == u.upstream)
  {
    hide Cas, StoreInv, SameIdentity;
    var (w', outcome) := Cas(w, seen, u);
    if outcome.Won? {
      WinKeepsStore(w, seen, u, w', outcome.route);
      WinFacts(w, seen, u, w', outcome.route);
    } else {
      CasElseUnchanged(w, seen, u);
    }
  }

  lemma LoopingKeepsInv(w: World, tid: nat, goal: Goal, r: Route, n: nat, after: After)
    requires Inv(w) && tid in w.threads && w.threads[tid].pc == Looping(goal, r, n, after)
    ensures Inv(StepLooping(w, tid, goal, r, n, after))
  {
    hide Cas, StoreInv, ThreadInv, TokenInv, DeadlineInv, OnceInv, Settled;
    ThreadOk(w, tid);
    var u := GoalUpdate(goal, TransitionTime(w, r));
    var (w', outcome) := Cas(w, r, u);
    if n == 0 || Reached(goal, r.phase) {
      MoveKeepsInv(w, StepLooping(w, tid, goal, r, n, after), tid);
    } else {
      CasCommits(w, r, u);
      if w.threads[tid].received.Some? {
        SettledStable(w, w', w.threads[tid].received.value);
      }
      CasIgnoresThreads(w, tid, r, u);
      CasThenMoveKeepsInv(w, tid, r, u, StepLooping(w, tid, goal, r, n, after).threads[tid].pc);
    }
  }

  lemma RefetchingKeepsInv(w: World, tid: nat, goal: Goal, r: Route, n: nat, after: After)
    requires Inv(w) && tid in w.threads && w.threads[tid].pc == Refetching(goal, r, n, after)
    ensures Inv(StepRefetching(w, tid, goal, r, n, after))
  {
    hide ThreadInv, TokenInv, DeadlineInv, OnceInv, Settled, RouteOk, SameIdentity, TableOk, Agree;
    ThreadOk(w, tid);
    MoveKeepsInv(w, StepRefetching(w, tid, goal, r, n, after), tid);
  }

  /** Steps that only read and move: the new point is harmless and its record durable. */
  lemma ReadingKeepsInv(w: World, tid: nat, pc: Pc)
    requires Inv(w) && tid in w.threads && Plain(pc) && PcOk(w, pc)
    requires !InHand(w.threads[tid].pc, if w.threads[tid].received.Some? then w.threads[tid].received.value else Receipt("", ""))
    ensures Inv(Goto(w, tid, pc))
  {
    hide StoreInv, ThreadInv, TokenInv, DeadlineInv, OnceInv, SettleInv, Settled, PcOk;
    if w.threads[tid].received.Some? {
      NotInHand(w, tid);
    }
    MoveKeepsInv(w, Goto(w, tid, pc), tid);
  }

  lemma SendKeepsInv(w: World, route: string, uid: string)
    requires Inv(w)
    ensures Inv(SendCancel(w, route, uid))
  {
    hide PcOk, RouteOk, SameIdentity, Holds, TableOk, Settled, SameSubmission, IsVerdict, StoredOrLate;
    var w' := SendCancel(w, route, uid);
    forall t, c | t in w.threads && w.threads[t].pc.Beginning? && c in w'.commits
      ensures c.id != w.threads[t].pc.record.id
    {
      BeginningIsFresh(w, w.threads[t].pc);
    }
    StoreKeepsThreads(w, w');
    StoreKeepsTokens(w, w');
    StoreKeepsDeadlines(w, w');
    StoreKeepsSettled(w, w');
  }

  lemma GetIsCommitted(w: World, caller: Caller, id: string)
    requires StoreInv(w) && SqlGet(w.table, caller, id).Some?
    ensures SqlGet(w.table, caller, id).value in w.commits && SqlGet(w.table, caller, id).value.id == id
  {
    hide RouteOk;
    RowIsCommitted(w, id);
  }

  /** A committed record that names an upstream task settles it. */
  lemma RecordedIsSettled(w: World, r: Route, uid: string)
    requires r in w.commits
    ensures r.upstream == Some(uid) ==> Settled(w, Receipt(r.id, uid))
  {
  }

  lemma AwaitingKeepsInv(w: World, tid: nat, r: Route, env: Env)
    requires Inv(w) && tid in w.threads && w.threads[tid].pc == Awaiting(r)
    ensures Inv(StepAwaiting(w, tid, r, env))
  {
    hide StoreInv, ThreadInv, TokenInv, DeadlineInv, OnceInv, Settled, ExecutionCutoff, ValidIdentifier;
    ThreadOk(w, tid);
    MoveKeepsInv(w, StepAwaiting(w, tid, r, env), tid);
  }

  lemma BindWithKeepsInv(w: World, tid: nat, r: Route, current: Route, uid: string, ack: bool, n: nat, u: Update)
    requires Inv(w) && tid in w.threads && w.threads[tid].pc == Binding(r, current, uid, ack, n) && n > 0
    requires u.upstream == Some(uid) && u.cached.None?
    ensures Inv(BindWith(w, tid, r, current, uid, ack, n, u))
  {
    hide Cas, StoreInv, ThreadInv, TokenInv, DeadlineInv, OnceInv, Settled;
    ThreadOk(w, tid);
    var (w', outcome) := Cas(w, current, u);
    CasCommits(w, current, u);
    RecordedIsSettled(w', r, uid);
    if outcome.Won? {
      RecordedIsSettled(w', outcome.route, uid);
    }
    if w.threads[tid].received.Some? && Settled(w, w.threads[tid].received.value) {
      SettledStable(w, w', w.threads[tid].received.value);
    }
    CasIgnoresThreads(w, tid, current, u);
    CasThenMoveKeepsInv(w, tid, current, u, BindWith(w, tid, r, current, uid, ack, n, u).threads[tid].pc);
  }

  lemma BindingKeepsInv(w: World, tid: nat, r: Route, current: Route, uid: string, ack: bool, n: nat)
    requires Inv(w) && tid in w.threads && w.threads[tid].pc == Binding(r, current, uid, ack, n)
    ensures Inv(StepBinding(w, tid, r, current, uid, ack, n))
  {
    hide StoreInv, ThreadInv, TokenInv, DeadlineInv, OnceInv, Settled, BindWith;
    ThreadOk(w, tid);
    RecordedIsSettled(w, r, uid);
    RecordedIsSettled(w, current, uid);
    var time := TransitionTime(w, current);
    if n > 0 && current.upstream.None? && !current.phase.Terminal?
       && ((current.phase.Dispatching? && current.owner == r.owner) || current.phase.ReconciliationRequired?) {
      BindWithKeepsInv(w, tid, r, current, uid, ack, n, ToRouted(uid, time));
    } else if n > 0 && current.upstream.None? && current.phase.CancelRequested? {
      BindWithKeepsInv(w, tid, r, current, uid, ack, n, ToCancelWithUpstream(uid, time));
    } else {
      MoveKeepsInv(w, StepBinding(w, tid, r, current, uid, ack, n), tid);
    }
  }

  lemma RebindingKeepsInv(w: World, tid: nat, r: Route, uid: string, ack: bool, n: nat)
    requires Inv(w) && tid in w.threads && w.threads[tid].pc == Rebinding(r, uid, ack, n)
    ensures Inv(StepRebinding(w, tid, r, uid, ack, n))
  {
    hide StoreInv, ThreadInv, TokenInv, DeadlineInv, OnceInv, Settled, SqlGet;
    ThreadOk(w, tid);
    RecordedIsSettled(w, r, uid);
    if SqlGet(w.table, r.caller, r.id).Some? {
      GetIsCommitted(w, r.caller, r.id);
    }
    MoveKeepsInv(w, StepRebinding(w, tid, r, uid, ack, n), tid);
  }

  lemma BoundKeepsInv(w: World, tid: nat, r: Route, uid: string, must: bool, ack: bool)
    requires Inv(w) && tid in w.threads && w.threads[tid].pc == Bound(r, uid, must, ack)
    ensures Inv(StepBound(w, tid, r, uid, must, ack))
  {
    hide StoreInv, ThreadInv, TokenInv, DeadlineInv, OnceInv, ExecutionCutoff;
    ThreadOk(w, tid);
    MoveKeepsInv(w, StepBound(w, tid, r, uid, must, ack), tid);
  }

  lemma AbandoningKeepsInv(w: World, tid: nat, r: Route, uid: string)
    requires Inv(w) && tid in w.threads && w.threads[tid].pc == Abandoning(r, uid)
    ensures Inv(Goto(SendCancel(w, r.id, uid), tid, Finished))
  {
    hide StoreInv, ThreadInv, TokenInv, DeadlineInv, OnceInv;
    var sent := SendCancel(w, r.id, uid);
    SendKeepsInv(w, r.id, uid);
    MoveKeepsInv(sent, Goto(sent, tid, Finished), tid);
  }

  lemma ForwardingKeepsInv(w: World, tid: nat, r: Route, env: Env)
    requires Inv(w) && tid in w.threads && w.threads[tid].pc == ForwardingCancel(r)
    ensures Inv(StepForwardingCancel(w, tid, r, env))
  {
    hide StoreInv, ThreadInv, TokenInv, DeadlineInv, OnceInv, SettleInv, Settled;
    ThreadOk(w, tid);
    if r.phase.Terminal? || r.upstream.None? {
      ReadingKeepsInv(w, tid, Finished);
    } else {
      SendKeepsInv(w, r.id, r.upstream.value);
      var sent := SendCancel(w, r.id, r.upstream.value);
      ReadingKeepsInv(sent, tid, StepForwardingCancel(w, tid, r, env).threads[tid].pc);
    }
  }

  lemma PollingKeepsInv(w: World, tid: nat, r: Route)
    requires Inv(w) && tid in w.threads && w.threads[tid].pc == Polling(r)
    ensures Inv(StepPolling(w, tid, r))
  {
    hide StoreInv, ThreadInv, TokenInv, DeadlineInv, OnceInv, SettleInv, Settled, ExecutionCutoff;
    ThreadOk(w, tid);
    if r.upstream.Some? && r.phase.CancelRequested? {
      SendKeepsInv(w, r.id, r.upstream.value);
      ReadingKeepsInv(SendCancel(w, r.id, r.upstream.value), tid, Polled(r));
    } else {
      ReadingKeepsInv(w, tid, StepPolling(w, tid, r).threads[tid].pc);
    }
  }

  lemma RevivingKeepsInv(w: World, tid: nat, r: Route, status: string, terminal: bool, bytes: nat)
    requires Inv(w) && tid in w.threads && w.threads[tid].pc == Reviving(r, status, terminal, bytes)
    ensures Inv(StepReviving(w, tid, r, status, terminal, bytes))
  {
    hide Cas, StoreInv, ThreadInv, TokenInv, DeadlineInv, OnceInv, SettleInv, Settled;
    ThreadOk(w, tid);
    if r.upstream.None? {
      ReadingKeepsInv(w, tid, Finished);
    } else {
      var u := ToRouted(r.upstream.value, TransitionTime(w, r));
      var (w', outcome) := Cas(w, r, u);
      CasCommits(w, r, u);
      if w.threads[tid].received.Some? {
        NotInHand(w, tid);
        SettledStable(w, w', w.threads[tid].received.value);
      }
      CasIgnoresThreads(w, tid, r, u);
      CasThenMoveKeepsInv(w, tid, r, u, StepReviving(w, tid, r, status, terminal, bytes).threads[tid].pc);
    }
  }

  /** Entry steps: read the store or the clock, then move. */
  lemma EntryStepKeepsInv(w: World, tid: nat, env: Env)
    requires Inv(w) && tid in w.threads && Entry(w.threads[tid].pc)
    ensures Inv(StepThread(w, tid, env))
  {
    hide StoreInv, ThreadInv, TokenInv, DeadlineInv, OnceInv, SettleInv, Settled, ValidCaller, SqlGet;
    match w.threads[tid].pc {
      case SubmitStart(q) =>
        ReadingKeepsInv(w, tid, if ValidCaller(q.caller) then SubmitClocked(q, w.now) else Finished);
      case GetStart(c, id) =>
        if SqlGet(w.table, c, id).Some? {
          GetIsCommitted(w, c, id);
        }
        ReadingKeepsInv(w, tid, if SqlGet(w.table, c, id).Some? then GetRead(SqlGet(w.table, c, id).value) else Finished);
      case CancelStart(c, id) =>
        if SqlGet(w.table, c, id).Some? {
          GetIsCommitted(w, c, id);
        }
        ReadingKeepsInv(w, tid, if SqlGet(w.table, c, id).Some? then CancelRead(SqlGet(w.table, c, id).value) else Finished);
    }
  }

  lemma GetReadKeepsInv(w: World, tid: nat, r: Route, env: Env)
    requires Inv(w) && tid in w.threads && w.threads[tid].pc == GetRead(r)
    ensures Inv(StepGetRead(w, tid, r, env))
  {
    hide StoreInv, ThreadInv, TokenInv, DeadlineInv, OnceInv, SettleInv, Settled, ExecutionCutoff;
    ThreadOk(w, tid);
    ReadingKeepsInv(w, tid, StepGetRead(w, tid, r, env).threads[tid].pc);
  }

  lemma PolledKeepsInv(w: World, tid: nat, r: Route, env: Env)
    requires Inv(w) && tid in w.threads && w.threads[tid].pc == Polled(r)
    ensures Inv(StepPolled(w, tid, r, env))
  {
    hide StoreInv, ThreadInv, TokenInv, DeadlineInv, OnceInv, SettleInv, Settled, ExecutionCutoff;
    ThreadOk(w, tid);
    ReadingKeepsInv(w, tid, StepPolled(w, tid, r, env).threads[tid].pc);
  }

  lemma CancelStepKeepsInv(w: World, tid: nat, r: Route, env: Env)
    requires Inv(w) && tid in w.threads
    requires w.threads[tid].pc == CancelRead(r) || w.threads[tid].pc == CheckingSource(r) || w.threads[tid].pc == CancellingRaw(r)
    ensures w.threads[tid].pc.CancelRead? ==> Inv(StepCancelRead(w, tid, r))
    ensures w.threads[tid].pc.CheckingSource? ==> Inv(StepCheckingSource(w, tid, r, env))
    ensures w.threads[tid].pc.CancellingRaw? ==> Inv(Goto(w, tid, Loop(Reconcile, r)))
  {
    hide StoreInv, ThreadInv, TokenInv, DeadlineInv, OnceInv, SettleInv, Settled;
    ThreadOk(w, tid);
    ReadingKeepsInv(w, tid, Finished);
    ReadingKeepsInv(w, tid, Looping(RecordCancel, r, MAX_CAS_ATTEMPTS, RequestCancelIfCurrent));
    ReadingKeepsInv(w, tid, ForwardingCancel(r));
    ReadingKeepsInv(w, tid, Loop(Reconcile, r));
  }

  // ---- every step, every execution ----

  lemma ThreadStepKeepsInv(w: World, tid: nat, env: Env)
    requires Inv(w) && Enabled(w, Run(tid, env))
    ensures Inv(StepThread(w, tid, env))
  {
    hide Inv, StepSubmitStart, StepSubmitClocked, StepRecovering, StepPreparing, StepClaimed, StepAwaiting,
      StepRebinding, StepBound, StepRefetching, StepCheckingSource, StepGetStart, StepGetRead, StepPolled,
      StepCancelStart, StepCancelRead, StepClaiming, StepDecliningDispatch, StepLooping, StepBinding, StepReviving,
      StepBeginning, StepCommitted, StepForwardingCancel, StepPolling;
    match w.threads[tid].pc {
      case SubmitClocked(q, read) => ClockedKeepsInv(w, tid, q, read);
      case Recovering(q, read) => RecoveringKeepsInv(w, tid, q, read, env);
      case Preparing(q, read, task) => PreparingKeepsInv(w, tid, q, read, task, env);
      case Beginning(q, read, task, r) => BeginningKeepsInv(w, tid, q, read, task, r, env);
      case Claiming(task, r) => ClaimingKeepsInv(w, tid, task, r);
      case Claimed(task, r) => ClaimedKeepsInv(w, tid, task, r);
      case Committed(task, r) => CallKeepsInv(w, tid, task, r);
      case Awaiting(r) => AwaitingKeepsInv(w, tid, r, env);
      case Binding(r, current, uid, ack, n) => BindingKeepsInv(w, tid, r, current, uid, ack, n);
      case Rebinding(r, uid, ack, n) => RebindingKeepsInv(w, tid, r, uid, ack, n);
      case Bound(r, uid, must, ack) => BoundKeepsInv(w, tid, r, uid, must, ack);
      case Abandoning(r, uid) => AbandoningKeepsInv(w, tid, r, uid);
      case DecliningDispatch(r) => DecliningKeepsInv(w, tid, r);
      case Looping(goal, r, n, after) => LoopingKeepsInv(w, tid, goal, r, n, after);
      case Refetching(goal, r, n, after) => RefetchingKeepsInv(w, tid, goal, r, n, after);
      case ForwardingCancel(r) => ForwardingKeepsInv(w, tid, r, env);
      case Polling(r) => PollingKeepsInv(w, tid, r);
      case Reviving(r, status, terminal, bytes) => RevivingKeepsInv(w, tid, r, status, terminal, bytes);
      case Finished =>
      case Dropped(_) =>
      case GetRead(r) => GetReadKeepsInv(w, tid, r, env);
      case Polled(r) => PolledKeepsInv(w, tid, r, env);
      case CancelRead(r) => CancelStepKeepsInv(w, tid, r, env);
      case CheckingSource(r) => CancelStepKeepsInv(w, tid, r, env);
      case CancellingRaw(r) => CancelStepKeepsInv(w, tid, r, env);
      case _ => EntryStepKeepsInv(w, tid, env);
    }
  }

  lemma TickKeepsInv(w: World, to: nat)
    requires Inv(w) && w.now <= to
    ensures Inv(w.(now := to))
  {
    hide PcOk, RouteOk, SameIdentity, Holds, TableOk, Settled, SameSubmission, IsVerdict;
    var w' := w.(now := to);
    forall t, c | t in w.threads && w.threads[t].pc.Beginning? && c in w'.commits
      ensures c.id != w.threads[t].pc.record.id
    {
      BeginningIsFresh(w, w.threads[t].pc);
    }
    StoreKeepsThreads(w, w');
    StoreKeepsTokens(w, w');
    StoreKeepsSettled(w, w');
  }

  /** One new handler at an entry point, everything else the same. */
  ghost predicate OnlySpawns(w: World, w': World, tid: nat, t: Thread) {
    tid !in w.threads && w' == w.(threads := w.threads[tid := t]) && Entry(t.pc) && t.received.None?
  }

  lemma SpawnKeepsThreads(w: World, w': World, tid: nat, t: Thread)
    requires ThreadInv(w) && SettleInv(w) && OnlySpawns(w, w', tid, t)
    ensures ThreadInv(w') && SettleInv(w')
  {
    hide PcOk, Settled, InHand;
    EntryOk(w', t.pc);
    forall u | u in w'.threads
      ensures PcOk(w', w'.threads[u].pc)
    {
      if u != tid {
        if w.threads[u].pc.Beginning? {
          BeginningIsFresh(w, w.threads[u].pc);
        }
        PcStable(w, w', w.threads[u].pc);
      }
    }
    forall u | u in w'.threads && w'.threads[u].received.Some? && !InHand(w'.threads[u].pc, w'.threads[u].received.value)
      ensures Settled(w', w'.threads[u].received.value)
    {
      SettledStable(w, w', w'.threads[u].received.value);
    }
  }

  lemma EntryOk(w: World, pc: Pc)
    requires Entry(pc)
    ensures PcOk(w, pc) && forall id :: !Holds(pc, id)
  {
  }

  lemma SpawnKeepsTokens(w: World, w': World, tid: nat, t: Thread)
    requires TokenInv(w) && OnlySpawns(w, w', tid, t)
    ensures TokenInv(w')
  {
    hide Holds, IsVerdict, TaskOf;
    EntryOk(w, t.pc);
    forall i | 0 <= i < |w'.calls|
      ensures CallOk(w', w'.calls[i])
    {
      assert CallOk(w, w.calls[i]);
    }
  }

  lemma SpawnKeepsInv(w: World, w': World, tid: nat, t: Thread)
    requires Inv(w) && OnlySpawns(w, w', tid, t)
    ensures Inv(w')
  {
    hide RouteOk, Agree, TableOk, Settled, SameSubmission, ThreadInv, TokenInv, SettleInv, PcOk;
    SpawnKeepsThreads(w, w', tid, t);
    SpawnKeepsTokens(w, w', tid, t);
  }

  lemma StepKeepsInv(w: World, a: Action)
    requires Inv(w) && Enabled(w, a)
    ensures Inv(Next(w, a))
  {
    hide Inv, StepThread;
    match a {
      case Tick(to) => TickKeepsInv(w, to);
      case Spawn(tid, instance, pc) => SpawnKeepsInv(w, Next(w, a), tid, Thread(instance, pc, None));
      case Drop(tid) => DropKeepsInv(w, tid);
      case Run(tid, env) => ThreadStepKeepsInv(w, tid, env);
    }
  }

  lemma DropKeepsInv(w: World, tid: nat)
    requires Inv(w) && tid in w.threads
    ensures Inv(Goto(w, tid, Dropped(w.threads[tid].pc)))
  {
    hide StoreInv, ThreadInv, TokenInv, DeadlineInv, OnceInv, Settled;
    MoveKeepsInv(w, Goto(w, tid, Dropped(w.threads[tid].pc)), tid);
  }

  lemma {:induction false} ExecutionKeepsInv(run: seq<World>, k: nat)
    requires Execution(run) && k < |run|
    ensures Inv(run[k])
  {
    if k > 0 {
      ExecutionKeepsInv(run, k - 1);
      assert Steps(run[k - 1], run[k]);
      var a :| Enabled(run[k - 1], a) && Next(run[k - 1], a) == run[k];
      StepKeepsInv(run[k - 1], a);
    }
  }

  // ---- results ----

  /**
   * At most one upstream call is ever made for a caller, an idempotency key and a deadline, and so
   * for a caller and a submission document whatever tool or source it names, over every
   * interleaving of handlers, drops, restarts, purges and expiry replacements.
   */
  lemma AtMostOneCall(run: seq<World>, k: nat, i: nat, j: nat)
    requires Execution(run) && k < |run| && i < j < |run[k].calls|
    ensures run[k].calls[i].caller == run[k].calls[j].caller
              && run[k].calls[i].task.idempotencyKey == run[k].calls[j].task.idempotencyKey ==>
              run[k].calls[i].task.deadline != run[k].calls[j].task.deadline
  {
    ExecutionKeepsInv(run, k);
    assert CallOk(run[k], run[k].calls[i]) && CallOk(run[k], run[k].calls[j]);
    assert !SameSubmission(run[k].calls[i].record, run[k].calls[j].record);
  }

  /** Once the broker has ever recorded that a route was not dispatched, no call is ever made for that route. */
  lemma NotDispatchedIsTrue(run: seq<World>, m: nat, k: nat, verdict: Route, i: nat)
    requires Execution(run) && m < |run| && k < |run| && verdict in run[m].commits && IsVerdict(verdict)
    requires i < |run[k].calls|
    ensures run[k].calls[i].record.id != verdict.id
  {
    var last := if m <= k then k else m;
    ExecutionKeepsInv(run, last);
    HistoryGrows(run, m, last);
    HistoryGrows(run, k, last);
    assert run[last].calls[i] == run[k].calls[i];
  }

  /** Histories only grow along an execution. */
  lemma {:induction false} HistoryGrows(run: seq<World>, k: nat, m: nat)
    requires Execution(run) && k <= m < |run|
    ensures HistoryKept(run[k], run[m])
    decreases m
  {
    hide Next, Enabled, Init, HistoryKept;
    KeptReflexive(run[m]);
    if k < m {
      HistoryGrows(run, k, m - 1);
      assert Steps(run[m - 1], run[m]);
      var a :| Enabled(run[m - 1], a) && Next(run[m - 1], a) == run[m];
      StepGrowsHistory(run[m - 1], a);
      KeptTransitive(run[k], run[m - 1], run[m]);
    }
  }

  lemma KeptReflexive(w: World)
    ensures HistoryKept(w, w)
  {
  }

  lemma KeptTransitive(a: World, b: World, c: World)
    requires HistoryKept(a, b) && HistoryKept(b, c)
    ensures HistoryKept(a, c)
  {
  }

  lemma StepGrowsHistory(w: World, a: Action)
    requires Enabled(w, a)
    ensures StepKept(w, Next(w, a))
  {
    hide StepThread;
    if a.Run? {
      ThreadStepGrowsHistory(w, a.tid, a.env);
    }
  }

  ghost predicate HistoryKept(w: World, w': World) {
    w.commits <= w'.commits && w.cancels <= w'.cancels && w.calls <= w'.calls
  }

  /** At most one record is committed: a freshly prepared one, or one that follows a stored record. */
  ghost predicate OneCommit(w: World, w': World) {
    || w'.commits == w.commits
    || exists r ::
         && w'.commits == w.commits + {r}
         && (VerifyPreparedForBegin(r).None? || exists id | id in w.table :: Follows(w.table[id], r))
  }

  ghost predicate StepKept(w: World, w': World) {
    HistoryKept(w, w') && OneCommit(w, w')
  }

  lemma CasGrowsHistory(w: World, seen: Route, u: Update)
    ensures StepKept(w, Cas(w, seen, u).0) && Cas(w, seen, u).0.threads == w.threads
  {
    hide Transition;
    var out := SqlCas(w.table, seen.caller, seen.id, seen.version, u);
    if out.1.Ok? && out.1.value.Some? {
      var next := out.1.value.value;
      assert Transition(w.table[seen.id], u) == Ok(next);
      assert Follows(w.table[seen.id], next);
      assert Cas(w, seen, u).0.commits == w.commits + {next};
    }
  }

  predicate Writes(pc: Pc) {
    pc.Claiming? || pc.DecliningDispatch? || pc.Looping? || pc.Binding? || pc.Reviving?
  }

  lemma ThreadStepGrowsHistory(w: World, tid: nat, env: Env)
    requires tid in w.threads
    ensures StepKept(w, StepThread(w, tid, env))
  {
    if Writes(w.threads[tid].pc) {
      WriteGrowsHistory(w, tid, env);
    } else {
      ReadGrowsHistory(w, tid, env);
    }
  }

  predicate SameHistory(w: World, w': World) {
    w'.commits == w.commits && w'.calls == w.calls && w'.cancels == w.cancels
  }

  /** After a compare-and-set a handler goes on from its outcome, or from where it was. */
  lemma GoesOn(w: World, written: World, w': World)
    requires StepKept(w, written) && (SameHistory(written, w') || SameHistory(w, w'))
    ensures StepKept(w, w')
  {
  }

  lemma BindGrowsHistory(w: World, tid: nat, env: Env)
    requires tid in w.threads && (w.threads[tid].pc.Binding? || w.threads[tid].pc.Reviving?)
    ensures StepKept(w, StepThread(w, tid, env))
  {
    hide StepKept, Cas, Reached, GoalUpdate, StepSubmitStart, StepSubmitClocked, StepRecovering, StepPreparing,
      StepClaimed, StepAwaiting, StepRebinding, StepBound, StepRefetching, StepCheckingSource, StepGetStart,
      StepGetRead, StepPolled, StepCancelStart, StepCancelRead, StepBeginning, StepCommitted, StepForwardingCancel,
      StepPolling, StepClaiming,
      StepDecliningDispatch, StepLooping;
    var w' := StepThread(w, tid, env);
    match w.threads[tid].pc {
      case Binding(_, r, uid, _, _) =>
        var u := if r.phase.CancelRequested? then ToCancelWithUpstream(uid, TransitionTime(w, r)) else ToRouted(uid, TransitionTime(w, r));
        CasGrowsHistory(w, r, u);
        GoesOn(w, Cas(w, r, u).0, w');
      case Reviving(r, _, _, _) =>
        var u := ToRouted(if r.upstream.Some? then r.upstream.value else "", TransitionTime(w, r));
        CasGrowsHistory(w, r, u);
        GoesOn(w, Cas(w, r, u).0, w');
    }
  }

  lemma WriteGrowsHistory(w: World, tid: nat, env: Env)
    requires tid in w.threads && Writes(w.threads[tid].pc)
    ensures StepKept(w, StepThread(w, tid, env))
  {
    hide StepKept, Cas, Reached, GoalUpdate, StepSubmitStart, StepSubmitClocked, StepRecovering, StepPreparing,
      StepClaimed, StepAwaiting, StepRebinding, StepBound, StepRefetching, StepCheckingSource, StepGetStart,
      StepGetRead, StepPolled, StepCancelStart, StepCancelRead, StepBeginning, StepCommitted, StepForwardingCancel,
      StepPolling, StepBinding, StepReviving;
    var w' := StepThread(w, tid, env);
    match w.threads[tid].pc {
      case Claiming(_, r) =>
        var u := ToDispatching(w.threads[tid].instance, TransitionTime(w, r));
        CasGrowsHistory(w, r, u);
        GoesOn(w, Cas(w, r, u).0, w');
      case DecliningDispatch(r) =>
        var u := ToTerminal(TransitionTime(w, r), NotDispatchedState());
        CasGrowsHistory(w, r, u);
        GoesOn(w, Cas(w, r, u).0, w');
      case Looping(goal, r, _, _) =>
        var u := GoalUpdate(goal, TransitionTime(w, r));
        CasGrowsHistory(w, r, u);
        GoesOn(w, Cas(w, r, u).0, w');
      case _ => BindGrowsHistory(w, tid, env);
    }
  }

  predicate Records(pc: Pc) {
    pc.Beginning? || pc.Committed? || pc.Abandoning? || pc.ForwardingCancel? || pc.Polling?
  }

  lemma ReadGrowsHistory(w: World, tid: nat, env: Env)
    requires tid in w.threads && !Writes(w.threads[tid].pc)
    ensures StepKept(w, StepThread(w, tid, env))
  {
    hide StepThread;
    if Records(w.threads[tid].pc) {
      RecordGrowsHistory(w, tid, env);
    } else {
      MoveGrowsHistory(w, tid, env);
    }
  }

  lemma RecordGrowsHistory(w: World, tid: nat, env: Env)
    requires tid in w.threads && Records(w.threads[tid].pc)
    ensures StepKept(w, StepThread(w, tid, env))
  {
    hide SqlBegin, ExecutionCutoff, VerifyPreparedForBegin, Follows, StepSubmitStart, StepSubmitClocked, StepRecovering,
      StepPreparing, StepClaimed, StepAwaiting, StepRebinding, StepBound, StepRefetching, StepCheckingSource,
      StepGetStart, StepGetRead, StepPolled, StepCancelStart, StepCancelRead, StepClaiming, StepDecliningDispatch,
      StepLooping, StepBinding, StepReviving;
    var w' := StepThread(w, tid, env);
    if w.threads[tid].pc.Beginning? {
      InsertedIsPrepared(w.table, w.threads[tid].pc.record);
      var out := SqlBegin(w.table, w.threads[tid].pc.record).1;
      assert out.Ok? && out.value.Inserted? ==> w'.commits == w.commits + {out.value.route};
    } else {
      assert w'.commits == w.commits;
    }
  }

  lemma InsertedIsPrepared(t: Table, r: Route)
    ensures SqlBegin(t, r).1.Ok? && SqlBegin(t, r).1.value.Inserted? ==>
              SqlBegin(t, r).1.value.route == r && VerifyPreparedForBegin(r).None?
  {
    hide VerifyPreparedForBegin, SqlLookup, Active, WithoutExpired;
  }

  predicate SubmitMoves(pc: Pc) {
    pc.SubmitStart? || pc.SubmitClocked? || pc.Recovering? || pc.Preparing? || pc.Claimed? || pc.Awaiting?
  }

  lemma SubmitGrowsHistory(w: World, tid: nat, env: Env)
    requires tid in w.threads && SubmitMoves(w.threads[tid].pc)
    ensures StepKept(w, StepThread(w, tid, env))
  {
    hide SqlPurge, SqlFind, Parse, PrepareWithId, ExecutionCutoff, ValidCaller, ValidIdentifier, StepRebinding,
      StepBound, StepRefetching, StepCheckingSource, StepGetStart, StepGetRead, StepPolled, StepCancelStart,
      StepCancelRead, StepClaiming, StepDecliningDispatch, StepLooping, StepBinding, StepReviving, StepBeginning,
      StepCommitted, StepForwardingCancel, StepPolling;
  }

  lemma MoveGrowsHistory(w: World, tid: nat, env: Env)
    requires tid in w.threads && !Writes(w.threads[tid].pc) && !Records(w.threads[tid].pc)
    ensures StepKept(w, StepThread(w, tid, env))
  {
    hide SqlGet, StepKept, StepSubmitStart, StepSubmitClocked, StepRecovering, StepPreparing, StepClaimed,
      StepAwaiting, StepClaiming, StepDecliningDispatch, StepLooping, StepBinding, StepReviving, StepBeginning,
      StepCommitted, StepForwardingCancel, StepPolling;
    if SubmitMoves(w.threads[tid].pc) {
      SubmitGrowsHistory(w, tid, env);
    } else {
      var w' := StepThread(w, tid, env);
      assert w'.commits == w.commits && w'.calls == w.calls && w'.cancels == w.cancels;
      SameHistoryKept(w, w');
    }
  }

  lemma SameHistoryKept(w: World, w': World)
    requires w'.commits == w.commits && w'.calls == w.calls && w'.cancels == w.cancels
    ensures StepKept(w, w')
  {
  }

  /**
   * A handler that was handed a well-formed upstream task settles it for good: unless the task is
   * still in hand, or the handler was dropped with it in hand, it is in a durable record of the
   * route or a cancel request was sent for it, now and in every later world.
   */
  lemma AcknowledgedTaskIsSettled(run: seq<World>, k: nat, m: nat, tid: nat)
    requires Execution(run) && k <= m < |run| && tid in run[k].threads && run[k].threads[tid].received.Some?
    requires !InHand(run[k].threads[tid].pc, run[k].threads[tid].received.value)
    ensures Settled(run[m], run[k].threads[tid].received.value)
  {
    ExecutionKeepsInv(run, k);
    HistoryGrows(run, k, m);
    SettledForGood(run[k], run[m], run[k].threads[tid].received.value);
  }

  lemma SettledForGood(w: World, w': World, x: Receipt)
    requires Settled(w, x) && HistoryKept(w, w')
    ensures Settled(w', x)
  {
    if x !in w.cancels {
      var r :| r in w.commits && r.id == x.route && r.upstream == Some(x.uid);
      assert r in w'.commits;
    }
  }

  // ---- committed records form lifetimes ----

  /** A lifetime made of committed records that ends in this one. */
  ghost predicate Recorded(w: World, h: seq<Route>, r: Route) {
    Lifetime(h) && h[|h| - 1] == r && forall i | 0 <= i < |h| :: h[i] in w.commits
  }

  lemma RecordedGrows(w: World, w': World, h: seq<Route>, r: Route)
    requires Recorded(w, h, r) && w.commits <= w'.commits
    ensures Recorded(w', h, r)
  {
    hide Lifetime;
  }

  lemma FollowerIsRecorded(w: World, w': World, h: seq<Route>, r: Route, next: Route)
    requires Recorded(w, h, r) && Follows(r, next) && w.commits <= w'.commits && next in w'.commits
    ensures Recorded(w', h + [next], next)
  {
    hide Follows, VerifyPreparedForBegin;
    var longer := h + [next];
    forall k | 0 < k < |longer|
      ensures Follows(longer[k - 1], longer[k])
    {
      if k < |h| {
        assert longer[k - 1] == h[k - 1] && longer[k] == h[k];
      }
    }
  }

  lemma FirstIsRecorded(w: World, r: Route)
    requires VerifyPreparedForBegin(r).None? && r in w.commits
    ensures Recorded(w, [r], r)
  {
    hide VerifyPreparedForBegin;
  }

  lemma TableIsCommitted(w: World, id: string)
    requires Inv(w) && id in w.table
    ensures w.table[id] in w.commits
  {
    hide TableOk, RouteOk, Agree, ThreadInv, TokenInv, DeadlineInv, OnceInv, SettleInv;
  }

  lemma {:induction false} CommitIsRecorded(run: seq<World>, k: nat, r: Route) returns (h: seq<Route>)
    requires Execution(run) && k < |run| && r in run[k].commits
    ensures Recorded(run[k], h, r)
  {
    hide Next, Enabled, Recorded, HistoryKept, Inv, Follows, VerifyPreparedForBegin;
    if k == 0 {
      h := [];
      assert false;
    } else {
      assert Steps(run[k - 1], run[k]);
      var a :| Enabled(run[k - 1], a) && Next(run[k - 1], a) == run[k];
      StepGrowsHistory(run[k - 1], a);
      KeptCommits(run[k - 1], run[k]);
      ExecutionKeepsInv(run, k - 1);
      if r in run[k - 1].commits {
        h := CommitIsRecorded(run, k - 1, r);
        RecordedGrows(run[k - 1], run[k], h, r);
      } else if VerifyPreparedForBegin(r).None? {
        h := [r];
        FirstIsRecorded(run[k], r);
      } else {
        var id :| id in run[k - 1].table && Follows(run[k - 1].table[id], r);
        TableIsCommitted(run[k - 1], id);
        var before := CommitIsRecorded(run, k - 1, run[k - 1].table[id]);
        FollowerIsRecorded(run[k - 1], run[k], before, run[k - 1].table[id], r);
        h := before + [r];
      }
    }
  }

  lemma KeptCommits(w: World, w': World)
    requires HistoryKept(w, w')
    ensures w.commits <= w'.commits
  {
  }

  /**
   * Across all handlers, the durable records of one route up to any of them are exactly one
   * lifetime: a prepared record followed by accepted transitions, one record for each version,
   * none missing, so that identity never changes, the upstream task is write-once, and a late
   * acknowledgement never takes a cancelled route back.
   */
  lemma RouteHistoryIsOneLifetime(run: seq<World>, k: nat, r: Route) returns (h: seq<Route>)
    requires Execution(run) && k < |run| && r in run[k].commits
    ensures Lifetime(h) && |h| == r.version + 1 && h[r.version] == r
    ensures forall c :: (c in run[k].commits && c.id == r.id && c.version <= r.version) <==> c in h
    ensures forall i, j | 0 <= i <= j < |h| :: LaterRecord(h[i], h[j])
  {
    hide ValidateShape, LaterRecord, Execution, Inv, Lifetime;
    ExecutionKeepsInv(run, k);
    h := CommitIsRecorded(run, k, r);
    assert |h| > 0 by {
      LifetimeIsNonempty(h);
    }
    LifetimeIsMonotone(h, |h| - 1, |h| - 1);
    forall i, j | 0 <= i <= j < |h|
      ensures LaterRecord(h[i], h[j]) && h[j].version == j
    {
      LifetimeIsMonotone(h, i, j);
    }
    forall i | 0 <= i < |h|
      ensures h[i].id == r.id && h[i].version == i && h[i] in run[k].commits
    {
      LaterSharesId(h[i], h[|h| - 1]);
    }
    forall c | c in run[k].commits && c.id == r.id && c.version <= r.version
      ensures c in h
    {
      SameVersionSameRecord(run[k], c, h[c.version]);
    }
  }

  lemma LifetimeIsNonempty(h: seq<Route>)
    requires Lifetime(h)
    ensures |h| > 0
  {
    hide Follows, VerifyPreparedForBegin;
  }

  lemma LaterSharesId(a: Route, b: Route)
    requires LaterRecord(a, b)
    ensures a.id == b.id
  {
    hide ValidateShape;
  }

  lemma SameVersionSameRecord(w: World, a: Route, b: Route)
    requires Inv(w) && a in w.commits && b in w.commits && a.id == b.id && a.version == b.version
    ensures a == b
  {
    hide ValidateShape, LaterRecord, TableOk, RouteOk, ThreadInv, TokenInv, DeadlineInv, OnceInv, SettleInv;
    assert Agree(a, b);
  }
}
