/** What every execution of the run driver keeps, and the results that follow. */
module RunDriverSafety {
  import opened Common
  import opened JsonPointer
  import opened RunPlan
  import opened RunState
  import opened RunJournal
  import opened RunDriver

  // ---- good states ----

  /** The provider's own report, as stored, carries this status. */
  predicate Reports(s: StepState, status: string) {
    s.terminal.Some? && At(s.terminal.value, "status") == Str(status)
  }

  /** Beyond the reload checks: artifacts passed their policy, and a started step has settled dependencies in an authorized plan. */
  ghost predicate StepGood(state: State, step: Step, s: StepState) {
    && (s.verifiedArtifact.Some? ==>
          (s.phase.Verified? || s.phase.Failed?) && RequiredPass(step.policy, s.verifiedArtifact.value))
    && (s.phase.Verified? ==> s.verifiedArtifact.Some?)
    && (s.phase.Submitting? ==> s.taskId.None?)
    && (s.phase.Verified? ==> Reports(s, "completed"))
    && (s.phase.Cancelled? ==> Reports(s, "cancelled"))
    && (Started(s.phase) ==> ReferencesDeclared(state.plan))
    && (Started(s.phase) ==> forall d | d in step.dependsOn ::
          d in state.steps && (state.steps[d].phase.Verified? || state.steps[d].phase.Failed?))
  }

  ghost predicate Good(state: State) {
    && Reloads(state)
    && |ActiveSteps(state)| <= state.plan.maxConcurrency
    && forall k | 0 <= k < |state.plan.steps| ::
         StepGood(state, state.plan.steps[k], state.steps[state.plan.steps[k].id])
  }

  lemma GoodIsTracked(state: State)
    requires Reloads(state)
    ensures Tracked(state)
  {
    hide ValidPlan, StepReloads;
    forall k | 0 <= k < |state.plan.steps|
      ensures state.plan.steps[k].id in state.steps
    {
      assert state.plan.steps[k].id in Ids(state.plan);
    }
  }

  lemma GoodStep(state: State, k: nat)
    requires Good(state) && k < |state.plan.steps|
    ensures state.plan.steps[k].id in state.steps
    ensures StepReloads(state, state.plan.steps[k], StepAt(state, k)) && StepGood(state, state.plan.steps[k], StepAt(state, k))
  {
    hide StepReloads, StepGood, ValidPlan, ActiveSteps;
    GoodIsTracked(state);
  }

  lemma SameIdSameStep(state: State, i: nat, k: nat)
    requires Reloads(state) && i < |state.plan.steps| && k < |state.plan.steps| && state.plan.steps[i].id == state.plan.steps[k].id
    ensures i == k
  {
    StructureGivesEdges(state.plan, state.acceptedAt, i);
  }

  // ---- how one saved state follows another ----

  /** Where a step's phase can be later in the same run. */
  predicate PhaseFollows(a: Phase, b: Phase) {
    match a
    case Pending => true
    case Submitting => Started(b)
    case Routed => Started(b) && !b.Submitting?
    case Unknown => b.Unknown? || b.Verified? || b.Failed? || b.Cancelled?
    case Verified => b.Verified? || b.Failed?
    case Failed => b.Failed?
    case Cancelled => b.Cancelled?
    case Skipped => b.Skipped?
  }

  predicate WriteOnce<T(==)>(a: Option<T>, b: Option<T>) {
    a.Some? ==> b == a
  }

  predicate StepFollows(a: StepState, b: StepState) {
    && PhaseFollows(a.phase, b.phase)
    && WriteOnce(a.arguments, b.arguments)
    && WriteOnce(a.submission, b.submission)
    && WriteOnce(a.taskId, b.taskId)
    && WriteOnce(a.verifiedArtifact, b.verifiedArtifact)
    && (a.cancellationIntent ==> b.cancellationIntent)
  }

  predicate StateFollows(a: State, b: State) {
    && a.plan == b.plan && a.acceptedAt == b.acceptedAt
    && (a.cancelRequested ==> b.cancelRequested) && (a.deadlineObserved ==> b.deadlineObserved)
    && a.steps.Keys == b.steps.Keys
    && forall id | id in a.steps :: StepFollows(a.steps[id], b.steps[id])
  }

  lemma StateFollowsTransitive(a: State, b: State, c: State)
    requires StateFollows(a, b) && StateFollows(b, c)
    ensures StateFollows(a, c)
  {
    forall id | id in a.steps
      ensures StepFollows(a.steps[id], c.steps[id])
    {
      assert StepFollows(a.steps[id], b.steps[id]) && StepFollows(b.steps[id], c.steps[id]);
    }
  }

  lemma StateFollowsReflexive(a: State)
    ensures StateFollows(a, a)
  {
  }

  // ---- saves keep states good ----

  /** Resolved inputs do not change while the artifacts they came from stay. */
  lemma ResolveStable(step: Step, a: State, b: State)
    requires ResolveInputs(step, a).Some?
    requires forall id | id in a.steps && a.steps[id].verifiedArtifact.Some? ::
               id in b.steps && b.steps[id].verifiedArtifact == a.steps[id].verifiedArtifact
    ensures ResolveInputs(step, b) == ResolveInputs(step, a)
  {
    hide Pointer;
    forall name | name in step.arguments
      ensures ResolveInput(b, step.arguments[name]) == ResolveInput(a, step.arguments[name])
    {
      assert ResolveInput(a, step.arguments[name]).Some?;
    }
    var x, y := ResolveInputs(step, a).value, ResolveInputs(step, b).value;
    assert x.Keys == y.Keys && forall name | name in x :: x[name] == y[name];
    assert x == y;
  }

  /** What may replace the state of step `k`. */
  ghost predicate Allowed(state: State, k: nat, s': StepState)
    requires k < |state.plan.steps| && state.plan.steps[k].id in state.steps
  {
    var s := StepAt(state, k);
    && StepFollows(s, s')
    && StepReloads(state, state.plan.steps[k], s')
    && StepGood(state, state.plan.steps[k], s')
    && (Active(s'.phase) ==> Active(s.phase) || |ActiveSteps(state)| < state.plan.maxConcurrency)
  }

  lemma OtherStepsReload(state: State, k: nat, s': StepState, j: nat)
    requires Good(state) && k < |state.plan.steps| && j < |state.plan.steps| && state.plan.steps[k].id in state.steps && Allowed(state, k, s')
    ensures var next := SetStep(state, state.plan.steps[k].id, s');
      && StepReloads(next, state.plan.steps[j], next.steps[state.plan.steps[j].id])
      && StepGood(next, state.plan.steps[j], next.steps[state.plan.steps[j].id])
  {
    hide ValidPlan, ReferencesDeclared, ResolveInputs, RequiredPass, ActiveSteps;
    var next := SetStep(state, state.plan.steps[k].id, s');
    GoodStep(state, j);
    if state.plan.steps[j].id == state.plan.steps[k].id {
      SameIdSameStep(state, j, k);
    }
    var q := next.steps[state.plan.steps[j].id];
    if Started(q.phase) {
      ResolveStable(state.plan.steps[j], state, next);
    }
  }

  lemma ActiveAfterSet(state: State, k: nat, s': StepState)
    requires k < |state.plan.steps| && state.plan.steps[k].id in state.steps
    requires |ActiveSteps(state)| <= state.plan.maxConcurrency
    requires Active(s'.phase) ==> Active(StepAt(state, k).phase) || |ActiveSteps(state)| < state.plan.maxConcurrency
    ensures |ActiveSteps(SetStep(state, state.plan.steps[k].id, s'))| <= state.plan.maxConcurrency
  {
    var id := state.plan.steps[k].id;
    var a, b := ActiveSteps(state), ActiveSteps(SetStep(state, id, s'));
    if Active(s'.phase) {
      assert b == a + {id};
    } else {
      assert b == a - {id};
    }
  }

  lemma SetStepKeepsGood(state: State, k: nat, s': StepState)
    requires Good(state) && k < |state.plan.steps| && state.plan.steps[k].id in state.steps && Allowed(state, k, s')
    ensures Good(SetStep(state, state.plan.steps[k].id, s'))
    ensures StateFollows(state, SetStep(state, state.plan.steps[k].id, s'))
  {
    hide ValidPlan, StepReloads, StepGood, ActiveSteps, StepFollows;
    var next := SetStep(state, state.plan.steps[k].id, s');
    assert next.steps.Keys == state.steps.Keys;
    forall j | 0 <= j < |next.plan.steps|
      ensures StepReloads(next, next.plan.steps[j], next.steps[next.plan.steps[j].id])
      ensures StepGood(next, next.plan.steps[j], next.steps[next.plan.steps[j].id])
    {
      OtherStepsReload(state, k, s', j);
    }
    ActiveAfterSet(state, k, s');
    forall id | id in state.steps
      ensures StepFollows(state.steps[id], next.steps[id])
    {
      StepFollowsReflexive(state.steps[id]);
    }
  }

  lemma StepFollowsReflexive(s: StepState)
    ensures StepFollows(s, s)
  {
  }

  lemma FlagsKeepGood(state: State, next: State)
    requires Good(state) && next == state.(cancelRequested := next.cancelRequested, deadlineObserved := next.deadlineObserved)
    requires (state.cancelRequested ==> next.cancelRequested) && (state.deadlineObserved ==> next.deadlineObserved)
    ensures Good(next) && StateFollows(state, next)
  {
    hide ValidPlan, ReferencesDeclared, ResolveInputs, RequiredPass, StepFollows;
    assert ActiveSteps(next) == ActiveSteps(state);
    forall j | 0 <= j < |next.plan.steps|
      ensures StepReloads(next, next.plan.steps[j], next.steps[next.plan.steps[j].id])
      ensures StepGood(next, next.plan.steps[j], next.steps[next.plan.steps[j].id])
    {
      GoodStep(state, j);
      if Started(StepAt(state, j).phase) {
        ResolveStable(state.plan.steps[j], state, next);
      }
    }
    forall id | id in state.steps
      ensures StepFollows(state.steps[id], next.steps[id])
    {
      StepFollowsReflexive(state.steps[id]);
    }
  }

  lemma SkipKeepsGood(state: State)
    requires Good(state)
    ensures Good(SkipPending(state)) && StateFollows(state, SkipPending(state))
    ensures SkipPending(state).cancelRequested == state.cancelRequested && SkipPending(state).deadlineObserved == state.deadlineObserved
  {
    hide ValidPlan, StepReloads, StepGood, StepFollows;
    var next := SkipPending(state);
    assert next.steps.Keys == state.steps.Keys;
    assert ActiveSteps(next) == ActiveSteps(state);
    hide ActiveSteps;
    forall j | 0 <= j < |next.plan.steps|
      ensures StepReloads(next, next.plan.steps[j], next.steps[next.plan.steps[j].id])
      ensures StepGood(next, next.plan.steps[j], next.steps[next.plan.steps[j].id])
    {
      SkippedStepKeepsGood(state, j);
    }
    forall id | id in state.steps
      ensures StepFollows(state.steps[id], next.steps[id])
    {
      SkippedStepFollows(state.steps[id]);
    }
  }

  lemma SkippedStepFollows(s: StepState)
    ensures StepFollows(s, s) && StepFollows(s.(phase := Skipped), s.(phase := Skipped))
    ensures s.phase.Pending? ==> StepFollows(s, s.(phase := Skipped))
  {
  }

  lemma SkippedStepKeepsGood(state: State, j: nat)
    requires Good(state) && j < |state.plan.steps|
    ensures var next := SkipPending(state);
      && state.plan.steps[j].id in next.steps
      && StepReloads(next, state.plan.steps[j], next.steps[state.plan.steps[j].id])
      && StepGood(next, state.plan.steps[j], next.steps[state.plan.steps[j].id])
  {
    hide ValidPlan, ReferencesDeclared, ResolveInputs, RequiredPass, ActiveSteps, Reloads;
    GoodStep(state, j);
    if Started(StepAt(state, j).phase) {
      ResolveStable(state.plan.steps[j], state, SkipPending(state));
    }
  }

  // ---- each kind of save ----

  lemma ReverificationFailureAllowed(state: State, k: nat, error: string)
    requires Good(state) && k < |state.plan.steps| && state.plan.steps[k].id in state.steps && StepAt(state, k).phase.Verified?
    ensures Allowed(state, k, FailVerified(StepAt(state, k), error))
  {
    hide ResolveInputs, RequiredPass, ValidPlan, ReferencesDeclared;
    GoodStep(state, k);
  }

  lemma SubmissionReplyAllowed(state: State, k: nat, reply: SubmitReply)
    requires Good(state) && k < |state.plan.steps| && state.plan.steps[k].id in state.steps && StepAt(state, k).phase.Submitting?
    ensures Allowed(state, k, AfterSubmit(StepAt(state, k), reply))
  {
    hide ResolveInputs, RequiredPass, ValidPlan, ReferencesDeclared;
    GoodStep(state, k);
  }

  /** A step whose task is being watched. */
  predicate Watched(s: StepState) {
    (s.phase.Routed? || s.phase.Unknown?) && s.taskId.Some?
  }

  lemma CancellationAllowed(state: State, k: nat, error: Option<string>)
    requires Good(state) && k < |state.plan.steps| && state.plan.steps[k].id in state.steps && Watched(StepAt(state, k))
    ensures Allowed(state, k, StepAt(state, k).(cancellationIntent := true))
    ensures Allowed(state, k, AfterCancel(StepAt(state, k), error))
  {
    hide ResolveInputs, RequiredPass, ValidPlan, ReferencesDeclared;
    GoodStep(state, k);
  }

  /** What a poll can turn a watched step into: uncertain, ended, or verified with an artifact that passed. */
  predicate Outcome(step: Step, s: StepState, s': StepState) {
    && s' == s.(phase := s'.phase, terminal := s'.terminal, diagnostic := s'.diagnostic,
                verifiedArtifact := s'.verifiedArtifact, verification := s'.verification)
    && if s'.phase.Verified? then
         && s'.terminal.Some? && s'.verifiedArtifact.Some? && s'.verification.Some?
         && RequiredPass(step.policy, s'.verifiedArtifact.value)
         && WriteOnce(s.verifiedArtifact, s'.verifiedArtifact)
         && At(s'.verification.value, "status") == Str("verified") && Reports(s', "completed")
       else
         && (s'.phase.Unknown? || s'.phase.Failed? || (s'.phase.Cancelled? && Reports(s', "cancelled")))
         && s'.verifiedArtifact == s.verifiedArtifact && s'.verification == s.verification
  }

  lemma PollGivesOutcome(runId: string, plan: Plan, step: Step, s: StepState, reply: GetReply, file: Option<File>)
    requires AfterGet(runId, plan, step, s, reply, file).Some?
    ensures Outcome(step, s, AfterGet(runId, plan, step, s, reply, file).value)
  {
    hide VerifyStep, Reconciling, RequiredPass, At;
  }

  lemma OutcomeIsAllowed(state: State, k: nat, s': StepState)
    requires Good(state) && k < |state.plan.steps| && state.plan.steps[k].id in state.steps && Watched(StepAt(state, k))
    requires Outcome(state.plan.steps[k], StepAt(state, k), s')
    ensures Allowed(state, k, s')
  {
    hide ResolveInputs, RequiredPass, ValidPlan, ReferencesDeclared, ActiveSteps, At;
    GoodStep(state, k);
    hide Good;
  }

  lemma OutcomeAllowed(runId: string, state: State, k: nat, reply: GetReply, file: Option<File>)
    requires Good(state) && k < |state.plan.steps| && state.plan.steps[k].id in state.steps && Watched(StepAt(state, k))
    requires AfterGet(runId, state.plan, state.plan.steps[k], StepAt(state, k), reply, file).Some?
    ensures Allowed(state, k, AfterGet(runId, state.plan, state.plan.steps[k], StepAt(state, k), reply, file).value)
  {
    hide Good, AfterGet, Outcome, Allowed;
    PollGivesOutcome(runId, state.plan, state.plan.steps[k], StepAt(state, k), reply, file);
    OutcomeIsAllowed(state, k, AfterGet(runId, state.plan, state.plan.steps[k], StepAt(state, k), reply, file).value);
  }

  lemma IntentAllowed(state: State, k: nat, arguments: Arguments, submission: Json)
    requires ReferencesDeclared(state.plan) && Good(state) && k < |state.plan.steps| && Ready(state, state.plan.steps[k])
    requires |ActiveSteps(state)| < state.plan.maxConcurrency && ResolveInputs(state.plan.steps[k], state) == Some(arguments)
    ensures Allowed(state, k, WithIntent(StepAt(state, k), arguments, submission))
  {
    hide ResolveInputs, RequiredPass, ValidPlan, ReferencesDeclared;
    GoodStep(state, k);
  }

  // ---- the invariant ----

  /** Every step verified in this state was read again by this driver in this sweep. */
  predicate AllReverified(state: State, reverified: set<string>) {
    forall id | id in state.steps && state.steps[id].phase.Verified? :: id in reverified
  }

  predicate Flagged(state: State) {
    state.cancelRequested || state.deadlineObserved
  }

  /** What a driver knows about the saved state it works from. */
  predicate PcGood(state: State, d: Driver) {
    match d.pc
    case Starting => true
    case ObservingDeadline => true
    case Reverifying(i) => forall k | 0 <= k < i && k < |state.plan.steps| && state.plan.steps[k].id in state.steps
                                      && state.steps[state.plan.steps[k].id].phase.Verified? :: state.plan.steps[k].id in d.reverified
    case Recovering(_) => AllReverified(state, d.reverified)
    case Sending(i, recovering) =>
      && i < |state.plan.steps| && state.plan.steps[i].id in state.steps && StepAt(state, i).phase.Submitting?
      && AllReverified(state, d.reverified) && (!recovering ==> !Stopped(state))
    case AwaitingTask(i, recovering) =>
      && i < |state.plan.steps| && state.plan.steps[i].id in state.steps && StepAt(state, i).phase.Submitting?
      && AllReverified(state, d.reverified) && (!recovering ==> !Stopped(state))
    case Polling(_, observed) => observed || AllReverified(state, d.reverified)
    case Cancelling(i, observed) =>
      && i < |state.plan.steps| && state.plan.steps[i].id in state.steps && Watched(StepAt(state, i))
      && (observed || AllReverified(state, d.reverified))
    case Querying(i, observed) =>
      && i < |state.plan.steps| && state.plan.steps[i].id in state.steps && Watched(StepAt(state, i))
      && (observed || AllReverified(state, d.reverified))
    case Stopping(observed) => observed || AllReverified(state, d.reverified)
    case Dispatching(_) => !Stopped(state) && AllReverified(state, d.reverified)
    case RequestingCancel => true
    case Done => true
  }

  ghost predicate DriverGood(w: World, d: Driver) {
    d.pc.Done? || (d.version < |w.saved| && PcGood(w.saved[d.version], d))
  }

  const CANCELLED := "cancellation_intent"
  const EXPIRED := "deadline_observed"

  /** A save raises a stop flag exactly when its journal entry says so. */
  predicate KindOk(before: State, after: State, kind: string) {
    && (kind == CANCELLED <==> after.cancelRequested && !before.cancelRequested)
    && (kind == EXPIRED <==> after.deadlineObserved && !before.deadlineObserved)
  }

  /** Entries of any other kind leave both flags alone. */
  lemma OtherKind(before: State, after: State, kind: string)
    requires |kind| != |CANCELLED| && |kind| != |EXPIRED|
    requires after.cancelRequested == before.cancelRequested && after.deadlineObserved == before.deadlineObserved
    ensures KindOk(before, after, kind)
  {
  }

  /** The stored record and the history of saves describe the same run. */
  ghost predicate JournalInv(w: World) {
    && Intact(w.record)
    && |w.saved| == w.record.version + 1
    && w.saved[w.record.version] == w.record.data
    && (forall v | 0 <= v < |w.saved| :: Good(w.saved[v]))
    && (forall u, v | 0 <= u <= v < |w.saved| :: StateFollows(w.saved[u], w.saved[v]))
    && |w.record.journal| == |w.saved|
    && (forall v | 0 < v < |w.saved| :: KindOk(w.saved[v - 1], w.saved[v], w.record.journal[v].kind))
  }

  /** A call into the task route was made from a saved state that already held its intent. */
  ghost predicate SentGood(w: World, e: Sent) {
    && e.version < |w.saved|
    && var state := w.saved[e.version];
    && e.step in state.steps
    && state.steps[e.step].phase.Submitting?
    && state.steps[e.step].arguments == Some(e.arguments)
    && state.steps[e.step].submission == Some(e.submission)
    && e.recoveryOnly == Stopped(state)
    && AllReverified(state, e.reverified)
  }

  ghost predicate Inv(w: World) {
    && JournalInv(w)
    && (forall t | t in w.drivers :: DriverGood(w, w.drivers[t]))
    && (forall i | 0 <= i < |w.sent| :: SentGood(w, w.sent[i]))
  }

  // ---- moves and saves ----

  lemma MoveKeepsInv(w: World, w': World, t: nat)
    requires Inv(w) && t in w.drivers && t in w'.drivers
    requires w' == w.(drivers := w.drivers[t := w'.drivers[t]]) && DriverGood(w, w'.drivers[t])
    ensures Inv(w')
  {
    hide JournalInv, PcGood, AllReverified, Stopped;
    assert JournalInv(w') by {
      JournalIgnoresDrivers(w, w');
    }
    forall i | 0 <= i < |w'.sent|
      ensures SentGood(w', w'.sent[i])
    {
      assert SentGood(w, w.sent[i]);
    }
  }

  lemma JournalIgnoresDrivers(w: World, w': World)
    requires JournalInv(w) && w'.record == w.record && w'.saved == w.saved
    ensures JournalInv(w')
  {
    hide Good, StateFollows, Intact;
  }

  lemma SaveKeepsJournal(w: World, data: State, kind: string, bytes: nat, r: Record)
    requires JournalInv(w) && Good(data) && StateFollows(w.record.data, data) && KindOk(w.record.data, data, kind)
    requires Advance(w.record, w.record.version, data, kind, bytes) == Ok(r)
    ensures JournalInv(w.(record := r, saved := w.saved + [data])) && r.version == w.record.version + 1
  {
    hide Good, StateFollows, Intact, Append, KindOk;
    AdvanceExtends(w.record, w.record.version, data, kind, bytes);
    var saved := w.saved + [data];
    StateFollowsReflexive(data);
    assert forall v | 0 <= v < |w.record.journal| :: r.journal[v] == w.record.journal[v];
    forall u | 0 <= u < |w.saved|
      ensures StateFollows(w.saved[u], data)
    {
      StateFollowsTransitive(w.saved[u], w.saved[w.record.version], data);
    }
  }

  /** A save of a good follower of the driver's own saved state keeps the invariant, accepted or refused. */
  lemma SaveKeepsInv(w: World, t: nat, data: State, kind: string, bytes: nat, pc: Pc)
    requires Inv(w) && t in w.drivers && w.drivers[t].version < |w.saved|
    requires Good(data) && StateFollows(w.saved[w.drivers[t].version], data) && KindOk(w.saved[w.drivers[t].version], data, kind)
    requires PcGood(data, w.drivers[t].(version := w.record.version + 1, pc := pc))
    ensures Inv(Save(w, t, data, kind, bytes, pc))
  {
    hide Good, StateFollows, Intact, Append, PcGood, AllReverified, Stopped, JournalInv, KindOk;
    var w' := Save(w, t, data, kind, bytes, pc);
    match Advance(w.record, w.drivers[t].version, data, kind, bytes) {
      case Err(_) => MoveKeepsInv(w, w', t);
      case Ok(r) =>
        SavedHead(w);
        SaveKeepsJournal(w, data, kind, bytes, r);
        JournalIgnoresDrivers(w.(record := r, saved := w.saved + [data]), w');
        assert forall v | 0 <= v < |w.saved| :: w'.saved[v] == w.saved[v];
        forall u | u in w'.drivers
          ensures DriverGood(w', w'.drivers[u])
        {
          if u != t {
            assert DriverGood(w, w.drivers[u]);
          }
        }
        forall i | 0 <= i < |w'.sent|
          ensures SentGood(w', w'.sent[i])
        {
          assert SentGood(w, w.sent[i]);
        }
    }
  }

  lemma SavedHead(w: World)
    requires JournalInv(w)
    ensures |w.saved| == w.record.version + 1 && w.saved[w.record.version] == w.record.data
  {
    hide Good, StateFollows, Intact;
  }

  lemma SavedGood(w: World, v: nat)
    requires JournalInv(w) && v < |w.saved|
    ensures Good(w.saved[v])
  {
    hide Good, StateFollows, Intact;
  }

  lemma DriverKnows(w: World, t: nat)
    requires Inv(w) && t in w.drivers && !w.drivers[t].pc.Done?
    ensures w.drivers[t].version < |w.saved| && Good(w.saved[w.drivers[t].version])
    ensures PcGood(w.saved[w.drivers[t].version], w.drivers[t]) && Tracked(w.saved[w.drivers[t].version])
  {
    hide Good, StateFollows, Intact, PcGood, Tracked, JournalInv;
    assert DriverGood(w, w.drivers[t]);
    SavedGood(w, w.drivers[t].version);
    assert Reloads(w.saved[w.drivers[t].version]) by {
      GoodReloads(w.saved[w.drivers[t].version]);
    }
    GoodIsTracked(w.saved[w.drivers[t].version]);
  }

  lemma GoodReloads(state: State)
    requires Good(state)
    ensures Reloads(state)
  {
    hide Reloads;
  }

  // ---- each step of a sweep ----

  lemma DeadlineStepKeepsInv(w: World, t: nat, env: Env)
    requires Inv(w) && t in w.drivers && w.drivers[t].pc.ObservingDeadline?
    ensures w.drivers[t].version < |w.saved| && Inv(StepObservingDeadline(w, t, w.saved[w.drivers[t].version], env))
  {
    hide Inv, Good, StateFollows, Save, JournalInv;
    DriverKnows(w, t);
    var state := w.saved[w.drivers[t].version];
    if w.now >= state.plan.deadline && !state.deadlineObserved {
      FlagsKeepGood(state, MarkDeadline(state));
      SaveKeepsInv(w, t, MarkDeadline(state), "deadline_observed", env.bytes, Reverifying(0));
    } else {
      MoveKeepsInv(w, StepObservingDeadline(w, t, state, env), t);
    }
  }

  lemma ReverifyStepKeepsInv(w: World, t: nat, i: nat, env: Env)
    requires Inv(w) && t in w.drivers && w.drivers[t].pc == Reverifying(i)
    ensures w.drivers[t].version < |w.saved| && Tracked(w.saved[w.drivers[t].version])
    ensures Inv(StepReverifying(w, t, w.saved[w.drivers[t].version], i, env))
  {
    hide Inv, Good, StateFollows, Save, JournalInv, VerifyStep, Allowed;
    DriverKnows(w, t);
    var state := w.saved[w.drivers[t].version];
    if i < |state.plan.steps| && StepAt(state, i).phase.Verified?
       && VerifyStep(w.record.runId, state.plan, state.plan.steps[i], StepAt(state, i), env.file).Err? {
      var error := VerifyStep(w.record.runId, state.plan, state.plan.steps[i], StepAt(state, i), env.file).error;
      ReverificationFailureAllowed(state, i, error);
      SetStepKeepsGood(state, i, FailVerified(StepAt(state, i), error));
      OtherKind(state, SetStep(state, state.plan.steps[i].id, FailVerified(StepAt(state, i), error)), "artifact_reverification_failed");
      SaveKeepsInv(w, t, SetStep(state, state.plan.steps[i].id, FailVerified(StepAt(state, i), error)),
                   "artifact_reverification_failed", env.bytes, Reverifying(i + 1));
    } else {
      if i >= |state.plan.steps| {
        EveryStepReverified(state, i, w.drivers[t]);
      }
      MoveKeepsInv(w, StepReverifying(w, t, state, i, env), t);
    }
  }

  lemma EveryStepReverified(state: State, i: nat, d: Driver)
    requires Good(state) && PcGood(state, d) && d.pc == Reverifying(i) && i >= |state.plan.steps|
    ensures AllReverified(state, d.reverified)
  {
    hide ValidPlan, StepReloads, StepGood, ActiveSteps;
    forall id | id in state.steps && state.steps[id].phase.Verified?
      ensures id in d.reverified
    {
      assert id in Ids(state.plan);
      var k :| 0 <= k < |state.plan.steps| && state.plan.steps[k].id == id;
    }
  }

  lemma RecoverStepKeepsInv(w: World, t: nat, i: nat)
    requires Inv(w) && t in w.drivers && w.drivers[t].pc == Recovering(i)
    ensures w.drivers[t].version < |w.saved| && Tracked(w.saved[w.drivers[t].version])
    ensures Inv(StepRecovering(w, t, w.saved[w.drivers[t].version], i))
  {
    hide Inv, Good, JournalInv, AllReverified;
    DriverKnows(w, t);
    MoveKeepsInv(w, StepRecovering(w, t, w.saved[w.drivers[t].version], i), t);
  }

  lemma SendStepKeepsInv(w: World, t: nat, i: nat, recovering: bool)
    requires Inv(w) && t in w.drivers && w.drivers[t].pc == Sending(i, recovering)
    ensures w.drivers[t].version < |w.saved| && Tracked(w.saved[w.drivers[t].version])
    ensures Inv(StepSending(w, t, w.saved[w.drivers[t].version], i, recovering))
  {
    hide Good, JournalInv, AllReverified, Stopped;
    DriverKnows(w, t);
    var state := w.saved[w.drivers[t].version];
    var w' := StepSending(w, t, state, i, recovering);
    var moved := Goto(w, t, w'.drivers[t].pc);
    MoveKeepsInv(w, moved, t);
    JournalIgnoresDrivers(w, w');
    assert w' == moved.(sent := w'.sent);
    forall u | u in w'.drivers
      ensures DriverGood(w', w'.drivers[u])
    {
      assert DriverGood(moved, moved.drivers[u]);
    }
    forall j | 0 <= j < |w'.sent|
      ensures SentGood(w', w'.sent[j])
    {
      if j < |w.sent| {
        assert SentGood(w, w.sent[j]) && w'.sent[j] == w.sent[j];
      }
    }
  }

  lemma ReplyStepKeepsInv(w: World, t: nat, i: nat, recovering: bool, env: Env)
    requires Inv(w) && t in w.drivers && w.drivers[t].pc == AwaitingTask(i, recovering)
    ensures w.drivers[t].version < |w.saved| && Tracked(w.saved[w.drivers[t].version])
    ensures Inv(StepAwaitingTask(w, t, w.saved[w.drivers[t].version], i, recovering, env))
  {
    hide Inv, Good, StateFollows, Save, JournalInv, Allowed;
    DriverKnows(w, t);
    var state := w.saved[w.drivers[t].version];
    var s' := AfterSubmit(StepAt(state, i), env.submit);
    SubmissionReplyAllowed(state, i, env.submit);
    SetStepKeepsGood(state, i, s');
    var next := SetStep(state, state.plan.steps[i].id, s');
    var after := if recovering then Recovering(i + 1) else if AnyBlocks(next) then Done else Dispatching(i + 1);
    OtherKind(state, next, "task_identity_observed");
    SaveKeepsInv(w, t, next, "task_identity_observed", env.bytes, after);
  }

  lemma PollStepKeepsInv(w: World, t: nat, i: nat, observed: bool, env: Env)
    requires Inv(w) && t in w.drivers && w.drivers[t].pc == Polling(i, observed)
    ensures w.drivers[t].version < |w.saved| && Tracked(w.saved[w.drivers[t].version])
    ensures Inv(StepPolling(w, t, w.saved[w.drivers[t].version], i, observed, env))
  {
    hide Inv, Good, StateFollows, Save, JournalInv, Allowed;
    DriverKnows(w, t);
    var state := w.saved[w.drivers[t].version];
    if i < |state.plan.steps| && Watched(StepAt(state, i)) && Flagged(state) && !StepAt(state, i).cancellationAcknowledged
       && !StepAt(state, i).cancellationIntent {
      var s' := StepAt(state, i).(cancellationIntent := true);
      CancellationAllowed(state, i, None);
      SetStepKeepsGood(state, i, s');
      OtherKind(state, SetStep(state, state.plan.steps[i].id, s'), "task_cancellation_intent");
      SaveKeepsInv(w, t, SetStep(state, state.plan.steps[i].id, s'), "task_cancellation_intent", env.bytes, Cancelling(i, observed));
    } else {
      MoveKeepsInv(w, StepPolling(w, t, state, i, observed, env), t);
    }
  }

  lemma CancelStepKeepsInv(w: World, t: nat, i: nat, observed: bool, env: Env)
    requires Inv(w) && t in w.drivers && w.drivers[t].pc == Cancelling(i, observed)
    ensures w.drivers[t].version < |w.saved| && Tracked(w.saved[w.drivers[t].version])
    ensures Inv(StepCancelling(w, t, w.saved[w.drivers[t].version], i, observed, env))
  {
    hide Inv, Good, StateFollows, Save, JournalInv, Allowed;
    DriverKnows(w, t);
    var state := w.saved[w.drivers[t].version];
    var s' := AfterCancel(StepAt(state, i), env.cancelError);
    if s' == StepAt(state, i) {
      MoveKeepsInv(w, StepCancelling(w, t, state, i, observed, env), t);
    } else {
      CancellationAllowed(state, i, env.cancelError);
      SetStepKeepsGood(state, i, s');
      OtherKind(state, SetStep(state, state.plan.steps[i].id, s'), "task_cancellation_response");
      SaveKeepsInv(w, t, SetStep(state, state.plan.steps[i].id, s'), "task_cancellation_response", env.bytes, Querying(i, observed));
    }
  }

  lemma QueryStepKeepsInv(w: World, t: nat, i: nat, observed: bool, env: Env)
    requires Inv(w) && t in w.drivers && w.drivers[t].pc == Querying(i, observed)
    ensures w.drivers[t].version < |w.saved| && Tracked(w.saved[w.drivers[t].version])
    ensures Inv(StepQuerying(w, t, w.saved[w.drivers[t].version], i, observed, env))
  {
    hide Inv, Good, StateFollows, Save, JournalInv, Allowed, AfterGet, AllReverified;
    DriverKnows(w, t);
    var state := w.saved[w.drivers[t].version];
    var next := AfterGet(w.record.runId, state.plan, state.plan.steps[i], StepAt(state, i), env.get, env.file);
    if next.None? {
      MoveKeepsInv(w, StepQuerying(w, t, state, i, observed, env), t);
    } else {
      OutcomeAllowed(w.record.runId, state, i, env.get, env.file);
      SetStepKeepsGood(state, i, next.value);
      OtherKind(state, SetStep(state, state.plan.steps[i].id, next.value), "task_outcome_observed");
      SaveKeepsInv(w, t, SetStep(state, state.plan.steps[i].id, next.value), "task_outcome_observed", env.bytes, Polling(i + 1, true));
    }
  }

  lemma StopStepKeepsInv(w: World, t: nat, observed: bool, env: Env)
    requires Inv(w) && t in w.drivers && w.drivers[t].pc == Stopping(observed)
    ensures w.drivers[t].version < |w.saved| && Inv(StepStopping(w, t, w.saved[w.drivers[t].version], observed, env))
  {
    hide Inv, Good, StateFollows, Save, JournalInv, SkipPending, Stopped, AllReverified;
    DriverKnows(w, t);
    var state := w.saved[w.drivers[t].version];
    if Stopped(state) && SkipPending(state) != state {
      SkipKeepsGood(state);
      OtherKind(state, SkipPending(state), "unsent_steps_skipped");
      SaveKeepsInv(w, t, SkipPending(state), "unsent_steps_skipped", env.bytes, Done);
    } else {
      MoveKeepsInv(w, StepStopping(w, t, state, observed, env), t);
    }
  }

  lemma DispatchStepKeepsInv(w: World, t: nat, i: nat, env: Env)
    requires Inv(w) && t in w.drivers && w.drivers[t].pc == Dispatching(i)
    ensures w.drivers[t].version < |w.saved| && Tracked(w.saved[w.drivers[t].version])
    ensures Inv(StepDispatching(w, t, w.saved[w.drivers[t].version], i, env))
  {
    hide Inv, Good, StateFollows, Save, JournalInv, Allowed, ActiveSteps, ResolveInputs, SubmissionFor, ReferencesDeclared;
    DriverKnows(w, t);
    var state := w.saved[w.drivers[t].version];
    if i < |state.plan.steps| && |ActiveSteps(state)| < state.plan.maxConcurrency && Ready(state, state.plan.steps[i])
       && Authorized(state.plan, env) && ResolveInputs(state.plan.steps[i], state).Some? && env.inputAccepted {
      var step := state.plan.steps[i];
      var arguments := ResolveInputs(step, state).value;
      var submission := SubmissionFor(w.record.runId, state.plan, step, arguments, w.now);
      var s' := WithIntent(StepAt(state, i), arguments, submission);
      IntentAllowed(state, i, arguments, submission);
      SetStepKeepsGood(state, i, s');
      OtherKind(state, SetStep(state, step.id, s'), "task_submission_intent");
      SaveKeepsInv(w, t, SetStep(state, step.id, s'), "task_submission_intent", env.bytes, Sending(i, false));
    } else {
      MoveKeepsInv(w, StepDispatching(w, t, state, i, env), t);
    }
  }

  lemma FlagStepKeepsInv(w: World, t: nat, env: Env)
    requires Inv(w) && t in w.drivers && (w.drivers[t].pc.Starting? || w.drivers[t].pc.RequestingCancel?)
    ensures w.drivers[t].version < |w.saved|
    ensures w.drivers[t].pc.Starting? ==> Inv(StepStarting(w, t, w.saved[w.drivers[t].version], env))
    ensures w.drivers[t].pc.RequestingCancel? ==> Inv(StepRequestingCancel(w, t, w.saved[w.drivers[t].version], env))
  {
    hide Inv, Good, StateFollows, Save, JournalInv, Reloads, Authorized;
    DriverKnows(w, t);
    var state := w.saved[w.drivers[t].version];
    MoveKeepsInv(w, Goto(w, t, Done), t);
    if w.drivers[t].pc.Starting? {
      MoveKeepsInv(w, Goto(w, t, ObservingDeadline), t);
    } else {
      FlagsKeepGood(state, MarkCancelled(state));
      if !state.cancelRequested {
        SaveKeepsInv(w, t, MarkCancelled(state), "cancellation_intent", env.bytes, Done);
      }
    }
  }

  lemma DoneKeepsInv(w: World, t: nat)
    requires Inv(w) && t in w.drivers
    ensures Inv(Goto(w, t, Done))
  {
    MoveKeepsInv(w, Goto(w, t, Done), t);
  }

  lemma DriverStepKeepsInv(w: World, t: nat, env: Env)
    requires Inv(w) && t in w.drivers
    ensures Inv(StepDriver(w, t, env))
  {
    hide Inv, Tracked, PcGood, Good, StepStarting, StepObservingDeadline, StepReverifying, StepRecovering, StepSending,
      StepAwaitingTask, StepPolling, StepCancelling, StepQuerying, StepStopping, StepDispatching, StepRequestingCancel;
    if !w.drivers[t].pc.Done? {
      DriverKnows(w, t);
    }
    match w.drivers[t].pc {
      case Starting => FlagStepKeepsInv(w, t, env);
      case ObservingDeadline => DeadlineStepKeepsInv(w, t, env);
      case Reverifying(i) => ReverifyStepKeepsInv(w, t, i, env);
      case Recovering(i) => RecoverStepKeepsInv(w, t, i);
      case Sending(i, recovering) => SendStepKeepsInv(w, t, i, recovering);
      case AwaitingTask(i, recovering) => ReplyStepKeepsInv(w, t, i, recovering, env);
      case Polling(i, observed) => PollStepKeepsInv(w, t, i, observed, env);
      case Cancelling(i, observed) => CancelStepKeepsInv(w, t, i, observed, env);
      case Querying(i, observed) => QueryStepKeepsInv(w, t, i, observed, env);
      case Stopping(observed) => StopStepKeepsInv(w, t, observed, env);
      case Dispatching(i) => DispatchStepKeepsInv(w, t, i, env);
      case RequestingCancel => FlagStepKeepsInv(w, t, env);
      case Done => DoneKeepsInv(w, t);
    }
  }

  // ---- whole executions ----

  lemma NextKeepsInv(w: World, a: Action)
    requires Inv(w) && Enabled(w, a)
    ensures Inv(Next(w, a))
  {
    hide JournalInv, PcGood, SentGood;
    match a {
      case Tick(to) =>
        JournalIgnoresDrivers(w, Next(w, a));
        TickKeepsSent(w, to);
      case Resume(t) =>
        SavedHead(w);
        StartKeepsInv(w, t, Starting);
      case Cancel(t) =>
        SavedHead(w);
        StartKeepsInv(w, t, RequestingCancel);
      case Drop(t) => DoneKeepsInv(w, t);
      case Run(t, env) =>
        hide Inv;
        DriverStepKeepsInv(w, t, env);
    }
  }

  lemma TickKeepsSent(w: World, to: nat)
    requires Inv(w)
    ensures forall i | 0 <= i < |w.sent| :: SentGood(w.(now := to), w.sent[i])
    ensures forall t | t in w.drivers :: DriverGood(w.(now := to), w.drivers[t])
  {
    hide JournalInv, PcGood, AllReverified, Stopped;
    forall i | 0 <= i < |w.sent|
      ensures SentGood(w.(now := to), w.sent[i])
    {
      assert SentGood(w, w.sent[i]);
    }
  }

  lemma StartKeepsInv(w: World, t: nat, pc: Pc)
    requires Inv(w) && t !in w.drivers && (pc.Starting? || pc.RequestingCancel?) && w.record.version < |w.saved|
    ensures Inv(w.(drivers := w.drivers[t := Driver(w.record.version, pc, {})]))
  {
    hide JournalInv, AllReverified, Stopped;
    var w' := w.(drivers := w.drivers[t := Driver(w.record.version, pc, {})]);
    JournalIgnoresDrivers(w, w');
    forall i | 0 <= i < |w'.sent|
      ensures SentGood(w', w'.sent[i])
    {
      assert SentGood(w, w.sent[i]);
    }
    forall u | u in w'.drivers
      ensures DriverGood(w', w'.drivers[u])
    {
      if u != t {
        assert DriverGood(w, w.drivers[u]);
      }
    }
  }

  lemma InitialStateIsGood(plan: Plan, acceptedAt: nat)
    requires ValidPlan(plan, acceptedAt)
    ensures Good(InitialState(plan, acceptedAt))
  {
    hide ValidPlan, ResolveInputs, RequiredPass, ReferencesDeclared, At;
    var state := InitialState(plan, acceptedAt);
    assert ActiveSteps(state) == {};
    assert state.steps.Keys == Ids(plan);
    forall k | 0 <= k < |plan.steps|
      ensures StepReloads(state, plan.steps[k], state.steps[plan.steps[k].id]) && StepGood(state, plan.steps[k], state.steps[plan.steps[k].id])
    {
      assert plan.steps[k].id in Ids(plan);
    }
  }

  lemma InitIsInv(w: World)
    requires Init(w)
    ensures Inv(w)
  {
    hide Good, ValidPlan, Intact, AcceptedRecord, StateFollows;
    var runId, owner, plan: Plan, bytes :|
      && AcceptedRecord(runId, owner, plan.runKey, InitialState(plan, w.now), bytes) == Ok(w.record)
      && ValidPlan(plan, w.now)
      && w.saved == [InitialState(plan, w.now)]
      && w.drivers == map[] && w.sent == [];
    AcceptedIsIntact(runId, owner, plan.runKey, InitialState(plan, w.now), bytes);
    InitialStateIsGood(plan, w.now);
    StateFollowsReflexive(InitialState(plan, w.now));
  }

  lemma {:induction false} ExecutionKeepsInv(run: seq<World>, k: nat)
    requires Execution(run) && k < |run|
    ensures Inv(run[k])
  {
    hide Inv, Init, Next, Enabled;
    if k == 0 {
      InitIsInv(run[0]);
    } else {
      ExecutionKeepsInv(run, k - 1);
      assert Steps(run[k - 1], run[k]);
      var a :| Enabled(run[k - 1], a) && Next(run[k - 1], a) == run[k];
      NextKeepsInv(run[k - 1], a);
    }
  }

  // ---- main results ----

  /** Every state the driver ever saves passes the reload checks and respects the concurrency limit. */
  lemma SavedStatesReload(run: seq<World>, k: nat, v: nat)
    requires Execution(run) && k < |run| && v < |run[k].saved|
    ensures Reloads(run[k].saved[v])
    ensures |ActiveSteps(run[k].saved[v])| <= run[k].saved[v].plan.maxConcurrency
    ensures Intact(run[k].record) && Reloads(run[k].record.data)
  {
    hide Reloads, Intact, Execution, ActiveSteps, StateFollows, PcGood, SentGood, StepGood;
    ExecutionKeepsInv(run, k);
    SavedGood(run[k], v);
    SavedGood(run[k], run[k].record.version);
  }

  /** A saved step is verified or cancelled only on the provider's own report of that outcome, and verified only with an artifact that passed. */
  lemma OutcomesWereReported(run: seq<World>, k: nat, v: nat, j: nat)
    requires Execution(run) && k < |run| && v < |run[k].saved| && j < |run[k].saved[v].plan.steps|
    ensures var state := run[k].saved[v]; var id := state.plan.steps[j].id;
      && id in state.steps
      && (state.steps[id].phase.Cancelled? ==> Reports(state.steps[id], "cancelled"))
      && (state.steps[id].phase.Verified? ==>
            && Reports(state.steps[id], "completed") && state.steps[id].verifiedArtifact.Some?
            && RequiredPass(state.plan.steps[j].policy, state.steps[id].verifiedArtifact.value))
  {
    hide Good, Intact, Execution, StateFollows, PcGood, SentGood, RequiredPass, Reports, StepReloads, ReferencesDeclared;
    ExecutionKeepsInv(run, k);
    SavedGood(run[k], v);
    GoodStep(run[k].saved[v], j);
  }

  /** Ended steps stay ended, and arguments, submissions, task ids and artifacts are written once. */
  lemma HistoryOnlyMovesForward(run: seq<World>, k: nat, u: nat, v: nat)
    requires Execution(run) && k < |run| && u <= v < |run[k].saved|
    ensures StateFollows(run[k].saved[u], run[k].saved[v])
  {
    hide Good, Intact, Execution, StateFollows, PcGood, SentGood;
    ExecutionKeepsInv(run, k);
  }

  /** The guard under which a call may start new work rather than only look for old work. */
  ghost predicate SafeToSend(state: State, step: Step, reverified: set<string>) {
    && !state.cancelRequested && !state.deadlineObserved
    && (forall id | id in state.steps :: !Blocks(state.steps[id].phase))
    && (forall d | d in step.dependsOn ::
          d in state.steps && state.steps[d].phase.Verified? && d in reverified)
  }

  lemma SubmittedStepWasSafe(state: State, k: nat, reverified: set<string>)
    requires Good(state) && k < |state.plan.steps| && state.plan.steps[k].id in state.steps
    requires Started(StepAt(state, k).phase) && !Stopped(state) && AllReverified(state, reverified)
    ensures SafeToSend(state, state.plan.steps[k], reverified)
  {
    hide Reloads, StepReloads, ActiveSteps, ReferencesDeclared, RequiredPass;
    GoodStep(state, k);
  }

  /**
   * Every call into the task route was made from a saved state that already held the intent and
   * the arguments; a call that may start new work was made with every dependency verified and
   * read again in the same sweep, and with nothing failed, uncertain, cancelled or flagged.
   */
  lemma SubmissionNeedsDurableIntent(run: seq<World>, k: nat, i: nat) returns (j: nat)
    requires Execution(run) && k < |run| && i < |run[k].sent|
    ensures var e := run[k].sent[i];
      && e.version < |run[k].saved|
      && var state := run[k].saved[e.version];
      && j < |state.plan.steps| && state.plan.steps[j].id == e.step && e.step in state.steps
      && state.steps[e.step].phase.Submitting?
      && state.steps[e.step].arguments == Some(e.arguments)
      && state.steps[e.step].submission == Some(e.submission)
      && (!e.recoveryOnly ==> SafeToSend(state, state.plan.steps[j], e.reverified))
  {
    hide Execution, Intact, StateFollows, PcGood, AllReverified, Stopped, StepGood, ActiveSteps, ValidPlan, ResolveInputs, SafeToSend;
    ExecutionKeepsInv(run, k);
    var e := run[k].sent[i];
    assert SentGood(run[k], e);
    var state := run[k].saved[e.version];
    SavedGood(run[k], e.version);
    assert e.step in Ids(state.plan);
    j :| 0 <= j < |state.plan.steps| && state.plan.steps[j].id == e.step;
    GoodStep(state, j);
    if !e.recoveryOnly {
      SubmittedStepWasSafe(state, j, e.reverified);
    }
  }

  // ---- dispatched arguments ----

  lemma DeclaredValueIsRead(state: State, j: nat, pointer: string, expected: Json)
    requires Good(state) && j < |state.plan.steps| && state.plan.steps[j].id in state.steps
    requires StepAt(state, j).verifiedArtifact.Some? && Declares(state.plan, state.plan.steps[j].id, pointer, expected)
    ensures Pointer(StepAt(state, j).verifiedArtifact.value, pointer) == Some(expected)
  {
    hide ValidPlan, StepReloads, Pointer, ActiveSteps, ReferencesDeclared;
    GoodStep(state, j);
    var policy := state.plan.steps[j].policy;
    assert RequiredPass(policy, StepAt(state, j).verifiedArtifact.value);
    var k, i: nat :| 0 <= k < |state.plan.steps| && state.plan.steps[k].id == state.plan.steps[j].id
      && i < |state.plan.steps[k].policy.checks|
      && RequiredChecks(state.plan.steps[k].policy, pointer) == {i}
      && state.plan.steps[k].policy.checks[i].expected == expected;
    SameIdSameStep(state, j, k);
    assert i in RequiredChecks(policy, pointer);
    assert Passed(policy.checks[i], StepAt(state, j).verifiedArtifact.value);
  }

  lemma ReferencesAreDeclared(state: State, j: nat, name: string)
    requires Reloads(state) && j < |state.plan.steps| && name in state.plan.steps[j].arguments
    requires state.plan.steps[j].arguments[name].Predecessor? && ReferencesDeclared(state.plan)
    ensures exists v :: Declares(state.plan, state.plan.steps[j].arguments[name].step, state.plan.steps[j].arguments[name].pointer, v)
  {
    hide ValidPlan, Declares, Reloads;
    var input := state.plan.steps[j].arguments[name];
    assert HasSample(state.plan, state.plan.steps[j]);
    var sample :| SampleArguments(state.plan, state.plan.steps[j], sample);
    assert SampleValue(state.plan, input, sample[name]);
  }

  lemma ResolvedValueIsSample(state: State, j: nat, name: string)
    requires Good(state) && j < |state.plan.steps| && name in state.plan.steps[j].arguments
    requires ReferencesDeclared(state.plan) && ResolveInput(state, state.plan.steps[j].arguments[name]).Some?
    ensures SampleValue(state.plan, state.plan.steps[j].arguments[name], ResolveInput(state, state.plan.steps[j].arguments[name]).value)
  {
    hide ValidPlan, StepReloads, Pointer, ActiveSteps, ReferencesDeclared, StepGood, Declares;
    var input := state.plan.steps[j].arguments[name];
    if input.Predecessor? {
      assert input.step in Ids(state.plan);
      var p :| 0 <= p < |state.plan.steps| && state.plan.steps[p].id == input.step;
      ReferencesAreDeclared(state, j, name);
      var v :| Declares(state.plan, input.step, input.pointer, v);
      DeclaredValueIsRead(state, p, input.pointer, v);
    }
  }

  /** In every good state of an authorized plan, whatever resolves for a step is what the plan alone promises. */
  lemma ResolutionIsSample(state: State, j: nat)
    requires Good(state) && j < |state.plan.steps| && ReferencesDeclared(state.plan)
    requires ResolveInputs(state.plan.steps[j], state).Some?
    ensures SampleArguments(state.plan, state.plan.steps[j], ResolveInputs(state.plan.steps[j], state).value)
  {
    hide Good, ReferencesDeclared, SampleValue, ResolveInput;
    var step := state.plan.steps[j];
    var arguments := ResolveInputs(step, state).value;
    forall name | name in step.arguments
      ensures name in arguments && SampleValue(state.plan, step.arguments[name], arguments[name])
    {
      ResolvedValueIsSample(state, j, name);
    }
  }

  predicate DependenciesVerified(state: State, step: Step) {
    forall d | d in step.dependsOn :: d in state.steps && state.steps[d].phase.Verified?
  }

  lemma StepReferencesOk(state: State, j: nat)
    requires Reloads(state) && j < |state.plan.steps|
    ensures ReferencesOk(state.plan.steps[j])
  {
    hide StructureError, Acyclic, ReferencesOk, StepReloads;
    StructureGivesEdges(state.plan, state.acceptedAt, j);
  }

  lemma ReferenceResolves(state: State, j: nat, name: string)
    requires Good(state) && j < |state.plan.steps| && name in state.plan.steps[j].arguments
    requires ReferencesDeclared(state.plan) && DependenciesVerified(state, state.plan.steps[j])
    ensures ResolveInput(state, state.plan.steps[j].arguments[name]).Some?
  {
    hide ValidPlan, StepReloads, Pointer, ActiveSteps, ReferencesDeclared, StepGood, Declares;
    var input := state.plan.steps[j].arguments[name];
    if input.Predecessor? {
      StepReferencesOk(state, j);
      assert input.step in state.plan.steps[j].dependsOn;
      assert input.step in Ids(state.plan);
      var p :| 0 <= p < |state.plan.steps| && state.plan.steps[p].id == input.step;
      VerifiedHasArtifact(state, p);
      ReferencesAreDeclared(state, j, name);
      var v :| Declares(state.plan, input.step, input.pointer, v);
      DeclaredValueIsRead(state, p, input.pointer, v);
    }
  }

  lemma VerifiedHasArtifact(state: State, j: nat)
    requires Good(state) && j < |state.plan.steps| && state.plan.steps[j].id in state.steps && StepAt(state, j).phase.Verified?
    ensures StepAt(state, j).verifiedArtifact.Some?
  {
    hide StepReloads, ValidPlan, ActiveSteps, ReferencesDeclared, RequiredPass;
    GoodStep(state, j);
  }

  /** With its dependencies verified a step of an authorized plan always resolves, and to its sample. */
  lemma ReadyStepResolves(state: State, j: nat)
    requires Good(state) && j < |state.plan.steps|
    requires ReferencesDeclared(state.plan) && DependenciesVerified(state, state.plan.steps[j])
    ensures ResolveInputs(state.plan.steps[j], state).Some?
    ensures SampleArguments(state.plan, state.plan.steps[j], ResolveInputs(state.plan.steps[j], state).value)
  {
    hide Good, ReferencesDeclared, SampleArguments, ResolveInput, DependenciesVerified;
    forall name | name in state.plan.steps[j].arguments
      ensures ResolveInput(state, state.plan.steps[j].arguments[name]).Some?
    {
      ReferenceResolves(state, j, name);
    }
    ResolutionIsSample(state, j);
  }

  /**
   * For every authorized plan and every saved state, a step whose dependencies are verified
   * resolves, and to the one set of arguments the plan alone determines.
   */
  lemma ResolvedInputsAreSamples(run: seq<World>, k: nat, v: nat, j: nat)
    requires Execution(run) && k < |run| && v < |run[k].saved| && j < |run[k].saved[v].plan.steps|
    requires ReferencesDeclared(run[k].saved[v].plan) && DependenciesVerified(run[k].saved[v], run[k].saved[v].plan.steps[j])
    ensures var state := run[k].saved[v]; var step := state.plan.steps[j];
      && ResolveInputs(step, state).Some?
      && SampleArguments(state.plan, step, ResolveInputs(step, state).value)
      && forall a | SampleArguments(state.plan, step, a) :: a == ResolveInputs(step, state).value
  {
    hide Execution, Intact, StateFollows, PcGood, SentGood, Good, ReferencesDeclared, DependenciesVerified, SampleArguments, ResolveInputs;
    ExecutionKeepsInv(run, k);
    SavedGood(run[k], v);
    var state := run[k].saved[v];
    ReadyStepResolves(state, j);
    GoodPlanIds(state);
    forall a | SampleArguments(state.plan, state.plan.steps[j], a)
      ensures a == ResolveInputs(state.plan.steps[j], state).value
    {
      SampleIsUnique(state.plan, state.plan.steps[j], a, ResolveInputs(state.plan.steps[j], state).value);
    }
  }

  lemma DeclaredOnce(plan: Plan, source: string, pointer: string, a: Json, b: Json)
    requires DistinctIds(plan) && Declares(plan, source, pointer, a) && Declares(plan, source, pointer, b)
    ensures a == b
  {
    var k, i: nat :| 0 <= k < |plan.steps| && plan.steps[k].id == source && i < |plan.steps[k].policy.checks|
      && RequiredChecks(plan.steps[k].policy, pointer) == {i} && plan.steps[k].policy.checks[i].expected == a;
    var l, j: nat :| 0 <= l < |plan.steps| && plan.steps[l].id == source && j < |plan.steps[l].policy.checks|
      && RequiredChecks(plan.steps[l].policy, pointer) == {j} && plan.steps[l].policy.checks[j].expected == b;
    assert k == l;
    assert i in {j};
  }

  /** The plan alone fixes a step's sample arguments. */
  lemma SampleIsUnique(plan: Plan, step: Step, a: Arguments, b: Arguments)
    requires DistinctIds(plan) && SampleArguments(plan, step, a) && SampleArguments(plan, step, b)
    ensures a == b
  {
    hide DistinctIds, Declares;
    forall name | name in step.arguments
      ensures a[name] == b[name]
    {
      assert SampleValue(plan, step.arguments[name], a[name]) && SampleValue(plan, step.arguments[name], b[name]);
      if step.arguments[name].Predecessor? {
        DeclaredOnce(plan, step.arguments[name].step, step.arguments[name].pointer, a[name], b[name]);
      }
    }
    assert a.Keys == b.Keys;
  }

  /** Dispatched arguments are a function of the plan alone, whatever files and replies were seen on the way. */
  lemma DispatchedArgumentsComeFromPlan(run: seq<World>, k: nat, i: nat, j: nat)
    requires Execution(run) && k < |run| && i < |run[k].sent|
    requires j < |run[k].record.data.plan.steps| && run[k].record.data.plan.steps[j].id == run[k].sent[i].step
    ensures var plan := run[k].record.data.plan;
      && SampleArguments(plan, plan.steps[j], run[k].sent[i].arguments)
      && forall a | SampleArguments(plan, plan.steps[j], a) :: a == run[k].sent[i].arguments
  {
    hide Execution, Intact, PcGood, AllReverified, Stopped, StepFollows, ActiveSteps, ValidPlan, ResolveInputs, SampleArguments,
      ReferencesDeclared, RequiredPass, Good;
    ExecutionKeepsInv(run, k);
    var e := run[k].sent[i];
    assert SentGood(run[k], e);
    var state := run[k].saved[e.version];
    assert StateFollows(state, run[k].saved[run[k].record.version]);
    SavedGood(run[k], e.version);
    GoodStep(state, j);
    ResolutionIsSample(state, j);
    GoodPlanIds(state);
    forall a | SampleArguments(state.plan, state.plan.steps[j], a)
      ensures a == e.arguments
    {
      SampleIsUnique(state.plan, state.plan.steps[j], a, e.arguments);
    }
  }

  lemma GoodPlanIds(state: State)
    requires Good(state)
    ensures DistinctIds(state.plan)
  {
    hide StepReloads, StepGood, ActiveSteps;
    forall i, j | 0 <= i < j < |state.plan.steps|
      ensures state.plan.steps[i].id != state.plan.steps[j].id
    {
      if state.plan.steps[i].id == state.plan.steps[j].id {
        SameIdSameStep(state, i, j);
      }
    }
  }

  // ---- cancellation racing a send ----

  /** Some save after version `u` has a journal entry of this kind. */
  predicate SavedSince(w: World, u: nat, kind: string) {
    exists v | u < v < |w.record.journal| :: w.record.journal[v].kind == kind
  }

  /** Up to any later version a stop flag is up exactly when it was up before or an entry since raised it. */
  lemma {:induction false} FlagsSince(w: World, u: nat, v: nat)
    requires JournalInv(w) && u <= v < |w.saved|
    ensures w.saved[v].cancelRequested <==>
              w.saved[u].cancelRequested || exists i | u < i <= v :: w.record.journal[i].kind == CANCELLED
    ensures w.saved[v].deadlineObserved <==>
              w.saved[u].deadlineObserved || exists i | u < i <= v :: w.record.journal[i].kind == EXPIRED
    decreases v
  {
    hide Good, Intact, StepFollows;
    if u < v {
      FlagsSince(w, u, v - 1);
      assert KindOk(w.saved[v - 1], w.saved[v], w.record.journal[v].kind);
      assert StateFollows(w.saved[v - 1], w.saved[v]);
    }
  }

  /** Some step that let work go on in version `u` no longer does in the stored run. */
  predicate BlockedSince(w: World, u: nat)
    requires u < |w.saved|
  {
    exists id | id in w.saved[u].steps && id in w.record.data.steps ::
      !Blocks(w.saved[u].steps[id].phase) && Blocks(w.record.data.steps[id].phase)
  }

  /**
   * When new work is about to go out, the stored run carries a stop flag exactly when the journal
   * has an entry that raised it after the version the driver works from; and it is stopped exactly
   * when there is such an entry or some step has failed, been cancelled or become unknown since
   * that version.
   */
  lemma SendMeetsStopExactly(run: seq<World>, k: nat, t: nat)
    requires Execution(run) && k < |run| && t in run[k].drivers
    requires run[k].drivers[t].pc.Sending? && !run[k].drivers[t].pc.recovering
    ensures run[k].drivers[t].version < |run[k].saved|
    ensures var w, u := run[k], run[k].drivers[t].version;
      && (w.record.data.cancelRequested <==> SavedSince(w, u, CANCELLED))
      && (w.record.data.deadlineObserved <==> SavedSince(w, u, EXPIRED))
      && (Stopped(w.record.data) <==> SavedSince(w, u, CANCELLED) || SavedSince(w, u, EXPIRED) || BlockedSince(w, u))
  {
    hide Execution, Inv, Good, AnyBlocks, AllReverified, BlockedSince;
    ExecutionKeepsInv(run, k);
    DriverKnows(run[k], t);
    SavedHeadOf(run[k]);
    InvHasJournal(run[k]);
    var u := run[k].drivers[t].version;
    assert StateFollows(run[k].saved[u], run[k].saved[run[k].record.version]);
    hide JournalInv;
    FlagsSince(run[k], u, run[k].record.version);
    BlockedSinceUnblocked(run[k], u);
  }

  lemma BlockedSinceUnblocked(w: World, u: nat)
    requires u < |w.saved| && StateFollows(w.saved[u], w.record.data) && !AnyBlocks(w.saved[u])
    ensures BlockedSince(w, u) <==> AnyBlocks(w.record.data)
  {
    hide StepFollows;
  }

  lemma InvHasJournal(w: World)
    requires Inv(w)
    ensures JournalInv(w) && |w.record.journal| == |w.saved|
  {
    hide Good, Intact, StateFollows, KindOk, SentGood, DriverGood;
  }

  /** A driver that is about to send new work from the current version sends it while nothing is stopped. */
  lemma CurrentDriverSendsUnstopped(run: seq<World>, k: nat, t: nat)
    requires Execution(run) && k < |run| && t in run[k].drivers
    requires run[k].drivers[t].pc.Sending? && !run[k].drivers[t].pc.recovering
    requires run[k].drivers[t].version == run[k].record.version
    ensures !Stopped(run[k].record.data)
  {
    hide Execution, Inv, Stopped, Good;
    ExecutionKeepsInv(run, k);
    DriverKnows(run[k], t);
    SavedHeadOf(run[k]);
  }

  lemma SavedHeadOf(w: World)
    requires Inv(w)
    ensures |w.saved| == w.record.version + 1 && w.saved[w.record.version] == w.record.data
  {
    hide JournalInv, SentGood, DriverGood;
    SavedHead(w);
  }

  lemma RunUnfolds(w: World, t: nat, env: Env)
    requires t in w.drivers && w.drivers[t].version < |w.saved| && Tracked(w.saved[w.drivers[t].version])
    ensures var state := w.saved[w.drivers[t].version];
      match w.drivers[t].pc
      case Sending(i, recovering) => Next(w, Run(t, env)) == StepSending(w, t, state, i, recovering)
      case AwaitingTask(i, recovering) => Next(w, Run(t, env)) == StepAwaitingTask(w, t, state, i, recovering, env)
      case Dispatching(i) => Next(w, Run(t, env)) == StepDispatching(w, t, state, i, env)
      case RequestingCancel => Next(w, Run(t, env)) == StepRequestingCancel(w, t, state, env)
      case _ => true
  {
    hide Tracked, StepStarting, StepObservingDeadline, StepReverifying, StepRecovering, StepSending,
      StepAwaitingTask, StepPolling, StepCancelling, StepQuerying, StepStopping, StepDispatching, StepRequestingCancel;
  }

  /** One step of driver `t` leads from `w` to `after`. */
  ghost predicate RunsTo(w: World, t: nat, env: Env, after: World) {
    Enabled(w, Run(t, env)) && Next(w, Run(t, env)) == after
  }

  lemma CancelLands(w: World, u: nat, env: Env) returns (after: World)
    requires Inv(w) && u in w.drivers && w.drivers[u].pc.RequestingCancel? && w.drivers[u].version == w.record.version
    requires w.record.version < MAX_VERSION && env.bytes <= MAX_DOCUMENT_BYTES && !w.record.data.cancelRequested
    ensures after.record.data.cancelRequested && after.sent == w.sent && after.saved == w.saved + [MarkCancelled(w.record.data)]
    ensures forall t | t in w.drivers && t != u :: t in after.drivers && after.drivers[t] == w.drivers[t]
    ensures RunsTo(w, u, env, after)
  {
    hide Inv, Good, Intact, Advance, Next, Reloads, Tracked, PcGood;
    after := Next(w, Run(u, env));
    DriverKnows(w, u);
    SavedHeadOf(w);
    IntactOf(w);
    GoodReloads(w.record.data);
    RunUnfolds(w, u, env);
    CancelSaves(w.record, env.bytes);
  }

  lemma CancelSaves(r: Record, bytes: nat)
    requires Intact(r) && r.version < MAX_VERSION && bytes <= MAX_DOCUMENT_BYTES
    ensures Advance(r, r.version, MarkCancelled(r.data), "cancellation_intent", bytes).Ok?
    ensures Advance(r, r.version, MarkCancelled(r.data), "cancellation_intent", bytes).value.data == MarkCancelled(r.data)
  {
    hide Intact, Advance, Utf8Length;
    AsciiLength("cancellation_intent");
    AdvanceExtends(r, r.version, MarkCancelled(r.data), "cancellation_intent", bytes);
  }

  lemma SendGoesOut(w: World, t: nat, env: Env) returns (after: World)
    requires t in w.drivers && w.drivers[t].pc.Sending? && w.drivers[t].version < |w.saved| && Good(w.saved[w.drivers[t].version])
    requires PcGood(w.saved[w.drivers[t].version], w.drivers[t])
    ensures |after.sent| == |w.sent| + 1 && after.sent[|w.sent|].recoveryOnly == Stopped(w.saved[w.drivers[t].version])
    ensures after.record == w.record && RunsTo(w, t, env, after)
  {
    hide Good, Next, Tracked, Stopped, AllReverified, ResolveInputs, StepGood;
    after := Next(w, Run(t, env));
    var state := w.saved[w.drivers[t].version];
    GoodReloads(state);
    GoodIsTracked(state);
    hide Reloads;
    RunUnfolds(w, t, env);
    GoodStep(state, w.drivers[t].pc.i);
  }

  /**
   * Without that condition it is false: a cancel request that saves between a driver's intent and
   * its call lets the call through as new work although the stored run is already cancelled.
   */
  lemma CancelCanOvertakeSend(w: World, t: nat, u: nat, env: Env) returns (cancelled: World, after: World)
    requires Inv(w) && t in w.drivers && u in w.drivers && t != u
    requires w.drivers[t].pc.Sending? && !w.drivers[t].pc.recovering && w.drivers[t].version == w.record.version
    requires w.drivers[u].pc.RequestingCancel? && w.drivers[u].version == w.record.version
    requires w.record.version < MAX_VERSION && env.bytes <= MAX_DOCUMENT_BYTES
    ensures |after.sent| == |w.sent| + 1 && !after.sent[|w.sent|].recoveryOnly && after.record.data.cancelRequested
    ensures RunsTo(w, u, env, cancelled) && RunsTo(cancelled, t, env, after)
  {
    hide Inv, Good, Stopped, AllReverified, Next, Tracked;
    DriverKnows(w, t);
    SavedHeadOf(w);
    NotStoppedNotCancelled(w.record.data);
    cancelled := CancelLands(w, u, env);
    after := SendGoesOut(cancelled, t, env);
  }

  lemma IntactOf(w: World)
    requires Inv(w)
    ensures Intact(w.record)
  {
    hide Intact;
  }

  lemma NotStoppedNotCancelled(state: State)
    requires !Stopped(state)
    ensures !state.cancelRequested
  {
  }

  lemma StaleSaveEnds(w: World, t: nat, data: State, kind: string, bytes: nat, pc: Pc)
    requires t in w.drivers && w.drivers[t].version != w.record.version
    ensures Save(w, t, data, kind, bytes, pc) == Goto(w, t, Done)
  {
    hide Append;
  }

  // ---- what becomes of a driver that was overtaken ----

  /** Somebody else has saved since this driver last loaded or saved, or its sweep is over. */
  predicate Behind(w: World, t: nat) {
    t in w.drivers && (w.drivers[t].pc.Done? || w.drivers[t].version < w.record.version)
  }

  /** How many calls a driver behind the record may still make from here. */
  function CallsLeft(pc: Pc): nat {
    if pc.Starting? || pc.ObservingDeadline? || pc.Reverifying? || pc.Recovering? || pc.Sending? then 1 else 0
  }

  function CallsBy(sent: seq<Sent>, t: nat): nat {
    if sent == [] then 0 else CallsBy(sent[..|sent| - 1], t) + (if sent[|sent| - 1].driver == t then 1 else 0)
  }

  lemma CallsByAppend(sent: seq<Sent>, e: Sent, t: nat)
    ensures CallsBy(sent + [e], t) == CallsBy(sent, t) + (if e.driver == t then 1 else 0)
  {
    assert (sent + [e])[..|sent|] == sent;
  }

  /** A step of a driver that is behind: no save, and one call less if it made one. */
  ghost predicate MovesBehind(w: World, w': World, t: nat)
    requires t in w.drivers
  {
    && t in w'.drivers && w'.record == w.record && w'.saved == w.saved
    && (w'.drivers[t].pc.Done? || w'.drivers[t].version == w.drivers[t].version)
    && CallsBy(w'.sent, t) + CallsLeft(w'.drivers[t].pc) <= CallsBy(w.sent, t) + CallsLeft(w.drivers[t].pc)
  }

  lemma StaleSavesEnd(w: World, t: nat)
    requires t in w.drivers && w.drivers[t].version != w.record.version
    ensures forall data, kind, bytes, pc :: Save(w, t, data, kind, bytes, pc) == Goto(w, t, Done)
  {
    hide Save;
    forall data, kind, bytes, pc
      ensures Save(w, t, data, kind, bytes, pc) == Goto(w, t, Done)
    {
      StaleSaveEnds(w, t, data, kind, bytes, pc);
    }
  }

  lemma GoingOnBehind(w: World, t: nat, pc: Pc)
    requires t in w.drivers && CallsLeft(pc) <= CallsLeft(w.drivers[t].pc)
    ensures MovesBehind(w, Goto(w, t, pc), t)
  {
  }

  predicate Opening(pc: Pc) {
    pc.Starting? || pc.ObservingDeadline? || pc.Reverifying?
  }

  predicate Calling(pc: Pc) {
    pc.Recovering? || pc.Sending? || pc.AwaitingTask?
  }

  predicate Watching(pc: Pc) {
    pc.Polling? || pc.Cancelling? || pc.Querying?
  }

  predicate Closing(pc: Pc) {
    pc.Stopping? || pc.Dispatching? || pc.RequestingCancel? || pc.Done?
  }

  lemma OpeningBehind(w: World, t: nat, env: Env)
    requires t in w.drivers && w.drivers[t].version != w.record.version && Opening(w.drivers[t].pc)
    ensures MovesBehind(w, StepDriver(w, t, env), t)
  {
    hide Save, VerifyStep, Reloads, Authorized, AnyBlocks, Stopped, AfterSubmit, AfterGet, AfterCancel, SkipPending,
      ResolveInputs, SubmissionFor, ActiveSteps, Ready, Tracked, CallsBy, StepRecovering, StepSending,
      StepAwaitingTask, StepPolling, StepCancelling, StepQuerying, StepStopping, StepDispatching, StepRequestingCancel;
    StaleSavesEnd(w, t);
  }

  lemma CallingBehind(w: World, t: nat, env: Env)
    requires t in w.drivers && w.drivers[t].version != w.record.version && Calling(w.drivers[t].pc)
    ensures MovesBehind(w, StepDriver(w, t, env), t)
  {
    hide Save, VerifyStep, Reloads, Authorized, AnyBlocks, Stopped, AfterSubmit, AfterGet, AfterCancel, SkipPending,
      ResolveInputs, SubmissionFor, ActiveSteps, Ready, Tracked, CallsBy, StepStarting, StepObservingDeadline,
      StepReverifying, StepPolling, StepCancelling, StepQuerying, StepStopping, StepDispatching, StepRequestingCancel;
    StaleSavesEnd(w, t);
    forall e: Sent
      ensures CallsBy(w.sent + [e], t) == CallsBy(w.sent, t) + (if e.driver == t then 1 else 0)
    {
      CallsByAppend(w.sent, e, t);
    }
  }

  lemma WatchingBehind(w: World, t: nat, env: Env)
    requires t in w.drivers && w.drivers[t].version != w.record.version && Watching(w.drivers[t].pc)
    ensures MovesBehind(w, StepDriver(w, t, env), t)
  {
    hide Save, Goto, SetStep, StepAt, VerifyStep, Reloads, Authorized, AnyBlocks, Stopped, AfterSubmit, AfterGet, AfterCancel,
      SkipPending, ResolveInputs, SubmissionFor, ActiveSteps, Ready, Tracked, CallsBy, MovesBehind, StepStarting,
      StepObservingDeadline, StepReverifying, StepRecovering, StepSending, StepAwaitingTask, StepStopping,
      StepDispatching, StepRequestingCancel;
    StaleSavesEnd(w, t);
    forall pc | CallsLeft(pc) == 0
      ensures MovesBehind(w, Goto(w, t, pc), t)
    {
      GoingOnBehind(w, t, pc);
    }
    StayingBehind(w, t);
  }

  lemma ClosingBehind(w: World, t: nat, env: Env)
    requires t in w.drivers && w.drivers[t].version != w.record.version && Closing(w.drivers[t].pc)
    ensures MovesBehind(w, StepDriver(w, t, env), t)
  {
    hide Save, Goto, VerifyStep, Reloads, Authorized, AnyBlocks, Stopped, AfterSubmit, AfterGet, AfterCancel,
      SkipPending, ResolveInputs, SubmissionFor, ActiveSteps, Ready, Tracked, CallsBy, MovesBehind, StepStarting,
      StepObservingDeadline, StepReverifying, StepRecovering, StepSending, StepAwaitingTask, StepPolling,
      StepCancelling, StepQuerying;
    StaleSavesEnd(w, t);
    forall pc | CallsLeft(pc) == 0
      ensures MovesBehind(w, Goto(w, t, pc), t)
    {
      GoingOnBehind(w, t, pc);
    }
    StayingBehind(w, t);
  }

  lemma StayingBehind(w: World, t: nat)
    requires t in w.drivers
    ensures MovesBehind(w, w, t)
  {
  }

  lemma StepBehind(w: World, t: nat, env: Env)
    requires t in w.drivers && w.drivers[t].version != w.record.version
    ensures MovesBehind(w, StepDriver(w, t, env), t)
  {
    hide StepDriver, MovesBehind;
    if Opening(w.drivers[t].pc) {
      OpeningBehind(w, t, env);
    } else if Calling(w.drivers[t].pc) {
      CallingBehind(w, t, env);
    } else if Watching(w.drivers[t].pc) {
      WatchingBehind(w, t, env);
    } else {
      ClosingBehind(w, t, env);
    }
  }

  // ---- what one step of one driver can change ----

  /** Journal and saves only grow, one driver moves, and a call that was made was made by it. */
  ghost predicate OneStep(w: World, w': World, u: nat)
    requires u in w.drivers
  {
    && w.record.version <= w'.record.version && w.record.journal <= w'.record.journal && w.saved <= w'.saved
    && (forall t | t in w.drivers && t != u :: t in w'.drivers && w'.drivers[t] == w.drivers[t])
    && u in w'.drivers && w.drivers[u].version <= w'.drivers[u].version
    && (w'.sent == w.sent || exists e: Sent :: e.driver == u && e.version == w.drivers[u].version && w'.sent == w.sent + [e])
  }

  lemma SavesAreOneStep(w: World, u: nat)
    requires u in w.drivers
    ensures forall data, kind, bytes, pc :: OneStep(w, Save(w, u, data, kind, bytes, pc), u)
  {
    hide Intact;
  }

  lemma MovesAreOneStep(w: World, u: nat)
    requires u in w.drivers
    ensures (forall pc :: OneStep(w, Goto(w, u, pc), u)) && OneStep(w, w, u)
  {
  }

  lemma OpeningIsOneStep(w: World, u: nat, env: Env)
    requires u in w.drivers && Opening(w.drivers[u].pc)
    ensures OneStep(w, StepDriver(w, u, env), u)
  {
    hide Save, VerifyStep, Reloads, Authorized, AnyBlocks, Stopped, AfterSubmit, AfterGet, AfterCancel, SkipPending,
      ResolveInputs, SubmissionFor, ActiveSteps, Ready, Tracked, StepRecovering, StepSending, StepAwaitingTask,
      StepPolling, StepCancelling, StepQuerying, StepStopping, StepDispatching, StepRequestingCancel;
    SavesAreOneStep(w, u);
  }

  lemma CallingIsOneStep(w: World, u: nat, env: Env)
    requires u in w.drivers && Calling(w.drivers[u].pc)
    ensures OneStep(w, StepDriver(w, u, env), u)
  {
    hide Save, VerifyStep, Reloads, Authorized, AnyBlocks, Stopped, AfterSubmit, AfterGet, AfterCancel, SkipPending,
      ResolveInputs, SubmissionFor, ActiveSteps, Ready, Tracked, StepStarting, StepObservingDeadline, StepReverifying,
      StepPolling, StepCancelling, StepQuerying, StepStopping, StepDispatching, StepRequestingCancel;
    SavesAreOneStep(w, u);
  }

  lemma WatchingIsOneStep(w: World, u: nat, env: Env)
    requires u in w.drivers && Watching(w.drivers[u].pc)
    ensures OneStep(w, StepDriver(w, u, env), u)
  {
    hide Save, Goto, VerifyStep, Reloads, Authorized, AnyBlocks, Stopped, AfterSubmit, AfterGet, AfterCancel,
      SkipPending, ResolveInputs, SubmissionFor, ActiveSteps, Ready, Tracked, OneStep, StepStarting,
      StepObservingDeadline, StepReverifying, StepRecovering, StepSending, StepAwaitingTask, StepStopping,
      StepDispatching, StepRequestingCancel;
    SavesAreOneStep(w, u);
    MovesAreOneStep(w, u);
  }

  lemma ClosingIsOneStep(w: World, u: nat, env: Env)
    requires u in w.drivers && Closing(w.drivers[u].pc)
    ensures OneStep(w, StepDriver(w, u, env), u)
  {
    hide Save, Goto, VerifyStep, Reloads, Authorized, AnyBlocks, Stopped, AfterSubmit, AfterGet, AfterCancel,
      SkipPending, ResolveInputs, SubmissionFor, ActiveSteps, Ready, Tracked, OneStep, StepStarting,
      StepObservingDeadline, StepReverifying, StepRecovering, StepSending, StepAwaitingTask, StepPolling,
      StepCancelling, StepQuerying;
    SavesAreOneStep(w, u);
    MovesAreOneStep(w, u);
  }

  lemma DriverIsOneStep(w: World, u: nat, env: Env)
    requires u in w.drivers
    ensures OneStep(w, StepDriver(w, u, env), u)
  {
    hide StepDriver, OneStep;
    if Opening(w.drivers[u].pc) {
      OpeningIsOneStep(w, u, env);
    } else if Calling(w.drivers[u].pc) {
      CallingIsOneStep(w, u, env);
    } else if Watching(w.drivers[u].pc) {
      WatchingIsOneStep(w, u, env);
    } else {
      ClosingIsOneStep(w, u, env);
    }
  }

  lemma OthersStep(w: World, u: nat, env: Env, t: nat)
    requires u in w.drivers && t in w.drivers && t != u
    ensures var w' := StepDriver(w, u, env);
      && t in w'.drivers && w'.drivers[t] == w.drivers[t]
      && w.record.version <= w'.record.version && CallsBy(w'.sent, t) == CallsBy(w.sent, t)
  {
    hide StepDriver, CallsBy;
    DriverIsOneStep(w, u, env);
    var w' := StepDriver(w, u, env);
    if w'.sent != w.sent {
      var e: Sent :| e.driver == u && w'.sent == w.sent + [e];
      CallsByAppend(w.sent, e, t);
    }
  }

  lemma DoneStays(w: World, t: nat, env: Env)
    requires t in w.drivers && w.drivers[t].pc.Done?
    ensures MovesBehind(w, StepDriver(w, t, env), t) && StepDriver(w, t, env).drivers[t].pc.Done?
  {
    hide Tracked, CallsBy, StepStarting, StepObservingDeadline, StepReverifying, StepRecovering, StepSending, StepAwaitingTask,
      StepPolling, StepCancelling, StepQuerying, StepStopping, StepDispatching, StepRequestingCancel;
  }

  /** One step of the system keeps a driver that is behind from saving and counts its calls down. */
  lemma NextBehind(w: World, a: Action, t: nat)
    requires Enabled(w, a) && Behind(w, t)
    ensures Behind(Next(w, a), t)
    ensures CallsBy(Next(w, a).sent, t) + CallsLeft(Next(w, a).drivers[t].pc) <= CallsBy(w.sent, t) + CallsLeft(w.drivers[t].pc)
    ensures a.Run? && a.t == t ==> Next(w, a).record == w.record
  {
    hide StepDriver, CallsBy;
    match a {
      case Run(u, env) =>
        if u != t {
          OthersStep(w, u, env, t);
        } else if w.drivers[t].pc.Done? {
          DoneStays(w, t, env);
        } else {
          StepBehind(w, t, env);
        }
      case _ =>
    }
  }

  /**
   * A driver that was overtaken never saves again and makes at most one more call, and none when
   * it was past sending.
   */
  lemma {:induction false} OvertakenDriverStops(run: seq<World>, k: nat, m: nat, t: nat)
    requires Execution(run) && k <= m < |run| && Behind(run[k], t)
    ensures Behind(run[m], t)
    ensures CallsBy(run[m].sent, t) + CallsLeft(run[m].drivers[t].pc) <= CallsBy(run[k].sent, t) + CallsLeft(run[k].drivers[t].pc)
    ensures m + 1 < |run| && MadeBy(run[m], t, run[m + 1]) ==> run[m + 1].record == run[m].record
    decreases m
  {
    hide Init, Next, Enabled, Behind, CallsBy, CallsLeft;
    BehindIsThere(run[k], t);
    if k < m {
      OvertakenDriverStops(run, k, m - 1, t);
      BehindIsThere(run[m - 1], t);
      assert Steps(run[m - 1], run[m]);
      var a :| Enabled(run[m - 1], a) && Next(run[m - 1], a) == run[m];
      NextBehind(run[m - 1], a, t);
    }
    BehindIsThere(run[m], t);
    if m + 1 < |run| && MadeBy(run[m], t, run[m + 1]) {
      var env :| RunsTo(run[m], t, env, run[m + 1]);
      NextBehind(run[m], Run(t, env), t);
    }
  }

  /** Driver `t` can have taken the system from `w` to `w'`. */
  ghost predicate MadeBy(w: World, t: nat, w': World) {
    exists env :: RunsTo(w, t, env, w')
  }

  lemma BehindIsThere(w: World, t: nat)
    requires Behind(w, t)
    ensures t in w.drivers
  {
  }


  /** Competing drivers yield one journal: along an execution it is only ever extended, together with the saved states. */
  lemma {:induction false} JournalOnlyExtends(run: seq<World>, k: nat, m: nat)
    requires Execution(run) && k <= m < |run|
    ensures run[k].record.journal <= run[m].record.journal && run[k].saved <= run[m].saved
    decreases m
  {
    hide Init, Next, Enabled;
    if k < m {
      JournalOnlyExtends(run, k, m - 1);
      assert Steps(run[m - 1], run[m]);
      var a :| Enabled(run[m - 1], a) && Next(run[m - 1], a) == run[m];
      NextExtends(run[m - 1], a);
      PrefixTransitive(run[k].record.journal, run[m - 1].record.journal, run[m].record.journal);
      PrefixTransitive(run[k].saved, run[m - 1].saved, run[m].saved);
    }
  }

  lemma PrefixTransitive<T>(a: seq<T>, b: seq<T>, c: seq<T>)
    requires a <= b && b <= c
    ensures a <= c
  {
    assert b == c[..|b|] && a == b[..|a|];
  }

  lemma NextExtends(w: World, a: Action)
    requires Enabled(w, a)
    ensures w.record.journal <= Next(w, a).record.journal && w.saved <= Next(w, a).saved
  {
    hide StepDriver;
    if a.Run? {
      DriverIsOneStep(w, a.t, a.env);
    }
  }
}
