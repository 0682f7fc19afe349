/** Durable task-route records: shape rules, legal transitions and whole route lifetimes. */
module TaskRoute {
  import opened Common

  const SCHEMA_VERSION: nat := 1
  const MAX_BINDING_BYTES: nat := 16 * 1024
  const MAX_TERMINAL_BYTES: nat := 64 * 1024
  const MAX_IDENTIFIER_BYTES: nat := 128
  const MAX_UPSTREAM_ID_BYTES: nat := 1_024
  const MAX_SQLITE_INTEGER: nat := 0x7FFF_FFFF_FFFF_FFFF

  datatype Caller = Caller(principal: string, tenant: string)

  predicate ValidCaller(c: Caller) {
    && ValidIdentifier(c.principal, MAX_IDENTIFIER_BYTES)
    && ValidIdentifier(c.tenant, MAX_IDENTIFIER_BYTES)
  }

  datatype Phase = Prepared | Dispatching | Routed | Terminal | ReconciliationRequired | CancelRequested

  datatype Effect = ReadOnly | IdempotentWrite | NonIdempotentWrite

  datatype Limits = Limits(maxRuntime: nat, maxOutput: nat, maxArtifact: nat, maxAttempts: nat)

  /** A digest is the content it names, so equal digests mean equal content. */
  datatype Digest = Zero | Of(content: string)

  /**
   * A parsed submission document. `encodedBytes` is the canonical length of the
   * route binding that carries it.
   */
  datatype Submission = Submission(
    schemaVersion: string, logicalTaskId: string, attemptId: string, correlationId: string,
    idempotencyKey: string, input: Digest, policy: Digest, artifactScope: Digest,
    providerInterface: string, deadline: nat, retention: nat, limits: Limits,
    permittedEffect: Effect, cleanupRequired: bool, encodedBytes: nat)

  /** Identity of a tool at a pinned source. */
  datatype Capability = Capability(source: string, name: string, schemaDigest: string, configuration: Digest)

  /** What a route is bound to: a task binding, or any other JSON the storage layer accepts. */
  datatype Binding =
    | TaskBinding(capability: Capability, snapshot: string, task: Submission)
    | OtherBinding(json: string, bytes: nat)

  function BindingBytes(b: Binding): nat {
    match b
    case TaskBinding(_, _, task) => task.encodedBytes
    case OtherBinding(_, bytes) => bytes
  }

  datatype RequestDigest = RequestDigest(binding: Binding)

  /** Who decided a terminal state, and what it says about execution. */
  datatype Verdict = NotDispatched(code: string) | Rejected(code: string) | Reported(status: string)

  datatype TerminalState = TerminalState(verdict: Verdict, bytes: nat)

  datatype Route = Route(
    schema: nat, id: string, caller: Caller, key: Option<string>, request: RequestDigest,
    binding: Binding, capability: Capability, source: string, session: string,
    upstream: Option<string>, owner: Option<string>, phase: Phase,
    created: nat, updated: nat, ttl: nat, expires: nat, version: nat,
    cached: Option<TerminalState>)

  datatype Update = Update(
    phase: Phase, upstream: Option<string>, owner: Option<string>, updated: nat,
    cached: Option<TerminalState>)

  function ToDispatching(owner: string, time: nat): Update {
    Update(Dispatching, None, Some(owner), time, None)
  }

  function ToRouted(upstream: string, time: nat): Update {
    Update(Routed, Some(upstream), None, time, None)
  }

  function ToTerminal(time: nat, cached: TerminalState): Update {
    Update(Terminal, None, None, time, Some(cached))
  }

  function ToReconciliation(time: nat): Update {
    Update(ReconciliationRequired, None, None, time, None)
  }

  function ToCancel(time: nat): Update {
    Update(CancelRequested, None, None, time, None)
  }

  function ToCancelWithUpstream(upstream: string, time: nat): Update {
    Update(CancelRequested, Some(upstream), None, time, None)
  }

  datatype RouteError =
    | InvalidIdentifier(name: string)
    | InvalidTtl
    | InvalidTimestamp
    | NumericRange
    | CapabilitySourceMismatch
    | RequestDigestMismatch
    | BindingTooLarge
    | TerminalStateTooLarge
    | TerminalStateOutsideTerminalPhase
    | TerminalStateMissing
    | PreparedHasUpstreamTask
    | RoutedWithoutUpstreamTask
    | NotPreparedForBegin
    | UpstreamTaskChanged
    | UpstreamTaskAssignedOutsideRoutedTransition
    | InvalidTransition(from: Phase, to: Phase)
    | IntegrityMismatch

  /** The first shape rule a record breaks, in the order the rules are checked. */
  function ValidateShape(r: Route): (e: Option<RouteError>) {
    if r.schema != SCHEMA_VERSION then Some(IntegrityMismatch)
    else if !ValidIdentifier(r.id, MAX_IDENTIFIER_BYTES) then Some(InvalidIdentifier("public task ID"))
    else if !ValidIdentifier(r.caller.principal, MAX_IDENTIFIER_BYTES) then Some(InvalidIdentifier("principal ID"))
    else if !ValidIdentifier(r.caller.tenant, MAX_IDENTIFIER_BYTES) then Some(InvalidIdentifier("tenant ID"))
    else if r.key.Some? && !ValidIdentifier(r.key.value, MAX_IDENTIFIER_BYTES) then
      Some(InvalidIdentifier("idempotency key"))
    else if !ValidIdentifier(r.source, MAX_IDENTIFIER_BYTES) then Some(InvalidIdentifier("capability source"))
    else if r.capability.source != r.source then Some(CapabilitySourceMismatch)
    else if !ValidIdentifier(r.session, MAX_IDENTIFIER_BYTES) then Some(InvalidIdentifier("upstream session ID"))
    else if r.upstream.Some? && !ValidIdentifier(r.upstream.value, MAX_UPSTREAM_ID_BYTES) then
      Some(InvalidIdentifier("upstream task ID"))
    else if BindingBytes(r.binding) > MAX_BINDING_BYTES then Some(BindingTooLarge)
    else if r.request != RequestDigest(r.binding) then Some(RequestDigestMismatch)
    else if r.ttl == 0 then Some(InvalidTtl)
    else if r.created + r.ttl > MAX_U64 then Some(NumericRange)
    else if r.created + r.ttl != r.expires then Some(InvalidTtl)
    else if r.created > MAX_SQLITE_INTEGER || r.updated > MAX_SQLITE_INTEGER || r.ttl > MAX_SQLITE_INTEGER
            || r.expires > MAX_SQLITE_INTEGER || r.version > MAX_SQLITE_INTEGER then Some(NumericRange)
    else if r.updated < r.created then Some(InvalidTimestamp)
    else if (r.phase.Prepared? || r.phase.Dispatching?) && r.upstream.Some? then Some(PreparedHasUpstreamTask)
    else if r.phase.Routed? && r.upstream.None? then Some(RoutedWithoutUpstreamTask)
    else if r.phase.Dispatching? != r.owner.Some? then Some(InvalidIdentifier("dispatch owner ID"))
    else if r.owner.Some? && !ValidIdentifier(r.owner.value, MAX_IDENTIFIER_BYTES) then
      Some(InvalidIdentifier("dispatch owner ID"))
    else if !r.phase.Terminal? && r.cached.Some? then Some(TerminalStateOutsideTerminalPhase)
    else if r.phase.Terminal? && r.cached.None? then Some(TerminalStateMissing)
    else if r.cached.Some? && r.cached.value.bytes > MAX_TERMINAL_BYTES then Some(TerminalStateTooLarge)
    else None
  }

  predicate WellShaped(r: Route) {
    ValidateShape(r).None?
  }

  function PrepareWithId(id: string, caller: Caller, key: Option<string>, request: RequestDigest, binding: Binding,
                         capability: Capability, session: string, created: nat, ttl: nat): (r: Result<Route, RouteError>)
    ensures r.Ok? ==>
              && WellShaped(r.value) && VerifyPreparedForBegin(r.value).None?
              && r.value.id == id && r.value.caller == caller && r.value.key == key
              && r.value.binding == binding && r.value.created == created && r.value.expires == created + ttl
  {
    if created + ttl > MAX_U64 then Err(NumericRange)
    else
      var r := Route(SCHEMA_VERSION, id, caller, key, request, binding, capability, capability.source, session,
                     None, None, Prepared, created, created, ttl, created + ttl, 0, None);
      match ValidateShape(r)
      case Some(e) => Err(e)
      case None => Ok(r)
  }

  function VerifyPreparedForBegin(r: Route): (e: Option<RouteError>) {
    match ValidateShape(r)
    case Some(e) => Some(e)
    case None =>
      if !r.phase.Prepared? || r.version != 0 || r.upstream.Some? || r.cached.Some? || r.updated != r.created
      then Some(NotPreparedForBegin)
      else None
  }

  predicate CanTransition(from: Phase, to: Phase) {
    match from
    case Prepared => to.Dispatching? || to.Terminal? || to.ReconciliationRequired? || to.CancelRequested?
    case Dispatching => to.Routed? || to.Terminal? || to.ReconciliationRequired? || to.CancelRequested?
    case Routed => to.Terminal? || to.ReconciliationRequired? || to.CancelRequested?
    case ReconciliationRequired => to.Routed? || to.Terminal? || to.CancelRequested?
    case CancelRequested => to.CancelRequested? || to.Terminal?
    case Terminal => false
  }

  function Transition(r: Route, u: Update): (result: Result<Route, RouteError>) {
    match ValidateShape(r)
    case Some(e) => Err(e)
    case None =>
      if !CanTransition(r.phase, u.phase) then Err(InvalidTransition(r.phase, u.phase))
      else if u.updated < r.updated then Err(InvalidTimestamp)
      else if r.upstream.None? && u.upstream.Some? && !u.phase.Routed? && !u.phase.CancelRequested? then
        Err(UpstreamTaskAssignedOutsideRoutedTransition)
      else if r.upstream.Some? && u.upstream.Some? && r.upstream != u.upstream then Err(UpstreamTaskChanged)
      else if r.version + 1 > MAX_SQLITE_INTEGER then Err(NumericRange)
      else
        var next := r.(upstream := if r.upstream.Some? then r.upstream else u.upstream,
                       owner := u.owner, phase := u.phase, updated := u.updated,
                       version := r.version + 1, cached := u.cached);
        match ValidateShape(next)
        case Some(e) => Err(e)
        case None => Ok(next)
  }

  predicate IsExpired(r: Route, now: nat) {
    now >= r.expires
  }

  /** The fields no transition may change. */
  predicate SameIdentity(a: Route, b: Route) {
    && a.schema == b.schema && a.id == b.id && a.caller == b.caller && a.key == b.key
    && a.request == b.request && a.binding == b.binding && a.capability == b.capability
    && a.source == b.source && a.session == b.session
    && a.created == b.created && a.ttl == b.ttl && a.expires == b.expires
  }

  lemma TransitionFacts(r: Route, u: Update)
    requires Transition(r, u).Ok?
    ensures var n := Transition(r, u).value;
      && WellShaped(r) && WellShaped(n)
      && SameIdentity(r, n)
      && n.version == r.version + 1
      && CanTransition(r.phase, n.phase)
      && n.phase == u.phase && n.cached == u.cached && n.owner == u.owner
      && r.updated <= n.updated == u.updated
      && (r.upstream.Some? ==> n.upstream == r.upstream)
      && (n.upstream.Some? ==> n.upstream == r.upstream || n.upstream == u.upstream)
      && (u.upstream.Some? ==> n.upstream == u.upstream)
  {
  }

  /** A route lifetime: a freshly prepared record followed by accepted transitions. */
  ghost predicate Lifetime(h: seq<Route>) {
    && |h| > 0
    && VerifyPreparedForBegin(h[0]).None?
    && forall k | 0 < k < |h| :: Follows(h[k - 1], h[k])
  }

  ghost predicate Follows(a: Route, b: Route) {
    exists u :: Transition(a, u) == Ok(b)
  }

  /** What any later record of one lifetime owes to any earlier one. */
  predicate LaterRecord(a: Route, b: Route) {
    && SameIdentity(a, b)
    && a.updated <= b.updated
    && (a.upstream.Some? ==> b.upstream == a.upstream)
    && (a.phase.CancelRequested? ==> b.phase.CancelRequested? || b.phase.Terminal?)
    && WellShaped(b)
  }

  lemma FollowsFacts(a: Route, b: Route)
    requires Follows(a, b)
    ensures LaterRecord(a, b) && b.version == a.version + 1 && CanTransition(a.phase, b.phase)
  {
    var u :| Transition(a, u) == Ok(b);
    TransitionFacts(a, u);
  }

  /**
   * Over every lifetime, for any two points of it: the version counts the steps exactly,
   * identity is immutable, time is monotone, the upstream task is write-once, a cancelled
   * route never goes back, and every record keeps its shape.
   */
  lemma {:induction false} LifetimeIsMonotone(h: seq<Route>, i: nat, j: nat)
    requires Lifetime(h) && i <= j < |h|
    ensures h[j].version == j
    ensures LaterRecord(h[i], h[j])
    decreases j
  {
    if j > 0 {
      LifetimeIsMonotone(h, Min(i, j - 1), j - 1);
      FollowsFacts(h[j - 1], h[j]);
    }
  }

  /** Prepared is only the first record, Dispatching only the second, and nothing follows a terminal record. */
  lemma LifetimePhases(h: seq<Route>, j: nat)
    requires Lifetime(h) && j < |h|
    ensures h[j].phase.Prepared? <==> j == 0
    ensures h[j].phase.Dispatching? ==> j == 1
    ensures h[j].phase.Terminal? ==> j == |h| - 1
    ensures h[j].phase.Terminal? <==> h[j].cached.Some?
  {
    LifetimeIsMonotone(h, j, j);
    if j > 0 {
      FollowsFacts(h[j - 1], h[j]);
    }
    if j > 1 {
      FollowsFacts(h[j - 2], h[j - 1]);
    }
    if j < |h| - 1 {
      FollowsFacts(h[j], h[j + 1]);
    }
  }

  /**
   * Exactly when a well-shaped record accepts an update: the phase edge exists, time and the
   * version do not run out, and the upstream, owner and result fit the phase being entered.
   */
  predicate AcceptsUpdate(r: Route, u: Update) {
    && (match u.phase
        case Prepared => false
        case Dispatching => r.phase.Prepared?
        case Routed => r.phase.Dispatching? || r.phase.ReconciliationRequired?
        case ReconciliationRequired => r.phase.Prepared? || r.phase.Dispatching? || r.phase.Routed?
        case CancelRequested => !r.phase.Terminal?
        case Terminal => !r.phase.Terminal?)
    && r.updated <= u.updated <= 9_223_372_036_854_775_807
    && r.version < 9_223_372_036_854_775_807
    && (u.upstream.Some? ==>
          if r.upstream.Some? then u.upstream == r.upstream
          else (u.phase.Routed? || u.phase.CancelRequested?)
               && ValidIdentifier(u.upstream.value, 1_024))
    && (u.phase.Routed? ==> r.upstream.Some? || u.upstream.Some?)
    && (u.phase.Dispatching? <==> u.owner.Some?)
    && (u.owner.Some? ==> ValidIdentifier(u.owner.value, 128))
    && (u.phase.Terminal? <==> u.cached.Some?)
    && (u.cached.Some? ==> u.cached.value.bytes <= 65_536)
  }

  lemma TransitionAccepts(r: Route, u: Update)
    requires WellShaped(r)
    ensures Transition(r, u).Ok? <==> AcceptsUpdate(r, u)
  {
    if Transition(r, u).Ok? {
      TransitionFacts(r, u);
    }
  }
}
