/** Run plans: the caller-authored graph of steps, its admission rules and its cycle check. */
module RunPlan {
  import opened Common
  import opened JsonPointer

  const PLAN_SCHEMA := "gaugemesh.run-plan/1"
  const POLICY_SCHEMA := "gaugemesh.json-artifact-policy/1"
  const RUN_WINDOW: nat := 3_600_000

  datatype Effect = ReadOnly | IdempotentWrite | NonIdempotentWrite

  datatype Input = Literal(value: Json) | Predecessor(step: string, pointer: string)

  datatype Check = Check(pointer: string, expected: Json, required: bool)

  /** `bytes` is the encoded length of the policy. */
  datatype Policy = Policy(schemaVersion: string, checks: seq<Check>, bytes: nat)

  datatype Step = Step(
    id: string, dependsOn: seq<string>, alias: string, capability: Json, providerInterface: string,
    arguments: map<string, Input>, argumentsBytes: nat, inputsDigest: Json,
    policy: Policy, policyDigest: Json, effect: Effect, maxRuntime: nat, maxArtifact: nat)

  datatype Plan = Plan(
    schemaVersion: string, runKey: string, deadline: nat, maxConcurrency: nat, maxAttempts: nat,
    failurePolicy: string, uncertaintyPolicy: string, cancellationPolicy: string,
    artifactRoot: string, steps: seq<Step>)

  function InputJson(i: Input): Json {
    match i
    case Literal(v) => Obj(map["kind" := Str("literal"), "value" := v])
    case Predecessor(step, pointer) =>
      Obj(map["kind" := Str("predecessor"), "step" := Str(step), "pointer" := Str(pointer)])
  }

  function ArgumentsDigest(arguments: map<string, Input>): Json {
    Hash(Obj(map name | name in arguments :: InputJson(arguments[name])))
  }

  function CheckJson(c: Check): Json {
    Obj(map["pointer" := Str(c.pointer), "expected" := c.expected, "required" := Bool(c.required)])
  }

  function PolicyDigest(p: Policy): Json {
    Hash(Obj(map["schemaVersion" := Str(p.schemaVersion),
                 "checks" := Arr(seq(|p.checks|, i requires 0 <= i < |p.checks| => CheckJson(p.checks[i])))]))
  }

  predicate IdentifierChar(c: char) {
    || 'a' <= c <= 'z' || 'A' <= c <= 'Z' || '0' <= c <= '9' || c == '-' || c == '_' || c == '.'
  }

  predicate Identifier(s: string) {
    s != "" && |s| <= 96 && forall i | 0 <= i < |s| :: IdentifierChar(s[i])
  }

  predicate Contains(s: string, part: string) {
    |part| <= |s| && (part == s[..|part|] || (s != "" && Contains(s[1..], part)))
  }

  /** A usable pointer: bounded, absolute, away from binding metadata, and every tilde an escape. */
  predicate PointerValid(s: string) {
    && Utf8Length(s) <= 256
    && s != "" && s[0] == '/'
    && !Contains(s, "/binding") && !Contains(s, "/artifact")
    && TildesOk(s)
  }

  /** Every pointer a plan may use is the rendering of tokens, and evaluating it walks exactly those. */
  lemma ValidPointerWalks(s: string) returns (tokens: seq<string>)
    requires PointerValid(s)
    ensures tokens != [] && Render(tokens) == s && forall j :: Pointer(j, s) == Walk(j, tokens)
  {
    hide Contains, Utf8Length, TildesOk;
    tokens := PointerIsRendered(s);
  }

  function Ids(p: Plan): set<string> {
    set i | 0 <= i < |p.steps| :: p.steps[i].id
  }

  predicate DistinctIds(p: Plan) {
    forall i, j | 0 <= i < j < |p.steps| :: p.steps[i].id != p.steps[j].id
  }

  predicate DistinctStrings(s: seq<string>) {
    forall i, j | 0 <= i < j < |s| :: s[i] != s[j]
  }

  function Dependents(p: Plan, id: string): set<nat> {
    set i: nat | i < |p.steps| && id in p.steps[i].dependsOn
  }

  predicate EdgesOk(p: Plan, s: Step) {
    && |s.dependsOn| <= 8 && DistinctStrings(s.dependsOn)
    && forall d | d in s.dependsOn :: d in Ids(p) && d != s.id
  }

  predicate ReferencesOk(s: Step) {
    forall name | name in s.arguments && s.arguments[name].Predecessor? ::
      s.arguments[name].step in s.dependsOn && PointerValid(s.arguments[name].pointer)
  }

  predicate PolicyOk(s: Step) {
    && s.policy.schemaVersion == POLICY_SCHEMA
    && 1 <= |s.policy.checks| <= 16
    && (exists i | 0 <= i < |s.policy.checks| :: s.policy.checks[i].required)
    && (forall i | 0 <= i < |s.policy.checks| :: PointerValid(s.policy.checks[i].pointer))
    && s.policy.bytes <= 32_768
    && PolicyDigest(s.policy) == s.policyDigest
  }

  function StepError(p: Plan, s: Step): Option<string> {
    if !(Identifier(s.id) && |s.id| <= 64 && s.alias != "" && Utf8Length(s.alias) <= 256) then Some("GM_RUN_STEP_INVALID")
    else if !EdgesOk(p, s) then Some("GM_RUN_EDGE_INVALID")
    else if |Dependents(p, s.id)| > 8 then Some("GM_RUN_FANOUT_BOUND")
    else if !(|s.arguments| <= 32 && s.argumentsBytes <= 8_192 && ArgumentsDigest(s.arguments) == s.inputsDigest) then
      Some("GM_RUN_INPUT_IDENTITY_INVALID")
    else if !ReferencesOk(s) then Some("GM_RUN_REFERENCE_INVALID")
    else if !PolicyOk(s) then Some("GM_RUN_POLICY_INVALID")
    else if !(s.effect.NonIdempotentWrite? && 1 <= s.maxRuntime <= 30_000 && 1 <= s.maxArtifact <= 1_048_576) then
      Some("GM_RUN_EFFECT_OR_BOUND_UNSUPPORTED")
    else None
  }

  /** The first error of the steps from `i` on. */
  function StepsError(p: Plan, i: nat): Option<string>
    requires i <= |p.steps|
    decreases |p.steps| - i
  {
    if i == |p.steps| then None
    else if StepError(p, p.steps[i]).Some? then StepError(p, p.steps[i])
    else StepsError(p, i + 1)
  }

  /** Everything admission asks of a plan except that its graph has no cycle. */
  function StructureError(p: Plan, acceptedAt: nat): Option<string> {
    if p.schemaVersion != PLAN_SCHEMA then Some("GM_RUN_SCHEMA_UNSUPPORTED")
    else if !Identifier(p.runKey) then Some("GM_RUN_KEY_INVALID")
    else if !(1 <= |p.steps| <= 16 && 1 <= p.maxConcurrency <= 4 && p.maxAttempts == 1) then Some("GM_RUN_BOUND_UNSUPPORTED")
    else if !(acceptedAt < p.deadline <= SaturatingAdd(acceptedAt, RUN_WINDOW)) then Some("GM_RUN_DEADLINE_INVALID")
    else if !(p.failurePolicy == "fail_fast_account_inflight" && p.uncertaintyPolicy == "stop_no_replay"
              && p.cancellationPolicy == "intent_then_poll") then Some("GM_RUN_GUARANTEE_UNSUPPORTED")
    else if p.artifactRoot == "" || p.artifactRoot[0] != '/' then Some("GM_RUN_ARTIFACT_ROOT_INVALID")
    else if !DistinctIds(p) then Some("GM_RUN_DUPLICATE_STEP")
    else StepsError(p, 0)
  }

  lemma {:induction false} StepsErrorNone(p: Plan, i: nat, k: nat)
    requires i <= k < |p.steps| && StepsError(p, i).None?
    ensures StepError(p, p.steps[k]).None?
    decreases |p.steps| - i
  {
    hide StepError;
    if i < k {
      StepsErrorNone(p, i + 1, k);
    }
  }

  // ---- cycles ----

  predicate Edge(p: Plan, a: string, b: string) {
    exists i | 0 <= i < |p.steps| :: p.steps[i].id == a && b in p.steps[i].dependsOn
  }

  predicate Path(p: Plan, w: seq<string>) {
    forall k | 0 <= k < |w| - 1 :: Edge(p, w[k], w[k + 1])
  }

  /** No nonempty path of dependencies returns to where it started. */
  ghost predicate Acyclic(p: Plan) {
    forall w | Path(p, w) && |w| >= 2 :: w[0] != w[|w| - 1]
  }

  /** Ranks that fall along every dependency of the ranked steps. */
  ghost predicate Ranking(p: Plan, rank: map<string, nat>) {
    forall i, d | 0 <= i < |p.steps| && p.steps[i].id in rank && d in p.steps[i].dependsOn ::
      d in rank && rank[d] < rank[p.steps[i].id]
  }

  lemma {:induction false} RankFallsAlongPath(p: Plan, rank: map<string, nat>, w: seq<string>)
    requires Ranking(p, rank) && Path(p, w) && |w| >= 2 && w[0] in rank
    ensures w[|w| - 1] in rank && rank[w[|w| - 1]] < rank[w[0]]
  {
    assert Edge(p, w[0], w[1]);
    if |w| > 2 {
      forall k | 0 <= k < |w[1..]| - 1
        ensures Edge(p, w[1..][k], w[1..][k + 1])
      {
        assert Edge(p, w[k + 1], w[k + 2]);
      }
      RankFallsAlongPath(p, rank, w[1..]);
    }
  }

  lemma RankedIsAcyclic(p: Plan, rank: map<string, nat>)
    requires Ranking(p, rank) && Ids(p) <= rank.Keys
    ensures Acyclic(p)
  {
    forall w | Path(p, w) && |w| >= 2
      ensures w[0] != w[|w| - 1]
    {
      assert Edge(p, w[0], w[1]);
      assert w[0] in Ids(p);
      RankFallsAlongPath(p, rank, w);
    }
  }

  /** A set of steps each of which depends on another of the set. */
  ghost predicate Stuck(p: Plan, u: set<string>) {
    && u <= Ids(p)
    && forall a | a in u :: exists b | b in u :: Edge(p, a, b)
  }

  lemma {:induction false} StuckHasLongPaths(p: Plan, u: set<string>, a: string, n: nat) returns (w: seq<string>)
    requires Stuck(p, u) && a in u
    ensures |w| == n + 1 && w[0] == a && Path(p, w) && forall k | 0 <= k < |w| :: w[k] in u
    decreases n
  {
    hide Edge, Ids;
    if n == 0 {
      w := [a];
    } else {
      var b :| b in u && Edge(p, a, b);
      var rest := StuckHasLongPaths(p, u, b, n - 1);
      hide Stuck;
      w := [a] + rest;
      PathGrows(p, a, rest);
    }
  }

  lemma PathGrows(p: Plan, a: string, rest: seq<string>)
    requires Path(p, rest) && rest != [] && Edge(p, a, rest[0])
    ensures Path(p, [a] + rest)
  {
    hide Edge;
    var w := [a] + rest;
    forall k | 0 <= k < |w| - 1
      ensures Edge(p, w[k], w[k + 1])
    {
      if k > 0 {
        assert w[k] == rest[k - 1] && w[k + 1] == rest[k];
      }
    }
  }

  lemma {:induction false} Pigeonhole(w: seq<string>, u: set<string>) returns (i: nat, j: nat)
    requires |w| > |u| && forall k | 0 <= k < |w| :: w[k] in u
    ensures i < j < |w| && w[i] == w[j]
  {
    var last := w[|w| - 1];
    if k :| 0 <= k < |w| - 1 && w[k] == last {
      return k, |w| - 1;
    }
    var front := w[..|w| - 1];
    assert |u - {last}| == |u| - 1;
    i, j := Pigeonhole(front, u - {last});
  }

  lemma SubPath(p: Plan, w: seq<string>, i: nat, j: nat)
    requires Path(p, w) && i < j < |w|
    ensures Path(p, w[i..j + 1])
  {
    hide Edge;
    var part := w[i..j + 1];
    forall k | 0 <= k < |part| - 1
      ensures Edge(p, part[k], part[k + 1])
    {
      assert part[k] == w[i + k] && part[k + 1] == w[i + k + 1];
    }
  }

  lemma StuckIsCyclic(p: Plan, u: set<string>)
    requires Stuck(p, u) && u != {}
    ensures !Acyclic(p)
  {
    hide Stuck, Path;
    var a :| a in u;
    var w := StuckHasLongPaths(p, u, a, |u|);
    var i, j := Pigeonhole(w, u);
    SubPath(p, w, i, j);
    var cycle := w[i..j + 1];
    assert cycle[0] == w[i] && cycle[|cycle| - 1] == w[j];
  }

  predicate Blocked(s: Step, visited: set<string>) {
    exists d | d in s.dependsOn :: d !in visited
  }

  /** What the sweeps know about the steps visited so far: each was visited after all its dependencies. */
  ghost predicate Ordered(p: Plan, visited: set<string>, rank: map<string, nat>, next: nat) {
    visited <= Ids(p) && visited == rank.Keys && Ranking(p, rank) && forall id | id in rank :: rank[id] < next
  }

  /** One pass over the steps, visiting each whose dependencies are already visited. */
  method Sweep(p: Plan, start: set<string>, ghost acceptedAt: nat, ghost rank0: map<string, nat>, ghost next0: nat)
    returns (visited: set<string>, ghost rank: map<string, nat>, ghost next: nat)
    requires StructureError(p, acceptedAt).None? && Ordered(p, start, rank0, next0)
    ensures start <= visited && Ordered(p, visited, rank, next)
    ensures visited == start ==> forall k | 0 <= k < |p.steps| && p.steps[k].id !in visited :: Blocked(p.steps[k], visited)
  {
    hide StructureError, Ranking;
    visited, rank, next := start, rank0, next0;
    var i := 0;
    while i < |p.steps|
      invariant i <= |p.steps| && start <= visited && Ordered(p, visited, rank, next)
      invariant visited == start ==> forall k | 0 <= k < i && p.steps[k].id !in visited :: Blocked(p.steps[k], visited)
    {
      var step := p.steps[i];
      if !Blocked(step, visited) {
        assert step.id in Ids(p);
        if step.id !in visited {
          RankExtends(p, acceptedAt, rank, next, i);
          rank := rank[step.id := next];
          next := next + 1;
        }
        visited := visited + {step.id};
      }
      i := i + 1;
    }
  }

  /**
   * Plan admission. The repeated sweep always ends, and rejects a well-formed plan exactly
   * when its dependency graph has a cycle.
   */
  method Validate(p: Plan, acceptedAt: nat) returns (error: Option<string>)
    ensures error == if StructureError(p, acceptedAt).Some? then StructureError(p, acceptedAt)
                     else if Acyclic(p) then None
                     else Some("GM_RUN_CYCLE")
  {
    hide StructureError, Ranking, Stuck, Acyclic;
    error := StructureError(p, acceptedAt);
    if error.Some? {
      return;
    }
    RankNothing(p);
    var visited: set<string> := {};
    ghost var rank: map<string, nat>, next: nat := map[], 0;
    var growing := true;
    while growing
      invariant Ordered(p, visited, rank, next)
      invariant !growing ==> Stuck(p, Ids(p) - visited)
      decreases |Ids(p) - visited|, growing
    {
      ghost var before := visited;
      var size := |visited|;
      visited, rank, next := Sweep(p, visited, acceptedAt, rank, next);
      SubsetSizes(Ids(p) - visited, Ids(p) - before);
      SubsetSizes(before, visited);
      growing := |visited| != size;
      if !growing {
        NoProgressIsStuck(p, acceptedAt, visited);
      }
    }
    DistinctIdsCount(p, acceptedAt);
    if |visited| != |p.steps| {
      error := Some("GM_RUN_CYCLE");
      StuckIsCyclic(p, Ids(p) - visited);
    } else {
      SameSizeSubset(visited, Ids(p));
      RankedIsAcyclic(p, rank);
    }
  }

  lemma StructureGivesEdges(p: Plan, acceptedAt: nat, k: nat)
    requires StructureError(p, acceptedAt).None? && k < |p.steps|
    ensures EdgesOk(p, p.steps[k]) && DistinctIds(p) && ReferencesOk(p.steps[k])
  {
    StepsErrorNone(p, 0, k);
  }

  lemma RankNothing(p: Plan)
    ensures Ranking(p, map[])
  {
  }

  lemma RankExtends(p: Plan, acceptedAt: nat, rank: map<string, nat>, next: nat, i: nat)
    requires StructureError(p, acceptedAt).None? && i < |p.steps| && Ranking(p, rank)
    requires p.steps[i].id !in rank && (forall id | id in rank :: rank[id] < next) && forall d | d in p.steps[i].dependsOn :: d in rank
    ensures Ranking(p, rank[p.steps[i].id := next])
  {
    hide StructureError, EdgesOk;
    var r := rank[p.steps[i].id := next];
    forall k, d | 0 <= k < |p.steps| && p.steps[k].id in r && d in p.steps[k].dependsOn
      ensures d in r && r[d] < r[p.steps[k].id]
    {
      StructureGivesEdges(p, acceptedAt, k);
      if k == i {
        EdgeLeavesStep(p, p.steps[i], d);
      } else {
        assert p.steps[k].id in rank;
        assert d in rank;
      }
    }
  }

  lemma EdgeLeavesStep(p: Plan, s: Step, d: string)
    requires EdgesOk(p, s) && d in s.dependsOn
    ensures d != s.id && d in Ids(p)
  {
  }

  lemma NoProgressIsStuck(p: Plan, acceptedAt: nat, visited: set<string>)
    requires StructureError(p, acceptedAt).None?
    requires forall k | 0 <= k < |p.steps| && p.steps[k].id !in visited :: Blocked(p.steps[k], visited)
    ensures Stuck(p, Ids(p) - visited)
  {
    hide StructureError, EdgesOk;
    var u := Ids(p) - visited;
    forall a | a in u
      ensures exists b | b in u :: Edge(p, a, b)
    {
      var k :| 0 <= k < |p.steps| && p.steps[k].id == a;
      var d :| d in p.steps[k].dependsOn && d !in visited;
      StructureGivesEdges(p, acceptedAt, k);
      EdgeLeavesStep(p, p.steps[k], d);
      assert d in u && Edge(p, a, d);
    }
  }

  lemma SubsetSizes(a: set<string>, b: set<string>)
    requires a <= b
    ensures |a| <= |b| && (a != b ==> |a| < |b|)
  {
    assert b == a + (b - a);
    if a != b {
      assert b - a != {};
    }
  }

  lemma SameSizeSubset(a: set<string>, b: set<string>)
    requires a <= b && |a| == |b|
    ensures a == b
  {
    SubsetSizes(a, b);
  }

  lemma DistinctIdsCount(p: Plan, acceptedAt: nat)
    requires StructureError(p, acceptedAt).None?
    ensures |Ids(p)| == |p.steps|
  {
    StructureGivesEdges(p, acceptedAt, 0);
    PrefixCount(p, |p.steps|);
    assert Ids(p) == FirstIds(p, |p.steps|);
  }

  function FirstIds(p: Plan, n: nat): set<string>
    requires n <= |p.steps|
  {
    set i | 0 <= i < n :: p.steps[i].id
  }

  lemma FirstIdsGrow(p: Plan, n: nat)
    requires DistinctIds(p) && 0 < n <= |p.steps|
    ensures FirstIds(p, n) == FirstIds(p, n - 1) + {p.steps[n - 1].id} && p.steps[n - 1].id !in FirstIds(p, n - 1)
  {
  }

  lemma {:induction false} PrefixCount(p: Plan, n: nat)
    requires DistinctIds(p) && n <= |p.steps|
    ensures |FirstIds(p, n)| == n
  {
    if n > 0 {
      PrefixCount(p, n - 1);
      FirstIdsGrow(p, n);
      hide FirstIds, DistinctIds;
    }
  }

  /** Plans the driver works on. */
  ghost predicate ValidPlan(p: Plan, acceptedAt: nat) {
    StructureError(p, acceptedAt).None? && Acyclic(p)
  }

  // ---- what an admitted plan promises ----

  /** The step's dependencies are other steps of the plan, few and distinct, and few steps depend on it. */
  ghost predicate EdgesAdmitted(p: Plan, s: Step) {
    && |s.dependsOn| <= 8 && (forall i, j | 0 <= i < j < |s.dependsOn| :: s.dependsOn[i] != s.dependsOn[j])
    && (forall d | d in s.dependsOn :: d != s.id && exists i | 0 <= i < |p.steps| :: p.steps[i].id == d)
    && |set i: nat | i < |p.steps| && s.id in p.steps[i].dependsOn| <= 8
  }

  /** The step's inputs are few, named by their digest, and refer only to its dependencies. */
  ghost predicate InputsAdmitted(s: Step) {
    && |s.arguments| <= 32 && s.argumentsBytes <= 8_192
    && s.inputsDigest == Hash(Obj(map name | name in s.arguments :: InputJson(s.arguments[name])))
    && (forall name | name in s.arguments ::
          match s.arguments[name]
          case Literal(_) => true
          case Predecessor(step, pointer) => step in s.dependsOn && PointerValid(pointer))
  }

  /** The step's policy is named by its digest and has something to require. */
  ghost predicate PolicyAdmitted(s: Step) {
    && s.policy.schemaVersion == "gaugemesh.json-artifact-policy/1" && 1 <= |s.policy.checks| <= 16 && s.policy.bytes <= 32_768
    && (exists i | 0 <= i < |s.policy.checks| :: s.policy.checks[i].required)
    && (forall i | 0 <= i < |s.policy.checks| :: PointerValid(s.policy.checks[i].pointer))
    && s.policyDigest == Hash(Obj(map["schemaVersion" := Str(s.policy.schemaVersion),
                                      "checks" := Arr(seq(|s.policy.checks|, i requires 0 <= i < |s.policy.checks| => CheckJson(s.policy.checks[i])))]))
  }

  /** What admission demands of one step. */
  ghost predicate StepAdmitted(p: Plan, s: Step) {
    && Identifier(s.id) && |s.id| <= 64 && s.alias != "" && Utf8Length(s.alias) <= 256
    && EdgesAdmitted(p, s) && InputsAdmitted(s) && PolicyAdmitted(s)
    && s.effect.NonIdempotentWrite? && 1 <= s.maxRuntime <= 30_000 && 1 <= s.maxArtifact <= 1_048_576
  }

  /** What admission demands of the plan around its steps. */
  ghost predicate PlanAdmitted(p: Plan, acceptedAt: nat) {
    && p.schemaVersion == "gaugemesh.run-plan/1" && Identifier(p.runKey)
    && 1 <= |p.steps| <= 16 && 1 <= p.maxConcurrency <= 4 && p.maxAttempts == 1
    && acceptedAt < p.deadline <= MAX_U64 && p.deadline <= acceptedAt + 3_600_000
    && p.failurePolicy == "fail_fast_account_inflight" && p.uncertaintyPolicy == "stop_no_replay"
    && p.cancellationPolicy == "intent_then_poll"
    && p.artifactRoot != "" && p.artifactRoot[0] == '/'
    && (forall i, j | 0 <= i < j < |p.steps| :: p.steps[i].id != p.steps[j].id)
  }

  lemma EdgesAdmittedExactly(p: Plan, s: Step)
    ensures EdgesOk(p, s) && |Dependents(p, s.id)| <= 8 <==> EdgesAdmitted(p, s)
  {
    assert Dependents(p, s.id) == set i: nat | i < |p.steps| && s.id in p.steps[i].dependsOn;
    assert forall d :: d in Ids(p) <==> exists i | 0 <= i < |p.steps| :: p.steps[i].id == d;
  }

  lemma InputsAdmittedExactly(s: Step)
    ensures |s.arguments| <= 32 && s.argumentsBytes <= 8_192 && ArgumentsDigest(s.arguments) == s.inputsDigest && ReferencesOk(s)
       <==> InputsAdmitted(s)
  {
    hide PointerValid, InputJson;
  }

  lemma PolicyAdmittedExactly(s: Step)
    ensures PolicyOk(s) <==> PolicyAdmitted(s)
  {
    hide PointerValid, CheckJson;
  }

  lemma StepAdmittedExactly(p: Plan, s: Step)
    ensures StepError(p, s).None? <==> StepAdmitted(p, s)
  {
    hide Identifier, Utf8Length, EdgesOk, Dependents, ArgumentsDigest, ReferencesOk, PolicyOk, EdgesAdmitted, InputsAdmitted, PolicyAdmitted;
    EdgesAdmittedExactly(p, s);
    InputsAdmittedExactly(s);
    PolicyAdmittedExactly(s);
  }

  lemma {:induction false} StepsAdmitted(p: Plan, i: nat)
    requires i <= |p.steps|
    ensures StepsError(p, i).None? <==> forall k | i <= k < |p.steps| :: StepError(p, p.steps[k]).None?
    decreases |p.steps| - i
  {
    hide StepError;
    if i < |p.steps| {
      StepsAdmitted(p, i + 1);
    }
  }

  /** A plan is admitted if and only if it keeps every bound, every step keeps its own, and no step waits on itself. */
  lemma AdmittedExactly(p: Plan, acceptedAt: nat)
    ensures ValidPlan(p, acceptedAt) <==>
              PlanAdmitted(p, acceptedAt) && (forall k | 0 <= k < |p.steps| :: StepAdmitted(p, p.steps[k])) && Acyclic(p)
  {
    hide Acyclic, StepError, StepAdmitted, Identifier;
    StepsAdmitted(p, 0);
    forall k | 0 <= k < |p.steps|
      ensures StepError(p, p.steps[k]).None? <==> StepAdmitted(p, p.steps[k])
    {
      StepAdmittedExactly(p, p.steps[k]);
    }
  }

  /** The digest of an admitted policy determines everything it checks. */
  lemma PolicyDigestDeterminesChecks(a: Policy, b: Policy)
    requires PolicyDigest(a) == PolicyDigest(b)
    ensures a.schemaVersion == b.schemaVersion && a.checks == b.checks
  {
    var x := map["schemaVersion" := Str(a.schemaVersion),
                 "checks" := Arr(seq(|a.checks|, i requires 0 <= i < |a.checks| => CheckJson(a.checks[i])))];
    var y := map["schemaVersion" := Str(b.schemaVersion),
                 "checks" := Arr(seq(|b.checks|, i requires 0 <= i < |b.checks| => CheckJson(b.checks[i])))];
    assert x == y;
    assert x["schemaVersion"] == y["schemaVersion"] && x["checks"] == y["checks"];
    assert x["checks"].items == y["checks"].items;
    forall i | 0 <= i < |a.checks|
      ensures a.checks[i] == b.checks[i]
    {
      assert x["checks"].items[i] == y["checks"].items[i];
      CheckJsonIsInjective(a.checks[i], b.checks[i]);
    }
  }

  lemma CheckJsonIsInjective(a: Check, b: Check)
    requires CheckJson(a) == CheckJson(b)
    ensures a == b
  {
    var x, y := CheckJson(a).fields, CheckJson(b).fields;
    assert x["pointer"] == y["pointer"] && x["expected"] == y["expected"] && x["required"] == y["required"];
  }

  // ---- names and pointers ----

  predicate OccursAt(part: string, s: string, i: nat) {
    i + |part| <= |s| && s[i..i + |part|] == part
  }

  lemma {:induction false} ContainsExactly(s: string, part: string)
    ensures Contains(s, part) <==> exists i: nat :: OccursAt(part, s, i)
  {
    assert |part| <= |s| && part == s[..|part|] ==> OccursAt(part, s, 0);
    if s != "" {
      ContainsExactly(s[1..], part);
      forall i: nat
        ensures OccursAt(part, s[1..], i) <==> OccursAt(part, s, i + 1)
      {
        if i + 1 + |part| <= |s| {
          assert s[1..][i..i + |part|] == s[i + 1..i + 1 + |part|];
        }
      }
      if i: nat :| OccursAt(part, s, i) {
        if i > 0 {
          assert OccursAt(part, s[1..], i - 1);
        }
      }
    }
  }

  /** Exactly which pointers are usable: short, absolute, away from binding metadata, and every tilde an escape. */
  lemma PointerRule(s: string)
    ensures PointerValid(s) <==>
              && s != "" && s[0] == '/' && Utf8Length(s) <= 256
              && (forall i: nat :: !OccursAt("/binding", s, i) && !OccursAt("/artifact", s, i))
              && forall i | 0 <= i < |s| && s[i] == '~' :: i + 1 < |s| && s[i + 1] in "01"
  {
    hide Contains, Utf8Length, OccursAt;
    ContainsExactly(s, "/binding");
    ContainsExactly(s, "/artifact");
  }

  /** Exactly which names are identifiers: up to 96 ASCII letters, digits, hyphens, underscores and dots. */
  lemma IdentifierRule(s: string)
    ensures Identifier(s) <==>
              && 1 <= |s| <= 96
              && forall i | 0 <= i < |s| :: var c := s[i] as int;
                   0x61 <= c <= 0x7A || 0x41 <= c <= 0x5A || 0x30 <= c <= 0x39 || c in {0x2D, 0x5F, 0x2E}
  {
  }
}
