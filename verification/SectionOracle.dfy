/**
 * The independent oracle: every assignment of yield states to the steel layers gives a quadratic
 * in the depth; an admissible root is a candidate. Square roots are supplied, and exact.
 */
module SectionOracle {
  import opened Common
  import opened Section

  datatype Active = YieldsInCompression | StaysElastic | YieldsInTension

  /** Relative slack at the edge of a yield state. */
  const BOUNDARY: real := 0.000000000000000000000000000000000000000000001

  /** Relative distance below which two candidates are the same. */
  const SAME: real := 0.0000000000000000000000000000000000000001

  // ---- the quadratic of one assignment ----

  function YieldedForce(state: Active, l: Layer): real {
    match state
    case YieldsInCompression => -(l.area * l.yieldStress)
    case StaysElastic => 0.0
    case YieldsInTension => l.area * l.yieldStress
  }

  function YieldedSum(states: seq<Active>, layers: seq<Layer>): real
    requires |states| == |layers|
  {
    if states == [] then 0.0 else YieldedForce(states[0], layers[0]) + YieldedSum(states[1..], layers[1..])
  }

  function ElasticTerm(l: Layer, topStrain: real): real {
    l.area * l.modulus * topStrain
  }

  function ElasticPart(state: Active, l: Layer, topStrain: real): real {
    if state.StaysElastic? then ElasticTerm(l, topStrain) else 0.0
  }

  function ElasticSum(states: seq<Active>, layers: seq<Layer>, topStrain: real): real
    requires |states| == |layers|
  {
    if states == [] then 0.0 else ElasticPart(states[0], layers[0], topStrain) + ElasticSum(states[1..], layers[1..], topStrain)
  }

  function DepthPart(state: Active, l: Layer, topStrain: real): real {
    if state.StaysElastic? then ElasticTerm(l, topStrain) * l.depth else 0.0
  }

  function DepthSum(states: seq<Active>, layers: seq<Layer>, topStrain: real): real
    requires |states| == |layers|
  {
    if states == [] then 0.0 else DepthPart(states[0], layers[0], topStrain) + DepthSum(states[1..], layers[1..], topStrain)
  }

  function Linear(d: Data, states: seq<Active>): real
    requires |states| == |d.layers|
  {
    ElasticSum(states, d.layers, d.topStrain) - YieldedSum(states, d.layers)
  }

  function Discriminant(k: real, b: real, depthSum: real): real {
    b * b + 4.0 * k * depthSum
  }

  predicate SquareRoot(x: real, s: real) {
    s >= 0.0 && s * s == x
  }

  /** The depth one assignment proposes, given the square root of its discriminant. */
  function ProposedDepth(k: real, b: real, depthSum: real, yielded: real, s: real): Option<real>
    requires k > 0.0 && depthSum >= 0.0 && SquareRoot(Discriminant(k, b, depthSum), s)
  {
    if depthSum == 0.0 then (if yielded <= 0.0 then None else Some(yielded / k))
    else
      assert b + s > 0.0 || b < 0.0 by {
        RootExceeds(k, b, depthSum, s);
      }
      Some(if b >= 0.0 then 2.0 * depthSum / (b + s) else (s - b) / (2.0 * k))
  }

  lemma RootExceeds(k: real, b: real, depthSum: real, s: real)
    requires k > 0.0 && depthSum > 0.0 && SquareRoot(Discriminant(k, b, depthSum), s)
    ensures s > 0.0
  {
    assert k * depthSum > 0.0 by {
      ScaleLess(0.0, k, depthSum);
    }
    assert 4.0 * k * depthSum == 4.0 * (k * depthSum);
    assert b * b >= 0.0;
    assert s * s > 0.0;
  }

  function CandidateDepth(d: Data, states: seq<Active>, s: real): (r: Option<real>)
    requires DataOk(d) && |states| == |d.layers|
    requires SquareRoot(Discriminant(Stiffness(d), Linear(d, states), DepthSum(states, d.layers, d.topStrain)), s)
    ensures r.Some? ==> 0.0 < r.value < d.height
  {
    StiffnessPositive(d);
    DepthSumSign(states, d.layers, d.height, d.topStrain);
    var c := ProposedDepth(Stiffness(d), Linear(d, states), DepthSum(states, d.layers, d.topStrain), YieldedSum(states, d.layers), s);
    if c.Some? && 0.0 < c.value < d.height then c else None
  }

  lemma ElasticTermPositive(l: Layer, height: real, topStrain: real)
    requires LayerOk(l, height) && topStrain > 0.0
    ensures ElasticTerm(l, topStrain) > 0.0 && ElasticTerm(l, topStrain) * l.depth > 0.0
  {
    ScaleLess(0.0, l.area, l.modulus);
    ScaleLess(0.0, l.area * l.modulus, topStrain);
    ScaleLess(0.0, ElasticTerm(l, topStrain), l.depth);
  }

  /** The constant term vanishes exactly when no layer stays elastic. */
  lemma {:induction false} DepthSumSign(states: seq<Active>, layers: seq<Layer>, height: real, topStrain: real)
    requires |states| == |layers| && topStrain > 0.0 && forall i | 0 <= i < |layers| :: LayerOk(layers[i], height)
    ensures DepthSum(states, layers, topStrain) >= 0.0 && ElasticSum(states, layers, topStrain) >= 0.0
    ensures DepthSum(states, layers, topStrain) == 0.0 <==> ElasticSum(states, layers, topStrain) == 0.0
  {
    if states != [] {
      hide LayerOk, ElasticTerm;
      DepthSumSign(states[1..], layers[1..], height, topStrain);
      ElasticTermPositive(layers[0], height, topStrain);
    }
  }

  // ---- admissibility ----

  predicate AdmitsLayer(state: Active, l: Layer, topStrain: real, c: real)
    requires c > 0.0
  {
    var trial := TrialStress(l, topStrain, c);
    var fy := l.yieldStress;
    var boundary := BOUNDARY * MaxReal(MaxReal(1.0, fy), Abs(trial));
    match state
    case StaysElastic => Abs(trial) <= fy + boundary
    case YieldsInTension => trial >= fy - boundary
    case YieldsInCompression => trial <= -fy + boundary
  }

  predicate Admits(states: seq<Active>, layers: seq<Layer>, topStrain: real, c: real)
    requires |states| == |layers| && c > 0.0
  {
    forall i | 0 <= i < |states| :: AdmitsLayer(states[i], layers[i], topStrain, c)
  }

  function StateStress(state: Active, l: Layer, topStrain: real, c: real): real
    requires c > 0.0
  {
    match state
    case StaysElastic => TrialStress(l, topStrain, c)
    case YieldsInTension => l.yieldStress
    case YieldsInCompression => -l.yieldStress
  }

  function LayerForce(state: Active, l: Layer, topStrain: real, c: real): real
    requires c > 0.0
  {
    l.area * StateStress(state, l, topStrain, c)
  }

  function LayerMoment(state: Active, l: Layer, topStrain: real, c: real): real
    requires c > 0.0
  {
    LayerForce(state, l, topStrain, c) * l.depth
  }

  function LayerLever(state: Active, l: Layer, topStrain: real, c: real): real
    requires c > 0.0
  {
    LayerForce(state, l, topStrain, c) * (l.depth - c)
  }

  function StateForce(states: seq<Active>, layers: seq<Layer>, topStrain: real, c: real): real
    requires |states| == |layers| && c > 0.0
  {
    if states == [] then 0.0
    else LayerForce(states[0], layers[0], topStrain, c) + StateForce(states[1..], layers[1..], topStrain, c)
  }

  function StateMoment(states: seq<Active>, layers: seq<Layer>, topStrain: real, c: real): real
    requires |states| == |layers| && c > 0.0
  {
    if states == [] then 0.0
    else
      LayerMoment(states[0], layers[0], topStrain, c)
      + StateMoment(states[1..], layers[1..], topStrain, c)
  }

  /** The same moment taken about the neutral axis. */
  function StateLever(states: seq<Active>, layers: seq<Layer>, topStrain: real, c: real): real
    requires |states| == |layers| && c > 0.0
  {
    if states == [] then 0.0
    else
      LayerLever(states[0], layers[0], topStrain, c)
      + StateLever(states[1..], layers[1..], topStrain, c)
  }

  datatype Candidate = Candidate(
    neutralAxis: real, moment: real, identityMoment: real, compression: real, residual: real,
    stresses: seq<real>, states: seq<Active>)

  function CandidateAt(d: Data, states: seq<Active>, c: real): Candidate
    requires |states| == |d.layers| && c > 0.0
  {
    var k := Stiffness(d);
    Candidate(c,
              StateMoment(states, d.layers, d.topStrain, c) - k * c * c / 3.0,
              StateLever(states, d.layers, d.topStrain, c) + 2.0 * k * c * c / 3.0,
              Compression(d, c),
              Compression(d, c) - StateForce(states, d.layers, d.topStrain, c),
              seq(|states|, i requires 0 <= i < |states| => StateStress(states[i], d.layers[i], d.topStrain, c)),
              states)
  }

  // ---- all assignments ----

  function Prefixed(a: Active, rest: seq<seq<Active>>): (r: seq<seq<Active>>)
    ensures |r| == |rest| && forall i | 0 <= i < |r| :: r[i] == [a] + rest[i]
  {
    seq(|rest|, i requires 0 <= i < |rest| => [a] + rest[i])
  }

  function Extended(rest: seq<seq<Active>>): seq<seq<Active>> {
    Prefixed(YieldsInCompression, rest) + Prefixed(StaysElastic, rest) + Prefixed(YieldsInTension, rest)
  }

  /** Every assignment to `n` layers, the last layer varying fastest. */
  function Assignments(n: nat): seq<seq<Active>> {
    if n == 0 then [[]] else Extended(Assignments(n - 1))
  }

  lemma PrefixedHas(a: Active, rest: seq<seq<Active>>, states: seq<Active>)
    ensures states in Prefixed(a, rest) <==> states != [] && states[0] == a && states[1..] in rest
  {
    if states != [] && states[0] == a && states[1..] in rest {
      var i :| 0 <= i < |rest| && rest[i] == states[1..];
      assert Prefixed(a, rest)[i] == states;
    }
  }

  lemma ExtendedHas(rest: seq<seq<Active>>, states: seq<Active>)
    ensures states in Extended(rest) <==> states != [] && states[1..] in rest
  {
    PrefixedHas(YieldsInCompression, rest, states);
    PrefixedHas(StaysElastic, rest, states);
    PrefixedHas(YieldsInTension, rest, states);
  }

  /** The assignments to `n` layers are exactly the state sequences of length `n`. */
  lemma {:induction false} AssignmentsAreAll(n: nat, states: seq<Active>)
    ensures states in Assignments(n) <==> |states| == n
  {
    hide Extended;
    if n > 0 {
      ExtendedHas(Assignments(n - 1), states);
      if states != [] {
        AssignmentsAreAll(n - 1, states[1..]);
      }
    }
  }

  /** Square roots of the discriminants of all assignments. */
  type Roots = map<seq<Active>, real>

  ghost predicate RootsOk(d: Data, roots: Roots) {
    forall states: seq<Active> | |states| == |d.layers| ::
      && states in roots
      && SquareRoot(Discriminant(Stiffness(d), Linear(d, states), DepthSum(states, d.layers, d.topStrain)), roots[states])
  }

  /** The candidate of one assignment, if it has one. */
  ghost function CandidateOf(d: Data, roots: Roots, states: seq<Active>): Option<Candidate>
    requires DataOk(d) && RootsOk(d, roots) && |states| == |d.layers|
  {
    var c := CandidateDepth(d, states, roots[states]);
    if c.Some? && Admits(states, d.layers, d.topStrain, c.value) then Some(CandidateAt(d, states, c.value)) else None
  }

  predicate Near(x: real, y: real, height: real) {
    Abs(x - y) < SAME * height
  }

  /** Walks the layers of one assignment and stops at the first one the depth contradicts. */
  method Examine(d: Data, states: seq<Active>, c: real) returns (candidate: Option<Candidate>)
    requires |states| == |d.layers| && c > 0.0
    ensures candidate == if Admits(states, d.layers, d.topStrain, c) then Some(CandidateAt(d, states, c)) else None
  {
    hide Stiffness, TrialStress;
    var stresses: seq<real> := [];
    for i := 0 to |states|
      invariant |stresses| == i
      invariant forall j | 0 <= j < i :: AdmitsLayer(states[j], d.layers[j], d.topStrain, c)
      invariant forall j | 0 <= j < i :: stresses[j] == StateStress(states[j], d.layers[j], d.topStrain, c)
    {
      if !AdmitsLayer(states[i], d.layers[i], d.topStrain, c) {
        return None;
      }
      stresses := stresses + [StateStress(states[i], d.layers[i], d.topStrain, c)];
    }
    var found := CandidateAt(d, states, c);
    assert stresses == found.stresses;
    return Some(found.(stresses := stresses));
  }

  ghost function Found(d: Data, roots: Roots, list: seq<seq<Active>>): seq<Candidate>
    requires DataOk(d) && RootsOk(d, roots) && forall i | 0 <= i < |list| :: |list[i]| == |d.layers|
  {
    if list == [] then []
    else
      var x := CandidateOf(d, roots, list[|list| - 1]);
      Found(d, roots, list[..|list| - 1]) + (if x.Some? then [x.value] else [])
  }

  /** Candidates in order; the answer exists exactly when there is a first and all others are within the same-root distance of it. */
  ghost predicate AllNearFirst(d: Data, found: seq<Candidate>) {
    found != [] && forall k | 0 < k < |found| :: Near(found[k].neutralAxis, found[0].neutralAxis, d.height)
  }

  lemma FoundGrows(d: Data, roots: Roots, list: seq<seq<Active>>, i: nat)
    requires DataOk(d) && RootsOk(d, roots) && i < |list| && forall j | 0 <= j < |list| :: |list[j]| == |d.layers|
    ensures Found(d, roots, list[..i + 1])
         == Found(d, roots, list[..i]) + (match CandidateOf(d, roots, list[i]) case Some(x) => [x] case None => [])
  {
    hide RootsOk, DataOk, CandidateOf;
    assert list[..i + 1][..i] == list[..i] && list[..i + 1][i] == list[i];
  }

  /** What the loop keeps about the candidates it holds and all that it found. */
  ghost predicate Kept(d: Data, candidates: seq<Candidate>, found: seq<Candidate>) {
    && (candidates == [] <==> found == [])
    && (candidates != [] ==> candidates[0] == found[0])
    && (|candidates| == 1 <==> AllNearFirst(d, found))
  }

  lemma KeptGrows(d: Data, candidates: seq<Candidate>, found: seq<Candidate>, x: Candidate)
    requires Kept(d, candidates, found)
    ensures (exists k | 0 <= k < |candidates| :: Near(x.neutralAxis, candidates[k].neutralAxis, d.height)) ==>
              Kept(d, candidates, found + [x])
    ensures !(exists k | 0 <= k < |candidates| :: Near(x.neutralAxis, candidates[k].neutralAxis, d.height)) ==>
              Kept(d, candidates + [x], found + [x])
  {
    hide Near;
    var more := found + [x];
    if found != [] {
      assert more[0] == found[0] && more[|found|] == x;
      assert forall k | 0 < k < |found| :: more[k] == found[k];
      assert AllNearFirst(d, more) <==> AllNearFirst(d, found) && Near(x.neutralAxis, found[0].neutralAxis, d.height);
    }
  }

  method SolveActiveStates(d: Data, roots: Roots) returns (r: Result<Candidate, string>)
    requires DataOk(d) && RootsOk(d, roots)
    ensures forall i | 0 <= i < |Assignments(|d.layers|)| :: |Assignments(|d.layers|)[i]| == |d.layers|
    ensures var found := Found(d, roots, Assignments(|d.layers|));
      && (r.Ok? <==> AllNearFirst(d, found))
      && (r.Ok? ==> r.value == found[0])
  {
    hide Stiffness, CandidateDepth, Admits, CandidateAt, DataOk, SquareRoot, Discriminant, Linear, DepthSum, Near, Found, Kept,
      AllNearFirst, Assignments;
    var list := Assignments(|d.layers|);
    forall i | 0 <= i < |list|
      ensures |list[i]| == |d.layers|
    {
      AssignmentsAreAll(|d.layers|, list[i]);
    }
    var candidates: seq<Candidate> := [];
    NothingKept(d, roots, list);
    for i := 0 to |list|
      invariant Kept(d, candidates, Found(d, roots, list[..i]))
    {
      var states := list[i];
      FoundGrows(d, roots, list, i);
      assert Found(d, roots, list[..i]) + [] == Found(d, roots, list[..i]);
      var c := CandidateDepth(d, states, roots[states]);
      if c.Some? {
        var candidate := Examine(d, states, c.value);
        if candidate.Some? {
          KeptGrows(d, candidates, Found(d, roots, list[..i]), candidate.value);
          if !(exists k | 0 <= k < |candidates| :: Near(candidate.value.neutralAxis, candidates[k].neutralAxis, d.height)) {
            candidates := candidates + [candidate.value];
          }
        }
      }
    }
    assert list[..|list|] == list;
    KeptMeans(d, candidates, Found(d, roots, list));
    if |candidates| != 1 {
      return Err("Independent oracle did not find exactly one admissible root");
    }
    return Ok(candidates[0]);
  }

  lemma NothingKept(d: Data, roots: Roots, list: seq<seq<Active>>)
    requires DataOk(d) && RootsOk(d, roots)
    ensures Kept(d, [], Found(d, roots, list[..0]))
  {
  }

  lemma KeptMeans(d: Data, candidates: seq<Candidate>, found: seq<Candidate>)
    requires Kept(d, candidates, found)
    ensures |candidates| == 1 <==> AllNearFirst(d, found)
    ensures AllNearFirst(d, found) ==> candidates[0] == found[0]
  {
  }
}
