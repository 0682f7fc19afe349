/** The oracle's audit of a calculation or a refusal, the demand comparison, and what they are worth. */
module SectionAudit {
  import opened Common
  import opened Section
  import opened SectionOracle
  import opened SectionAgreement
  import opened SectionExistence

  // ---- declared input ranges ----

  function TotalArea(layers: seq<Layer>): real {
    if layers == [] then 0.0 else layers[0].area + TotalArea(layers[1..])
  }

  predicate LayerInRange(l: Layer, height: real) {
    && 0.000001 <= l.area && 0.000001 <= l.depth < height
    && 1.0 <= l.modulus <= 10_000_000.0 && 0.000001 <= l.yieldStress <= 100_000.0
  }

  /** The ranges that request normalization enforces. */
  predicate InRange(d: Data) {
    && 1.0 <= d.width <= 100_000.0 && 1.0 <= d.height <= 100_000.0
    && 1.0 <= d.modulus <= 1_000_000.0 && 0.00000001 <= d.topStrain <= 0.1
    && 1 <= |d.layers| <= 2 && (forall i | 0 <= i < |d.layers| :: LayerInRange(d.layers[i], d.height))
    && TotalArea(d.layers) < d.width * d.height
    && 0.0 <= d.demand <= 1_000_000_000_000_000.0
    && 0.000000001 <= d.forceTolerance <= 0.01 && 0.000000000001 <= d.depthTolerance <= 0.00001
    && 0.000000000001 <= d.relativeTolerance <= 0.0000001 && 1 <= d.maxIterations <= 128
  }

  // ---- the numeric checks ----

  predicate CheckNumber(actual: real, expected: real, absolute: real, relative: real) {
    Abs(actual - expected) <= absolute + relative * MaxReal(1.0, Abs(expected))
  }

  predicate LayerMatches(d: Data, actual: SteelResult, l: Layer, c: real)
    requires c > 0.0
  {
    var expected := SteelAt(l, d.topStrain, c);
    && CheckNumber(actual.strain, expected.strain, NEAR, d.relativeTolerance)
    && CheckNumber(actual.stress, expected.stress, NEAR, d.relativeTolerance)
    && CheckNumber(actual.force, expected.force, NEAR, d.relativeTolerance)
    && actual.sign == expected.sign && actual.state == expected.state
  }

  function MomentTolerance(d: Data): real {
    d.forceTolerance * d.height * 4.0
  }

  lemma MomentToleranceIs(d: Data)
    ensures MomentTolerance(d) == 4.0 * Times(d.height, d.forceTolerance)
  {
  }

  predicate AgainstOracle(d: Data, oracle: Candidate, r: Response) {
    && CheckNumber(r.neutralAxis, oracle.neutralAxis, d.depthTolerance, d.relativeTolerance)
    && CheckNumber(r.compression, oracle.compression, d.forceTolerance, d.relativeTolerance)
    && CheckNumber(r.moment, oracle.moment, MomentTolerance(d), d.relativeTolerance)
    && CheckNumber(oracle.identityMoment, oracle.moment, 0.0, SAME)
  }

  predicate SectionMatches(d: Data, r: Response) {
    && Abs(r.residual) <= d.forceTolerance
    && |r.steel| == |d.layers|
    && 0.0 < r.neutralAxis < d.height
    && CheckNumber(r.centroid, r.neutralAxis / 3.0, d.depthTolerance, d.relativeTolerance)
    && CheckNumber(r.topStress, TopStress(d), 0.0, d.relativeTolerance)
    && CheckNumber(r.residual, Residual(d, r.neutralAxis), d.forceTolerance * 0.001, d.relativeTolerance)
  }

  predicate AgainstModel(d: Data, r: Response) {
    && SectionMatches(d, r)
    && forall i | 0 <= i < |d.layers| :: LayerMatches(d, r.steel[i], d.layers[i], r.neutralAxis)
  }

  // ---- replaying a trace ----

  /** The bounds the auditor expects before item `i`, moved only by the signs the trace itself reports. */
  function Replayed(d: Data, trace: seq<TraceItem>, i: nat): (r: (real, real))
    requires d.height > 0.0 && i <= |trace|
    ensures 0.0 <= r.0 < r.1
  {
    if i == 0 then (0.0, d.height)
    else
      var before := Replayed(d, trace, i - 1);
      if trace[i - 1].residual > 0.0 then (before.0, Middle(before)) else (Middle(before), before.1)
  }

  predicate ItemAccepted(d: Data, trace: seq<TraceItem>, i: nat)
    requires d.height > 0.0 && i < |trace|
  {
    var (lower, upper) := Replayed(d, trace, i);
    var depth := Middle((lower, upper));
    && trace[i].iteration == i + 1 && trace[i].lower == lower && trace[i].upper == upper && trace[i].depth == depth
    && Abs(trace[i].residual - Residual(d, depth)) <= 0.0000001 + d.relativeTolerance * MaxReal(1.0, Abs(Residual(d, depth)))
  }

  datatype Calculation = Calculation(response: Response, iterations: nat, trace: seq<TraceItem>)

  predicate TraceAccepted(d: Data, c: Calculation)
    requires d.height > 0.0
  {
    && 1 <= |c.trace| <= d.maxIterations && c.iterations == |c.trace|
    && (forall i | 0 <= i < |c.trace| :: ItemAccepted(d, c.trace, i))
    && var last := c.trace[|c.trace| - 1];
    && last.depth == c.response.neutralAxis && last.residual == c.response.residual && last.upper - last.lower <= d.depthTolerance
  }

  ghost predicate Verified(d: Data, oracle: Candidate, c: Calculation)
    requires d.height > 0.0
  {
    AgainstOracle(d, oracle, c.response) && AgainstModel(d, c.response) && TraceAccepted(d, c)
  }

  method CheckItem(d: Data, trace: seq<TraceItem>, i: nat, lower: real, upper: real) returns (ok: bool)
    requires d.height > 0.0 && i < |trace| && (lower, upper) == Replayed(d, trace, i)
    ensures ok == ItemAccepted(d, trace, i)
  {
    hide Residual;
    var item, depth := trace[i], (lower + upper) / 2.0;
    if item.iteration != i + 1 || item.lower != lower || item.upper != upper || item.depth != depth || depth <= 0.0 {
      return false;
    }
    var force := Residual(d, depth);
    return Abs(item.residual - force) <= 0.0000001 + d.relativeTolerance * MaxReal(1.0, Abs(force));
  }

  method ReplayTrace(d: Data, trace: seq<TraceItem>) returns (ok: bool)
    requires d.height > 0.0
    ensures ok <==> forall i | 0 <= i < |trace| :: ItemAccepted(d, trace, i)
  {
    hide ItemAccepted;
    var lower, upper := 0.0, d.height;
    for i := 0 to |trace|
      invariant (lower, upper) == Replayed(d, trace, i)
      invariant forall j | 0 <= j < i :: ItemAccepted(d, trace, j)
    {
      var accepted := CheckItem(d, trace, i, lower, upper);
      if !accepted {
        return false;
      }
      if trace[i].residual > 0.0 {
        upper := (lower + upper) / 2.0;
      } else {
        lower := (lower + upper) / 2.0;
      }
    }
    return true;
  }

  method VerifyCalculation(d: Data, oracle: Candidate, c: Calculation) returns (ok: bool)
    requires d.height > 0.0
    ensures ok == Verified(d, oracle, c)
  {
    hide AgainstOracle, ItemAccepted, LayerMatches, CheckNumber, Residual;
    var r := c.response;
    ok := SectionMatches(d, r);
    if ok {
      for i := 0 to |d.layers|
        invariant ok <==> forall j | 0 <= j < i :: LayerMatches(d, r.steel[j], d.layers[j], r.neutralAxis)
      {
        ok := ok && LayerMatches(d, r.steel[i], d.layers[i], r.neutralAxis);
      }
    }
    assert ok == AgainstModel(d, r);
    hide AgainstModel, SectionMatches;
    ok := ok && AgainstOracle(d, oracle, r);
    var n := |c.trace|;
    if ok {
      if 1 <= n <= d.maxIterations && c.iterations == n {
        var replayed := ReplayTrace(d, c.trace);
        var last := c.trace[n - 1];
        ok := replayed && last.depth == r.neutralAxis && last.residual == r.residual && last.upper - last.lower <= d.depthTolerance;
      } else {
        ok := false;
      }
    }
  }

  // ---- auditing a refusal ----

  predicate MeetsBoth(d: Data, item: TraceItem) {
    Abs(item.residual) <= d.forceTolerance && item.upper - item.lower <= d.depthTolerance
  }

  /** Over exact arithmetic a bisection never stalls, so only running out of iterations is a reason to stop. */
  predicate RefusalAccepted(d: Data, trace: seq<TraceItem>)
    requires d.height > 0.0
  {
    && 1 <= |trace| == d.maxIterations
    && forall i | 0 <= i < |trace| :: ItemAccepted(d, trace, i) && !MeetsBoth(d, trace[i])
  }

  method VerifyRefusal(d: Data, trace: seq<TraceItem>) returns (ok: bool)
    requires d.height > 0.0
    ensures ok == RefusalAccepted(d, trace)
  {
    hide ItemAccepted;
    if !(1 <= |trace| <= d.maxIterations) {
      return false;
    }
    var lower, upper, stagnant := 0.0, d.height, false;
    for i := 0 to |trace|
      invariant (lower, upper) == Replayed(d, trace, i) && !stagnant
      invariant forall j | 0 <= j < i :: ItemAccepted(d, trace, j) && !MeetsBoth(d, trace[j])
    {
      var accepted := CheckItem(d, trace, i, lower, upper);
      if !accepted || MeetsBoth(d, trace[i]) {
        return false;
      }
      var depth := (lower + upper) / 2.0;
      stagnant := depth == (if trace[i].residual > 0.0 then upper else lower);
      if trace[i].residual > 0.0 {
        upper := depth;
      } else {
        lower := depth;
      }
    }
    return stagnant || |trace| == d.maxIterations;
  }

  // ---- the solver's own traces pass ----

  lemma {:induction false} SolverTraceReplays(d: Data, n: nat, i: nat)
    requires d.height > 0.0 && i <= n
    ensures |TraceOf(d, n)| == n && Replayed(d, TraceOf(d, n), i) == Bracket(d, i)
  {
    hide Residual;
    if i > 0 {
      SolverTraceReplays(d, n, i - 1);
      assert TraceOf(d, n)[i - 1] == ItemAt(d, i - 1);
    }
  }

  lemma SmallEnough(relative: real, x: real)
    requires relative > 0.0 && x >= 0.0
    ensures relative * MaxReal(1.0, x) >= relative
  {
    ScaleAtMost(1.0, MaxReal(1.0, x), relative);
  }

  lemma SolverItemAccepted(d: Data, n: nat, i: nat)
    requires d.height > 0.0 && d.relativeTolerance > 0.0 && i < n
    ensures |TraceOf(d, n)| == n && ItemAccepted(d, TraceOf(d, n), i)
  {
    hide Residual;
    SolverTraceReplays(d, n, i);
    assert TraceOf(d, n)[i] == ItemAt(d, i);
    SmallEnough(d.relativeTolerance, Abs(Residual(d, Depth(d, i))));
  }

  /** A refusal for lack of convergence always passes its audit. */
  lemma NonConvergenceIsAccepted(d: Data)
    requires InRange(d) && forall i | 0 <= i < d.maxIterations :: !Stops(d, i)
    ensures RefusalAccepted(d, TraceOf(d, d.maxIterations))
  {
    hide Residual, ItemAccepted, LayerInRange, TotalArea;
    var trace := TraceOf(d, d.maxIterations);
    forall i | 0 <= i < |trace|
      ensures ItemAccepted(d, trace, i) && !MeetsBoth(d, trace[i])
    {
      SolverItemAccepted(d, d.maxIterations, i);
      assert trace[i] == ItemAt(d, i) && !Stops(d, i);
    }
  }

  // ---- declared ranges make the slack negligible ----

  lemma StiffnessAtLeast(width: real, modulus: real, strain: real)
    requires 1.0 <= width && 1.0 <= modulus && 0.00000001 <= strain
    ensures width * modulus * strain / 2.0 >= 0.000000005
  {
    var area := width * modulus;
    ScaleAtMost(1.0, width, modulus);
    assert area >= 1.0;
    ScaleAtMost(1.0, area, strain);
    assert area * strain >= 0.00000001;
  }

  lemma RangeIsOk(d: Data)
    requires InRange(d)
    ensures DataOk(d) && Stiffness(d) >= 0.000000005
  {
    StiffnessAtLeast(d.width, d.modulus, d.topStrain);
    forall i | 0 <= i < |d.layers|
      ensures LayerOk(d.layers[i], d.height)
    {
      assert LayerInRange(d.layers[i], d.height);
    }
  }

  lemma {:induction false} SlackBelowArea(layers: seq<Layer>, height: real)
    requires forall i | 0 <= i < |layers| :: LayerInRange(layers[i], height)
    ensures 0.0 <= Slack(layers) <= Times(TotalArea(layers), 200_000.0 * BOUNDARY)
  {
    if layers != [] {
      var l := layers[0];
      assert LayerInRange(l, height);
      assert 0.0 <= LayerSlack(l) <= Times(l.area, 200_000.0 * BOUNDARY) by {
        ScaleAtMost(EdgeSlack(l), 200_000.0 * BOUNDARY, l.area);
        ScaleAtMost(0.0, EdgeSlack(l), l.area);
      }
      hide Times, LayerSlack, LayerInRange;
      SlackBelowArea(layers[1..], height);
      AddProducts(l.area, TotalArea(layers[1..]), 200_000.0 * BOUNDARY);
    }
  }

  lemma AddProducts(x: real, y: real, z: real)
    ensures Times(x + y, z) == Times(x, z) + Times(y, z)
  {
  }

  lemma AreaBound(width: real, height: real)
    requires 0.0 <= width <= 100_000.0 && 0.0 <= height <= 100_000.0
    ensures width * height <= 10_000_000_000.0
  {
    ScaleAtMost(width, 100_000.0, height);
    assert 100_000.0 * height <= 10_000_000_000.0;
  }

  const TINY: real := 0.000000000000000000000001

  lemma SlackIsTiny(d: Data)
    requires InRange(d)
    ensures 0.0 <= Slack(d.layers) <= TINY
  {
    hide LayerInRange, Slack, TotalArea;
    SlackBelowArea(d.layers, d.height);
    AreaBound(d.width, d.height);
    ScaleAtMost(TotalArea(d.layers), 10_000_000_000.0, 200_000.0 * BOUNDARY);
  }

  // ---- a converged calculation is always verified ----

  lemma Distance(k: real, x: real, e: real)
    requires k >= 0.000000005 && k * x <= e <= TINY
    ensures x <= 0.000000000001
  {
    if x > 0.000000000001 {
      ScaleAtMost(0.000000005, k, x);
    }
  }

  /** A depth that is balanced up to the slack lies in every bracket up to a negligible distance. */
  lemma BracketNearlyHolds(d: Data, i: nat, c: real)
    requires InRange(d) && DataOk(d) && Residual(d, d.height) > 0.0 && 0.0 < c < d.height && Abs(Residual(d, c)) <= Slack(d.layers)
    ensures Bracket(d, i).0 - 0.000000000001 <= c <= Bracket(d, i).1 + 0.000000000001
  {
    RangeIsOk(d);
    SlackIsTiny(d);
    BracketHalves(d, i);
    hide InRange, DataOk, Residual, Stiffness, Slack, Bracket;
    NotFarAbove(d, Bracket(d, i).1, c, Slack(d.layers));
    if Bracket(d, i).0 > 0.0 {
      NotFarBelow(d, Bracket(d, i).0, c, Slack(d.layers));
    }
  }

  lemma NotFarAbove(d: Data, upper: real, c: real, e: real)
    requires DataOk(d) && Stiffness(d) >= 0.000000005 && 0.0 < upper && 0.0 < c && Residual(d, upper) > 0.0
    requires Abs(Residual(d, c)) <= e <= TINY
    ensures c <= upper + 0.000000000001
  {
    hide DataOk, Residual, Stiffness;
    if c > upper {
      ResidualRises(d, upper, c);
      Distance(Stiffness(d), c - upper, e);
    }
  }

  lemma NotFarBelow(d: Data, lower: real, c: real, e: real)
    requires DataOk(d) && Stiffness(d) >= 0.000000005 && 0.0 < lower && 0.0 < c && Residual(d, lower) <= 0.0
    requires Abs(Residual(d, c)) <= e <= TINY
    ensures lower - 0.000000000001 <= c
  {
    hide DataOk, Residual, Stiffness;
    if c < lower {
      ResidualRises(d, c, lower);
      Distance(Stiffness(d), lower - c, e);
    }
  }

  lemma MomentsClose(m: real, x: real, y: real, h: real, tolerance: real, slack: real, residual: real)
    requires h > 0.0 && Abs(m - x) <= Times(h, residual) && Abs(y - x) <= Times(h, slack) && residual <= tolerance + slack
    requires slack <= tolerance && tolerance > 0.0
    ensures Abs(m - y) <= 4.0 * Times(h, tolerance)
  {
    hide Times;
    TimesGrows(h, residual, tolerance + tolerance);
    TimesDistributes(h, tolerance, tolerance);
    TimesGrows(h, slack, tolerance);
    TimesPositive(h, tolerance);
  }

  lemma TimesPositive(h: real, x: real)
    requires h > 0.0 && x > 0.0
    ensures Times(h, x) > 0.0
  {
    ScaleLess(0.0, h, x);
  }

  lemma CheckPasses(actual: real, expected: real, absolute: real, extra: real, relative: real)
    requires relative > 0.0 && extra <= relative && Abs(actual - expected) <= absolute + extra
    ensures CheckNumber(actual, expected, absolute, relative)
  {
    SmallEnough(relative, Abs(expected));
  }

  lemma PassesOracle(d: Data, oracle: Candidate, c: real)
    requires InRange(d) && DataOk(d) && 0.0 < c < d.height && 0.0 < oracle.neutralAxis < d.height
    requires Abs(Residual(d, c)) <= d.forceTolerance && Abs(c - oracle.neutralAxis) <= d.depthTolerance + 0.000000000001
    requires oracle.moment == oracle.identityMoment && oracle.compression == Compression(d, oracle.neutralAxis)
    requires Abs(Residual(d, oracle.neutralAxis)) <= Slack(d.layers)
    requires Abs(oracle.moment - Moment(d, oracle.neutralAxis)) <= Times(d.height, Slack(d.layers))
    ensures AgainstOracle(d, oracle, ResponseAtDepth(d, c))
  {
    SlackIsTiny(d);
    RangeTolerances(d);
    hide Residual, Slack, Moment, Compression, DataOk, InRange, CheckNumber, Times, MomentTolerance;
    var o := oracle.neutralAxis;
    CheckPasses(c, o, d.depthTolerance, 0.000000000001, d.relativeTolerance);
    PassesCompression(d, o, c, Slack(d.layers));
    PassesMoment(d, oracle.moment, o, c, Slack(d.layers));
    CheckPasses(oracle.identityMoment, oracle.moment, 0.0, 0.0, SAME);
  }

  lemma PassesCompression(d: Data, o: real, c: real, e: real)
    requires DataOk(d) && 0.0 < c < d.height && 0.0 < o < d.height && e <= TINY && d.relativeTolerance >= TINY
    requires Abs(Residual(d, c)) <= d.forceTolerance && Abs(Residual(d, o)) <= e
    ensures CheckNumber(Compression(d, c), Compression(d, o), d.forceTolerance, d.relativeTolerance)
  {
    hide Residual, Moment, Compression, DataOk, CheckNumber;
    ErrorsFollowResidual(d, o, c);
    CheckPasses(Compression(d, c), Compression(d, o), d.forceTolerance, TINY, d.relativeTolerance);
  }

  lemma AbsDifference(x: real, y: real, a: real, b: real)
    requires Abs(x) <= a && Abs(y) <= b
    ensures Abs(x - y) <= a + b
  {
  }

  lemma PassesMoment(d: Data, moment: real, o: real, c: real, e: real)
    requires DataOk(d) && 0.0 < c < d.height && 0.0 < o < d.height && e <= d.forceTolerance && 0.0 < d.forceTolerance
    requires Abs(Residual(d, c)) <= d.forceTolerance && Abs(Residual(d, o)) <= e && d.relativeTolerance > 0.0
    requires Abs(moment - Moment(d, o)) <= Times(d.height, e)
    ensures CheckNumber(Moment(d, c), moment, MomentTolerance(d), d.relativeTolerance)
  {
    hide Residual, Moment, Compression, DataOk, CheckNumber, Times, MomentTolerance;
    MomentToleranceIs(d);
    ErrorsFollowResidual(d, o, c);
    hide Abs;
    AbsDifference(Residual(d, c), Residual(d, o), d.forceTolerance, e);
    MomentsClose(Moment(d, c), Moment(d, o), moment, d.height, d.forceTolerance, e, Abs(Residual(d, c) - Residual(d, o)));
    CheckPasses(Moment(d, c), moment, MomentTolerance(d), 0.0, d.relativeTolerance);
  }

  lemma RangeTolerances(d: Data)
    requires InRange(d)
    ensures d.height > 0.0 && d.forceTolerance > TINY && d.depthTolerance > 0.0 && d.relativeTolerance >= 0.000000000001
  {
    hide LayerInRange, TotalArea;
  }

  lemma LayerMatchesItself(d: Data, l: Layer, c: real)
    requires c > 0.0 && d.relativeTolerance > 0.0
    ensures LayerMatches(d, SteelAt(l, d.topStrain, c), l, c)
  {
    hide SteelAt, CheckNumber;
    var x := SteelAt(l, d.topStrain, c);
    CheckPasses(x.strain, x.strain, NEAR, 0.0, d.relativeTolerance);
    CheckPasses(x.stress, x.stress, NEAR, 0.0, d.relativeTolerance);
    CheckPasses(x.force, x.force, NEAR, 0.0, d.relativeTolerance);
  }

  lemma PassesModel(d: Data, c: real)
    requires DataOk(d) && 0.0 < c < d.height && Abs(Residual(d, c)) <= d.forceTolerance
    ensures AgainstModel(d, ResponseAtDepth(d, c))
  {
    hide Residual, Moment, Compression, TopStress, SteelAt, LayerMatches, CheckNumber;
    var r := ResponseAtDepth(d, c);
    CheckPasses(r.centroid, c / 3.0, d.depthTolerance, 0.0, d.relativeTolerance);
    CheckPasses(r.topStress, TopStress(d), 0.0, 0.0, d.relativeTolerance);
    CheckPasses(r.residual, r.residual, d.forceTolerance * 0.001, 0.0, d.relativeTolerance);
    assert SectionMatches(d, r);
    forall i | 0 <= i < |d.layers|
      ensures LayerMatches(d, r.steel[i], d.layers[i], c)
    {
      LayerMatchesItself(d, d.layers[i], c);
    }
  }

  /** Against any candidate a bisection that converged passes every check of the audit. */
  lemma CandidateVerifies(d: Data, roots: Roots, states: seq<Active>, n: nat)
    requires InRange(d) && DataOk(d) && RootsOk(d, roots) && |states| == |d.layers| && CandidateOf(d, roots, states).Some?
    requires Residual(d, d.height) > 0.0 && FirstStop(d, n)
    ensures 0.0 < Depth(d, n - 1)
    ensures Verified(d, CandidateOf(d, roots, states).value, Calculation(ResponseAtDepth(d, Depth(d, n - 1)), n, TraceOf(d, n)))
  {
    var c := Depth(d, n - 1);
    StopFacts(d, n);
    assert 0.0 < c < d.height;
    CandidateIsNearlyBalanced(d, roots, states);
    var oracle := CandidateOf(d, roots, states).value;
    hide RootsOk, CandidateOf, CandidateAt, Residual, Moment, Compression, Slack, InRange, AgainstOracle, AgainstModel, Depth;
    BracketNearlyHolds(d, n - 1, oracle.neutralAxis);
    assert Abs(c - oracle.neutralAxis) <= d.depthTolerance + 0.000000000001 by {
      MiddleIsNear(d, n - 1, oracle.neutralAxis);
    }
    PassesOracle(d, oracle, c);
    PassesModel(d, c);
    SolverTraceAccepted(d, n);
  }

  /**
   * The tolerances always accept a converged solve: the oracle finds a candidate, and whichever it
   * settles on, every check of the audit passes.
   */
  lemma ConvergedSolveIsVerified(d: Data, roots: Roots, n: nat)
    requires InRange(d) && DataOk(d) && RootsOk(d, roots) && Residual(d, d.height) > 0.0 && FirstStop(d, n)
    ensures 0.0 < Depth(d, n - 1)
    ensures forall i | 0 <= i < |Assignments(|d.layers|)| :: |Assignments(|d.layers|)[i]| == |d.layers|
    ensures var found := Found(d, roots, Assignments(|d.layers|));
      && found != []
      && forall k | 0 <= k < |found| ::
           Verified(d, found[k], Calculation(ResponseAtDepth(d, Depth(d, n - 1)), n, TraceOf(d, n)))
  {
    assert d.layers != [];
    StopFacts(d, n);
    hide InRange, DataOk, RootsOk, Residual, FirstStop, Depth, Found, Assignments, Verified, CandidateOf;
    OracleHasCandidate(d, roots);
    var found := Found(d, roots, Assignments(|d.layers|));
    forall k | 0 <= k < |found|
      ensures Verified(d, found[k], Calculation(ResponseAtDepth(d, Depth(d, n - 1)), n, TraceOf(d, n)))
    {
      var i := FoundFrom(d, roots, Assignments(|d.layers|), k);
      CandidateVerifies(d, roots, Assignments(|d.layers|)[i], n);
    }
  }

  lemma MiddleIsNear(d: Data, i: nat, c: real)
    requires d.height > 0.0 && Bracket(d, i).0 - 0.000000000001 <= c <= Bracket(d, i).1 + 0.000000000001
    ensures Abs(Depth(d, i) - c) <= Bracket(d, i).1 - Bracket(d, i).0 + 0.000000000001
  {
    hide Bracket;
  }

  lemma SolverTraceAccepted(d: Data, n: nat)
    requires DataOk(d) && FirstStop(d, n)
    ensures 0.0 < Depth(d, n - 1)
    ensures TraceAccepted(d, Calculation(ResponseAtDepth(d, Depth(d, n - 1)), n, TraceOf(d, n)))
  {
    StopFacts(d, n);
    hide Residual, Bracket, ItemAccepted, Moment, Compression;
    forall i | 0 <= i < n
      ensures ItemAccepted(d, TraceOf(d, n), i)
    {
      SolverItemAccepted(d, n, i);
    }
    assert TraceOf(d, n)[n - 1] == ItemAt(d, n - 1);
  }

  // ---- comparing with the demand ----

  datatype Verdict = Indeterminate | Below | Exceeds

  function CompareDemand(d: Data, moment: real, ratioLimit: real): Verdict {
    var bound := 4.0 * d.forceTolerance * d.height + d.relativeTolerance * Abs(moment);
    var difference := ratioLimit * moment - d.demand;
    if Abs(difference) <= bound then Indeterminate else if difference > 0.0 then Below else Exceeds
  }

  /** The verdict exact arithmetic would give, with no tolerance at all. */
  function ExactVerdict(d: Data, moment: real, ratioLimit: real): Verdict {
    if ratioLimit * moment == d.demand then Indeterminate else if ratioLimit * moment > d.demand then Below else Exceeds
  }

  lemma RatioShrinks(ratio: real, m: real, exact: real, e: real)
    requires 0.0 <= ratio <= 1.0 && Abs(m - exact) <= e
    ensures Abs(ratio * m - ratio * exact) <= e
  {
    if ratio > 0.0 {
      CloseProducts(ratio, m, exact, e);
      ScaleAtMost(ratio, 1.0, e);
    }
  }

  /** A definite verdict on a converged answer is the verdict of the exact equilibrium, which exists and is the only one. */
  lemma DefiniteVerdictIsExact(d: Data, roots: Roots, n: nat, ratioLimit: real) returns (root: real)
    requires DataOk(d) && RootsOk(d, roots) && d.layers != [] && Residual(d, d.height) > 0.0
    requires FirstStop(d, n) && 0.0 <= ratioLimit <= 1.0
    ensures 0.0 < root < d.height && Residual(d, root) == 0.0
    ensures forall c | c > 0.0 && Residual(d, c) == 0.0 :: c == root
    ensures Depth(d, n - 1) > 0.0
    ensures var verdict := CompareDemand(d, Moment(d, Depth(d, n - 1)), ratioLimit);
      !verdict.Indeterminate? ==> verdict == ExactVerdict(d, Moment(d, root), ratioLimit)
  {
    assert n >= 1;
    hide Residual, Moment, Compression, DataOk, RootsOk, FirstStop, Depth, CompareDemand, ExactVerdict;
    root := ConvergedErrorBounds(d, roots, n);
    OkIsPositive(d);
    VerdictSurvives(d, Moment(d, Depth(d, n - 1)), Moment(d, root), ratioLimit);
  }

  lemma VerdictSurvives(d: Data, m: real, exact: real, ratio: real)
    requires 0.0 <= ratio <= 1.0 && d.height > 0.0 && d.forceTolerance > 0.0 && d.relativeTolerance > 0.0
    requires Abs(m - exact) <= d.height * d.forceTolerance
    ensures !CompareDemand(d, m, ratio).Indeterminate? ==> CompareDemand(d, m, ratio) == ExactVerdict(d, exact, ratio)
  {
    var p := d.height * d.forceTolerance;
    RatioShrinks(ratio, m, exact, p);
    ScaleLess(0.0, d.height, d.forceTolerance);
    ScaleAtMost(0.0, Abs(m), d.relativeTolerance);
    assert 4.0 * d.forceTolerance * d.height == 4.0 * p;
    VerdictArithmetic(d, ratio * m, ratio * exact, m, exact, ratio, p, 4.0 * d.forceTolerance * d.height, d.relativeTolerance * Abs(m));
  }

  lemma VerdictArithmetic(d: Data, x: real, y: real, m: real, exact: real, ratio: real, p: real, q: real, r: real)
    requires x == ratio * m && y == ratio * exact && Abs(x - y) <= p && 0.0 < p && q == 4.0 * p && 0.0 <= r
    requires q == 4.0 * d.forceTolerance * d.height && r == d.relativeTolerance * Abs(m)
    ensures !CompareDemand(d, m, ratio).Indeterminate? ==> CompareDemand(d, m, ratio) == ExactVerdict(d, exact, ratio)
  {
  }

  lemma OkIsPositive(d: Data)
    requires DataOk(d)
    ensures d.height > 0.0 && d.forceTolerance > 0.0 && d.relativeTolerance > 0.0
  {
  }
}
