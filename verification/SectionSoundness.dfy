/**
 * What an accepted audit is worth: whatever calculation passes, its depth, compression, moment and
 * steel results are those of the exact equilibrium up to the declared tolerances.
 */
module SectionSoundness {
  import opened Common
  import opened Section
  import opened SectionOracle
  import opened SectionAgreement
  import opened SectionExistence
  import opened SectionAudit

  // ---- an equilibrium always exists, inside the section or below it ----

  lemma HeightIsFree(d: Data, height: real, c: real)
    requires c > 0.0
    ensures var e := d.(height := height);
      Residual(e, c) == Residual(d, c) && Moment(e, c) == Moment(d, c) && Compression(e, c) == Compression(d, c) && Stiffness(e) == Stiffness(d)
  {
  }

  lemma TallerIsOk(d: Data, roots: Roots, height: real)
    requires DataOk(d) && RootsOk(d, roots) && height >= d.height
    ensures DataOk(d.(height := height)) && RootsOk(d.(height := height), roots)
  {
    var e := d.(height := height);
    forall i | 0 <= i < |e.layers|
      ensures LayerOk(e.layers[i], height)
    {
      assert LayerOk(d.layers[i], d.height);
    }
    hide DataOk, SquareRoot, Discriminant, DepthSum, ElasticSum, YieldedSum;
    forall states: seq<Active> | |states| == |e.layers|
      ensures states in roots && SquareRoot(Discriminant(Stiffness(e), Linear(e, states), DepthSum(states, e.layers, e.topStrain)), roots[states])
    {
      assert Stiffness(e) == Stiffness(d) && Linear(e, states) == Linear(d, states);
    }
  }

  /** Every section has exactly one depth in equilibrium, if not above its bottom then below. */
  lemma EquilibriumAnywhere(d: Data, roots: Roots) returns (root: real)
    requires DataOk(d) && RootsOk(d, roots) && d.layers != []
    ensures root > 0.0 && Residual(d, root) == 0.0
    ensures forall c | c > 0.0 && Residual(d, c) == 0.0 :: c == root
  {
    var height := DeepEnough(d);
    var e := d.(height := height);
    TallerIsOk(d, roots, height);
    HeightIsFree(d, height, height);
    hide DataOk, RootsOk, Residual;
    root := EquilibriumExists(e, roots);
    HeightIsFree(d, height, root);
    forall c | c > 0.0 && Residual(d, c) == 0.0
      ensures c == root
    {
      RootIsUnique(d, c, root);
    }
  }

  lemma DeepEnough(d: Data) returns (height: real)
    requires DataOk(d)
    ensures height >= d.height > 0.0 && Residual(d, height) > 0.0
  {
    StiffnessPositive(d);
    hide Residual, Stiffness;
    var rise := Abs(Residual(d, d.height)) + 1.0;
    PositiveQuotient(rise, Stiffness(d));
    height := d.height + rise / Stiffness(d);
    ResidualRises(d, d.height, height);
    ProductOverFactor(Stiffness(d), rise);
  }

  // ---- what the checks mean ----

  /** Within an absolute and a relative distance, the relative one never less than of one unit. */
  predicate Within(x: real, y: real, absolute: real, relative: real) {
    && x - y <= absolute + relative * MaxReal(1.0, Abs(y))
    && y - x <= absolute + relative * MaxReal(1.0, Abs(y))
  }

  lemma CheckedIsWithin(x: real, y: real, absolute: real, relative: real)
    ensures CheckNumber(x, y, absolute, relative) <==> Within(x, y, absolute, relative)
  {
  }

  /** The stress of steel that yields at `fy` in both directions. */
  function YieldingStress(trial: real, fy: real): real {
    if trial > fy then fy else if trial < -fy then -fy else trial
  }

  /** Reported numbers are close to these, and the labels are exactly theirs. */
  predicate SteelFits(s: SteelResult, strain: real, trial: real, stress: real, force: real, fy: real, relative: real) {
    && Within(s.strain, strain, 0.00000001, relative)
    && Within(s.stress, stress, 0.00000001, relative)
    && Within(s.force, force, 0.00000001, relative)
    && (s.sign.InTension? <==> (stress > 0.00000001 || stress < -0.00000001) && strain > 0.0)
    && (s.sign.InCompression? <==> (stress > 0.00000001 || stress < -0.00000001) && strain <= 0.0)
    && (s.state.Yielded? <==> trial > fy + 0.00000001 || trial < -fy - 0.00000001)
    && (s.state.Elastic? <==> -fy + 0.00000001 < trial < fy - 0.00000001)
  }

  function StrainAt(l: Layer, topStrain: real, c: real): real
    requires c > 0.0
  {
    topStrain * (l.depth / c - 1.0)
  }

  function ElasticStressAt(l: Layer, topStrain: real, c: real): real
    requires c > 0.0
  {
    l.modulus * StrainAt(l, topStrain, c)
  }

  function ForceAt(l: Layer, topStrain: real, c: real): real
    requires c > 0.0
  {
    l.area * YieldingStress(ElasticStressAt(l, topStrain, c), l.yieldStress)
  }

  /** The steel of one layer is as it must be at the reported depth. */
  predicate SteelIsRight(d: Data, s: SteelResult, l: Layer, c: real)
    requires c > 0.0
  {
    SteelFits(s, StrainAt(l, d.topStrain, c), ElasticStressAt(l, d.topStrain, c),
              YieldingStress(ElasticStressAt(l, d.topStrain, c), l.yieldStress), ForceAt(l, d.topStrain, c), l.yieldStress, d.relativeTolerance)
  }

  lemma MatchedIsRight(d: Data, s: SteelResult, l: Layer, c: real)
    requires c > 0.0 && l.yieldStress > 0.0 && LayerMatches(d, s, l, c)
    ensures SteelIsRight(d, s, l, c)
  {
    hide SteelFits, YieldingStress, SteelAt, Strain, TrialStress, LayerMatches, StrainAt, ElasticStressAt, ForceAt;
    MatchedFits(d, s, l, c);
    SteelNumbers(l, d.topStrain, c);
  }

  lemma MatchedFits(d: Data, s: SteelResult, l: Layer, c: real)
    requires c > 0.0 && l.yieldStress > 0.0 && LayerMatches(d, s, l, c)
    ensures var e := SteelAt(l, d.topStrain, c);
      SteelFits(s, e.strain, TrialStress(l, d.topStrain, c), e.stress, e.force, l.yieldStress, d.relativeTolerance)
  {
    hide Stress, Strain, TrialStress;
    SteelSigns(d, l, c, s);
    SteelStates(d, l, c, s);
    var e := SteelAt(l, d.topStrain, c);
    hide SteelAt, CheckNumber, Within;
    CheckedIsWithin(s.strain, e.strain, NEAR, d.relativeTolerance);
    CheckedIsWithin(s.stress, e.stress, NEAR, d.relativeTolerance);
    CheckedIsWithin(s.force, e.force, NEAR, d.relativeTolerance);
  }

  lemma SteelNumbers(l: Layer, topStrain: real, c: real)
    requires c > 0.0 && l.yieldStress > 0.0
    ensures SteelAt(l, topStrain, c).strain == StrainAt(l, topStrain, c)
    ensures SteelAt(l, topStrain, c).stress == YieldingStress(ElasticStressAt(l, topStrain, c), l.yieldStress)
    ensures SteelAt(l, topStrain, c).force == ForceAt(l, topStrain, c)
    ensures TrialStress(l, topStrain, c) == ElasticStressAt(l, topStrain, c)
  {
    ClampIs(TrialStress(l, topStrain, c), l.yieldStress);
    hide Clamp, YieldingStress;
  }

  lemma ClampIs(x: real, limit: real)
    requires limit > 0.0
    ensures Clamp(x, limit) == YieldingStress(x, limit)
  {
  }

  lemma SteelSigns(d: Data, l: Layer, c: real, s: SteelResult)
    requires c > 0.0 && s.sign == SteelAt(l, d.topStrain, c).sign
    ensures var stress := Stress(l, d.topStrain, c); var strain := Strain(l, d.topStrain, c);
      && (s.sign.InTension? <==> (stress > 0.00000001 || stress < -0.00000001) && strain > 0.0)
      && (s.sign.InCompression? <==> (stress > 0.00000001 || stress < -0.00000001) && strain <= 0.0)
  {
    hide Stress, Strain;
  }

  lemma SteelStates(d: Data, l: Layer, c: real, s: SteelResult)
    requires c > 0.0 && l.yieldStress > 0.0 && s.state == SteelAt(l, d.topStrain, c).state
    ensures var trial := TrialStress(l, d.topStrain, c);
      && (s.state.Yielded? <==> trial > l.yieldStress + 0.00000001 || trial < -l.yieldStress - 0.00000001)
      && (s.state.Elastic? <==> -l.yieldStress + 0.00000001 < trial < l.yieldStress - 0.00000001)
  {
    hide Stress, TrialStress;
  }

  // ---- a candidate is next to the equilibrium ----

  lemma NearRoot(d: Data, o: real, root: real)
    requires InRange(d) && DataOk(d) && 0.0 < o < d.height && Abs(Residual(d, o)) <= Slack(d.layers)
    requires root > 0.0 && Residual(d, root) == 0.0
    ensures Abs(o - root) <= 0.000000000001
    ensures Abs(Compression(d, o) - Compression(d, root)) <= TINY
    ensures Abs(Moment(d, o) - Moment(d, root)) <= Times(MaxReal(d.height, root), TINY)
  {
    RangeIsOk(d);
    SlackIsTiny(d);
    var height := MaxReal(d.height, root);
    var e := d.(height := height);
    assert DataOk(e) by {
      forall i | 0 <= i < |e.layers|
        ensures LayerOk(e.layers[i], height)
      {
        assert LayerOk(d.layers[i], d.height);
      }
    }
    HeightIsFree(d, height, o);
    HeightIsFree(d, height, root);
    hide InRange, DataOk, Residual, Moment, Compression, Stiffness, Slack, Times;
    ErrorsFollowResidual(e, root, o);
    assert Abs(Residual(d, o) - 0.0) <= TINY;
    TimesGrows(height, Abs(Residual(d, o) - 0.0), TINY);
    StiffDistance(Stiffness(d), Abs(o - root), TINY);
  }

  lemma StiffDistance(k: real, x: real, e: real)
    requires k >= 0.000000005 && Times(k, x) <= e <= TINY
    ensures x <= 0.000000000001
  {
    Distance(k, x, e);
  }

  // ---- the bounds ----

  /** How far the reported quantities can be from those of the equilibrium. */
  predicate NearEquilibrium(d: Data, r: Response, root: real)
    requires root > 0.0
  {
    && Abs(r.neutralAxis - root) <= d.depthTolerance + d.relativeTolerance * d.height + 0.000000000001
    && Abs(r.compression - Compression(d, root)) <= d.forceTolerance + d.relativeTolerance * (Compression(d, root) + 2.0) + 0.000000000001
    && MomentNear(d, r, root)
  }

  predicate MomentNear(d: Data, r: Response, root: real)
    requires root > 0.0
  {
    Abs(r.moment - Moment(d, root)) <= 4.0 * (d.forceTolerance * d.height) + d.relativeTolerance * (Abs(Moment(d, root)) + 2.0) + 0.000000000001
  }

  /** How far a checked number can be from the expected one. */
  function Band(y: real, absolute: real, relative: real): real {
    absolute + relative * MaxReal(1.0, Abs(y))
  }

  lemma CheckedInBand(x: real, y: real, absolute: real, relative: real)
    ensures CheckNumber(x, y, absolute, relative) <==> Abs(x - y) <= Band(y, absolute, relative)
  {
  }

  lemma BandAtMost(y: real, absolute: real, relative: real, bound: real)
    requires relative > 0.0 && 1.0 <= bound && Abs(y) <= bound
    ensures Band(y, absolute, relative) <= absolute + relative * bound
  {
    ScaleAtMost(MaxReal(1.0, Abs(y)), bound, relative);
  }

  /** A distance to something that is itself close by. */
  lemma Detour(x: real, y: real, z: real, a: real, b: real)
    requires Abs(x - y) <= a && Abs(y - z) <= b
    ensures Abs(x - z) <= a + b && Abs(y) <= Abs(z) + b && Abs(z) >= 0.0
  {
  }

  lemma CloseToRoot(x: real, y: real, z: real, absolute: real, relative: real, extra: real)
    requires CheckNumber(x, y, absolute, relative) && 0.0 < relative && Abs(y - z) <= extra <= 0.0000000000001
    ensures Abs(x - z) <= absolute + relative * (Abs(z) + 2.0) + 0.000000000001
  {
    CheckedInBand(x, y, absolute, relative);
    hide CheckNumber, Abs, Band;
    Detour(x, y, z, Band(y, absolute, relative), extra);
    BandAtMost(y, absolute, relative, Abs(z) + 2.0);
  }

  lemma DepthIsClose(d: Data, x: real, o: real, root: real)
    requires InRange(d) && 0.0 < o < d.height && CheckNumber(x, o, d.depthTolerance, d.relativeTolerance) && Abs(o - root) <= 0.000000000001
    ensures Abs(x - root) <= d.depthTolerance + d.relativeTolerance * d.height + 0.000000000001
  {
    HeightBound(d);
    CheckedInBand(x, o, d.depthTolerance, d.relativeTolerance);
    BandAtMost(o, d.depthTolerance, d.relativeTolerance, d.height);
    hide InRange, CheckNumber, Abs, Band;
    Detour(x, o, root, Band(o, d.depthTolerance, d.relativeTolerance), 0.000000000001);
  }

  lemma SmallMoment(height: real, root: real)
    requires 0.0 < height <= 100_000.0 && root <= height + 0.000000000001
    ensures Times(MaxReal(height, root), TINY) <= 0.000000000000000001
  {
    ScaleAtMost(MaxReal(height, root), 200_000.0, TINY);
  }

  lemma CompressionSign(d: Data, root: real)
    requires DataOk(d) && root > 0.0
    ensures Compression(d, root) > 0.0
  {
    StiffnessPositive(d);
    hide Stiffness;
    ScaleLess(0.0, Stiffness(d), root);
  }

  lemma HeightBound(d: Data)
    requires InRange(d)
    ensures 1.0 <= d.height <= 100_000.0 && 0.000000000001 <= d.relativeTolerance <= 0.0000001 && d.layers != []
  {
    hide LayerInRange, TotalArea;
  }

  lemma CheckedResponseIsNear(d: Data, o: Candidate, r: Response, root: real)
    requires InRange(d) && DataOk(d) && 0.0 < o.neutralAxis < d.height && Abs(Residual(d, o.neutralAxis)) <= Slack(d.layers)
    requires o.compression == Compression(d, o.neutralAxis) && Abs(o.moment - Moment(d, o.neutralAxis)) <= Times(d.height, Slack(d.layers))
    requires AgainstOracle(d, o, r) && root > 0.0 && Residual(d, root) == 0.0
    ensures NearEquilibrium(d, r, root)
  {
    hide InRange, DataOk, Residual, Moment, Compression, Slack, CheckNumber, Times, MomentTolerance, MaxReal, Abs, NearEquilibrium;
    HeightBound(d);
    SlackIsTiny(d);
    NearRoot(d, o.neutralAxis, root);
    RootIsNearBottom(o.neutralAxis, root, d.height);
    DepthIsClose(d, r.neutralAxis, o.neutralAxis, root);
    CompressionIsClose(d, o, r, root);
    MomentIsClose(d, o, r, root);
    Collect(d, r, root);
  }

  lemma RootIsNearBottom(o: real, root: real, height: real)
    requires o < height && Abs(o - root) <= 0.000000000001
    ensures root <= height + 0.000000000001
  {
  }

  lemma Collect(d: Data, r: Response, root: real)
    requires root > 0.0
    requires Abs(r.neutralAxis - root) <= d.depthTolerance + d.relativeTolerance * d.height + 0.000000000001
    requires Abs(r.compression - Compression(d, root)) <= d.forceTolerance + d.relativeTolerance * (Compression(d, root) + 2.0) + 0.000000000001
    requires MomentNear(d, r, root)
    ensures NearEquilibrium(d, r, root)
  {
  }

  lemma CompressionIsClose(d: Data, o: Candidate, r: Response, root: real)
    requires DataOk(d) && root > 0.0 && 0.0 < d.relativeTolerance <= 1.0
    requires CheckNumber(r.compression, o.compression, d.forceTolerance, d.relativeTolerance)
    requires Abs(o.compression - Compression(d, root)) <= TINY
    ensures Abs(r.compression - Compression(d, root)) <= d.forceTolerance + d.relativeTolerance * (Compression(d, root) + 2.0) + 0.000000000001
  {
    CompressionSign(d, root);
    hide DataOk, Compression, CheckNumber;
    CloseToRoot(r.compression, o.compression, Compression(d, root), d.forceTolerance, d.relativeTolerance, TINY);
  }

  lemma MomentIsClose(d: Data, o: Candidate, r: Response, root: real)
    requires root > 0.0 && 0.0 < d.relativeTolerance <= 1.0 && 0.0 < d.height <= 100_000.0 && root <= d.height + 0.000000000001
    requires CheckNumber(r.moment, o.moment, MomentTolerance(d), d.relativeTolerance) && o.neutralAxis > 0.0
    requires Abs(o.moment - Moment(d, o.neutralAxis)) <= Times(d.height, Slack(d.layers)) && Slack(d.layers) <= TINY
    requires Abs(Moment(d, o.neutralAxis) - Moment(d, root)) <= Times(MaxReal(d.height, root), TINY)
    ensures MomentNear(d, r, root)
  {
    hide CheckNumber, MomentTolerance, Moment, Slack, MomentNear;
    OracleMomentIsClose(d, o, root);
    MomentBand(d);
    CloseToRoot(r.moment, o.moment, Moment(d, root), MomentTolerance(d), d.relativeTolerance, 0.0000000000001);
    MomentCollects(d, r, root);
  }

  lemma MomentCollects(d: Data, r: Response, root: real)
    requires root > 0.0
    requires Abs(r.moment - Moment(d, root)) <= MomentTolerance(d) + d.relativeTolerance * (Abs(Moment(d, root)) + 2.0) + 0.000000000001
    ensures MomentNear(d, r, root)
  {
    MomentBand(d);
  }

  lemma OracleMomentIsClose(d: Data, o: Candidate, root: real)
    requires root > 0.0 && 0.0 < d.height <= 100_000.0 && root <= d.height + 0.000000000001 && o.neutralAxis > 0.0
    requires Abs(o.moment - Moment(d, o.neutralAxis)) <= Times(d.height, Slack(d.layers)) && Slack(d.layers) <= TINY
    requires Abs(Moment(d, o.neutralAxis) - Moment(d, root)) <= Times(MaxReal(d.height, root), TINY)
    ensures Abs(o.moment - Moment(d, root)) <= 0.0000000000001
  {
    TimesGrows(d.height, Slack(d.layers), TINY);
    SmallMoment(d.height, root);
    SmallMoment(d.height, d.height);
    assert MaxReal(d.height, d.height) == d.height;
    hide Moment, Times, MaxReal, Slack, Abs;
    Detour(o.moment, Moment(d, o.neutralAxis), Moment(d, root), 0.000000000000000001, 0.000000000000000001);
  }

  lemma MomentBand(d: Data)
    ensures MomentTolerance(d) == 4.0 * (d.forceTolerance * d.height)
  {
  }

  // ---- forces at the equilibrium itself ----

  /** Between two depths the force of one layer changes no more than the residual. */
  lemma {:induction false} LayerFollowsSteel(layers: seq<Layer>, height: real, topStrain: real, a: real, c: real, i: nat)
    requires (forall j | 0 <= j < |layers| :: LayerOk(layers[j], height)) && topStrain > 0.0 && 0.0 < a <= c && i < |layers|
    ensures 0.0 <= Force(layers[i], topStrain, a) - Force(layers[i], topStrain, c)
                <= SteelForce(layers, topStrain, a) - SteelForce(layers, topStrain, c)
  {
    hide Force, ForceMoment, LayerOk, Times;
    ForceFalls(layers[0], height, topStrain, a, c);
    SteelFalls(layers[1..], height, topStrain, a, c);
    if i > 0 {
      LayerFollowsSteel(layers[1..], height, topStrain, a, c, i - 1);
    }
  }

  lemma ForceFollowsResidual(d: Data, a: real, c: real, i: nat)
    requires DataOk(d) && a > 0.0 && c > 0.0 && i < |d.layers|
    ensures Abs(Force(d.layers[i], d.topStrain, a) - Force(d.layers[i], d.topStrain, c)) <= Abs(Residual(d, a) - Residual(d, c))
  {
    if a <= c {
      ForceFollowsInOrder(d, a, c, i);
    } else {
      ForceFollowsInOrder(d, c, a, i);
    }
  }

  lemma ForceIsForceAt(l: Layer, topStrain: real, c: real)
    requires c > 0.0 && l.yieldStress > 0.0
    ensures Force(l, topStrain, c) == ForceAt(l, topStrain, c)
  {
    SteelNumbers(l, topStrain, c);
    hide ForceAt;
  }

  lemma ForceFollowsInOrder(d: Data, a: real, c: real, i: nat)
    requires DataOk(d) && 0.0 < a <= c && i < |d.layers|
    ensures 0.0 <= Force(d.layers[i], d.topStrain, a) - Force(d.layers[i], d.topStrain, c) <= Residual(d, c) - Residual(d, a)
  {
    StiffnessPositive(d);
    LayerFollowsSteel(d.layers, d.height, d.topStrain, a, c, i);
    ScaleAtMost(a, c, Stiffness(d));
    hide Stiffness, Force, SteelForce;
  }

  /** An accepted residual is small at the reported depth itself. */
  lemma ReportedDepthBalances(d: Data, r: Response)
    requires InRange(d) && SectionMatches(d, r)
    ensures Abs(Residual(d, r.neutralAxis)) <= 1.01 * d.forceTolerance + 2.0 * d.relativeTolerance
  {
    HeightBound(d);
    ForceBound(d);
    hide InRange, Residual;
    ResidualAlgebra(r.residual, Residual(d, r.neutralAxis), d.forceTolerance, d.relativeTolerance);
  }

  lemma ForceBound(d: Data)
    requires InRange(d)
    ensures 0.000000001 <= d.forceTolerance <= 0.01
  {
    hide LayerInRange, TotalArea;
  }

  lemma ResidualAlgebra(x: real, y: real, force: real, relative: real)
    requires 0.0 < force <= 0.01 && 0.0 < relative <= 0.0000001 && Abs(x) <= force && CheckNumber(x, y, force * 0.001, relative)
    ensures Abs(y) <= 1.01 * force + 2.0 * relative
  {
    CheckedInBand(x, y, force * 0.001, relative);
    BandAtMost(y, force * 0.001, relative, 1.0 + Abs(y));
    SmallPart(relative, 1.0 + Abs(y));
    assert Abs(y) <= 2.0;
    BandAtMost(y, force * 0.001, relative, 2.0);
  }

  lemma SmallPart(relative: real, m: real)
    requires 0.0 < relative <= 0.0000001 && m >= 0.0
    ensures relative * m <= 0.0000001 * m
  {
    ScaleAtMost(relative, 0.0000001, m);
  }

  /** What the audit guarantees of the steel: right at the reported depth, and close to the force at the equilibrium. */
  predicate SteelIsSound(d: Data, r: Response, root: real)
    requires r.neutralAxis > 0.0 && root > 0.0
  {
    && |r.steel| == |d.layers|
    && forall i | 0 <= i < |d.layers| ::
         && SteelIsRight(d, r.steel[i], d.layers[i], r.neutralAxis)
         && Abs(ForceAt(d.layers[i], d.topStrain, r.neutralAxis) - ForceAt(d.layers[i], d.topStrain, root))
              <= 1.01 * d.forceTolerance + 2.0 * d.relativeTolerance
  }

  lemma CheckedSteelIsSound(d: Data, r: Response, root: real)
    requires InRange(d) && DataOk(d) && AgainstModel(d, r) && root > 0.0 && Residual(d, root) == 0.0
    ensures r.neutralAxis > 0.0 && SteelIsSound(d, r, root)
  {
    ReportedDepthBalances(d, r);
    hide InRange, Residual, Force, ForceAt, SteelIsRight, LayerMatches, CheckNumber;
    forall i | 0 <= i < |d.layers|
      ensures SteelIsRight(d, r.steel[i], d.layers[i], r.neutralAxis)
      ensures Abs(ForceAt(d.layers[i], d.topStrain, r.neutralAxis) - ForceAt(d.layers[i], d.topStrain, root))
           <= 1.01 * d.forceTolerance + 2.0 * d.relativeTolerance
    {
      assert LayerOk(d.layers[i], d.height);
      MatchedIsRight(d, r.steel[i], d.layers[i], r.neutralAxis);
      ForceFollowsResidual(d, r.neutralAxis, root, i);
      ForceIsForceAt(d.layers[i], d.topStrain, r.neutralAxis);
      ForceIsForceAt(d.layers[i], d.topStrain, root);
    }
  }

  // ---- accepted traces are bisections ----

  /** Items numbered from one that halve the section: each depth is the middle, and the reported sign picks the next half. */
  predicate Bisects(d: Data, trace: seq<TraceItem>) {
    && (forall i | 0 <= i < |trace| :: trace[i].iteration == i + 1 && trace[i].depth == (trace[i].lower + trace[i].upper) / 2.0)
    && (trace != [] ==> trace[0].lower == 0.0 && trace[0].upper == d.height)
    && (forall i | 0 < i < |trace| ::
          if trace[i - 1].residual > 0.0 then trace[i].lower == trace[i - 1].lower && trace[i].upper == trace[i - 1].depth
          else trace[i].lower == trace[i - 1].depth && trace[i].upper == trace[i - 1].upper)
  }

  /** Each reported residual is the one at its depth. */
  predicate ResidualsReported(d: Data, trace: seq<TraceItem>) {
    forall i | 0 <= i < |trace| :: trace[i].depth > 0.0 && Within(trace[i].residual, Residual(d, trace[i].depth), 0.0000001, d.relativeTolerance)
  }

  lemma {:induction false} BisectingBounds(d: Data, trace: seq<TraceItem>, i: nat)
    requires d.height > 0.0 && i < |trace| && Bisects(d, trace)
    ensures Replayed(d, trace, i) == (trace[i].lower, trace[i].upper)
  {
    if i > 0 {
      BisectingBounds(d, trace, i - 1);
    }
  }

  /** The replay accepts exactly the bisections with the residuals of their own depths. */
  lemma ReplayIsBisection(d: Data, trace: seq<TraceItem>)
    requires d.height > 0.0
    ensures (forall i | 0 <= i < |trace| :: ItemAccepted(d, trace, i)) <==> Bisects(d, trace) && ResidualsReported(d, trace)
  {
    hide Residual, Within, Bisects, ItemAccepted, ResidualsReported;
    if forall i | 0 <= i < |trace| :: ItemAccepted(d, trace, i) {
      AcceptedBisects(d, trace);
    }
    if Bisects(d, trace) && ResidualsReported(d, trace) {
      forall i | 0 <= i < |trace|
        ensures ItemAccepted(d, trace, i)
      {
        BisectionIsAccepted(d, trace, i);
      }
    }
  }

  lemma AcceptedBisects(d: Data, trace: seq<TraceItem>)
    requires d.height > 0.0 && forall i | 0 <= i < |trace| :: ItemAccepted(d, trace, i)
    ensures Bisects(d, trace) && ResidualsReported(d, trace)
  {
    hide Residual, Within, ItemAccepted;
    forall i | 0 <= i < |trace|
      ensures Replayed(d, trace, i) == (trace[i].lower, trace[i].upper)
      ensures trace[i].iteration == i + 1 && trace[i].depth == (trace[i].lower + trace[i].upper) / 2.0 && trace[i].depth > 0.0
      ensures Within(trace[i].residual, Residual(d, trace[i].depth), 0.0000001, d.relativeTolerance)
    {
      AcceptedItem(d, trace, i);
    }
    forall i | 0 < i < |trace|
      ensures if trace[i - 1].residual > 0.0 then trace[i].lower == trace[i - 1].lower && trace[i].upper == trace[i - 1].depth
              else trace[i].lower == trace[i - 1].depth && trace[i].upper == trace[i - 1].upper
    {
      assert Replayed(d, trace, i - 1) == (trace[i - 1].lower, trace[i - 1].upper);
    }
  }

  lemma AcceptedItem(d: Data, trace: seq<TraceItem>, i: nat)
    requires d.height > 0.0 && i < |trace| && ItemAccepted(d, trace, i)
    ensures Replayed(d, trace, i) == (trace[i].lower, trace[i].upper)
    ensures trace[i].iteration == i + 1 && trace[i].depth == (trace[i].lower + trace[i].upper) / 2.0 && trace[i].depth > 0.0
    ensures Within(trace[i].residual, Residual(d, trace[i].depth), 0.0000001, d.relativeTolerance)
  {
    hide Residual, Within;
    var (lower, upper) := Replayed(d, trace, i);
    ItemIsWithin(d, trace[i].residual, Residual(d, Middle((lower, upper))));
  }

  lemma BisectionIsAccepted(d: Data, trace: seq<TraceItem>, i: nat)
    requires d.height > 0.0 && i < |trace| && Bisects(d, trace) && ResidualsReported(d, trace)
    ensures ItemAccepted(d, trace, i)
  {
    hide Residual, Within, MaxReal, Abs;
    BisectingBounds(d, trace, i);
    hide Replayed;
    ItemIsWithin(d, trace[i].residual, Residual(d, trace[i].depth));
  }

  lemma ItemIsWithin(d: Data, x: real, y: real)
    ensures Abs(x - y) <= 0.0000001 + d.relativeTolerance * MaxReal(1.0, Abs(y)) <==> Within(x, y, 0.0000001, d.relativeTolerance)
  {
  }

  /** An accepted refusal is a full-length bisection none of whose items met both tolerances. */
  lemma RefusalIsBisection(d: Data, trace: seq<TraceItem>)
    requires d.height > 0.0
    ensures RefusalAccepted(d, trace) <==>
              && 1 <= |trace| == d.maxIterations && Bisects(d, trace) && ResidualsReported(d, trace)
              && forall i | 0 <= i < |trace| ::
                   trace[i].residual > d.forceTolerance || trace[i].residual < -d.forceTolerance || trace[i].upper - trace[i].lower > d.depthTolerance
  {
    hide ItemAccepted, Bisects, ResidualsReported;
    ReplayIsBisection(d, trace);
  }

  // ---- soundness ----

  /** The last item of an accepted trace is the answer, in a bracket no wider than the depth tolerance. */
  predicate TraceIsSound(d: Data, c: Calculation) {
    && 1 <= |c.trace| <= d.maxIterations && c.iterations == |c.trace| && Bisects(d, c.trace) && ResidualsReported(d, c.trace)
    && var last := c.trace[|c.trace| - 1];
    && last.depth == c.response.neutralAxis && last.residual == c.response.residual && last.upper - last.lower <= d.depthTolerance
  }

  /**
   * Whatever calculation passes the audit against any candidate of the oracle: there is one exact
   * equilibrium, its depth, compression and moment are within explicit bounds of the reported ones,
   * the steel results are those of the layers, and the trace is a bisection that ends there.
   */
  lemma VerifiedIsSound(d: Data, roots: Roots, states: seq<Active>, c: Calculation) returns (root: real)
    requires InRange(d) && DataOk(d) && RootsOk(d, roots) && |states| == |d.layers| && CandidateOf(d, roots, states).Some?
    requires Verified(d, CandidateOf(d, roots, states).value, c)
    ensures root > 0.0 && Residual(d, root) == 0.0 && forall x | x > 0.0 && Residual(d, x) == 0.0 :: x == root
    ensures 0.0 < c.response.neutralAxis < d.height && Abs(c.response.residual) <= d.forceTolerance
    ensures NearEquilibrium(d, c.response, root)
    ensures SteelIsSound(d, c.response, root)
    ensures TraceIsSound(d, c)
  {
    HeightBound(d);
    CandidateIsNearlyBalanced(d, roots, states);
    var o := CandidateOf(d, roots, states).value;
    hide InRange, DataOk, RootsOk, Residual, CandidateOf, CandidateAt, AgainstOracle, AgainstModel, ItemAccepted, NearEquilibrium,
      SteelIsSound, Slack, Moment, Compression;
    root := EquilibriumAnywhere(d, roots);
    CheckedResponseIsNear(d, o, c.response, root);
    CheckedSteelIsSound(d, c.response, root);
    MatchedSection(d, c.response);
    ReplayIsBisection(d, c.trace);
  }

  lemma MatchedSection(d: Data, r: Response)
    requires AgainstModel(d, r)
    ensures 0.0 < r.neutralAxis < d.height && Abs(r.residual) <= d.forceTolerance
  {
    hide Residual, LayerMatches, CheckNumber;
  }
}
