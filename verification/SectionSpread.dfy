/**
 * When the oracle gives no answer for a section with one layer. The layer can be admitted both as
 * elastic and as yielded at depths further apart than the same-root distance; whether it is can be
 * told from the inputs by rational arithmetic, and there are inputs for which it is.
 */
module SectionSpread {
  import opened Common
  import opened Section
  import opened SectionOracle
  import opened SectionAgreement
  import opened SectionExistence
  import opened SectionAudit

  // ---- the two depths ----

  /** The only layer. */
  function Bar(d: Data): Layer
    requires |d.layers| == 1
  {
    d.layers[0]
  }

  function ElasticStiffness(d: Data): real
    requires |d.layers| == 1
  {
    ElasticTerm(Bar(d), d.topStrain)
  }

  /** The quadratic of the layer as elastic. */
  function ElasticQuadratic(d: Data, c: real): real
    requires |d.layers| == 1
  {
    Quadratic(Stiffness(d), ElasticStiffness(d), ElasticStiffness(d) * Bar(d).depth, c)
  }

  /** Where the layer balances when it yields in tension. */
  function YieldedDepth(d: Data): real
    requires DataOk(d) && |d.layers| == 1
  {
    StiffnessPositive(d);
    Bar(d).area * Bar(d).yieldStress / Stiffness(d)
  }

  /** The greatest stress that is admitted as elastic. */
  function ElasticLimit(l: Layer): real {
    MaxReal(l.yieldStress / (1.0 - BOUNDARY), l.yieldStress + BOUNDARY * MaxReal(1.0, l.yieldStress))
  }

  /** The deepest balance at which the layer is admitted as elastic. */
  function TopDepth(d: Data): real
    requires DataOk(d) && |d.layers| == 1
  {
    StiffnessPositive(d);
    Bar(d).area * ElasticLimit(Bar(d)) / Stiffness(d)
  }

  /**
   * Both depths are admitted and lie too far apart: the elastic one deeper and within the slack
   * above yield, or the yielded one deeper and within the slack below it.
   */
  predicate Spreads(d: Data)
    requires DataOk(d) && |d.layers| == 1
  {
    var t, s := YieldedDepth(d), SAME * d.height;
    || (ElasticQuadratic(d, t + s) <= 0.0 && 0.0 <= ElasticQuadratic(d, TopDepth(d)))
    || (0.0 < t - s && t < d.height && 0.0 <= ElasticQuadratic(d, t - s) && AdmitsLayer(YieldsInTension, Bar(d), d.topStrain, t))
  }

  // ---- the three assignments ----

  lemma Coefficients(d: Data, state: Active)
    requires |d.layers| == 1
    ensures Linear(d, [state]) == ElasticPart(state, Bar(d), d.topStrain) - YieldedForce(state, Bar(d))
    ensures DepthSum([state], d.layers, d.topStrain) == DepthPart(state, Bar(d), d.topStrain)
    ensures YieldedSum([state], d.layers) == YieldedForce(state, Bar(d))
  {
    var none: seq<Active> := [];
    assert d.layers[1..] == [] && [state][1..] == none;
    hide ElasticPart, YieldedForce, DepthPart;
    assert YieldedSum(none, []) == 0.0 && ElasticSum(none, [], d.topStrain) == 0.0 && DepthSum(none, [], d.topStrain) == 0.0;
  }

  lemma OneAdmitted(d: Data, state: Active, c: real)
    requires |d.layers| == 1 && c > 0.0
    ensures Admits([state], d.layers, d.topStrain, c) <==> AdmitsLayer(state, Bar(d), d.topStrain, c)
  {
    hide AdmitsLayer;
    if AdmitsLayer(state, Bar(d), d.topStrain, c) {
      assert forall i | 0 <= i < 1 :: AdmitsLayer([state][i], d.layers[i], d.topStrain, c);
    } else {
      assert !AdmitsLayer([state][0], d.layers[0], d.topStrain, c);
    }
  }

  lemma BarIsOk(d: Data)
    requires DataOk(d) && |d.layers| == 1
    ensures LayerOk(Bar(d), d.height) && ElasticStiffness(d) > 0.0 && ElasticStiffness(d) * Bar(d).depth > 0.0
    ensures Bar(d).area * Bar(d).yieldStress > 0.0
  {
    assert LayerOk(d.layers[0], d.height);
    ElasticTermPositive(Bar(d), d.height, d.topStrain);
    ScaleLess(0.0, Bar(d).area, Bar(d).yieldStress);
  }

  /** A layer in compression balances nothing. */
  lemma CompressedIsNone(d: Data, roots: Roots)
    requires DataOk(d) && RootsOk(d, roots) && |d.layers| == 1
    ensures CandidateOf(d, roots, [YieldsInCompression]).None?
  {
    BarIsOk(d);
    Coefficients(d, YieldsInCompression);
    hide DataOk, RootsOk, SquareRoot, Linear, DepthSum, YieldedSum, Stiffness;
    ForcedNone(d, roots[[YieldsInCompression]]);
  }

  lemma ForcedNone(d: Data, s: real)
    requires DataOk(d) && |d.layers| == 1 && YieldedSum([YieldsInCompression], d.layers) <= 0.0
    requires DepthSum([YieldsInCompression], d.layers, d.topStrain) == 0.0
    requires SquareRoot(Discriminant(Stiffness(d), Linear(d, [YieldsInCompression]), DepthSum([YieldsInCompression], d.layers, d.topStrain)), s)
    ensures CandidateDepth(d, [YieldsInCompression], s).None?
  {
    hide Linear, Stiffness, DataOk, Discriminant, SquareRoot, YieldedSum, DepthSum;
  }

  lemma TimesQuotient(x: real, k: real)
    requires k > 0.0 && x > 0.0
    ensures x / k > 0.0 && k * (x / k) == x && Quadratic(k, -x, 0.0, x / k) == 0.0
  {
    PositiveQuotient(x, k);
    YieldedForm(k, x);
  }

  /** A layer in tension is a candidate exactly where it balances inside the section and is admitted. */
  lemma YieldedCandidate(d: Data, roots: Roots)
    requires DataOk(d) && RootsOk(d, roots) && |d.layers| == 1
    ensures YieldedDepth(d) > 0.0
    ensures var x := CandidateOf(d, roots, [YieldsInTension]);
      && (x.Some? <==> YieldedDepth(d) < d.height && AdmitsLayer(YieldsInTension, Bar(d), d.topStrain, YieldedDepth(d)))
      && (x.Some? ==> x.value.neutralAxis == YieldedDepth(d))
  {
    BarIsOk(d);
    StiffnessPositive(d);
    Coefficients(d, YieldsInTension);
    var f, k := Bar(d).area * Bar(d).yieldStress, Stiffness(d);
    TimesQuotient(f, k);
    OneAdmitted(d, YieldsInTension, YieldedDepth(d));
    var s := roots[[YieldsInTension]];
    hide RootsOk, Admits, AdmitsLayer, StateMoment, StateLever, StateForce, StateStress;
    YieldedDepthOnly(d, s);
  }

  lemma YieldedDepthOnly(d: Data, s: real)
    requires DataOk(d) && |d.layers| == 1 && YieldedDepth(d) > 0.0
    requires SquareRoot(Discriminant(Stiffness(d), Linear(d, [YieldsInTension]), DepthSum([YieldsInTension], d.layers, d.topStrain)), s)
    ensures CandidateDepth(d, [YieldsInTension], s) == if YieldedDepth(d) < d.height then Some(YieldedDepth(d)) else None
  {
    BarIsOk(d);
    StiffnessPositive(d);
    Coefficients(d, YieldsInTension);
    var k, b, g, y := Stiffness(d), Linear(d, [YieldsInTension]), DepthSum([YieldsInTension], d.layers, d.topStrain), YieldedSum([YieldsInTension], d.layers);
    assert g == 0.0 && y == Bar(d).area * Bar(d).yieldStress;
    assert YieldedDepth(d) == y / k;
    hide DataOk, Linear, Stiffness, Discriminant, SquareRoot, YieldedSum, DepthSum, ElasticStiffness, YieldedDepth;
    assert ProposedDepth(k, b, g, y, s) == Some(y / k);
  }

  /** The layer as elastic always balances above its own depth, inside the section. */
  lemma ElasticDepth(d: Data, roots: Roots) returns (c: real)
    requires DataOk(d) && RootsOk(d, roots) && |d.layers| == 1
    ensures CandidateDepth(d, [StaysElastic], roots[[StaysElastic]]) == Some(c)
    ensures 0.0 < c < Bar(d).depth && ElasticQuadratic(d, c) == 0.0
  {
    BarIsOk(d);
    StiffnessPositive(d);
    Coefficients(d, StaysElastic);
    var k, b, g := Stiffness(d), ElasticStiffness(d), ElasticStiffness(d) * Bar(d).depth;
    var s := roots[[StaysElastic]];
    assert SquareRoot(Discriminant(k, b, g), s);
    hide RootsOk, DataOk, Stiffness, ElasticStiffness, SquareRoot, Discriminant, Linear, DepthSum, Quadratic;
    ProposedIsRoot(k, b, g, 0.0, s);
    c := ProposedDepth(k, b, g, 0.0, s).value;
    AboveItsDepth(k, b, Bar(d).depth, c);
    CandidateSolves(d, [StaysElastic], s);
  }

  lemma AboveItsDepth(k: real, b: real, depth: real, c: real)
    requires k > 0.0 && b > 0.0 && depth > 0.0 && c > 0.0 && Quadratic(k, b, b * depth, c) == 0.0
    ensures c < depth
  {
    ScaleLess(0.0, b, depth);
    ScaleLess(0.0, k, depth);
    ScaleLess(0.0, k * depth, depth);
    assert Quadratic(k, b, b * depth, depth) == k * depth * depth > 0.0;
    if c >= depth {
      SignsAround(k, b, b * depth, c, depth);
    }
  }

  // ---- what is admitted, in terms of the balance ----

  /** At its elastic balance the layer's force is the concrete's. */
  lemma ElasticBalance(d: Data, c: real)
    requires DataOk(d) && |d.layers| == 1 && c > 0.0 && ElasticQuadratic(d, c) == 0.0
    ensures Stiffness(d) * c == Bar(d).area * TrialStress(Bar(d), d.topStrain, c)
  {
    Coefficients(d, StaysElastic);
    BalancedIffRoot(d, [StaysElastic], c);
    assert StateForce([StaysElastic], d.layers, d.topStrain, c) == LayerForce(StaysElastic, Bar(d), d.topStrain, c) by {
      assert d.layers[1..] == [] && [StaysElastic][1..] == [];
    }
    hide TrialStress, Stiffness;
  }

  lemma AdmittedAsElastic(x: real, fy: real)
    requires x > 0.0 && fy > 0.0
    ensures Abs(x) <= fy + BOUNDARY * MaxReal(MaxReal(1.0, fy), Abs(x))
       <==> x <= MaxReal(fy / (1.0 - BOUNDARY), fy + BOUNDARY * MaxReal(1.0, fy))
  {
    var q := fy / (1.0 - BOUNDARY);
    assert q * (1.0 - BOUNDARY) == fy;
    assert x <= q <==> x <= fy + BOUNDARY * x;
  }

  lemma ScaledOrder(k: real, a: real, c: real, x: real, top: real)
    requires k > 0.0 && a > 0.0 && k * c == a * x
    ensures x <= top <==> c <= a * top / k
    ensures top <= x <==> a * top / k <= c
  {
    var u := a * top / k;
    ProductOverFactor(k, a * top);
    SameOrder(k, c, u);
    SameOrder(k, u, c);
    SameOrder(a, x, top);
    SameOrder(a, top, x);
  }

  /** The elastic balance is admitted exactly when it is no deeper than the balance at the greatest elastic stress. */
  lemma ElasticAdmitted(d: Data, c: real)
    requires DataOk(d) && |d.layers| == 1 && 0.0 < c < Bar(d).depth && ElasticQuadratic(d, c) == 0.0
    ensures AdmitsLayer(StaysElastic, Bar(d), d.topStrain, c) <==> c <= TopDepth(d)
    ensures TrialStress(Bar(d), d.topStrain, c) > 0.0
  {
    BarIsOk(d);
    StiffnessPositive(d);
    ElasticBalance(d, c);
    var l, x := Bar(d), TrialStress(Bar(d), d.topStrain, c);
    TensionAtBalance(d, c);
    hide Stiffness, TrialStress, ElasticQuadratic, DataOk, ElasticStiffness, ElasticLimit;
    ElasticAdmits(l, d.topStrain, c);
    hide AdmitsLayer;
    DepthAtStress(d, c, x);
  }

  lemma DepthAtStress(d: Data, c: real, x: real)
    requires DataOk(d) && |d.layers| == 1 && Bar(d).area > 0.0 && Stiffness(d) > 0.0 && Stiffness(d) * c == Bar(d).area * x
    ensures x <= ElasticLimit(Bar(d)) <==> c <= TopDepth(d)
  {
    hide Stiffness, DataOk, ElasticLimit;
    ScaledOrder(Stiffness(d), Bar(d).area, c, x, ElasticLimit(Bar(d)));
  }

  lemma TensionAtBalance(d: Data, c: real)
    requires DataOk(d) && |d.layers| == 1 && c > 0.0 && ElasticQuadratic(d, c) == 0.0
    ensures TrialStress(Bar(d), d.topStrain, c) > 0.0
  {
    BarIsOk(d);
    StiffnessPositive(d);
    ElasticBalance(d, c);
    hide Stiffness, TrialStress, ElasticQuadratic, DataOk, ElasticStiffness;
    ScaleLess(0.0, Stiffness(d), c);
    PositiveFactor(Bar(d).area, TrialStress(Bar(d), d.topStrain, c));
  }

  lemma ElasticAdmits(l: Layer, topStrain: real, c: real)
    requires c > 0.0 && l.yieldStress > 0.0 && TrialStress(l, topStrain, c) > 0.0
    ensures AdmitsLayer(StaysElastic, l, topStrain, c) <==> TrialStress(l, topStrain, c) <= ElasticLimit(l)
  {
    hide TrialStress;
    AdmittedAsElastic(TrialStress(l, topStrain, c), l.yieldStress);
  }

  lemma PositiveFactor(a: real, x: real)
    requires a > 0.0 && a * x > 0.0
    ensures x > 0.0
  {
    if x <= 0.0 {
      ScaleAtMost(x, 0.0, a);
    }
  }

  /** Which of two depths is the deeper tells which stress is the higher. */
  lemma DeeperStress(d: Data, c: real)
    requires DataOk(d) && |d.layers| == 1 && c > 0.0 && ElasticQuadratic(d, c) == 0.0
    ensures TrialStress(Bar(d), d.topStrain, c) <= Bar(d).yieldStress <==> c <= YieldedDepth(d)
    ensures Bar(d).yieldStress <= TrialStress(Bar(d), d.topStrain, c) <==> YieldedDepth(d) <= c
  {
    BarIsOk(d);
    StiffnessPositive(d);
    ElasticBalance(d, c);
    hide Stiffness, TrialStress, ElasticQuadratic, DataOk, ElasticStiffness;
    ScaledOrder(Stiffness(d), Bar(d).area, c, TrialStress(Bar(d), d.topStrain, c), Bar(d).yieldStress);
  }

  lemma YieldedAdmittedBelow(d: Data, c: real)
    requires DataOk(d) && |d.layers| == 1 && c > 0.0 && ElasticQuadratic(d, c) == 0.0 && 0.0 < YieldedDepth(d) <= c
    ensures AdmitsLayer(YieldsInTension, Bar(d), d.topStrain, YieldedDepth(d))
  {
    BarIsOk(d);
    DeeperStress(d, c);
    TrialFalls(Bar(d), d.height, d.topStrain, YieldedDepth(d), c);
    hide TrialStress, YieldedDepth;
    SlackIsPositive(TrialStress(Bar(d), d.topStrain, YieldedDepth(d)), Bar(d).yieldStress);
  }

  lemma SlackIsPositive(trial: real, fy: real)
    requires fy > 0.0
    ensures BOUNDARY * MaxReal(MaxReal(1.0, fy), Abs(trial)) > 0.0
  {
  }

  lemma ElasticAdmittedBelow(d: Data, c: real)
    requires DataOk(d) && |d.layers| == 1 && 0.0 < c < Bar(d).depth && ElasticQuadratic(d, c) == 0.0 && c <= YieldedDepth(d)
    ensures AdmitsLayer(StaysElastic, Bar(d), d.topStrain, c)
  {
    BarIsOk(d);
    DeeperStress(d, c);
    ElasticAdmitted(d, c);
    hide TrialStress, YieldedDepth, TopDepth, ElasticQuadratic, DataOk;
    SlackIsPositive(TrialStress(Bar(d), d.topStrain, c), Bar(d).yieldStress);
  }

  // ---- signs of the quadratic place the elastic balance ----

  lemma SignsStrictly(k: real, b: real, g: real, root: real, x: real)
    requires k > 0.0 && g >= 0.0 && root > 0.0 && x > 0.0 && Quadratic(k, b, g, root) == 0.0
    ensures 0.0 <= Quadratic(k, b, g, x) <==> root <= x
    ensures Quadratic(k, b, g, x) <= 0.0 <==> x <= root
  {
    SignsAround(k, b, g, root, x);
    if Quadratic(k, b, g, x) == 0.0 {
      PositiveRootIsUnique(k, b, g, root, x);
    }
  }

  lemma Places(d: Data, c: real, x: real)
    requires DataOk(d) && |d.layers| == 1 && c > 0.0 && x > 0.0 && ElasticQuadratic(d, c) == 0.0
    ensures 0.0 <= ElasticQuadratic(d, x) <==> c <= x
    ensures ElasticQuadratic(d, x) <= 0.0 <==> x <= c
  {
    BarIsOk(d);
    StiffnessPositive(d);
    hide Stiffness, ElasticStiffness, Quadratic;
    SignsStrictly(Stiffness(d), ElasticStiffness(d), ElasticStiffness(d) * Bar(d).depth, c, x);
  }

  lemma TopDepthIsPositive(d: Data)
    requires DataOk(d) && |d.layers| == 1
    ensures TopDepth(d) > 0.0 && YieldedDepth(d) > 0.0
  {
    BarIsOk(d);
    StiffnessPositive(d);
    hide Stiffness;
    assert ElasticLimit(Bar(d)) > 0.0 by {
      PositiveTop(Bar(d).yieldStress);
    }
    hide ElasticLimit;
    ScaleLess(0.0, Bar(d).area, ElasticLimit(Bar(d)));
    PositiveQuotient(Bar(d).area * ElasticLimit(Bar(d)), Stiffness(d));
    PositiveQuotient(Bar(d).area * Bar(d).yieldStress, Stiffness(d));
  }

  lemma PositiveTop(fy: real)
    requires fy > 0.0
    ensures MaxReal(fy / (1.0 - BOUNDARY), fy + BOUNDARY * MaxReal(1.0, fy)) > 0.0
  {
  }

  /** Two admitted balances too far apart, whatever roots the oracle is given. */
  lemma SpreadMeans(d: Data, c: real)
    requires DataOk(d) && |d.layers| == 1 && 0.0 < c < Bar(d).depth && ElasticQuadratic(d, c) == 0.0
    ensures YieldedDepth(d) > 0.0
    ensures Spreads(d) <==>
              && AdmitsLayer(StaysElastic, Bar(d), d.topStrain, c)
              && YieldedDepth(d) < d.height && AdmitsLayer(YieldsInTension, Bar(d), d.topStrain, YieldedDepth(d))
              && !Near(YieldedDepth(d), c, d.height)
  {
    BarIsOk(d);
    TopDepthIsPositive(d);
    assert SAME * d.height > 0.0;
    ElasticAdmitted(d, c);
    var t, s := YieldedDepth(d), SAME * d.height;
    Places(d, c, TopDepth(d));
    Places(d, c, t + s);
    if 0.0 < t - s {
      Places(d, c, t - s);
    }
    if t <= c {
      YieldedAdmittedBelow(d, c);
    } else {
      ElasticAdmittedBelow(d, c);
    }
    hide ElasticQuadratic, AdmitsLayer, YieldedDepth, TopDepth, DataOk;
  }

  // ---- exactly when one layer is settled ----

  lemma OneLayerAssignments()
    ensures Assignments(1) == [[YieldsInCompression], [StaysElastic], [YieldsInTension]]
  {
    var one: seq<seq<Active>> := [[]];
    assert Assignments(0) == one;
    forall state
      ensures Prefixed(state, one) == [[state]]
    {
      assert [state] + one[0] == [state];
    }
  }

  function Listed(x: Option<Candidate>): seq<Candidate> {
    match x case Some(y) => [y] case None => []
  }

  lemma FoundThree(d: Data, roots: Roots, list: seq<seq<Active>>)
    requires DataOk(d) && RootsOk(d, roots) && |list| == 3 && forall i | 0 <= i < 3 :: |list[i]| == |d.layers|
    ensures Found(d, roots, list)
         == Listed(CandidateOf(d, roots, list[0])) + Listed(CandidateOf(d, roots, list[1])) + Listed(CandidateOf(d, roots, list[2]))
  {
    hide DataOk, RootsOk, CandidateOf;
    FoundGrows(d, roots, list, 0);
    FoundGrows(d, roots, list, 1);
    FoundGrows(d, roots, list, 2);
    assert list[..0] == [] && list[..3] == list;
  }

  lemma ElasticCandidate(d: Data, roots: Roots) returns (c: real)
    requires DataOk(d) && RootsOk(d, roots) && |d.layers| == 1
    ensures 0.0 < c < Bar(d).depth && ElasticQuadratic(d, c) == 0.0
    ensures var x := CandidateOf(d, roots, [StaysElastic]);
      && (x.Some? <==> AdmitsLayer(StaysElastic, Bar(d), d.topStrain, c))
      && (x.Some? ==> x.value.neutralAxis == c)
  {
    c := ElasticDepth(d, roots);
    hide DataOk, RootsOk, CandidateDepth, Admits, AdmitsLayer, ElasticQuadratic, StateMoment, StateLever, StateForce, StateStress;
    OneAdmitted(d, StaysElastic, c);
  }

  /**
   * Exactly when the oracle answers for a section with one layer that the solver does not refuse:
   * unless the inputs put the layer's two balances too far apart.
   */
  lemma OneLayerSettles(d: Data, roots: Roots)
    requires DataOk(d) && RootsOk(d, roots) && |d.layers| == 1 && Residual(d, d.height) > 0.0
    ensures forall i | 0 <= i < |Assignments(1)| :: |Assignments(1)[i]| == |d.layers|
    ensures AllNearFirst(d, Found(d, roots, Assignments(1))) <==> !Spreads(d)
    ensures Spreads(d) ==> |Found(d, roots, Assignments(1))| == 2
  {
    hide DataOk, RootsOk, Residual, CandidateOf, Assignments, Spreads, Near, AdmitsLayer, YieldedDepth, ElasticQuadratic, Found;
    OneLayerAssignments();
    var list := Assignments(1);
    OracleHasCandidate(d, roots);
    FoundThree(d, roots, list);
    CompressedIsNone(d, roots);
    var c := ElasticCandidate(d, roots);
    YieldedCandidate(d, roots);
    SpreadMeans(d, c);
    var e, t := CandidateOf(d, roots, [StaysElastic]), CandidateOf(d, roots, [YieldsInTension]);
    var found := Found(d, roots, list);
    assert found == Listed(e) + Listed(t);
    if e.Some? && t.Some? {
      assert found == [e.value, t.value];
      assert found[1].neutralAxis == YieldedDepth(d) && found[0].neutralAxis == c;
    }
  }

  // ---- a section for which it does not ----

  /** All inputs have at most fifteen significant digits. */
  function Beam(): Data {
    Data(1.00000000000024, 1.5, 1.0000000000004, 0.000001,
         [Layer(0.25000000000009, 1.0000000000002, 1.0, 0.00000100000000000032)], 0.0, 0.001, 0.000001, 64, 0.000000001)
  }

  lemma BeamIsInRange()
    ensures InRange(Beam()) && DataOk(Beam()) && |Beam().layers| == 1
  {
    assert TotalArea(Beam().layers) == 0.25000000000009 by {
      assert Beam().layers[1..] == [];
    }
    RangeIsOk(Beam());
  }

  lemma BeamIsNotRefused()
    ensures Residual(Beam(), Beam().height) > 0.0
  {
    assert Beam().layers[1..] == [];
  }

  lemma BeamSpreads()
    requires DataOk(Beam()) && |Beam().layers| == 1
    ensures Spreads(Beam())
  {
    hide DataOk;
  }

  /** The solver accepts this section, and with any roots the oracle finds two candidates and gives no answer. */
  lemma CandidatesCanSpread(roots: Roots)
    requires DataOk(Beam()) ==> RootsOk(Beam(), roots)
    ensures InRange(Beam()) && DataOk(Beam()) && Residual(Beam(), Beam().height) > 0.0
    ensures forall i | 0 <= i < |Assignments(1)| :: |Assignments(1)[i]| == |Beam().layers|
    ensures |Found(Beam(), roots, Assignments(1))| == 2 && !AllNearFirst(Beam(), Found(Beam(), roots, Assignments(1)))
  {
    hide InRange, DataOk, RootsOk, Residual, Assignments, Found, AllNearFirst, Spreads;
    BeamIsInRange();
    BeamIsNotRefused();
    BeamSpreads();
    OneLayerSettles(Beam(), roots);
  }
}
