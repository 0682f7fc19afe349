/** The bisection solver and the active-set oracle agree, and by how much. */
module SectionAgreement {
  import opened Common
  import opened Section
  import opened SectionOracle

  // ---- proposed depths are roots of the quadratic ----

  function Quadratic(k: real, b: real, depthSum: real, c: real): real {
    k * c * c + b * c - depthSum
  }

  lemma ProductZero(x: real, y: real)
    requires x * y == 0.0 && y != 0.0
    ensures x == 0.0
  {
  }

  /** The stable form used when the linear coefficient is not negative. */
  lemma ReciprocalForm(k: real, b: real, depthSum: real, s: real, c: real)
    requires depthSum > 0.0 && s * s == Discriminant(k, b, depthSum) && b + s > 0.0 && c * (b + s) == 2.0 * depthSum
    ensures Quadratic(k, b, depthSum, c) == 0.0
  {
    var q := b + s;
    var t := c * q;
    assert t == 2.0 * depthSum;
    calc {
      Quadratic(k, b, depthSum, c) * (q * q);
      == { Expand(k, b, depthSum, c, q); }
      k * (t * t) + b * t * q - depthSum * (q * q);
      == { Halves(k, b, depthSum, s, t, q); }
      0.0;
    }
    ScaleLess(0.0, q, q);
    ProductZero(Quadratic(k, b, depthSum, c), q * q);
  }

  lemma Expand(k: real, b: real, depthSum: real, c: real, q: real)
    ensures Quadratic(k, b, depthSum, c) * (q * q) == k * ((c * q) * (c * q)) + b * (c * q) * q - depthSum * (q * q)
  {
    assert (k * c * c) * (q * q) == k * ((c * q) * (c * q));
    assert (b * c) * (q * q) == b * (c * q) * q;
    assert Quadratic(k, b, depthSum, c) * (q * q) == (k * c * c) * (q * q) + (b * c) * (q * q) - depthSum * (q * q);
  }

  lemma Halves(k: real, b: real, e: real, s: real, t: real, q: real)
    requires t == 2.0 * e && q == b + s && s * s == b * b + 4.0 * k * e
    ensures k * (t * t) + b * t * q - e * (q * q) == 0.0
  {
    assert k * (t * t) == e * (4.0 * k * e);
    assert b * t * q == e * (2.0 * b * q);
    assert q * q == b * b + 2.0 * b * s + s * s;
    assert 2.0 * b * q == 2.0 * (b * b) + 2.0 * b * s;
    assert 4.0 * k * e + 2.0 * b * q - q * q == 0.0;
    assert e * (4.0 * k * e) + e * (2.0 * b * q) - e * (q * q) == e * (4.0 * k * e + 2.0 * b * q - q * q);
  }

  /** The textbook form used when the linear coefficient is negative. */
  lemma DirectForm(k: real, b: real, depthSum: real, s: real, c: real)
    requires k > 0.0 && s * s == Discriminant(k, b, depthSum) && c * (2.0 * k) == s - b
    ensures Quadratic(k, b, depthSum, c) == 0.0
  {
    var u := 2.0 * k * c;
    assert u + b == s;
    assert (u + b) * (u + b) == u * u + 2.0 * u * b + b * b;
    assert u * u + 2.0 * u * b == 4.0 * k * depthSum;
    assert u * u == 4.0 * k * (k * c * c);
    assert 2.0 * u * b == 4.0 * k * (b * c);
    assert 4.0 * k * (k * c * c) + 4.0 * k * (b * c) - 4.0 * k * depthSum == Quadratic(k, b, depthSum, c) * (4.0 * k);
    ProductZero(Quadratic(k, b, depthSum, c), 4.0 * k);
  }

  lemma ProposedIsRoot(k: real, b: real, depthSum: real, yielded: real, s: real)
    requires k > 0.0 && depthSum >= 0.0 && SquareRoot(Discriminant(k, b, depthSum), s)
    requires depthSum == 0.0 ==> b == -yielded
    ensures var c := ProposedDepth(k, b, depthSum, yielded, s);
      && (c.Some? ==> c.value > 0.0 && Quadratic(k, b, depthSum, c.value) == 0.0)
      && (c.None? <==> depthSum == 0.0 && yielded <= 0.0)
  {
    if depthSum == 0.0 {
      if yielded > 0.0 {
        YieldedForm(k, yielded);
      }
    } else {
      RootExceeds(k, b, depthSum, s);
      if b >= 0.0 {
        PositiveQuotient(2.0 * depthSum, b + s);
        ReciprocalForm(k, b, depthSum, s, 2.0 * depthSum / (b + s));
      } else {
        PositiveQuotient(s - b, 2.0 * k);
        DirectForm(k, b, depthSum, s, (s - b) / (2.0 * k));
      }
    }
  }

  /** With no elastic layer the compression simply balances the yielded force. */
  lemma YieldedForm(k: real, yielded: real)
    requires k > 0.0 && yielded > 0.0
    ensures yielded / k > 0.0 && Quadratic(k, -yielded, 0.0, yielded / k) == 0.0
  {
    PositiveQuotient(yielded, k);
    var c := yielded / k;
    assert k * c * c == yielded * c;
    assert (-yielded) * c == -(yielded * c);
  }

  lemma PositiveQuotient(x: real, y: real)
    requires x > 0.0 && y > 0.0
    ensures x / y > 0.0 && (x / y) * y == x
  {
    var q := x / y;
    assert q * y == x;
    if q <= 0.0 {
      ScaleAtMost(q, 0.0, y);
    }
  }

  /** A quadratic with a non-negative constant part has one positive root at most, unless it vanishes there. */
  lemma PositiveRootIsUnique(k: real, b: real, depthSum: real, x: real, y: real)
    requires k > 0.0 && depthSum >= 0.0 && x > 0.0 && y > 0.0
    requires Quadratic(k, b, depthSum, x) == 0.0 && Quadratic(k, b, depthSum, y) == 0.0
    ensures x == y
  {
    assert k * x * x * y + b * x * y == depthSum * y by {
      assert (k * x * x + b * x) * y == depthSum * y;
    }
    assert k * y * y * x + b * x * y == depthSum * x by {
      assert (k * y * y + b * y) * x == depthSum * x;
    }
    assert k * x * x * y - k * y * y * x == (k * x * y) * (x - y);
    var p := k * x * y;
    assert p > 0.0 by {
      ScaleLess(0.0, k, x);
      ScaleLess(0.0, k * x, y);
    }
    assert p * (x - y) == depthSum * (y - x);
    assert (p + depthSum) * (x - y) == 0.0;
    if x != y {
      ProductZero(p + depthSum, x - y);
    }
  }

  // ---- forces of an assignment ----

  lemma ElasticForce(l: Layer, topStrain: real, c: real)
    requires c > 0.0
    ensures c * (l.area * TrialStress(l, topStrain, c)) == ElasticTerm(l, topStrain) * l.depth - c * ElasticTerm(l, topStrain)
  {
    var q := l.depth / c;
    assert c * q == l.depth;
    var t := ElasticTerm(l, topStrain);
    assert l.area * TrialStress(l, topStrain, c) == t * (q - 1.0) by {
      assert l.area * (l.modulus * (topStrain * (q - 1.0))) == (l.area * l.modulus * topStrain) * (q - 1.0);
    }
    assert c * (t * (q - 1.0)) == t * (c * q) - c * t;
  }

  /** One layer's contributions to the force, yielded, elastic and depth sums fit together. */
  lemma LayerFits(state: Active, l: Layer, topStrain: real, c: real)
    requires c > 0.0
    ensures Times(c, LayerForce(state, l, topStrain, c))
         == Times(c, YieldedForce(state, l) - ElasticPart(state, l, topStrain)) + DepthPart(state, l, topStrain)
  {
    hide TrialStress, ElasticTerm;
    if state.StaysElastic? {
      ElasticForce(l, topStrain, c);
      var t := ElasticTerm(l, topStrain);
      assert c * (0.0 - t) == -(c * t);
    }
  }

  lemma FitsAdd(c: real, f: real, y: real, e: real, g: real, f': real, y': real, e': real, g': real)
    requires Times(c, f) == Times(c, y - e) + g && Times(c, f') == Times(c, y' - e') + g'
    ensures Times(c, f + f') == Times(c, (y + y') - (e + e')) + (g + g')
  {
    hide Times;
    TimesDistributes(c, f, f');
    TimesDistributes(c, y - e, y' - e');
    assert (y - e) + (y' - e') == (y + y') - (e + e');
  }

  lemma {:induction false} ForceOfStates(states: seq<Active>, layers: seq<Layer>, topStrain: real, c: real)
    requires |states| == |layers| && c > 0.0
    ensures Times(c, StateForce(states, layers, topStrain, c))
         == Times(c, YieldedSum(states, layers) - ElasticSum(states, layers, topStrain)) + DepthSum(states, layers, topStrain)
  {
    if states != [] {
      hide LayerForce, YieldedForce, ElasticPart, DepthPart, Times;
      var s, l, rest, tail := states[0], layers[0], states[1..], layers[1..];
      LayerFits(s, l, topStrain, c);
      ForceOfStates(rest, tail, topStrain, c);
      FitsAdd(c, LayerForce(s, l, topStrain, c), YieldedForce(s, l), ElasticPart(s, l, topStrain), DepthPart(s, l, topStrain),
              StateForce(rest, tail, topStrain, c), YieldedSum(rest, tail), ElasticSum(rest, tail, topStrain), DepthSum(rest, tail, topStrain));
    }
  }

  /** At any depth, an assignment balances the concrete exactly when the depth solves its quadratic. */
  lemma BalancedIffRoot(d: Data, states: seq<Active>, c: real)
    requires |states| == |d.layers| && c > 0.0
    ensures Compression(d, c) == StateForce(states, d.layers, d.topStrain, c)
       <==> Quadratic(Stiffness(d), Linear(d, states), DepthSum(states, d.layers, d.topStrain), c) == 0.0
  {
    hide Stiffness, StateForce, YieldedSum, ElasticSum, DepthSum;
    ForceOfStates(states, d.layers, d.topStrain, c);
    var k, f := Stiffness(d), StateForce(states, d.layers, d.topStrain, c);
    var e, y := ElasticSum(states, d.layers, d.topStrain), YieldedSum(states, d.layers);
    assert c * (y - e) == -((e - y) * c);
    assert Quadratic(k, e - y, DepthSum(states, d.layers, d.topStrain), c) == (k * c - f) * c;
    if (k * c - f) * c == 0.0 {
      ProductZero(k * c - f, c);
    }
  }

  lemma {:induction false} LeverOfStates(states: seq<Active>, layers: seq<Layer>, topStrain: real, c: real)
    requires |states| == |layers| && c > 0.0
    ensures StateLever(states, layers, topStrain, c)
         == StateMoment(states, layers, topStrain, c) - c * StateForce(states, layers, topStrain, c)
  {
    if states != [] {
      hide LayerForce;
      LeverOfStates(states[1..], layers[1..], topStrain, c);
      LeverStep(LayerForce(states[0], layers[0], topStrain, c), layers[0].depth, c, StateLever(states[1..], layers[1..], topStrain, c),
                StateMoment(states[1..], layers[1..], topStrain, c), StateForce(states[1..], layers[1..], topStrain, c));
    }
  }

  lemma LeverStep(f: real, g: real, c: real, lever: real, moment: real, force: real)
    requires lever == moment - c * force
    ensures f * (g - c) + lever == f * g + moment - c * (f + force)
  {
    assert f * (g - c) == f * g - c * f;
    Distribute(c, f, force);
  }

  /** The two moment formulas agree exactly at every balanced depth. */
  lemma MomentFormulasAgree(d: Data, states: seq<Active>, c: real)
    requires |states| == |d.layers| && c > 0.0 && Compression(d, c) == StateForce(states, d.layers, d.topStrain, c)
    ensures CandidateAt(d, states, c).moment == CandidateAt(d, states, c).identityMoment
    ensures CandidateAt(d, states, c).residual == 0.0
  {
    hide Stiffness, StateForce, StateMoment, StateLever;
    LeverOfStates(states, d.layers, d.topStrain, c);
    var k := Stiffness(d);
    assert c * (k * c) == k * c * c;
    assert 2.0 * k * c * c / 3.0 + k * c * c / 3.0 == k * c * c;
  }

  // ---- how far admissible states are from the true response ----

  function EdgeSlack(l: Layer): real {
    2.0 * BOUNDARY * MaxReal(1.0, l.yieldStress)
  }

  function LayerSlack(l: Layer): real {
    l.area * EdgeSlack(l)
  }

  function Slack(layers: seq<Layer>): real {
    if layers == [] then 0.0 else LayerSlack(layers[0]) + Slack(layers[1..])
  }

  lemma AdmittedForceIsClose(state: Active, l: Layer, height: real, topStrain: real, c: real)
    requires LayerOk(l, height) && c > 0.0 && AdmitsLayer(state, l, topStrain, c)
    ensures Abs(LayerForce(state, l, topStrain, c) - Force(l, topStrain, c)) <= LayerSlack(l)
    ensures Abs(LayerMoment(state, l, topStrain, c) - ForceMoment(l, topStrain, c)) <= Times(height, LayerSlack(l))
  {
    hide StateStress, Stress, AdmitsLayer, EdgeSlack;
    AdmittedStressIsClose(state, l, height, topStrain, c);
    CloseProducts(l.area, StateStress(state, l, topStrain, c), Stress(l, topStrain, c), EdgeSlack(l));
    hide LayerForce, Force, LayerSlack;
    CloseMoments(LayerForce(state, l, topStrain, c), Force(l, topStrain, c), l.depth, LayerSlack(l), height);
  }

  /** An admitted state's stress is the true stress up to the slack at the edge. */
  lemma AdmittedStressIsClose(state: Active, l: Layer, height: real, topStrain: real, c: real)
    requires LayerOk(l, height) && c > 0.0 && AdmitsLayer(state, l, topStrain, c)
    ensures Abs(StateStress(state, l, topStrain, c) - Stress(l, topStrain, c)) <= EdgeSlack(l)
  {
    hide TrialStress;
    EdgeBound(TrialStress(l, topStrain, c), l.yieldStress);
  }

  lemma EdgeBound(trial: real, fy: real)
    requires fy > 0.0
    ensures var boundary := BOUNDARY * MaxReal(MaxReal(1.0, fy), Abs(trial));
      && (Abs(trial) <= fy + boundary ==> Abs(trial) <= fy + 2.0 * BOUNDARY * MaxReal(1.0, fy))
      && (trial >= fy - boundary ==> trial >= fy - 2.0 * BOUNDARY * MaxReal(1.0, fy))
      && (trial <= -fy + boundary ==> trial <= -fy + 2.0 * BOUNDARY * MaxReal(1.0, fy))
  {
  }

  lemma {:induction false} AdmittedForcesAreClose(states: seq<Active>, layers: seq<Layer>, height: real, topStrain: real, c: real)
    requires |states| == |layers| && c > 0.0 && height > 0.0 && Admits(states, layers, topStrain, c)
    requires forall i | 0 <= i < |layers| :: LayerOk(layers[i], height)
    ensures Abs(StateForce(states, layers, topStrain, c) - SteelForce(layers, topStrain, c)) <= Slack(layers)
    ensures Abs(StateMoment(states, layers, topStrain, c) - SteelMoment(layers, topStrain, c)) <= Times(height, Slack(layers))
  {
    if states != [] {
      hide LayerForce, LayerMoment, Force, ForceMoment, AdmitsLayer, LayerSlack, Times;
      var l := layers[0];
      assert LayerOk(l, height);
      AdmittedForceIsClose(states[0], l, height, topStrain, c);
      AdmittedForcesAreClose(states[1..], layers[1..], height, topStrain, c);
      TimesDistributes(height, LayerSlack(l), Slack(layers[1..]));
    }
  }

  lemma CloseProducts(k: real, s: real, t: real, e: real)
    requires k > 0.0 && Abs(s - t) <= e
    ensures Abs(k * s - k * t) <= k * e
  {
    ScaleAtMost(s - t, e, k);
    ScaleAtMost(-e, s - t, k);
    assert k * (s - t) == k * s - k * t && k * (-e) == -(k * e);
  }

  lemma CloseMoments(f: real, g: real, depth: real, e: real, height: real)
    requires 0.0 < depth < height && Abs(f - g) <= e
    ensures Abs(f * depth - g * depth) <= height * e
  {
    CloseProducts(depth, f, g, e);
    ScaleAtMost(depth, height, e);
    assert depth * f == f * depth && depth * g == g * depth;
  }

  lemma BalancedStatesAreClose(d: Data, states: seq<Active>, c: real)
    requires DataOk(d) && |states| == |d.layers| && c > 0.0 && Admits(states, d.layers, d.topStrain, c)
    requires Compression(d, c) == StateForce(states, d.layers, d.topStrain, c)
    ensures Abs(Residual(d, c)) <= Slack(d.layers)
    ensures Abs(CandidateAt(d, states, c).moment - Moment(d, c)) <= Times(d.height, Slack(d.layers))
  {
    hide Stiffness, Compression, StateForce, StateMoment, SteelForce, SteelMoment, StateLever, Admits, Slack;
    AdmittedForcesAreClose(states, d.layers, d.height, d.topStrain, c);
  }

  /** Every candidate balances exactly in its own states, and the true residual and moment differ by the slack at most. */
  lemma CandidateIsNearlyBalanced(d: Data, roots: Roots, states: seq<Active>)
    requires DataOk(d) && RootsOk(d, roots) && |states| == |d.layers| && CandidateOf(d, roots, states).Some?
    ensures var x := CandidateOf(d, roots, states).value;
      && 0.0 < x.neutralAxis < d.height && x == CandidateAt(d, states, x.neutralAxis)
      && x.residual == 0.0 && x.moment == x.identityMoment && x.compression == Compression(d, x.neutralAxis)
      && Abs(Residual(d, x.neutralAxis)) <= Slack(d.layers)
      && Abs(x.moment - Moment(d, x.neutralAxis)) <= Times(d.height, Slack(d.layers))
  {
    hide CandidateDepth, Stiffness, Compression, StateForce, StateMoment, SquareRoot, Linear, DepthSum, Discriminant,
      Quadratic, StateLever, DataOk, Residual, Moment, Slack, Admits;
    var c := CandidateDepth(d, states, roots[states]).value;
    CandidateSolves(d, states, roots[states]);
    BalancedIffRoot(d, states, c);
    MomentFormulasAgree(d, states, c);
    BalancedStatesAreClose(d, states, c);
  }

  lemma CandidateSolves(d: Data, states: seq<Active>, s: real)
    requires DataOk(d) && |states| == |d.layers|
    requires SquareRoot(Discriminant(Stiffness(d), Linear(d, states), DepthSum(states, d.layers, d.topStrain)), s)
    ensures var c := CandidateDepth(d, states, s);
      c.Some? ==> Quadratic(Stiffness(d), Linear(d, states), DepthSum(states, d.layers, d.topStrain), c.value) == 0.0
    ensures forall root | 0.0 < root < d.height
              && Quadratic(Stiffness(d), Linear(d, states), DepthSum(states, d.layers, d.topStrain), root) == 0.0 ::
              CandidateDepth(d, states, s) == Some(root)
  {
    StiffnessPositive(d);
    DepthSumSign(states, d.layers, d.height, d.topStrain);
    var k, b, e, y := Stiffness(d), Linear(d, states), DepthSum(states, d.layers, d.topStrain), YieldedSum(states, d.layers);
    hide Stiffness, YieldedSum, ElasticSum, DepthSum, LayerOk, Discriminant, Quadratic, ProposedDepth;
    ProposedIsRoot(k, b, e, y, s);
    forall root | 0.0 < root < d.height && Quadratic(k, b, e, root) == 0.0
      ensures CandidateDepth(d, states, s) == Some(root)
    {
      if ProposedDepth(k, b, e, y, s).None? {
        NoPositiveRoot(k, y, root);
      } else {
        PositiveRootIsUnique(k, b, e, root, ProposedDepth(k, b, e, y, s).value);
      }
    }
  }

  lemma NoPositiveRoot(k: real, yielded: real, c: real)
    requires k > 0.0 && yielded <= 0.0 && c > 0.0
    ensures Quadratic(k, -yielded, 0.0, c) > 0.0
  {
    ScaleLess(0.0, k, c);
    ScaleLess(0.0, k * c, c);
    ScaleAtMost(0.0, -yielded, c);
  }

  // ---- the exact equilibrium is always found ----

  function TrueState(l: Layer, topStrain: real, c: real): Active
    requires c > 0.0
  {
    var trial := TrialStress(l, topStrain, c);
    if trial > l.yieldStress then YieldsInTension else if trial < -l.yieldStress then YieldsInCompression else StaysElastic
  }

  function TrueStates(layers: seq<Layer>, topStrain: real, c: real): (r: seq<Active>)
    requires c > 0.0
    ensures |r| == |layers|
  {
    if layers == [] then [] else [TrueState(layers[0], topStrain, c)] + TrueStates(layers[1..], topStrain, c)
  }

  lemma TrueStateFits(l: Layer, height: real, topStrain: real, c: real)
    requires c > 0.0 && LayerOk(l, height)
    ensures AdmitsLayer(TrueState(l, topStrain, c), l, topStrain, c)
    ensures LayerForce(TrueState(l, topStrain, c), l, topStrain, c) == Force(l, topStrain, c)
  {
    hide TrialStress;
  }

  lemma {:induction false} TrueStatesFit(layers: seq<Layer>, height: real, topStrain: real, c: real)
    requires c > 0.0 && forall i | 0 <= i < |layers| :: LayerOk(layers[i], height)
    ensures Admits(TrueStates(layers, topStrain, c), layers, topStrain, c)
    ensures StateForce(TrueStates(layers, topStrain, c), layers, topStrain, c) == SteelForce(layers, topStrain, c)
  {
    if layers != [] {
      hide TrueState, LayerForce, Force, AdmitsLayer, LayerOk;
      var states := TrueStates(layers, topStrain, c);
      TrueStatesFit(layers[1..], height, topStrain, c);
      assert states[1..] == TrueStates(layers[1..], topStrain, c);
      TrueStateFits(layers[0], height, topStrain, c);
      forall i | 0 <= i < |states|
        ensures AdmitsLayer(states[i], layers[i], topStrain, c)
      {
        if i > 0 {
          assert AdmitsLayer(states[1..][i - 1], layers[1..][i - 1], topStrain, c);
        }
      }
    }
  }

  /** The exact equilibrium depth, wherever the solver's bracket encloses one, is a candidate of the oracle. */
  lemma EquilibriumIsCandidate(d: Data, roots: Roots, root: real)
    requires DataOk(d) && RootsOk(d, roots) && 0.0 < root < d.height && Residual(d, root) == 0.0
    ensures CandidateOf(d, roots, TrueStates(d.layers, d.topStrain, root))
         == Some(CandidateAt(d, TrueStates(d.layers, d.topStrain, root), root))
  {
    var states := TrueStates(d.layers, d.topStrain, root);
    TrueStatesFit(d.layers, d.height, d.topStrain, root);
    BalancedIffRoot(d, states, root);
    CandidateSolves(d, states, roots[states]);
  }

  // ---- agreement ----

  /** Any two candidates are close; exactly equal when no layer is at the edge of a state. */
  lemma CandidatesAreClose(d: Data, roots: Roots, states: seq<Active>, states': seq<Active>)
    requires DataOk(d) && RootsOk(d, roots) && |states| == |d.layers| && |states'| == |d.layers|
    requires CandidateOf(d, roots, states).Some? && CandidateOf(d, roots, states').Some?
    ensures Abs(CandidateOf(d, roots, states).value.compression - CandidateOf(d, roots, states').value.compression)
         <= 2.0 * Slack(d.layers)
  {
    CandidateIsNearlyBalanced(d, roots, states);
    CandidateIsNearlyBalanced(d, roots, states');
    hide DataOk, RootsOk, CandidateOf, Compression, Residual, Moment, Slack;
    SmallResidualsAreClose(d, CandidateOf(d, roots, states).value.neutralAxis, CandidateOf(d, roots, states').value.neutralAxis, Slack(d.layers));
  }

  lemma SmallResidualsAreClose(d: Data, x: real, y: real, e: real)
    requires DataOk(d) && 0.0 < x <= d.height && 0.0 < y <= d.height && Abs(Residual(d, x)) <= e && Abs(Residual(d, y)) <= e
    ensures Times(Stiffness(d), Abs(x - y)) <= 2.0 * e
    ensures Abs(Compression(d, x) - Compression(d, y)) <= 2.0 * e
  {
    hide DataOk, Stiffness, Compression, Residual, Moment;
    ErrorsFollowResidual(d, y, x);
  }

  predicate ExactlyAdmits(states: seq<Active>, layers: seq<Layer>, topStrain: real, c: real)
    requires |states| == |layers| && c > 0.0
  {
    forall i | 0 <= i < |states| :: StateStress(states[i], layers[i], topStrain, c) == Stress(layers[i], topStrain, c)
  }

  lemma {:induction false} ExactStatesFit(states: seq<Active>, layers: seq<Layer>, topStrain: real, c: real)
    requires |states| == |layers| && c > 0.0 && ExactlyAdmits(states, layers, topStrain, c)
    ensures StateForce(states, layers, topStrain, c) == SteelForce(layers, topStrain, c)
    ensures StateMoment(states, layers, topStrain, c) == SteelMoment(layers, topStrain, c)
  {
    if states != [] {
      hide StateStress, Stress;
      assert StateStress(states[0], layers[0], topStrain, c) == Stress(layers[0], topStrain, c);
      forall i | 0 <= i < |states[1..]|
        ensures StateStress(states[1..][i], layers[1..][i], topStrain, c) == Stress(layers[1..][i], topStrain, c)
      {
        assert StateStress(states[i + 1], layers[i + 1], topStrain, c) == Stress(layers[i + 1], topStrain, c);
      }
      ExactStatesFit(states[1..], layers[1..], topStrain, c);
    }
  }

  /** All exactly admissible assignments share one depth: the equilibrium that every bisection bracket holds. */
  lemma ExactCandidatesShareOneRoot(d: Data, roots: Roots, states: seq<Active>, i: nat)
    requires DataOk(d) && RootsOk(d, roots) && |states| == |d.layers| && CandidateOf(d, roots, states).Some?
    requires ExactlyAdmits(states, d.layers, d.topStrain, CandidateOf(d, roots, states).value.neutralAxis)
    ensures var c := CandidateOf(d, roots, states).value.neutralAxis;
      && c > 0.0 && Residual(d, c) == 0.0
      && (forall root | root > 0.0 && Residual(d, root) == 0.0 :: root == c)
      && (Residual(d, d.height) > 0.0 ==> Bracket(d, i).0 <= c <= Bracket(d, i).1)
      && CandidateOf(d, roots, states).value.moment == Moment(d, c)
  {
    var c := CandidateOf(d, roots, states).value.neutralAxis;
    CandidateIsNearlyBalanced(d, roots, states);
    ExactStatesFit(states, d.layers, d.topStrain, c);
    assert CandidateOf(d, roots, states).value == CandidateAt(d, states, c);
    hide DataOk, RootsOk, CandidateOf, Stiffness, StateForce, StateMoment, SteelForce, SteelMoment, Slack;
    assert Residual(d, c) == 0.0;
    forall root | root > 0.0 && Residual(d, root) == 0.0
      ensures root == c
    {
      RootIsUnique(d, root, c);
    }
    if Residual(d, d.height) > 0.0 {
      BracketHoldsRoot(d, i, c);
    }
  }

  // ---- when the oracle settles on one root ----

  lemma {:induction false} FoundFrom(d: Data, roots: Roots, list: seq<seq<Active>>, k: nat) returns (i: nat)
    requires DataOk(d) && RootsOk(d, roots) && (forall i | 0 <= i < |list| :: |list[i]| == |d.layers|)
    requires k < |Found(d, roots, list)|
    ensures i < |list| && CandidateOf(d, roots, list[i]) == Some(Found(d, roots, list)[k])
  {
    hide DataOk, RootsOk, CandidateOf;
    if k < |Found(d, roots, list[..|list| - 1])| {
      i := FoundFrom(d, roots, list[..|list| - 1], k);
    } else {
      i := |list| - 1;
    }
  }

  lemma {:induction false} FoundHas(d: Data, roots: Roots, list: seq<seq<Active>>, i: nat)
    requires DataOk(d) && RootsOk(d, roots) && (forall i | 0 <= i < |list| :: |list[i]| == |d.layers|)
    requires i < |list| && CandidateOf(d, roots, list[i]).Some?
    ensures Found(d, roots, list) != []
  {
    hide DataOk, RootsOk, CandidateOf;
    if i < |list| - 1 {
      FoundHas(d, roots, list[..|list| - 1], i);
    }
  }

  lemma Closer(k: real, x: real, e: real, bound: real)
    requires k > 0.0 && Times(k, x) <= e && e < Times(k, bound)
    ensures x < bound
  {
    if x >= bound {
      ScaleAtMost(bound, x, k);
    }
  }

  lemma CandidatesAreNear(d: Data, roots: Roots, states: seq<Active>, states': seq<Active>)
    requires DataOk(d) && RootsOk(d, roots) && |states| == |d.layers| && |states'| == |d.layers|
    requires CandidateOf(d, roots, states).Some? && CandidateOf(d, roots, states').Some?
    requires 2.0 * Slack(d.layers) < Times(Stiffness(d), SAME * d.height)
    ensures Near(CandidateOf(d, roots, states).value.neutralAxis, CandidateOf(d, roots, states').value.neutralAxis, d.height)
  {
    CandidateIsNearlyBalanced(d, roots, states);
    CandidateIsNearlyBalanced(d, roots, states');
    StiffnessPositive(d);
    hide DataOk, RootsOk, CandidateOf, Stiffness, Residual, Moment, Slack, Times;
    var x, y := CandidateOf(d, roots, states).value.neutralAxis, CandidateOf(d, roots, states').value.neutralAxis;
    SmallResidualsAreClose(d, x, y, Slack(d.layers));
    Closer(Stiffness(d), Abs(x - y), 2.0 * Slack(d.layers), SAME * d.height);
  }

  /** At a given equilibrium there is a candidate, and all candidates are near it when the slack is small enough. */
  lemma SettlesAtRoot(d: Data, roots: Roots, root: real)
    requires DataOk(d) && RootsOk(d, roots) && 0.0 < root < d.height && Residual(d, root) == 0.0
    ensures forall i | 0 <= i < |Assignments(|d.layers|)| :: |Assignments(|d.layers|)[i]| == |d.layers|
    ensures Found(d, roots, Assignments(|d.layers|)) != []
    ensures 2.0 * Slack(d.layers) < Times(Stiffness(d), SAME * d.height) ==> AllNearFirst(d, Found(d, roots, Assignments(|d.layers|)))
  {
    hide DataOk, RootsOk, CandidateOf, Stiffness, Residual, Slack, Near, Times, Assignments, Found, CandidateAt, TrueStates;
    var list := Assignments(|d.layers|);
    forall i | 0 <= i < |list|
      ensures |list[i]| == |d.layers|
    {
      AssignmentsAreAll(|d.layers|, list[i]);
    }
    var states := TrueStates(d.layers, d.topStrain, root);
    EquilibriumIsCandidate(d, roots, root);
    AssignmentsAreAll(|d.layers|, states);
    var i :| 0 <= i < |list| && list[i] == states;
    FoundHas(d, roots, list, i);
    var found := Found(d, roots, list);
    if 2.0 * Slack(d.layers) < Times(Stiffness(d), SAME * d.height) {
      forall k | 0 < k < |found|
        ensures Near(found[k].neutralAxis, found[0].neutralAxis, d.height)
      {
        var p := FoundFrom(d, roots, list, k);
        var q := FoundFrom(d, roots, list, 0);
        CandidatesAreNear(d, roots, list[p], list[q]);
      }
    }
  }
}
