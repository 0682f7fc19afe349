/**
 * An equilibrium exists whenever the solver does not refuse the section: the residual is not
 * positive at a shallow depth, and between two depths where no layer changes its state it is a
 * quadratic whose square root the oracle is given.
 */
module SectionExistence {
  import opened Common
  import opened Section
  import opened SectionOracle
  import opened SectionAgreement

  // ---- a depth too shallow for equilibrium ----

  lemma TrialIs(l: Layer, topStrain: real, c: real)
    requires c > 0.0
    ensures c * TrialStress(l, topStrain, c) == (l.modulus * topStrain) * (l.depth - c)
  {
    var q := l.depth / c;
    assert c * q == l.depth;
    var e := l.modulus * topStrain;
    assert TrialStress(l, topStrain, c) == e * (q - 1.0);
    assert c * (e * (q - 1.0)) == e * (c * q - c);
  }

  lemma TrialFalls(l: Layer, height: real, topStrain: real, a: real, c: real)
    requires LayerOk(l, height) && topStrain > 0.0 && 0.0 < a <= c
    ensures TrialStress(l, topStrain, c) <= TrialStress(l, topStrain, a)
  {
    QuotientFalls(l.depth, a, c);
    ScaleAtMost(l.depth / c - 1.0, l.depth / a - 1.0, topStrain);
    ScaleAtMost(Strain(l, topStrain, c), Strain(l, topStrain, a), l.modulus);
  }

  lemma SameFactor(c: real, x: real, y: real)
    requires c > 0.0 && c * x == c * y
    ensures x == y
  {
    assert c * (x - y) == 0.0;
    if x != y {
      ProductZero(c, x - y);
    }
  }

  lemma SameOrder(k: real, x: real, y: real)
    requires k > 0.0
    ensures k * x <= k * y <==> x <= y
  {
    if x <= y {
      ScaleAtMost(x, y, k);
    } else {
      ScaleLess(y, x, k);
    }
  }

  lemma ProductOverFactor(k: real, x: real)
    requires k > 0.0
    ensures k * (x / k) == x
  {
  }

  /** Where the elastic stress reaches `target`, for any target above minus the stress of an unstrained bottom. */
  lemma DepthOfStress(l: Layer, height: real, topStrain: real, target: real) returns (p: real)
    requires LayerOk(l, height) && topStrain > 0.0 && l.modulus * topStrain + target > 0.0
    ensures p > 0.0 && TrialStress(l, topStrain, p) == target
  {
    var e := l.modulus * topStrain;
    assert e > 0.0 by {
      ScaleLess(0.0, l.modulus, topStrain);
    }
    assert e * l.depth > 0.0 by {
      ScaleLess(0.0, e, l.depth);
    }
    PositiveQuotient(e * l.depth, e + target);
    p := (e * l.depth) / (e + target);
    TrialIs(l, topStrain, p);
    hide TrialStress;
    assert p * target == e * (l.depth - p) by {
      assert p * (e + target) == e * l.depth;
      Distribute(p, e, target);
      assert e * (l.depth - p) == e * l.depth - p * e;
    }
    SameFactor(p, TrialStress(l, topStrain, p), target);
  }

  function Shallowest(layers: seq<Layer>): real
    requires layers != []
  {
    if |layers| == 1 then layers[0].depth else MinReal(layers[0].depth, Shallowest(layers[1..]))
  }

  lemma {:induction false} ShallowestIsBelow(layers: seq<Layer>, height: real)
    requires layers != [] && forall i | 0 <= i < |layers| :: LayerOk(layers[i], height)
    ensures 0.0 < Shallowest(layers) < height && forall i | 0 <= i < |layers| :: Shallowest(layers) <= layers[i].depth
  {
    assert LayerOk(layers[0], height);
    if |layers| > 1 {
      ShallowestIsBelow(layers[1..], height);
      forall i | 0 <= i < |layers|
        ensures Shallowest(layers) <= layers[i].depth
      {
        assert i > 0 ==> layers[i] == layers[1..][i - 1];
      }
    }
  }

  /** No layer is compressed at a depth above all of them. */
  lemma StretchedForce(l: Layer, height: real, topStrain: real, c: real)
    requires LayerOk(l, height) && topStrain > 0.0 && 0.0 < c <= l.depth
    ensures Force(l, topStrain, c) >= 0.0
  {
    TrialIs(l, topStrain, c);
    hide TrialStress;
    ScaleLess(0.0, l.modulus, topStrain);
    ScaleAtMost(0.0, l.depth - c, l.modulus * topStrain);
    NotNegative(c, TrialStress(l, topStrain, c));
    assert Stress(l, topStrain, c) >= 0.0;
    hide Stress;
    ScaleAtMost(0.0, Stress(l, topStrain, c), l.area);
  }

  lemma {:induction false} StretchedSteel(layers: seq<Layer>, height: real, topStrain: real, c: real)
    requires topStrain > 0.0 && c > 0.0
    requires forall i | 0 <= i < |layers| :: LayerOk(layers[i], height) && c <= layers[i].depth
    ensures SteelForce(layers, topStrain, c) >= 0.0
  {
    if layers != [] {
      hide Force;
      StretchedForce(layers[0], height, topStrain, c);
      StretchedSteel(layers[1..], height, topStrain, c);
    }
  }

  lemma YieldingForce(l: Layer, height: real, topStrain: real, p: real, c: real)
    requires LayerOk(l, height) && topStrain > 0.0 && 0.0 < c <= p && TrialStress(l, topStrain, p) == l.yieldStress
    ensures Force(l, topStrain, c) == l.area * l.yieldStress
  {
    TrialFalls(l, height, topStrain, c, p);
    hide TrialStress;
    assert Stress(l, topStrain, c) == l.yieldStress;
  }

  /** At some depth inside the section the steel still outweighs the concrete. */
  lemma ShallowDepth(d: Data) returns (c: real)
    requires DataOk(d) && d.layers != []
    ensures 0.0 < c < d.height && Residual(d, c) <= 0.0
  {
    hide Stiffness, SteelForce, Force, TrialStress, Shallowest, Compression;
    var l := d.layers[0];
    assert LayerOk(l, d.height);
    ShallowestIsBelow(d.layers, d.height);
    var p := TensionReached(l, d.height, d.topStrain);
    var balance := BalancingDepth(d, l);
    c := MinReal(Shallowest(d.layers), MinReal(p, balance));
    BelowBalance(d, l, c, balance);
    SteelOutweighs(d, p, c);
  }

  /** The depth at which the concrete alone would balance the layer at yield. */
  lemma BalancingDepth(d: Data, l: Layer) returns (balance: real)
    requires DataOk(d) && LayerOk(l, d.height)
    ensures balance > 0.0 && Compression(d, balance) == l.area * l.yieldStress
  {
    StiffnessPositive(d);
    hide Stiffness;
    ScaleLess(0.0, l.area, l.yieldStress);
    PositiveQuotient(l.area * l.yieldStress, Stiffness(d));
    balance := (l.area * l.yieldStress) / Stiffness(d);
  }

  lemma BelowBalance(d: Data, l: Layer, c: real, balance: real)
    requires DataOk(d) && c <= balance && Compression(d, balance) == l.area * l.yieldStress
    ensures Compression(d, c) <= l.area * l.yieldStress
  {
    StiffnessPositive(d);
    hide Stiffness;
    ScaleAtMost(c, balance, Stiffness(d));
  }

  lemma SteelOutweighs(d: Data, p: real, c: real)
    requires DataOk(d) && d.layers != [] && 0.0 < c <= p && TrialStress(d.layers[0], d.topStrain, p) == d.layers[0].yieldStress
    requires forall i | 0 <= i < |d.layers| :: c <= d.layers[i].depth
    ensures SteelForce(d.layers, d.topStrain, c) >= d.layers[0].area * d.layers[0].yieldStress
  {
    hide Force, TrialStress;
    assert LayerOk(d.layers[0], d.height);
    YieldingForce(d.layers[0], d.height, d.topStrain, p, c);
    StretchedSteel(d.layers[1..], d.height, d.topStrain, c);
  }

  lemma TensionReached(l: Layer, height: real, topStrain: real) returns (p: real)
    requires LayerOk(l, height) && topStrain > 0.0
    ensures p > 0.0 && TrialStress(l, topStrain, p) == l.yieldStress
  {
    ScaleLess(0.0, l.modulus, topStrain);
    p := DepthOfStress(l, height, topStrain, l.yieldStress);
  }

  // ---- between two depths without a change of state ----

  /** The residual changes sign from `a` to `c`. */
  predicate Straddles(d: Data, a: real, c: real) {
    0.0 < a < c <= d.height && Residual(d, a) <= 0.0 < Residual(d, c)
  }

  /** Cutting at any depth leaves a part that straddles, on one side of the cut. */
  lemma Cut(d: Data, a: real, c: real, p: real) returns (a': real, c': real)
    requires Straddles(d, a, c)
    ensures Straddles(d, a', c') && a <= a' && c' <= c && (c' <= p || p <= a')
  {
    hide Residual;
    if p <= a || c <= p {
      a', c' := a, c;
    } else if Residual(d, p) <= 0.0 {
      a', c' := p, c;
    } else {
      a', c' := a, p;
    }
  }

  /** The layer stays in one state over the whole interval. */
  predicate StaysIn(state: Active, l: Layer, topStrain: real, a: real, c: real)
    requires a > 0.0
  {
    && a <= c
    && match state
       case YieldsInTension => TrialStress(l, topStrain, c) >= l.yieldStress
       case YieldsInCompression => TrialStress(l, topStrain, a) <= -l.yieldStress
       case StaysElastic => TrialStress(l, topStrain, a) <= l.yieldStress && -l.yieldStress <= TrialStress(l, topStrain, c)
  }

  lemma StaysInPart(state: Active, l: Layer, height: real, topStrain: real, a: real, c: real, a': real, c': real)
    requires LayerOk(l, height) && topStrain > 0.0 && a > 0.0 && StaysIn(state, l, topStrain, a, c) && a <= a' <= c' <= c
    ensures StaysIn(state, l, topStrain, a', c')
  {
    TrialFalls(l, height, topStrain, a, a');
    TrialFalls(l, height, topStrain, c', c);
    hide TrialStress;
  }

  lemma StaysInMeans(state: Active, l: Layer, height: real, topStrain: real, a: real, c: real, x: real)
    requires LayerOk(l, height) && topStrain > 0.0 && a > 0.0 && StaysIn(state, l, topStrain, a, c) && a <= x <= c
    ensures StateStress(state, l, topStrain, x) == Stress(l, topStrain, x)
  {
    TrialFalls(l, height, topStrain, a, x);
    TrialFalls(l, height, topStrain, x, c);
    hide TrialStress;
  }

  /** Cutting at a layer's two yield depths leaves it in one state. */
  lemma SettleLayer(d: Data, l: Layer, a: real, c: real) returns (a': real, c': real, state: Active)
    requires DataOk(d) && LayerOk(l, d.height) && Straddles(d, a, c)
    ensures Straddles(d, a', c') && a <= a' && c' <= c && StaysIn(state, l, d.topStrain, a', c')
  {
    var top := d.topStrain;
    var p := TensionReached(l, d.height, top);
    var a1, c1 := Cut(d, a, c, p);
    hide Residual;
    if c1 <= p {
      TrialFalls(l, d.height, top, c1, p);
      a', c', state := a1, c1, YieldsInTension;
    } else {
      TrialFalls(l, d.height, top, p, a1);
      a', c', state := SettleBelow(d, l, a1, c1);
    }
  }

  lemma SettleBelow(d: Data, l: Layer, a: real, c: real) returns (a': real, c': real, state: Active)
    requires DataOk(d) && LayerOk(l, d.height) && Straddles(d, a, c) && TrialStress(l, d.topStrain, a) <= l.yieldStress
    ensures Straddles(d, a', c') && a <= a' && c' <= c && StaysIn(state, l, d.topStrain, a', c')
  {
    var top := d.topStrain;
    if l.modulus * top - l.yieldStress > 0.0 {
      var u := DepthOfStress(l, d.height, top, -l.yieldStress);
      a', c' := Cut(d, a, c, u);
      hide Residual;
      if c' <= u {
        TrialFalls(l, d.height, top, c', u);
        TrialFalls(l, d.height, top, a, a');
        state := StaysElastic;
      } else {
        TrialFalls(l, d.height, top, u, a');
        state := YieldsInCompression;
      }
    } else {
      NeverCompressed(l, d.height, top, c);
      a', c', state := a, c, StaysElastic;
    }
  }

  /** A stiff enough yield stress is never reached in compression. */
  lemma NeverCompressed(l: Layer, height: real, topStrain: real, c: real)
    requires LayerOk(l, height) && topStrain > 0.0 && c > 0.0 && l.modulus * topStrain <= l.yieldStress
    ensures TrialStress(l, topStrain, c) >= -l.yieldStress
  {
    var q := l.depth / c;
    PositiveQuotient(l.depth, c);
    var e := l.modulus * topStrain;
    ScaleLess(0.0, l.modulus, topStrain);
    ScaleLess(0.0, q, e);
    assert TrialStress(l, topStrain, c) == e * (q - 1.0);
    assert e * (q - 1.0) == q * e - e;
  }

  /** All layers stay in the listed states. */
  predicate AllStay(states: seq<Active>, layers: seq<Layer>, topStrain: real, a: real, c: real)
    requires a > 0.0 && |states| <= |layers|
  {
    forall i | 0 <= i < |states| :: StaysIn(states[i], layers[i], topStrain, a, c)
  }

  lemma {:induction false} SettleAll(d: Data, a: real, c: real, n: nat) returns (a': real, c': real, states: seq<Active>)
    requires DataOk(d) && Straddles(d, a, c) && n <= |d.layers|
    ensures Straddles(d, a', c') && a <= a' && c' <= c && |states| == n && AllStay(states, d.layers, d.topStrain, a', c')
  {
    hide Residual, StaysIn;
    if n == 0 {
      a', c', states := a, c, [];
    } else {
      var a1, c1, before := SettleAll(d, a, c, n - 1);
      var l := d.layers[n - 1];
      assert LayerOk(l, d.height);
      var state;
      a', c', state := SettleLayer(d, l, a1, c1);
      states := before + [state];
      forall i | 0 <= i < n
        ensures StaysIn(states[i], d.layers[i], d.topStrain, a', c')
      {
        if i < n - 1 {
          assert StaysIn(before[i], d.layers[i], d.topStrain, a1, c1);
          StaysInPart(before[i], d.layers[i], d.height, d.topStrain, a1, c1, a', c');
        }
      }
    }
  }

  // ---- the quadratic has its root there ----

  lemma SettledForce(d: Data, states: seq<Active>, a: real, c: real, x: real)
    requires DataOk(d) && 0.0 < a <= x <= c && |states| == |d.layers| && AllStay(states, d.layers, d.topStrain, a, c)
    ensures StateForce(states, d.layers, d.topStrain, x) == SteelForce(d.layers, d.topStrain, x)
  {
    hide StateForce, SteelForce, StateMoment, SteelMoment, StateStress, Stress, StaysIn, LayerOk;
    forall i | 0 <= i < |states|
      ensures StateStress(states[i], d.layers[i], d.topStrain, x) == Stress(d.layers[i], d.topStrain, x)
    {
      assert StaysIn(states[i], d.layers[i], d.topStrain, a, c);
      StaysInMeans(states[i], d.layers[i], d.height, d.topStrain, a, c, x);
    }
    ExactStatesFit(states, d.layers, d.topStrain, x);
  }

  /** Over such an interval the residual times the depth is the quadratic of the states. */
  lemma ResidualIsQuadratic(d: Data, states: seq<Active>, a: real, c: real, x: real)
    requires DataOk(d) && 0.0 < a <= x <= c && |states| == |d.layers| && AllStay(states, d.layers, d.topStrain, a, c)
    ensures Times(x, Residual(d, x)) == Quadratic(Stiffness(d), Linear(d, states), DepthSum(states, d.layers, d.topStrain), x)
  {
    SettledForce(d, states, a, c, x);
    ForceOfStates(states, d.layers, d.topStrain, x);
    ResidualIs(d, x);
    hide Stiffness, StateForce, SteelForce, YieldedSum, ElasticSum, DepthSum, AllStay, DataOk, Residual, Times, Quadratic;
    QuadraticFits(Stiffness(d), x, StateForce(states, d.layers, d.topStrain, x), YieldedSum(states, d.layers),
                  ElasticSum(states, d.layers, d.topStrain), DepthSum(states, d.layers, d.topStrain), Residual(d, x));
  }

  lemma ResidualIs(d: Data, x: real)
    requires x > 0.0
    ensures Residual(d, x) == Stiffness(d) * x - SteelForce(d.layers, d.topStrain, x)
  {
    hide Stiffness, SteelForce;
  }

  lemma QuadraticFits(k: real, x: real, f: real, y: real, e: real, g: real, r: real)
    requires Times(x, f) == Times(x, y - e) + g && r == k * x - f
    ensures Times(x, r) == Quadratic(k, e - y, g, x)
  {
    assert x * (k * x - f) == k * x * x - x * f;
    assert x * (y - e) == -((e - y) * x);
  }

  /** Past a positive zero the quadratic is positive, before it negative. */
  lemma SignsAround(k: real, b: real, g: real, root: real, x: real)
    requires k > 0.0 && g >= 0.0 && root > 0.0 && x > 0.0 && Quadratic(k, b, g, root) == 0.0
    ensures x <= root ==> Quadratic(k, b, g, x) <= 0.0
    ensures x >= root ==> Quadratic(k, b, g, x) >= 0.0
  {
    var q := Quadratic(k, b, g, x);
    var s := k * root * x + g;
    assert s > 0.0 by {
      ScaleLess(0.0, k, root);
      ScaleLess(0.0, k * root, x);
    }
    assert root * q == (x - root) * s by {
      FactorOut(k, b, g, root, x);
    }
    hide Quadratic;
    if x <= root {
      ScaleAtMost(x - root, 0.0, s);
      NotPositive(root, q);
    }
    if x >= root {
      ScaleAtMost(0.0, x - root, s);
      NotNegative(root, q);
    }
  }

  lemma NotPositive(root: real, q: real)
    requires root > 0.0 && root * q <= 0.0
    ensures q <= 0.0
  {
    if q > 0.0 {
      ScaleLess(0.0, q, root);
    }
  }

  lemma NotNegative(root: real, q: real)
    requires root > 0.0 && root * q >= 0.0
    ensures q >= 0.0
  {
    if q < 0.0 {
      ScaleLess(q, 0.0, root);
    }
  }

  lemma FactorOut(k: real, b: real, g: real, root: real, x: real)
    requires Quadratic(k, b, g, root) == 0.0
    ensures root * Quadratic(k, b, g, x) == (x - root) * (k * root * x + g)
  {
    assert b * root == g - k * root * root;
    assert root * (k * x * x + b * x - g) == k * root * x * x + (b * root) * x - g * root;
    assert (g - k * root * root) * x == g * x - k * root * root * x;
    assert (x - root) * (k * root * x + g) == k * root * x * x - k * root * root * x + g * x - g * root;
  }

  /** An assignment that holds over a straddling interval proposes a depth inside it. */
  lemma SettledRoot(d: Data, states: seq<Active>, s: real, a: real, c: real) returns (root: real)
    requires DataOk(d) && Straddles(d, a, c) && |states| == |d.layers| && AllStay(states, d.layers, d.topStrain, a, c)
    requires SquareRoot(Discriminant(Stiffness(d), Linear(d, states), DepthSum(states, d.layers, d.topStrain)), s)
    ensures a <= root <= c && Residual(d, root) == 0.0
  {
    var k, b, g, y := Stiffness(d), Linear(d, states), DepthSum(states, d.layers, d.topStrain), YieldedSum(states, d.layers);
    StiffnessPositive(d);
    DepthSumSign(states, d.layers, d.height, d.topStrain);
    ResidualIsQuadratic(d, states, a, c, a);
    ResidualIsQuadratic(d, states, a, c, c);
    EndSigns(a, c, Residual(d, a), Residual(d, c));
    assert g == 0.0 ==> b == -y;
    hide Residual, Stiffness, YieldedSum, ElasticSum, DepthSum, Discriminant, AllStay, DataOk, Linear, Quadratic, Times, ProposedDepth;
    ProposedIsRoot(k, b, g, y, s);
    if ProposedDepth(k, b, g, y, s).None? {
      root := a;
      NoPositiveRoot(k, y, a);
      assert false;
    }
    root := ProposedDepth(k, b, g, y, s).value;
    if root < a {
      SignsAround(k, b, g, root, a);
      PositiveRootIsUnique(k, b, g, root, a);
    }
    if c < root {
      SignsAround(k, b, g, root, c);
      assert false;
    }
    ResidualIsQuadratic(d, states, a, c, root);
    ZeroResidual(root, Residual(d, root));
  }

  lemma EndSigns(a: real, c: real, p: real, q: real)
    requires 0.0 < a && 0.0 < c && p <= 0.0 < q
    ensures Times(a, p) <= 0.0 < Times(c, q)
  {
    ScaleAtMost(p, 0.0, a);
    ScaleLess(0.0, q, c);
  }

  lemma ZeroResidual(x: real, r: real)
    requires x > 0.0 && Times(x, r) == 0.0
    ensures r == 0.0
  {
    if r != 0.0 {
      ProductZero(x, r);
    }
  }

  // ---- existence ----

  /** Whenever the residual at full height is positive, which is all the solver asks, an equilibrium lies inside the section. */
  lemma EquilibriumExists(d: Data, roots: Roots) returns (root: real)
    requires DataOk(d) && RootsOk(d, roots) && d.layers != [] && Residual(d, d.height) > 0.0
    ensures 0.0 < root < d.height && Residual(d, root) == 0.0
  {
    var shallow := ShallowDepth(d);
    hide Residual, DataOk, AllStay, SquareRoot;
    var a, c, states := SettleAll(d, shallow, d.height, |d.layers|);
    root := SettledRoot(d, states, roots[states], a, c);
  }

  /** The oracle always finds a candidate for a section the solver does not refuse. */
  lemma OracleHasCandidate(d: Data, roots: Roots)
    requires DataOk(d) && RootsOk(d, roots) && d.layers != [] && Residual(d, d.height) > 0.0
    ensures forall i | 0 <= i < |Assignments(|d.layers|)| :: |Assignments(|d.layers|)[i]| == |d.layers|
    ensures Found(d, roots, Assignments(|d.layers|)) != []
  {
    hide DataOk, RootsOk, Residual, Found, Assignments, AllNearFirst, Slack;
    var root := EquilibriumExists(d, roots);
    SettlesAtRoot(d, roots, root);
  }

  /**
   * The oracle answers for every section the solver does not refuse, unless the slack it grants at
   * yield boundaries could spread the candidates wider than its own same-root distance.
   */
  lemma OracleSettles(d: Data, roots: Roots)
    requires DataOk(d) && RootsOk(d, roots) && d.layers != [] && Residual(d, d.height) > 0.0
    requires 2.0 * Slack(d.layers) < Times(Stiffness(d), SAME * d.height)
    ensures forall i | 0 <= i < |Assignments(|d.layers|)| :: |Assignments(|d.layers|)[i]| == |d.layers|
    ensures AllNearFirst(d, Found(d, roots, Assignments(|d.layers|)))
  {
    hide DataOk, RootsOk, Residual, Found, Assignments, AllNearFirst, Slack, Times, Stiffness;
    var root := EquilibriumExists(d, roots);
    SettlesAtRoot(d, roots, root);
  }

  /** How far a converged answer is from the exact equilibrium, which exists and is the only one. */
  lemma ConvergedErrorBounds(d: Data, roots: Roots, n: nat) returns (root: real)
    requires DataOk(d) && RootsOk(d, roots) && d.layers != [] && Residual(d, d.height) > 0.0 && FirstStop(d, n)
    ensures 0.0 < root < d.height && Residual(d, root) == 0.0
    ensures forall c | c > 0.0 && Residual(d, c) == 0.0 :: c == root
    ensures Depth(d, n - 1) > 0.0
    ensures Abs(Depth(d, n - 1) - root) <= d.depthTolerance / 2.0
    ensures Abs(Compression(d, Depth(d, n - 1)) - Compression(d, root)) <= d.forceTolerance
    ensures Abs(Moment(d, Depth(d, n - 1)) - Moment(d, root)) <= d.height * d.forceTolerance
  {
    hide DataOk, RootsOk, Residual, Moment, Compression, Depth, FirstStop;
    root := EquilibriumExists(d, roots);
    ErrorBoundsAtRoot(d, n, root);
    forall c | c > 0.0 && Residual(d, c) == 0.0
      ensures c == root
    {
      RootIsUnique(d, c, root);
    }
  }
}
