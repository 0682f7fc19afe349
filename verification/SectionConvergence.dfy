/**
 * The bisection converges: below some depth the residual is not positive, above it the residual is
 * Lipschitz, and so a narrow enough bracket has a small residual in its middle.
 */
module SectionConvergence {
  import opened Section
  import opened SectionOracle
  import opened SectionAgreement
  import opened SectionExistence

  // ---- the residual is Lipschitz away from depth zero ----

  function Square(m: real): real {
    Times(m, m)
  }

  lemma TimesPositive(x: real, y: real)
    requires x > 0.0 && y > 0.0
    ensures Times(x, y) > 0.0
  {
    ScaleLess(0.0, x, y);
  }

  lemma SquarePositive(m: real)
    requires m > 0.0
    ensures Square(m) > 0.0
  {
    hide Times;
    TimesPositive(m, m);
  }

  lemma TimesAtMost(x: real, y: real, a: real, c: real)
    requires 0.0 < x <= a && 0.0 < y <= c
    ensures Times(x, y) <= Times(a, c)
  {
    ScaleAtMost(x, a, y);
    ScaleAtMost(y, c, a);
  }

  /** How fast the force of a layer can fall, times the square of the depth. */
  function LayerReach(l: Layer, topStrain: real): real {
    Times(ElasticTerm(l, topStrain), l.depth)
  }

  function ElasticReach(layers: seq<Layer>, topStrain: real): real {
    if layers == [] then 0.0 else LayerReach(layers[0], topStrain) + ElasticReach(layers[1..], topStrain)
  }

  lemma {:induction false} ElasticReachSign(layers: seq<Layer>, height: real, topStrain: real)
    requires topStrain > 0.0 && forall i | 0 <= i < |layers| :: LayerOk(layers[i], height)
    ensures ElasticReach(layers, topStrain) >= 0.0
  {
    if layers != [] {
      ElasticTermPositive(layers[0], height, topStrain);
      ElasticReachSign(layers[1..], height, topStrain);
    }
  }

  lemma QuotientDrop(x: real, m: real, a: real, c: real)
    requires x > 0.0 && 0.0 < m <= a <= c
    ensures Times(Square(m), x / a - x / c) <= Times(x, c - a)
  {
    var p, q := x / a, x / c;
    QuotientFalls(x, a, c);
    ProductOverFactor(a, x);
    ProductOverFactor(c, x);
    AreaGrows(m, a, c);
    hide Square;
    ScaleAtMost(Square(m), Times(a, c), p - q);
    DropOfProducts(x, a, c, p, q);
  }

  lemma AreaGrows(m: real, a: real, c: real)
    requires 0.0 < m <= a <= c
    ensures 0.0 < Square(m) <= Times(a, c)
  {
    hide Times;
    SquarePositive(m);
    TimesAtMost(m, m, a, c);
  }

  lemma DropOfProducts(x: real, a: real, c: real, p: real, q: real)
    requires a * p == x && c * q == x
    ensures Times(a, c) * (p - q) == Times(x, c - a)
  {
    assert (a * c) * (p - q) == c * (a * p) - a * (c * q);
  }

  lemma ForceDrop(l: Layer, height: real, topStrain: real, m: real, a: real, c: real)
    requires LayerOk(l, height) && topStrain > 0.0 && 0.0 < m <= a <= c
    ensures Times(Square(m), Force(l, topStrain, a) - Force(l, topStrain, c)) <= Times(LayerReach(l, topStrain), c - a)
  {
    ForceFallsSlowly(l, height, topStrain, a, c);
    QuotientDrop(l.depth, m, a, c);
    ElasticTermPositive(l, height, topStrain);
    SquarePositive(m);
    hide ElasticTerm, Square, Force, Times;
    ReachBounds(Square(m), Force(l, topStrain, a) - Force(l, topStrain, c), ElasticTerm(l, topStrain), l.depth / a - l.depth / c,
                l.depth, c - a);
  }

  lemma ForceFallsSlowly(l: Layer, height: real, topStrain: real, a: real, c: real)
    requires LayerOk(l, height) && topStrain > 0.0 && 0.0 < a <= c
    ensures Force(l, topStrain, a) - Force(l, topStrain, c) <= Times(ElasticTerm(l, topStrain), l.depth / a - l.depth / c)
  {
    hide Force, TrialStress, ElasticTerm, Times;
    TrialDrop(l, topStrain, a, c);
    ForceFollowsTrial(l, height, topStrain, a, c);
  }

  lemma ForceFollowsTrial(l: Layer, height: real, topStrain: real, a: real, c: real)
    requires LayerOk(l, height) && topStrain > 0.0 && 0.0 < a <= c
    ensures Force(l, topStrain, a) - Force(l, topStrain, c) <= Times(l.area, TrialStress(l, topStrain, a) - TrialStress(l, topStrain, c))
  {
    hide Stress, TrialStress, Times;
    TrialFalls(l, height, topStrain, a, c);
    StressDrop(l, topStrain, a, c);
    DropOfForces(l.area, Stress(l, topStrain, a), Stress(l, topStrain, c), TrialStress(l, topStrain, a) - TrialStress(l, topStrain, c));
  }

  lemma TrialDrop(l: Layer, topStrain: real, a: real, c: real)
    requires a > 0.0 && c > 0.0
    ensures Times(l.area, TrialStress(l, topStrain, a) - TrialStress(l, topStrain, c))
         == Times(ElasticTerm(l, topStrain), l.depth / a - l.depth / c)
  {
    DropOfTrials(l.area, l.modulus, topStrain, l.depth / a, l.depth / c);
  }

  /** Clamping does not widen a drop. */
  lemma StressDrop(l: Layer, topStrain: real, a: real, c: real)
    requires a > 0.0 && c > 0.0 && l.yieldStress > 0.0 && TrialStress(l, topStrain, c) <= TrialStress(l, topStrain, a)
    ensures Stress(l, topStrain, a) - Stress(l, topStrain, c) <= TrialStress(l, topStrain, a) - TrialStress(l, topStrain, c)
  {
    hide TrialStress;
  }

  lemma DropOfForces(area: real, x: real, y: real, drop: real)
    requires area > 0.0 && x - y <= drop
    ensures area * x - area * y <= Times(area, drop)
  {
    ScaleAtMost(x - y, drop, area);
  }

  lemma DropOfTrials(area: real, modulus: real, top: real, p: real, q: real)
    ensures Times(area, modulus * (top * (p - 1.0)) - modulus * (top * (q - 1.0))) == Times(area * modulus * top, p - q)
  {
    assert top * (p - 1.0) - top * (q - 1.0) == top * (p - q);
    assert modulus * (top * (p - 1.0)) - modulus * (top * (q - 1.0)) == modulus * (top * (p - q));
    assert area * (modulus * (top * (p - q))) == (area * modulus * top) * (p - q);
  }

  lemma ReachBounds(square: real, drop: real, t: real, w: real, depth: real, width: real)
    requires square > 0.0 && t > 0.0 && drop <= Times(t, w) && Times(square, w) <= Times(depth, width)
    ensures Times(square, drop) <= Times(Times(t, depth), width)
  {
    ScaleAtMost(drop, t * w, square);
    ScaleAtMost(square * w, depth * width, t);
    assert square * (t * w) == t * (square * w);
    assert (t * depth) * width == t * (depth * width);
  }

  lemma {:induction false} SteelDrop(layers: seq<Layer>, height: real, topStrain: real, m: real, a: real, c: real)
    requires (forall i | 0 <= i < |layers| :: LayerOk(layers[i], height)) && topStrain > 0.0 && 0.0 < m <= a <= c
    ensures Times(Square(m), SteelForce(layers, topStrain, a) - SteelForce(layers, topStrain, c))
         <= Times(ElasticReach(layers, topStrain), c - a)
  {
    if layers == [] {
      assert Times(Square(m), 0.0) == 0.0 && Times(0.0, c - a) == 0.0;
    } else {
      var l, rest := layers[0], layers[1..];
      ForceDrop(l, height, topStrain, m, a, c);
      SteelDrop(rest, height, topStrain, m, a, c);
      hide Force, Times, LayerReach, LayerOk, Square;
      DropsAdd(Square(m), Force(l, topStrain, a) - Force(l, topStrain, c), SteelForce(rest, topStrain, a) - SteelForce(rest, topStrain, c),
               LayerReach(l, topStrain), ElasticReach(rest, topStrain), c - a);
      assert SteelForce(layers, topStrain, a) - SteelForce(layers, topStrain, c)
          == Force(l, topStrain, a) - Force(l, topStrain, c) + (SteelForce(rest, topStrain, a) - SteelForce(rest, topStrain, c));
    }
  }

  lemma DropsAdd(square: real, x: real, y: real, t: real, u: real, width: real)
    requires Times(square, x) <= Times(t, width) && Times(square, y) <= Times(u, width)
    ensures Times(square, x + y) <= Times(t + u, width)
  {
  }

  /** Between depths of at least `m` the residual rises no faster than this. */
  function Steepness(d: Data, m: real): real
    requires m > 0.0
  {
    SquarePositive(m);
    Stiffness(d) + ElasticReach(d.layers, d.topStrain) / Square(m)
  }

  lemma ResidualIsLipschitz(d: Data, m: real, a: real, c: real)
    requires DataOk(d) && 0.0 < m <= a <= c
    ensures Residual(d, c) - Residual(d, a) <= Times(Steepness(d, m), c - a)
  {
    hide Stiffness, SteelForce, ElasticReach, Square, Times, Compression, Steepness;
    SteelDrop(d.layers, d.height, d.topStrain, m, a, c);
    CompressionRises(d, a, c);
    RatesAdd(d, m, SteelForce(d.layers, d.topStrain, a) - SteelForce(d.layers, d.topStrain, c), c - a);
  }

  lemma CompressionRises(d: Data, a: real, c: real)
    ensures Compression(d, c) - Compression(d, a) == Times(Stiffness(d), c - a)
  {
    hide Stiffness;
  }

  lemma RatesAdd(d: Data, m: real, drop: real, width: real)
    requires m > 0.0 && Times(Square(m), drop) <= Times(ElasticReach(d.layers, d.topStrain), width)
    ensures Times(Stiffness(d), width) + drop <= Times(Steepness(d, m), width)
  {
    SquarePositive(m);
    hide Stiffness, ElasticReach, Square, Times;
    RateOf(Stiffness(d), Square(m), drop, ElasticReach(d.layers, d.topStrain), width);
  }

  lemma RateOf(k: real, square: real, drop: real, reach: real, width: real)
    requires square > 0.0 && Times(square, drop) <= Times(reach, width)
    ensures Times(k, width) + drop <= Times(k + reach / square, width)
  {
    var q := reach / square;
    ProductOverFactor(square, reach);
    assert square * (q * width) == reach * width;
    SameOrder(square, drop, q * width);
  }

  // ---- a narrow bracket meets both tolerances ----

  /** A bracket this narrow meets both tolerances, when the residual is not positive at `shallow`. */
  function Fineness(d: Data, shallow: real): real
    requires DataOk(d) && shallow > 0.0
  {
    SteepnessPositive(d, shallow / 2.0);
    MinReal(d.depthTolerance, MinReal(shallow / 2.0, d.forceTolerance / Steepness(d, shallow / 2.0)))
  }

  lemma SteepnessPositive(d: Data, m: real)
    requires DataOk(d) && m > 0.0
    ensures Steepness(d, m) > 0.0
  {
    StiffnessPositive(d);
    ElasticReachSign(d.layers, d.height, d.topStrain);
    SquarePositive(m);
    hide Stiffness, ElasticReach, Square;
    NotNegativeQuotient(ElasticReach(d.layers, d.topStrain), Square(m));
  }

  lemma NotNegativeQuotient(x: real, k: real)
    requires x >= 0.0 && k > 0.0
    ensures x / k >= 0.0
  {
    ProductOverFactor(k, x);
    SameOrder(k, 0.0, x / k);
  }

  lemma FinenessPositive(d: Data, shallow: real)
    requires DataOk(d) && shallow > 0.0
    ensures Fineness(d, shallow) > 0.0
  {
    SteepnessPositive(d, shallow / 2.0);
    hide Steepness;
    PositiveQuotient(d.forceTolerance, Steepness(d, shallow / 2.0));
  }

  lemma SmallResidual(s: real, width: real, tolerance: real)
    requires s > 0.0 && width <= tolerance / s
    ensures Times(s, width) <= tolerance
  {
    ProductOverFactor(s, tolerance);
    ScaleAtMost(width, tolerance / s, s);
  }

  lemma NarrowBracketStops(d: Data, shallow: real, i: nat)
    requires DataOk(d) && Residual(d, d.height) > 0.0 && shallow > 0.0 && Residual(d, shallow) <= 0.0
    requires Bracket(d, i).1 - Bracket(d, i).0 <= Fineness(d, shallow)
    ensures Stops(d, i)
  {
    var m := shallow / 2.0;
    SteepnessPositive(d, m);
    BracketHalves(d, i);
    hide Residual, Steepness, DataOk, Bracket, Times;
    var (lower, upper) := Bracket(d, i);
    if upper <= shallow {
      NoRiseBelow(d, upper, shallow);
      assert false;
    }
    ResidualIsLipschitz(d, m, lower, upper);
    SmallResidual(Steepness(d, m), upper - lower, d.forceTolerance);
    NoRiseBelow(d, lower, Depth(d, i));
    NoRiseBelow(d, Depth(d, i), upper);
  }

  lemma NoRiseBelow(d: Data, a: real, c: real)
    requires DataOk(d) && 0.0 < a <= c
    ensures Residual(d, a) <= Residual(d, c)
  {
    hide Residual, DataOk;
    if a < c {
      ResidualRises(d, a, c);
    }
  }

  /** Every iteration whose number makes the bracket fine enough meets both tolerances. */
  lemma LateIterationStops(d: Data, shallow: real, i: nat)
    requires DataOk(d) && Residual(d, d.height) > 0.0 && shallow > 0.0 && Residual(d, shallow) <= 0.0
    requires d.height <= Times(Fineness(d, shallow), PowerOfTwo(i))
    ensures Stops(d, i)
  {
    BracketHalves(d, i);
    PowerPositive(i);
    hide Residual, DataOk, Bracket, Fineness, PowerOfTwo, Stops;
    Narrower(Bracket(d, i).1 - Bracket(d, i).0, Fineness(d, shallow), PowerOfTwo(i));
    NarrowBracketStops(d, shallow, i);
  }

  lemma Narrower(w: real, f: real, p: real)
    requires p > 0.0 && Times(w, p) <= Times(f, p)
    ensures w <= f
  {
    SameOrder(p, w, f);
  }

  lemma {:induction false} PowerExceeds(i: nat)
    ensures PowerOfTwo(i) >= 1.0 && PowerOfTwo(i) >= i as real
  {
    if i > 0 {
      PowerExceeds(i - 1);
    }
  }

  /** For every section that is not refused, from some iteration on both tolerances are met. */
  lemma BisectionConverges(d: Data) returns (n: nat)
    requires DataOk(d) && d.layers != [] && Residual(d, d.height) > 0.0
    ensures forall i: nat | i >= n :: Stops(d, i)
  {
    hide Residual, DataOk, Fineness, Stops, PowerOfTwo;
    var shallow := ShallowDepth(d);
    FinenessPositive(d, shallow);
    var f := Fineness(d, shallow);
    n := IterationsFor(d.height, f);
    forall i: nat | i >= n
      ensures Stops(d, i)
    {
      PowerExceeds(i);
      EnoughPower(d.height, f, i, PowerOfTwo(i));
      LateIterationStops(d, shallow, i);
    }
  }

  lemma IterationsFor(height: real, f: real) returns (n: nat)
    requires height > 0.0 && f > 0.0
    ensures height / f <= n as real
  {
    PositiveQuotient(height, f);
    n := (height / f).Floor + 1;
  }

  lemma EnoughPower(height: real, f: real, i: nat, p: real)
    requires f > 0.0 && height / f <= i as real && i as real <= p
    ensures height <= Times(f, p)
  {
    ProductOverFactor(f, height);
    ScaleAtMost(height / f, p, f);
  }

  /** With enough iterations allowed, the search does stop: a number of iterations logarithmic in height over fineness. */
  lemma EnoughIterationsStop(d: Data, shallow: real)
    requires DataOk(d) && Residual(d, d.height) > 0.0 && shallow > 0.0 && Residual(d, shallow) <= 0.0
    requires d.maxIterations > 0 && d.height <= Times(Fineness(d, shallow), PowerOfTwo(d.maxIterations - 1))
    ensures exists n :: FirstStop(d, n)
  {
    LateIterationStops(d, shallow, d.maxIterations - 1);
    hide Residual, Fineness, Stops, PowerOfTwo;
    var n := FirstOf(d, d.maxIterations - 1);
    assert FirstStop(d, n + 1);
  }

  lemma FirstOf(d: Data, i: nat) returns (n: nat)
    requires d.height > 0.0 && Stops(d, i)
    ensures n <= i && Stops(d, n) && forall j: nat | j < n :: !Stops(d, j)
  {
    hide Stops;
    n := 0;
    while !Stops(d, n)
      invariant n <= i && forall j: nat | j < n :: !Stops(d, j)
      decreases i - n
    {
      n := n + 1;
    }
  }
}
