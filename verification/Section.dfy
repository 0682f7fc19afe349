/**
 * The section equilibrium solver, over exact reals: the response of a section at a neutral-axis
 * depth, and the bisection that looks for force equilibrium.
 */
module Section {
  datatype Layer = Layer(area: real, depth: real, modulus: real, yieldStress: real)

  datatype Data = Data(
    width: real, height: real, modulus: real, topStrain: real, layers: seq<Layer>, demand: real,
    forceTolerance: real, depthTolerance: real, maxIterations: nat, relativeTolerance: real)

  function Abs(x: real): real {
    if x < 0.0 then -x else x
  }

  function MaxReal(x: real, y: real): real {
    if x < y then y else x
  }

  function MinReal(x: real, y: real): real {
    if y < x then y else x
  }

  /** Products that a proof by induction need not look into. */
  function Times(x: real, y: real): real {
    x * y
  }

  predicate LayerOk(l: Layer, height: real) {
    l.area > 0.0 && 0.0 < l.depth < height && l.modulus > 0.0 && l.yieldStress > 0.0
  }

  /** What the proofs need of a normalized request: positive quantities, layers strictly inside the section. */
  predicate DataOk(d: Data) {
    && d.width > 0.0 && d.height > 0.0 && d.modulus > 0.0 && d.topStrain > 0.0
    && d.forceTolerance > 0.0 && d.depthTolerance > 0.0 && d.relativeTolerance > 0.0
    && forall i | 0 <= i < |d.layers| :: LayerOk(d.layers[i], d.height)
  }

  // ---- response at a depth ----

  function Stiffness(d: Data): real {
    d.width * d.modulus * d.topStrain / 2.0
  }

  function Strain(l: Layer, topStrain: real, c: real): real
    requires c > 0.0
  {
    topStrain * (l.depth / c - 1.0)
  }

  function TrialStress(l: Layer, topStrain: real, c: real): real
    requires c > 0.0
  {
    l.modulus * Strain(l, topStrain, c)
  }

  function Clamp(x: real, limit: real): real {
    MaxReal(-limit, MinReal(limit, x))
  }

  function Stress(l: Layer, topStrain: real, c: real): real
    requires c > 0.0
  {
    Clamp(TrialStress(l, topStrain, c), l.yieldStress)
  }

  function Force(l: Layer, topStrain: real, c: real): real
    requires c > 0.0
  {
    l.area * Stress(l, topStrain, c)
  }

  function ForceMoment(l: Layer, topStrain: real, c: real): real
    requires c > 0.0
  {
    Force(l, topStrain, c) * l.depth
  }

  function SteelForce(layers: seq<Layer>, topStrain: real, c: real): real
    requires c > 0.0
  {
    if layers == [] then 0.0 else Force(layers[0], topStrain, c) + SteelForce(layers[1..], topStrain, c)
  }

  function SteelMoment(layers: seq<Layer>, topStrain: real, c: real): real
    requires c > 0.0
  {
    if layers == [] then 0.0
    else ForceMoment(layers[0], topStrain, c) + SteelMoment(layers[1..], topStrain, c)
  }

  function Compression(d: Data, c: real): real {
    Stiffness(d) * c
  }

  function Residual(d: Data, c: real): real
    requires c > 0.0
  {
    Compression(d, c) - SteelForce(d.layers, d.topStrain, c)
  }

  function Moment(d: Data, c: real): real
    requires c > 0.0
  {
    SteelMoment(d.layers, d.topStrain, c) - Stiffness(d) * c * c / 3.0
  }

  datatype Sign = NearZero | InTension | InCompression

  datatype SteelState = YieldBoundary | Yielded | Elastic

  const NEAR: real := 0.00000001

  datatype SteelResult = SteelResult(strain: real, stress: real, force: real, sign: Sign, state: SteelState)

  function SteelAt(l: Layer, topStrain: real, c: real): SteelResult
    requires c > 0.0
  {
    var strain := Strain(l, topStrain, c);
    var trial := TrialStress(l, topStrain, c);
    var stress := Stress(l, topStrain, c);
    SteelResult(strain, stress, l.area * stress,
                if Abs(stress) <= NEAR then NearZero else if strain > 0.0 then InTension else InCompression,
                if Abs(Abs(trial) - l.yieldStress) <= NEAR then YieldBoundary
                else if Abs(trial) > l.yieldStress then Yielded else Elastic)
  }

  function TopStress(d: Data): real {
    d.modulus * d.topStrain
  }

  datatype Response = Response(
    neutralAxis: real, compression: real, centroid: real, topStress: real, steel: seq<SteelResult>,
    residual: real, moment: real)

  function ResponseAtDepth(d: Data, c: real): Response
    requires c > 0.0
  {
    Response(c, Compression(d, c), c / 3.0, TopStress(d),
             seq(|d.layers|, i requires 0 <= i < |d.layers| => SteelAt(d.layers[i], d.topStrain, c)),
             Residual(d, c), Moment(d, c))
  }

  // ---- the residual rises and the moment falls with depth ----

  lemma QuotientFalls(x: real, a: real, c: real)
    requires x > 0.0 && 0.0 < a <= c
    ensures x / c <= x / a
  {
    var p, q := x / a, x / c;
    assert p * a == x && q * c == x;
    if q > p {
      ScaleLess(p, q, a);
      ScaleAtMost(a, c, q);
      assert false;
    }
  }

  lemma ScaleLess(x: real, y: real, k: real)
    requires x < y && k > 0.0
    ensures x * k < y * k
  {
  }

  lemma ScaleAtMost(x: real, y: real, k: real)
    requires x <= y && k >= 0.0
    ensures x * k <= y * k && k * x <= k * y
  {
  }

  lemma StressFalls(l: Layer, height: real, topStrain: real, a: real, c: real)
    requires LayerOk(l, height) && topStrain > 0.0 && 0.0 < a <= c
    ensures Stress(l, topStrain, c) <= Stress(l, topStrain, a)
  {
    QuotientFalls(l.depth, a, c);
    ScaleAtMost(l.depth / c - 1.0, l.depth / a - 1.0, topStrain);
    ScaleAtMost(Strain(l, topStrain, c), Strain(l, topStrain, a), l.modulus);
  }

  lemma ForceFalls(l: Layer, height: real, topStrain: real, a: real, c: real)
    requires LayerOk(l, height) && topStrain > 0.0 && 0.0 < a <= c
    ensures Force(l, topStrain, c) <= Force(l, topStrain, a)
    ensures 0.0 <= ForceMoment(l, topStrain, a) - ForceMoment(l, topStrain, c)
                <= Times(height, Force(l, topStrain, a) - Force(l, topStrain, c))
  {
    StressFalls(l, height, topStrain, a, c);
    hide Stress;
    ScaleAtMost(Stress(l, topStrain, c), Stress(l, topStrain, a), l.area);
    assert Force(l, topStrain, c) <= Force(l, topStrain, a);
    hide Force;
    MomentDrop(Force(l, topStrain, c), Force(l, topStrain, a), l.depth, height);
  }

  lemma MomentDrop(f: real, g: real, depth: real, height: real)
    requires f <= g && 0.0 < depth < height
    ensures 0.0 <= g * depth - f * depth <= Times(height, g - f)
  {
    var drop := g - f;
    ScaleAtMost(0.0, drop, depth);
    ScaleAtMost(depth, height, drop);
    assert drop * depth == g * depth - f * depth;
  }

  lemma TimesGrows(h: real, x: real, y: real)
    requires h > 0.0 && x <= y
    ensures Times(h, x) <= Times(h, y)
  {
    ScaleAtMost(x, y, h);
  }

  lemma TimesDistributes(h: real, x: real, y: real)
    ensures Times(h, x + y) == Times(h, x) + Times(h, y)
  {
  }

  lemma {:induction false} SteelFalls(layers: seq<Layer>, height: real, topStrain: real, a: real, c: real)
    requires (forall i | 0 <= i < |layers| :: LayerOk(layers[i], height)) && topStrain > 0.0 && 0.0 < a <= c
    ensures 0.0 <= SteelForce(layers, topStrain, a) - SteelForce(layers, topStrain, c)
    ensures 0.0 <= SteelMoment(layers, topStrain, a) - SteelMoment(layers, topStrain, c)
                <= Times(height, SteelForce(layers, topStrain, a) - SteelForce(layers, topStrain, c))
  {
    if layers != [] {
      hide Force, ForceMoment, LayerOk, Times;
      ForceFalls(layers[0], height, topStrain, a, c);
      SteelFalls(layers[1..], height, topStrain, a, c);
      TimesDistributes(height, Force(layers[0], topStrain, a) - Force(layers[0], topStrain, c),
                       SteelForce(layers[1..], topStrain, a) - SteelForce(layers[1..], topStrain, c));
      assert Force(layers[0], topStrain, a) - Force(layers[0], topStrain, c)
          + (SteelForce(layers[1..], topStrain, a) - SteelForce(layers[1..], topStrain, c))
          == SteelForce(layers, topStrain, a) - SteelForce(layers, topStrain, c);
    }
  }

  lemma StiffnessPositive(d: Data)
    requires DataOk(d)
    ensures Stiffness(d) > 0.0
  {
    ScaleLess(0.0, d.width, d.modulus);
    ScaleLess(0.0, d.width * d.modulus, d.topStrain);
  }

  /** The residual rises at least as fast as the concrete compression, so it is strictly increasing. */
  lemma ResidualRises(d: Data, a: real, c: real)
    requires DataOk(d) && 0.0 < a <= c
    ensures Stiffness(d) * (c - a) <= Residual(d, c) - Residual(d, a)
    ensures a < c ==> Residual(d, a) < Residual(d, c)
  {
    hide Stiffness, SteelForce, SteelMoment;
    StiffnessPositive(d);
    SteelFalls(d.layers, d.height, d.topStrain, a, c);
    var k := Stiffness(d);
    assert k * (c - a) == k * c - k * a;
    if a < c {
      ScaleLess(0.0, c - a, k);
      assert k * (c - a) > 0.0;
    }
  }

  lemma SquareDrop(k: real, a: real, c: real, h: real)
    requires k > 0.0 && 0.0 < a <= c <= h
    ensures 0.0 <= k * c * c / 3.0 - k * a * a / 3.0 <= h * (k * (c - a))
  {
    var w := k * (c - a);
    ScaleAtMost(0.0, c - a, k);
    assert k * c * c - k * a * a == w * (c + a) by {
      assert k * c * c - k * a * a == k * (c * c - a * a);
      assert c * c - a * a == (c - a) * (c + a);
      assert k * ((c - a) * (c + a)) == (k * (c - a)) * (c + a);
    }
    ScaleAtMost(0.0, c + a, w);
    ScaleAtMost(c + a, 3.0 * h, w);
    assert w * (3.0 * h) == 3.0 * (h * w);
  }

  /** The moment never rises with depth, and never falls faster than height times the residual rises. */
  lemma MomentFalls(d: Data, a: real, c: real)
    requires DataOk(d) && 0.0 < a <= c <= d.height
    ensures 0.0 <= Moment(d, a) - Moment(d, c) <= d.height * (Residual(d, c) - Residual(d, a))
  {
    hide Stiffness, SteelForce, SteelMoment;
    StiffnessPositive(d);
    SteelFalls(d.layers, d.height, d.topStrain, a, c);
    var k := Stiffness(d);
    SquareDrop(k, a, c, d.height);
    var drop := SteelForce(d.layers, d.topStrain, a) - SteelForce(d.layers, d.topStrain, c);
    assert k * (c - a) == k * c - k * a;
    assert d.height * (Residual(d, c) - Residual(d, a)) == d.height * (k * (c - a)) + d.height * drop by {
      assert Residual(d, c) - Residual(d, a) == k * (c - a) + drop;
      Distribute(d.height, k * (c - a), drop);
    }
  }

  lemma Distribute(h: real, x: real, y: real)
    ensures h * (x + y) == h * x + h * y
  {
  }

  /** For any two depths the errors in depth, compression and moment are bounded by the difference in residual. */
  lemma ErrorsFollowResidual(d: Data, a: real, c: real)
    requires DataOk(d) && 0.0 < a <= d.height && 0.0 < c <= d.height
    ensures Times(Stiffness(d), Abs(c - a)) <= Abs(Residual(d, c) - Residual(d, a))
    ensures Abs(Compression(d, c) - Compression(d, a)) <= Abs(Residual(d, c) - Residual(d, a))
    ensures Abs(Moment(d, c) - Moment(d, a)) <= Times(d.height, Abs(Residual(d, c) - Residual(d, a)))
  {
    hide Stiffness, Residual, Moment, DataOk, Times, Compression;
    if a <= c {
      ErrorsInOrder(d, a, c);
    } else {
      ErrorsInOrder(d, c, a);
    }
  }

  lemma ErrorsInOrder(d: Data, a: real, c: real)
    requires DataOk(d) && 0.0 < a <= c <= d.height
    ensures 0.0 <= Times(Stiffness(d), c - a) <= Residual(d, c) - Residual(d, a)
    ensures 0.0 <= Compression(d, c) - Compression(d, a) <= Residual(d, c) - Residual(d, a)
    ensures 0.0 <= Moment(d, a) - Moment(d, c) <= Times(d.height, Residual(d, c) - Residual(d, a))
  {
    hide Residual, Moment, DataOk;
    ResidualRises(d, a, c);
    MomentFalls(d, a, c);
    StiffnessPositive(d);
    hide Stiffness;
    Difference(Stiffness(d), a, c);
  }

  lemma Difference(k: real, a: real, c: real)
    requires k > 0.0 && a <= c
    ensures k * c - k * a == k * (c - a) && 0.0 <= k * (c - a)
  {
    ScaleAtMost(0.0, c - a, k);
  }

  /** There is at most one depth in equilibrium. */
  lemma RootIsUnique(d: Data, a: real, c: real)
    requires DataOk(d) && a > 0.0 && c > 0.0 && Residual(d, a) == 0.0 && Residual(d, c) == 0.0
    ensures a == c
  {
    hide Residual, DataOk;
    if a < c {
      ResidualRises(d, a, c);
    } else if c < a {
      ResidualRises(d, c, a);
    }
  }

  // ---- bisection ----

  function Middle(bracket: (real, real)): real {
    (bracket.0 + bracket.1) / 2.0
  }

  /** The bracket before iteration `i + 1`. */
  function Bracket(d: Data, i: nat): (r: (real, real))
    requires d.height > 0.0
    ensures 0.0 <= r.0 < r.1 <= d.height
    ensures 0.0 < Middle(r) < d.height
  {
    if i == 0 then (0.0, d.height)
    else
      var before := Bracket(d, i - 1);
      var depth := Middle(before);
      if Residual(d, depth) > 0.0 then (before.0, depth) else (depth, before.1)
  }

  function Depth(d: Data, i: nat): real
    requires d.height > 0.0
  {
    Middle(Bracket(d, i))
  }

  predicate Stops(d: Data, i: nat)
    requires d.height > 0.0
  {
    && Abs(Residual(d, Depth(d, i))) <= d.forceTolerance
    && Bracket(d, i).1 - Bracket(d, i).0 <= d.depthTolerance
  }

  datatype TraceItem = TraceItem(iteration: nat, lower: real, upper: real, depth: real, residual: real)

  function ItemAt(d: Data, i: nat): TraceItem
    requires d.height > 0.0
  {
    TraceItem(i + 1, Bracket(d, i).0, Bracket(d, i).1, Depth(d, i), Residual(d, Depth(d, i)))
  }

  function TraceOf(d: Data, n: nat): seq<TraceItem>
    requires d.height > 0.0
  {
    seq(n, i requires 0 <= i < n => ItemAt(d, i))
  }

  datatype Outcome =
    | OutOfScope(field: string)
    | Converged(response: Response, trace: seq<TraceItem>)
    | NonConvergence(trace: seq<TraceItem>)

  predicate FirstStop(d: Data, n: nat)
    requires d.height > 0.0
  {
    1 <= n <= d.maxIterations && Stops(d, n - 1) && forall i | 0 <= i < n - 1 :: !Stops(d, i)
  }

  /** Bisection stops at the first iteration that meets both tolerances, with the response at that depth. */
  method Solve(d: Data) returns (outcome: Outcome)
    requires DataOk(d)
    ensures outcome == OutOfScope("neutralAxis") <==> Residual(d, d.height) <= 0.0
    ensures outcome.OutOfScope? ==> outcome.field in {"neutralAxis", "moment"}
    ensures outcome == OutOfScope("moment") ==>
              exists n | 1 <= n <= d.maxIterations :: FirstStop(d, n) && Moment(d, Depth(d, n - 1)) <= 0.0
    ensures outcome.Converged? ==>
              && FirstStop(d, |outcome.trace|) && outcome.trace == TraceOf(d, |outcome.trace|)
              && outcome.response == ResponseAtDepth(d, Depth(d, |outcome.trace| - 1)) && outcome.response.moment > 0.0
    ensures outcome.NonConvergence? ==>
              && outcome.trace == TraceOf(d, d.maxIterations)
              && forall i | 0 <= i < d.maxIterations :: !Stops(d, i)
  {
    hide Residual, Moment, Stiffness;
    var lower, upper := 0.0, d.height;
    if ResponseAtDepth(d, upper).residual <= 0.0 {
      return OutOfScope("neutralAxis");
    }
    var trace: seq<TraceItem> := [];
    for n := 0 to d.maxIterations
      invariant (lower, upper) == Bracket(d, n) && trace == TraceOf(d, n)
      invariant forall i | 0 <= i < n :: !Stops(d, i)
    {
      var depth := (lower + upper) / 2.0;
      assert depth == Depth(d, n);
      var response := ResponseAtDepth(d, depth);
      trace := trace + [TraceItem(n + 1, lower, upper, depth, response.residual)];
      assert trace == TraceOf(d, n + 1);
      if Abs(response.residual) <= d.forceTolerance && upper - lower <= d.depthTolerance {
        assert FirstStop(d, n + 1);
        if response.moment <= 0.0 {
          return OutOfScope("moment");
        }
        return Converged(response, trace);
      }
      if response.residual > 0.0 {
        upper := depth;
      } else {
        lower := depth;
      }
    }
    return NonConvergence(trace);
  }

  function PowerOfTwo(i: nat): real {
    if i == 0 then 1.0 else 2.0 * PowerOfTwo(i - 1)
  }

  /** Bisection halves the bracket each time, and the residual is positive above it and not below it. */
  lemma {:induction false} BracketHalves(d: Data, i: nat)
    requires DataOk(d) && Residual(d, d.height) > 0.0
    ensures Times(Bracket(d, i).1 - Bracket(d, i).0, PowerOfTwo(i)) == d.height
    ensures Residual(d, Bracket(d, i).1) > 0.0
    ensures Bracket(d, i).0 == 0.0 || Residual(d, Bracket(d, i).0) <= 0.0
  {
    if i == 0 {
      assert Times(d.height, 1.0) == d.height;
    }
    hide Residual, Times;
    if i > 0 {
      BracketHalves(d, i - 1);
      HalfTimesDouble(Bracket(d, i - 1).1 - Bracket(d, i - 1).0, Bracket(d, i).1 - Bracket(d, i).0, PowerOfTwo(i - 1), d.height);
    }
  }

  lemma HalfTimesDouble(w: real, half: real, p: real, h: real)
    requires half == w / 2.0 && Times(w, p) == h
    ensures Times(half, 2.0 * p) == h
  {
    assert (w / 2.0) * (2.0 * p) == w * p;
  }

  /** Any depth in equilibrium lies in every bracket. */
  lemma BracketHoldsRoot(d: Data, i: nat, root: real)
    requires DataOk(d) && Residual(d, d.height) > 0.0 && root > 0.0 && Residual(d, root) == 0.0
    ensures Bracket(d, i).0 <= root <= Bracket(d, i).1
    ensures 2.0 * Abs(Depth(d, i) - root) <= Bracket(d, i).1 - Bracket(d, i).0
  {
    hide Residual, DataOk;
    BracketHalves(d, i);
    var (lower, upper) := Bracket(d, i);
    if root > upper {
      ResidualRises(d, upper, root);
    }
    if root < lower {
      ResidualRises(d, root, lower);
    }
  }

  lemma ScaledWidth(e: real, w: real, p: real, h: real)
    requires e <= w && p > 0.0 && Times(w, p) == h
    ensures Times(e, p) <= h
  {
    ScaleAtMost(e, w, p);
  }

  /** After `i` halvings the middle is within height over 2 to the power `i + 1` of the equilibrium. */
  lemma BisectionRate(d: Data, i: nat, root: real)
    requires DataOk(d) && Residual(d, d.height) > 0.0 && root > 0.0 && Residual(d, root) == 0.0
    ensures Times(2.0 * Abs(Depth(d, i) - root), PowerOfTwo(i)) <= d.height
  {
    hide Residual, DataOk, Depth, Bracket, PowerOfTwo, Times;
    BracketHoldsRoot(d, i, root);
    BracketHalves(d, i);
    PowerPositive(i);
    ScaledWidth(2.0 * Abs(Depth(d, i) - root), Bracket(d, i).1 - Bracket(d, i).0, PowerOfTwo(i), d.height);
  }

  lemma {:induction false} PowerPositive(i: nat)
    ensures PowerOfTwo(i) > 0.0
  {
    if i > 0 {
      PowerPositive(i - 1);
    }
  }

  lemma StopFacts(d: Data, n: nat)
    requires DataOk(d) && FirstStop(d, n)
    ensures 0.0 < Depth(d, n - 1) <= d.height && Abs(Residual(d, Depth(d, n - 1))) <= d.forceTolerance
    ensures Bracket(d, n - 1).1 - Bracket(d, n - 1).0 <= d.depthTolerance
  {
    hide Residual, Bracket;
  }

  /** How far a converged answer is from a given equilibrium. */
  lemma ErrorBoundsAtRoot(d: Data, n: nat, root: real)
    requires DataOk(d) && Residual(d, d.height) > 0.0 && FirstStop(d, n)
    requires 0.0 < root <= d.height && Residual(d, root) == 0.0
    ensures Depth(d, n - 1) > 0.0
    ensures Abs(Depth(d, n - 1) - root) <= d.depthTolerance / 2.0
    ensures Abs(Compression(d, Depth(d, n - 1)) - Compression(d, root)) <= d.forceTolerance
    ensures Abs(Moment(d, Depth(d, n - 1)) - Moment(d, root)) <= d.height * d.forceTolerance
  {
    StopFacts(d, n);
    BracketHoldsRoot(d, n - 1, root);
    hide Residual, Moment, Compression, DataOk, Depth, Bracket, FirstStop, Stops;
    SmallResidualSmallErrors(d, root, Depth(d, n - 1));
  }

  lemma SmallResidualSmallErrors(d: Data, root: real, c: real)
    requires DataOk(d) && 0.0 < c <= d.height && Abs(Residual(d, c)) <= d.forceTolerance
    requires 0.0 < root <= d.height && Residual(d, root) == 0.0
    ensures Abs(Compression(d, c) - Compression(d, root)) <= d.forceTolerance
    ensures Abs(Moment(d, c) - Moment(d, root)) <= d.height * d.forceTolerance
  {
    hide Residual, Moment, Compression, DataOk;
    ErrorsFollowResidual(d, root, c);
    TimesGrows(d.height, Abs(Residual(d, c) - Residual(d, root)), d.forceTolerance);
  }
}
