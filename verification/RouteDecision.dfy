/** Deterministic route decisions, and the independent check of a stored decision. */
module RouteDecision {
  import opened Common

  const MAX_SCORE_TERM: nat := 100_000_000
  const MAX_ACTION_SCORE: nat := 7 * MAX_SCORE_TERM
  const MAX_NORMALIZED: nat := 10_000
  const TIE_BREAKER := "lexicographically smallest stable route_id"

  datatype Metrics = Metrics(latency: nat, cost: nat, failure: nat, pressure: nat, exposure: nat, switching: nat)

  datatype Weights = Weights(
    latency: nat, cost: nat, failure: nat, semanticLoss: nat, pressure: nat, exposure: nat, switching: nat)

  datatype Candidate = Candidate(
    routeId: string, endpointId: string, allowed: bool, rejections: seq<string>, metrics: Metrics, semanticLoss: nat)

  datatype Terms = Terms(
    latency: nat, cost: nat, failure: nat, semanticLoss: nat, pressure: nat, exposure: nat, switching: nat)

  datatype Explanation = Explanation(routeId: string, allowed: bool, rejections: seq<string>, terms: Option<Terms>)

  /** Digests are named by what they hash. */
  datatype Snapshot = Snapshot(candidates: seq<Candidate>, weights: Weights)

  datatype Measured = Measured(routeId: string, endpointId: string, metrics: Metrics, semanticLoss: nat)

  datatype Plan = Plan(
    selected: string, actionScore: nat, explanations: seq<Explanation>, explainedSelected: string, tieBreaker: string,
    snapshot: Snapshot, policy: Weights, measured: seq<Measured>)

  datatype Denial = Denial(explanations: seq<Explanation>, snapshot: Snapshot, policy: Weights, measured: seq<Measured>)

  datatype Digest = SelectedDigest(schemaVersion: nat, plan: Plan) | DeniedDigest(schemaVersion: nat, denial: Denial)

  datatype Decision =
    | Selected(schemaVersion: nat, digest: Digest, plan: Plan)
    | Denied(schemaVersion: nat, digest: Digest, denial: Denial)

  datatype RouteError =
    | MetricOutOfRange | DuplicateRouteId | InvalidRouteId | RejectionRequired | DecisionDigestMismatch
    | DecisionContractInvalid | DecisionScoreOutOfRange | UnsupportedDecisionSchema

  // ---- scores ----

  predicate MetricsOk(m: Metrics) {
    && m.latency <= MAX_NORMALIZED && m.cost <= MAX_NORMALIZED && m.failure <= MAX_NORMALIZED
    && m.pressure <= MAX_NORMALIZED && m.exposure <= MAX_NORMALIZED && m.switching <= MAX_NORMALIZED
  }

  predicate WeightsOk(w: Weights) {
    && w.latency <= MAX_NORMALIZED && w.cost <= MAX_NORMALIZED && w.failure <= MAX_NORMALIZED
    && w.semanticLoss <= MAX_NORMALIZED && w.pressure <= MAX_NORMALIZED && w.exposure <= MAX_NORMALIZED
    && w.switching <= MAX_NORMALIZED
  }

  function TermsOf(c: Candidate, w: Weights): Terms {
    Terms(w.latency * c.metrics.latency, w.cost * c.metrics.cost, w.failure * c.metrics.failure,
          w.semanticLoss * c.semanticLoss, w.pressure * c.metrics.pressure, w.exposure * c.metrics.exposure,
          w.switching * c.metrics.switching)
  }

  predicate TermsOk(t: Terms) {
    && t.latency <= MAX_SCORE_TERM && t.cost <= MAX_SCORE_TERM && t.failure <= MAX_SCORE_TERM
    && t.semanticLoss <= MAX_SCORE_TERM && t.pressure <= MAX_SCORE_TERM && t.exposure <= MAX_SCORE_TERM
    && t.switching <= MAX_SCORE_TERM
  }

  function Sum(t: Terms): nat {
    t.latency + t.cost + t.failure + t.semanticLoss + t.pressure + t.exposure + t.switching
  }

  /** The total is checked term by term, so the 64-bit sum cannot overflow. */
  function Total(t: Terms): (r: Result<nat, RouteError>)
    ensures r.Ok? ==> r.value <= 700_000_000 <= MAX_U64
  {
    if TermsOk(t) then Ok(Sum(t)) else Err(DecisionScoreOutOfRange)
  }

  lemma AtMostScales(x: nat, z: nat, y: nat)
    requires x <= z
    ensures x * y <= z * y
  {
  }

  lemma ProductBound(x: nat, y: nat)
    requires x <= MAX_NORMALIZED && y <= MAX_NORMALIZED
    ensures x * y <= MAX_SCORE_TERM
  {
    AtMostScales(x, MAX_NORMALIZED, y);
    assert MAX_NORMALIZED * y <= MAX_SCORE_TERM;
  }

  lemma NormalizedTermsFit(c: Candidate, w: Weights)
    requires MetricsOk(c.metrics) && WeightsOk(w) && c.semanticLoss <= MAX_NORMALIZED
    ensures TermsOk(TermsOf(c, w))
  {
    ProductBound(w.latency, c.metrics.latency);
    ProductBound(w.cost, c.metrics.cost);
    ProductBound(w.failure, c.metrics.failure);
    ProductBound(w.semanticLoss, c.semanticLoss);
    ProductBound(w.pressure, c.metrics.pressure);
    ProductBound(w.exposure, c.metrics.exposure);
    ProductBound(w.switching, c.metrics.switching);
  }

  // ---- sorting reasons ----

  predicate Less(a: string, b: string) {
    StringLe(a, b) && a != b
  }

  predicate Increasing(s: seq<string>) {
    forall i, j | 0 <= i < j < |s| :: Less(s[i], s[j])
  }

  function InsertUnique(x: string, s: seq<string>): seq<string> {
    if s == [] then [x]
    else if x == s[0] then s
    else if StringLe(x, s[0]) then [x] + s
    else [s[0]] + InsertUnique(x, s[1..])
  }

  /** Sorting followed by removing equal neighbours. */
  function SortUnique(s: seq<string>): seq<string> {
    if s == [] then [] else InsertUnique(s[0], SortUnique(s[1..]))
  }

  lemma LessTransitive(a: string, b: string, c: string)
    requires Less(a, b) && Less(b, c)
    ensures Less(a, c)
  {
    StringLeTransitive(a, b, c);
    if a == c {
      StringLeAntisymmetric(a, b);
    }
  }

  lemma {:induction false} InsertUniqueKeeps(x: string, s: seq<string>)
    requires Increasing(s)
    ensures Increasing(InsertUnique(x, s))
    ensures forall y :: y in InsertUnique(x, s) <==> y == x || y in s
  {
    hide Less;
    if s != [] {
      if x == s[0] {
      } else if StringLe(x, s[0]) {
        assert Less(x, s[0]) by {
          LessIs(x, s[0]);
        }
        forall j | 0 <= j < |s|
          ensures Less(x, s[j])
        {
          if j > 0 {
            LessTransitive(x, s[0], s[j]);
          }
        }
      } else {
        InsertUniqueKeeps(x, s[1..]);
        var rest := InsertUnique(x, s[1..]);
        forall j | 0 <= j < |rest|
          ensures Less(s[0], rest[j])
        {
          assert rest[j] in rest;
          if rest[j] == x {
            StringLeTotal(x, s[0]);
            LessIs(s[0], x);
          } else {
            var k :| 0 <= k < |s[1..]| && s[1..][k] == rest[j];
            assert Less(s[0], s[k + 1]);
          }
        }
      }
    }
  }

  lemma LessIs(a: string, b: string)
    ensures Less(a, b) <==> StringLe(a, b) && a != b
  {
  }

  lemma {:induction false} SortUniqueKeeps(s: seq<string>)
    ensures Increasing(SortUnique(s))
    ensures forall y :: y in SortUnique(s) <==> y in s
  {
    if s != [] {
      SortUniqueKeeps(s[1..]);
      InsertUniqueKeeps(s[0], SortUnique(s[1..]));
      assert forall y :: y in s <==> y == s[0] || y in s[1..];
    }
  }

  lemma NotBothLess(a: string, b: string)
    requires Less(a, b)
    ensures !Less(b, a)
  {
    if Less(b, a) {
      StringLeAntisymmetric(a, b);
    }
  }

  /** An increasing list is determined by its elements. */
  lemma {:induction false} SameElementsSameList(a: seq<string>, b: seq<string>)
    requires Increasing(a) && Increasing(b) && forall x :: x in a <==> x in b
    ensures a == b
  {
    hide Less;
    assert (a != [] ==> a[0] in a) && (b != [] ==> b[0] in b);
    if a != [] && b != [] {
      assert a[0] in b && b[0] in a;
      if a[0] != b[0] {
        var i :| 0 <= i < |b| && b[i] == a[0];
        var j :| 0 <= j < |a| && a[j] == b[0];
        NotBothLess(a[0], b[0]);
        assert false;
      }
      forall x
        ensures x in a[1..] <==> x in b[1..]
      {
        TailElements(a, x);
        TailElements(b, x);
      }
      SameElementsSameList(a[1..], b[1..]);
    }
  }

  lemma TailElements(s: seq<string>, x: string)
    requires s != [] && Increasing(s)
    ensures x in s[1..] <==> x in s && x != s[0]
  {
    if x in s && x != s[0] {
      var i :| 0 <= i < |s| && s[i] == x;
      assert s[1..][i - 1] == x;
    }
    if x in s[1..] {
      var i :| 0 <= i < |s[1..]| && s[1..][i] == x;
      assert Less(s[0], s[i + 1]);
    }
  }

  // ---- sorting candidates ----

  function Ids(s: seq<Candidate>): seq<string> {
    seq(|s|, i requires 0 <= i < |s| => s[i].routeId)
  }

  predicate SortedById(s: seq<Candidate>) {
    forall i, j | 0 <= i < j < |s| :: StringLe(s[i].routeId, s[j].routeId)
  }

  function InsertById(c: Candidate, s: seq<Candidate>): seq<Candidate> {
    if s == [] then [c]
    else if StringLe(c.routeId, s[0].routeId) then [c] + s
    else [s[0]] + InsertById(c, s[1..])
  }

  function SortById(s: seq<Candidate>): seq<Candidate> {
    if s == [] then [] else InsertById(s[0], SortById(s[1..]))
  }

  lemma {:induction false} InsertByIdKeeps(c: Candidate, s: seq<Candidate>)
    requires SortedById(s)
    ensures SortedById(InsertById(c, s)) && multiset(InsertById(c, s)) == multiset(s) + multiset{c}
  {
    hide StringLe;
    if s == [] {
    } else if StringLe(c.routeId, s[0].routeId) {
      forall j | 0 <= j < |s|
        ensures StringLe(c.routeId, s[j].routeId)
      {
        if j > 0 {
          StringLeTransitive(c.routeId, s[0].routeId, s[j].routeId);
        }
      }
    } else {
      InsertByIdKeeps(c, s[1..]);
      var rest := InsertById(c, s[1..]);
      assert s == [s[0]] + s[1..];
      forall j | 0 <= j < |rest|
        ensures StringLe(s[0].routeId, rest[j].routeId)
      {
        assert rest[j] in multiset(rest);
        if rest[j] == c {
          StringLeTotal(c.routeId, s[0].routeId);
        } else {
          assert rest[j] in multiset(s[1..]);
          var k :| 0 <= k < |s[1..]| && s[1..][k] == rest[j];
          assert StringLe(s[0].routeId, s[k + 1].routeId);
        }
      }
    }
  }

  lemma EmptyIsSorted()
    ensures SortedById([])
  {
  }

  lemma {:induction false} SortByIdKeeps(s: seq<Candidate>)
    ensures SortedById(SortById(s)) && multiset(SortById(s)) == multiset(s) && |SortById(s)| == |s|
  {
    hide InsertById, SortedById;
    EmptyIsSorted();
    if s != [] {
      SortByIdKeeps(s[1..]);
      InsertByIdKeeps(s[0], SortById(s[1..]));
      assert s == [s[0]] + s[1..];
    }
    assert |multiset(SortById(s))| == |multiset(s)|;
  }

  // ---- the decision ----

  predicate Blank(s: string) {
    forall i | 0 <= i < |s| :: IsWhitespace(s[i])
  }

  predicate DenialUnexplained(c: Candidate) {
    !c.allowed && (c.rejections == [] || exists i | 0 <= i < |c.rejections| :: Blank(c.rejections[i]))
  }

  /** Reasons are put in order for denied candidates only. */
  function Normalized(c: Candidate): Candidate {
    if c.allowed then c else c.(rejections := SortUnique(c.rejections))
  }

  function Explain(c: Candidate, w: Weights): Explanation {
    if c.allowed then Explanation(c.routeId, true, [], Some(TermsOf(c, w))) else Explanation(c.routeId, false, c.rejections, None)
  }

  type Ranked = (nat, string)

  predicate RankLe(p: Ranked, q: Ranked) {
    p.0 < q.0 || (p.0 == q.0 && StringLe(p.1, q.1))
  }

  /** The first pair in order of score and then route id. */
  function Least(s: seq<Ranked>): Ranked
    requires s != []
  {
    if |s| == 1 then s[0]
    else
      var rest := Least(s[1..]);
      if RankLe(s[0], rest) then s[0] else rest
  }

  function Eligible(s: seq<Candidate>, w: Weights): seq<Ranked> {
    if s == [] then []
    else
      Eligible(s[..|s| - 1], w)
      + (if s[|s| - 1].allowed then [(Sum(TermsOf(s[|s| - 1], w)), s[|s| - 1].routeId)] else [])
  }

  function Measure(c: Candidate): Measured {
    Measured(c.routeId, c.endpointId, c.metrics, c.semanticLoss)
  }

  function NormalizedAll(s: seq<Candidate>): seq<Candidate> {
    seq(|s|, i requires 0 <= i < |s| => Normalized(s[i]))
  }

  function ExplainAll(s: seq<Candidate>, w: Weights): seq<Explanation> {
    seq(|s|, i requires 0 <= i < |s| => Explain(s[i], w))
  }

  function MeasureAll(s: seq<Candidate>): seq<Measured> {
    seq(|s|, i requires 0 <= i < |s| => Measure(s[i]))
  }

  /** What is decided once candidates are in order and every check has passed. */
  function Outcome(s: seq<Candidate>, w: Weights): Decision {
    var eligible := Eligible(s, w);
    if eligible == [] then
      var denial := Denial(ExplainAll(s, w), Snapshot(s, w), w, MeasureAll(s));
      Denied(1, DeniedDigest(1, denial), denial)
    else
      var (score, id) := Least(eligible);
      var plan := Plan(id, score, ExplainAll(s, w), id, TIE_BREAKER, Snapshot(s, w), w, MeasureAll(s));
      Selected(1, SelectedDigest(1, plan), plan)
  }

  predicate HasRepeat(s: seq<Candidate>) {
    exists i, j | 0 <= i < j < |s| :: s[i].routeId == s[j].routeId
  }

  /** The first check that fails, whatever order the candidates came in. */
  function DecisionError(s: seq<Candidate>, w: Weights): Option<RouteError> {
    if !WeightsOk(w) || exists i | 0 <= i < |s| :: s[i].semanticLoss > MAX_NORMALIZED then Some(MetricOutOfRange)
    else if exists i | 0 <= i < |s| :: s[i].routeId == "" then Some(InvalidRouteId)
    else if HasRepeat(s) then Some(DuplicateRouteId)
    else if exists i | 0 <= i < |s| :: DenialUnexplained(s[i]) then Some(RejectionRequired)
    else if exists i | 0 <= i < |s| :: s[i].allowed && !MetricsOk(s[i].metrics) then Some(MetricOutOfRange)
    else None
  }

  function Decided(s: seq<Candidate>, w: Weights): Result<Decision, RouteError> {
    match DecisionError(s, w)
    case Some(e) => Err(e)
    case None => Ok(Outcome(NormalizedAll(SortById(s)), w))
  }

  // ---- repeats do not depend on the order ----

  predicate Repeats(x: seq<string>) {
    exists i, j | 0 <= i < j < |x| :: x[i] == x[j]
  }

  lemma {:induction false} DistinctCounts(x: seq<string>, v: string)
    requires !Repeats(x)
    ensures multiset(x)[v] <= 1
  {
    if x != [] {
      var rest := x[1..];
      assert x == [x[0]] + rest;
      forall i, j | 0 <= i < j < |rest|
        ensures rest[i] != rest[j]
      {
        assert x[i + 1] != x[j + 1];
      }
      DistinctCounts(rest, v);
      if v == x[0] {
        assert v !in rest;
        assert v !in multiset(rest);
      }
    }
  }

  lemma RepeatedCount(x: seq<string>, i: nat, j: nat)
    requires i < j < |x| && x[i] == x[j]
    ensures multiset(x)[x[i]] >= 2
  {
    assert x == x[..j] + x[j..];
    assert x[i] in x[..j] && x[j] in x[j..];
    assert x[i] in multiset(x[..j]) && x[j] in multiset(x[j..]);
  }

  lemma RepeatsByCount(x: seq<string>, y: seq<string>)
    requires multiset(x) == multiset(y)
    ensures Repeats(x) ==> Repeats(y)
  {
    if Repeats(x) {
      var i, j :| 0 <= i < j < |x| && x[i] == x[j];
      RepeatedCount(x, i, j);
      if !Repeats(y) {
        DistinctCounts(y, x[i]);
      }
    }
  }

  function Map<A, B>(s: seq<A>, f: A -> B): seq<B> {
    seq(|s|, i requires 0 <= i < |s| => f(s[i]))
  }

  lemma {:induction false} MapKeepsMultiset<A(!new), B>(a: seq<A>, b: seq<A>, f: A -> B)
    requires multiset(a) == multiset(b)
    ensures multiset(Map(a, f)) == multiset(Map(b, f))
  {
    if a == [] {
      assert |multiset(b)| == 0;
    } else {
      hide Map;
      var j := PlaceOf(a, b);
      var rest := b[..j] + b[j + 1..];
      WithoutFirst(a, b, j);
      MapKeepsMultiset(a[1..], rest, f);
      MapWithoutOne(a, 0, f);
      MapWithoutOne(b, j, f);
      assert a[..0] + a[1..] == a[1..];
    }
  }

  lemma PlaceOf<A>(a: seq<A>, b: seq<A>) returns (j: nat)
    requires a != [] && multiset(a) == multiset(b)
    ensures j < |b| && b[j] == a[0]
  {
    assert a[0] in multiset(b);
    j :| 0 <= j < |b| && b[j] == a[0];
  }

  lemma WithoutFirst<A>(a: seq<A>, b: seq<A>, j: nat)
    requires a != [] && multiset(a) == multiset(b) && j < |b| && b[j] == a[0]
    ensures multiset(a[1..]) == multiset(b[..j] + b[j + 1..])
  {
    WithoutOne(a, 0);
    WithoutOne(b, j);
    assert a[..0] + a[1..] == a[1..];
    CancelOne(multiset(a[1..]), multiset(b[..j] + b[j + 1..]), a[0]);
  }

  lemma CancelOne<A>(x: multiset<A>, y: multiset<A>, e: A)
    requires x + multiset{e} == y + multiset{e}
    ensures x == y
  {
    assert x == (x + multiset{e}) - multiset{e};
    assert y == (y + multiset{e}) - multiset{e};
  }

  lemma WithoutOne<A>(s: seq<A>, j: nat)
    requires j < |s|
    ensures multiset(s) == multiset(s[..j] + s[j + 1..]) + multiset{s[j]}
  {
    assert s == s[..j] + [s[j]] + s[j + 1..];
  }

  lemma MapWithoutOne<A, B>(s: seq<A>, j: nat, f: A -> B)
    requires j < |s|
    ensures multiset(Map(s, f)) == multiset(Map(s[..j] + s[j + 1..], f)) + multiset{f(s[j])}
  {
    var m := Map(s, f);
    WithoutOne(m, j);
    assert m[..j] + m[j + 1..] == Map(s[..j] + s[j + 1..], f);
  }

  lemma IdsAreMapped(s: seq<Candidate>)
    ensures Ids(s) == Map(s, (c: Candidate) => c.routeId)
    ensures HasRepeat(s) <==> Repeats(Ids(s))
  {
    if HasRepeat(s) {
      var i, j :| 0 <= i < j < |s| && s[i].routeId == s[j].routeId;
      assert Ids(s)[i] == Ids(s)[j];
    }
    if Repeats(Ids(s)) {
      var i, j :| 0 <= i < j < |Ids(s)| && Ids(s)[i] == Ids(s)[j];
      assert s[i].routeId == s[j].routeId;
    }
  }

  lemma SameIdsSameRepeats(a: seq<Candidate>, b: seq<Candidate>)
    requires multiset(Ids(a)) == multiset(Ids(b))
    ensures HasRepeat(a) <==> HasRepeat(b)
  {
    hide HasRepeat, Repeats;
    IdsAreMapped(a);
    IdsAreMapped(b);
    RepeatsByCount(Ids(a), Ids(b));
    RepeatsByCount(Ids(b), Ids(a));
  }

  lemma SortKeepsRepeats(s: seq<Candidate>)
    ensures HasRepeat(SortById(s)) <==> HasRepeat(s)
  {
    hide HasRepeat, Repeats;
    SortByIdKeeps(s);
    MapKeepsMultiset(SortById(s), s, (c: Candidate) => c.routeId);
    IdsAreMapped(s);
    IdsAreMapped(SortById(s));
    SameIdsSameRepeats(s, SortById(s));
  }

  /** In a sorted list a repeated id shows up in neighbours. */
  lemma NeighboursShowRepeat(s: seq<Candidate>)
    requires SortedById(s) && HasRepeat(s)
    ensures exists i | 0 <= i < |s| - 1 :: s[i].routeId == s[i + 1].routeId
  {
    var i, j :| 0 <= i < j < |s| && s[i].routeId == s[j].routeId;
    if i + 1 < j {
      StringLeAntisymmetric(s[i].routeId, s[i + 1].routeId);
    }
  }

  lemma SortKeepsElements(s: seq<Candidate>, c: Candidate)
    ensures c in SortById(s) <==> c in s
  {
    SortByIdKeeps(s);
    assert c in multiset(s) <==> c in multiset(SortById(s));
  }

  // ---- the planner ----

  /** The method works on the sorted candidates; nothing it reports depends on the order they came in. */
  method Decide(input: seq<Candidate>, w: Weights) returns (r: Result<Decision, RouteError>)
    ensures r == Decided(input, w)
  {
    hide SortById, HasRepeat, DenialUnexplained, MetricsOk, WeightsOk, TermsOf, Normalized, Least;
    if !WeightsOk(w) || exists i | 0 <= i < |input| :: input[i].semanticLoss > MAX_NORMALIZED {
      return Err(MetricOutOfRange);
    }
    if exists i | 0 <= i < |input| :: input[i].routeId == "" {
      return Err(InvalidRouteId);
    }
    var candidates := SortById(input);
    SortByIdKeeps(input);
    SortKeepsRepeats(input);
    if exists i | 0 <= i < |candidates| - 1 :: candidates[i].routeId == candidates[i + 1].routeId {
      NeighboursRepeat(candidates);
      return Err(DuplicateRouteId);
    }
    assert !HasRepeat(input) by {
      if HasRepeat(candidates) {
        NeighboursShowRepeat(candidates);
      }
    }
    ghost var sorted := candidates;
    forall c
      ensures c in sorted <==> c in input
    {
      SortKeepsElements(input, c);
    }
    var normalized := NormalizeReasons(candidates);
    if normalized.Err? {
      SomeUnexplained(input, sorted);
      return Err(normalized.error);
    }
    NoneUnexplained(input, sorted);
    candidates := normalized.value;
    r := Rank(candidates, w, input);
  }

  /** Every denied candidate needs reasons; they are put in order. */
  method NormalizeReasons(sorted: seq<Candidate>) returns (r: Result<seq<Candidate>, RouteError>)
    ensures r.Err? ==> r.error == RejectionRequired && exists i | 0 <= i < |sorted| :: DenialUnexplained(sorted[i])
    ensures r.Ok? ==> r.value == NormalizedAll(sorted) && forall i | 0 <= i < |sorted| :: !DenialUnexplained(sorted[i])
  {
    hide DenialUnexplained, Normalized;
    var candidates, n := sorted, |sorted|;
    for i := 0 to n
      invariant |candidates| == n
      invariant forall j | 0 <= j < i :: candidates[j] == Normalized(sorted[j]) && !DenialUnexplained(sorted[j])
      invariant forall j | i <= j < n :: candidates[j] == sorted[j]
    {
      var c := candidates[i];
      if DenialUnexplained(c) {
        return Err(RejectionRequired);
      }
      candidates := candidates[i := Normalized(c)];
    }
    assert candidates == NormalizedAll(sorted);
    return Ok(candidates);
  }

  lemma SomeUnexplained(input: seq<Candidate>, sorted: seq<Candidate>)
    requires forall c :: c in sorted <==> c in input
    requires exists i | 0 <= i < |sorted| :: DenialUnexplained(sorted[i])
    ensures exists i | 0 <= i < |input| :: DenialUnexplained(input[i])
  {
    hide DenialUnexplained;
    var i :| 0 <= i < |sorted| && DenialUnexplained(sorted[i]);
    assert sorted[i] in input;
  }

  lemma NeighboursRepeat(s: seq<Candidate>)
    requires exists i | 0 <= i < |s| - 1 :: s[i].routeId == s[i + 1].routeId
    ensures HasRepeat(s)
  {
    var i :| 0 <= i < |s| - 1 && s[i].routeId == s[i + 1].routeId;
  }

  lemma NoneUnexplained(input: seq<Candidate>, sorted: seq<Candidate>)
    requires forall c :: c in sorted <==> c in input
    requires forall j | 0 <= j < |sorted| :: !DenialUnexplained(sorted[j])
    ensures !exists i | 0 <= i < |input| :: DenialUnexplained(input[i])
  {
    hide DenialUnexplained;
    forall i | 0 <= i < |input|
      ensures !DenialUnexplained(input[i])
    {
      assert input[i] in sorted;
    }
  }

  /** Scores the candidates in order and selects the least. */
  method Rank(candidates: seq<Candidate>, w: Weights, ghost input: seq<Candidate>) returns (r: Result<Decision, RouteError>)
    requires WeightsOk(w) && candidates == NormalizedAll(SortById(input)) && forall i | 0 <= i < |input| :: input[i].semanticLoss <= MAX_NORMALIZED
    ensures r == if exists i | 0 <= i < |input| :: input[i].allowed && !MetricsOk(input[i].metrics) then Err(MetricOutOfRange)
                 else Ok(Outcome(candidates, w))
  {
    hide SortById, MetricsOk, WeightsOk, TermsOf, Least, TermsOk, SortUnique;
    var explanation: seq<Explanation> := [];
    var eligible: seq<Ranked> := [];
    for i := 0 to |candidates|
      invariant explanation == ExplainAll(candidates[..i], w) && eligible == Eligible(candidates[..i], w)
      invariant forall j | 0 <= j < i :: !(candidates[j].allowed && !MetricsOk(candidates[j].metrics))
    {
      var c := candidates[i];
      assert candidates[..i + 1][..i] == candidates[..i] && candidates[..i + 1][i] == c;
      ghost var k := Origin(input, i);
      if !c.allowed {
        explanation := explanation + [Explanation(c.routeId, false, c.rejections, None)];
      } else {
        if !MetricsOk(c.metrics) {
          assert input[k].allowed && !MetricsOk(input[k].metrics);
          return Err(MetricOutOfRange);
        }
        var terms := TermsOf(c, w);
        NormalizedTermsFit(c, w);
        assert Total(terms) == Ok(Sum(terms));
        eligible := eligible + [(Total(terms).value, c.routeId)];
        explanation := explanation + [Explanation(c.routeId, true, [], Some(terms))];
      }
      assert ExplainAll(candidates[..i + 1], w) == ExplainAll(candidates[..i], w) + [Explain(c, w)];
    }
    assert candidates[..|candidates|] == candidates;
    forall i | 0 <= i < |input|
      ensures !(input[i].allowed && !MetricsOk(input[i].metrics))
    {
      var j := Place(input, i);
    }
    if eligible == [] {
      var denial := Denial(explanation, Snapshot(candidates, w), w, MeasureAll(candidates));
      return Ok(Denied(1, DeniedDigest(1, denial), denial));
    }
    var (score, selected) := Least(eligible);
    var plan := Plan(selected, score, explanation, selected, TIE_BREAKER, Snapshot(candidates, w), w, MeasureAll(candidates));
    return Ok(Selected(1, SelectedDigest(1, plan), plan));
  }

  lemma Origin(input: seq<Candidate>, i: nat) returns (k: nat)
    requires i < |NormalizedAll(SortById(input))|
    ensures k < |input| && NormalizedAll(SortById(input))[i] == Normalized(input[k])
  {
    SortKeepsElements(input, SortById(input)[i]);
    k :| 0 <= k < |input| && input[k] == SortById(input)[i];
  }

  lemma Place(input: seq<Candidate>, i: nat) returns (j: nat)
    requires i < |input|
    ensures j < |NormalizedAll(SortById(input))| && NormalizedAll(SortById(input))[j] == Normalized(input[i])
  {
    SortKeepsElements(input, input[i]);
    j :| 0 <= j < |SortById(input)| && SortById(input)[j] == input[i];
  }

  // ---- the result does not depend on any order ----

  /** A candidate up to the order and repetition of the reasons it was denied for. */
  datatype Key = Key(candidate: Candidate, reasons: set<string>)

  function KeyOf(c: Candidate): Key {
    if c.allowed then Key(c, {}) else Key(c.(rejections := []), set x | x in c.rejections)
  }

  /** The same candidates in any order, with the reasons of denied ones in any order and repeated any number of times. */
  predicate SameCandidates(a: seq<Candidate>, b: seq<Candidate>) {
    multiset(Map(a, KeyOf)) == multiset(Map(b, KeyOf))
  }

  lemma SameKeySameReasons(c: Candidate, d: Candidate)
    requires KeyOf(c) == KeyOf(d) && !c.allowed
    ensures !d.allowed && forall x :: x in c.rejections <==> x in d.rejections
  {
    assert forall x :: x in KeyOf(c).reasons <==> x in c.rejections;
    assert forall x :: x in KeyOf(d).reasons <==> x in d.rejections;
  }

  /** The key decides everything the planner looks at. */
  lemma SameKeySameTreatment(c: Candidate, d: Candidate)
    requires KeyOf(c) == KeyOf(d)
    ensures Normalized(c) == Normalized(d) && DenialUnexplained(c) == DenialUnexplained(d)
    ensures c.routeId == d.routeId && c.allowed == d.allowed && c.metrics == d.metrics && c.semanticLoss == d.semanticLoss
  {
    if !c.allowed {
      SameKeySameReasons(c, d);
      SortUniqueKeeps(c.rejections);
      SortUniqueKeeps(d.rejections);
      SameElementsSameList(SortUnique(c.rejections), SortUnique(d.rejections));
      SameReasonsSameFault(c, d);
      SameReasonsSameFault(d, c);
      assert c.(rejections := []) == d.(rejections := []);
    }
  }

  lemma SameReasonsSameFault(c: Candidate, d: Candidate)
    requires c.allowed == d.allowed && forall x :: x in c.rejections <==> x in d.rejections
    ensures DenialUnexplained(c) ==> DenialUnexplained(d)
  {
    hide Blank;
    assert d.rejections != [] ==> d.rejections[0] in d.rejections;
    if DenialUnexplained(c) {
      if c.rejections != [] {
        var i :| 0 <= i < |c.rejections| && Blank(c.rejections[i]);
        assert c.rejections[i] in d.rejections;
      }
    }
  }

  lemma Counterpart(a: seq<Candidate>, b: seq<Candidate>, i: nat) returns (j: nat)
    requires SameCandidates(a, b) && i < |a|
    ensures j < |b| && KeyOf(b[j]) == KeyOf(a[i])
  {
    hide KeyOf;
    assert Map(a, KeyOf)[i] in multiset(Map(b, KeyOf));
    j :| 0 <= j < |Map(b, KeyOf)| && Map(b, KeyOf)[j] == Map(a, KeyOf)[i];
  }

  lemma SameCandidatesSameIds(a: seq<Candidate>, b: seq<Candidate>)
    requires SameCandidates(a, b)
    ensures multiset(Ids(a)) == multiset(Ids(b))
  {
    var id := (k: Key) => k.candidate.routeId;
    MapKeepsMultiset(Map(a, KeyOf), Map(b, KeyOf), id);
    assert Map(Map(a, KeyOf), id) == Ids(a);
    assert Map(Map(b, KeyOf), id) == Ids(b);
  }

  /** One list's first failing check is no later than the other's; by symmetry they are the same. */
  lemma SameFaults(a: seq<Candidate>, b: seq<Candidate>)
    requires SameCandidates(a, b)
    ensures (exists i | 0 <= i < |a| :: a[i].semanticLoss > MAX_NORMALIZED) ==> exists i | 0 <= i < |b| :: b[i].semanticLoss > MAX_NORMALIZED
    ensures (exists i | 0 <= i < |a| :: a[i].routeId == "") ==> exists i | 0 <= i < |b| :: b[i].routeId == ""
    ensures (exists i | 0 <= i < |a| :: DenialUnexplained(a[i])) ==> exists i | 0 <= i < |b| :: DenialUnexplained(b[i])
    ensures (exists i | 0 <= i < |a| :: a[i].allowed && !MetricsOk(a[i].metrics)) ==>
              exists i | 0 <= i < |b| :: b[i].allowed && !MetricsOk(b[i].metrics)
  {
    hide KeyOf, DenialUnexplained, MetricsOk, SameCandidates, Normalized;
    if i :| 0 <= i < |a| && a[i].semanticLoss > MAX_NORMALIZED {
      var j := Counterpart(a, b, i);
      SameKeySameTreatment(a[i], b[j]);
    }
    if i :| 0 <= i < |a| && a[i].routeId == "" {
      var j := Counterpart(a, b, i);
      SameKeySameTreatment(a[i], b[j]);
    }
    if i :| 0 <= i < |a| && DenialUnexplained(a[i]) {
      var j := Counterpart(a, b, i);
      SameKeySameTreatment(a[i], b[j]);
    }
    if i :| 0 <= i < |a| && a[i].allowed && !MetricsOk(a[i].metrics) {
      var j := Counterpart(a, b, i);
      SameKeySameTreatment(a[i], b[j]);
    }
  }

  lemma SameCandidatesSymmetric(a: seq<Candidate>, b: seq<Candidate>)
    requires SameCandidates(a, b)
    ensures SameCandidates(b, a)
  {
  }

  lemma SameErrors(a: seq<Candidate>, b: seq<Candidate>, w: Weights)
    requires SameCandidates(a, b)
    ensures DecisionError(a, w) == DecisionError(b, w)
  {
    hide HasRepeat, DenialUnexplained, MetricsOk, WeightsOk, SameCandidates;
    SameCandidatesSymmetric(a, b);
    SameFaults(a, b);
    SameFaults(b, a);
    SameCandidatesSameIds(a, b);
    SameIdsSameRepeats(a, b);
  }

  /** Sorted candidates without repeats have increasing ids. */
  lemma SortedIdsIncrease(s: seq<Candidate>)
    requires SortedById(s) && !HasRepeat(s)
    ensures Increasing(Ids(NormalizedAll(s)))
  {
    hide StringLe, SortUnique;
    forall i, j | 0 <= i < j < |s|
      ensures Less(s[i].routeId, s[j].routeId)
    {
    }
  }

  lemma {:induction false} SameElementsSameCandidates(a: seq<Candidate>, b: seq<Candidate>)
    requires Increasing(Ids(a)) && Increasing(Ids(b)) && forall c :: c in a <==> c in b
    ensures a == b
  {
    hide Less;
    forall x
      ensures x in Ids(a) <==> x in Ids(b)
    {
      IdOfMember(a, b, x);
      IdOfMember(b, a, x);
    }
    SameElementsSameList(Ids(a), Ids(b));
    assert |a| == |Ids(a)| == |Ids(b)| == |b|;
    forall i | 0 <= i < |a|
      ensures a[i] == b[i]
    {
      assert a[i] in b;
      var j :| 0 <= j < |b| && b[j] == a[i];
      assert Ids(b)[j] == Ids(a)[i] == Ids(b)[i];
      SameIdSamePlace(Ids(b), i, j);
    }
  }

  lemma SameIdSamePlace(x: seq<string>, i: nat, j: nat)
    requires Increasing(x) && i < |x| && j < |x| && x[i] == x[j]
    ensures i == j
  {
  }

  lemma IdOfMember(a: seq<Candidate>, b: seq<Candidate>, x: string)
    requires forall c :: c in a ==> c in b
    ensures x in Ids(a) ==> x in Ids(b)
  {
    if x in Ids(a) {
      var i :| 0 <= i < |Ids(a)| && Ids(a)[i] == x;
      assert a[i] in b;
      var j :| 0 <= j < |b| && b[j] == a[i];
      assert Ids(b)[j] == x;
    }
  }

  lemma SameNormalizedElements(a: seq<Candidate>, b: seq<Candidate>, c: Candidate)
    requires SameCandidates(a, b) && c in NormalizedAll(SortById(a))
    ensures c in NormalizedAll(SortById(b))
  {
    hide KeyOf, Normalized, SortById, SameCandidates;
    var i :| 0 <= i < |NormalizedAll(SortById(a))| && NormalizedAll(SortById(a))[i] == c;
    var k := Origin(a, i);
    var j := Counterpart(a, b, k);
    SameKeySameTreatment(a[k], b[j]);
    var m := Place(b, j);
  }

  /**
   * The planner gives the same decision, or the same error, for every order of the candidates and
   * every order and repetition of the reasons for denial.
   */
  lemma DecisionIgnoresOrder(a: seq<Candidate>, b: seq<Candidate>, w: Weights)
    requires SameCandidates(a, b)
    ensures Decided(a, w) == Decided(b, w)
  {
    hide SameCandidates, SortById, NormalizedAll, Outcome, HasRepeat;
    SameErrors(a, b, w);
    if DecisionError(a, w).None? {
      assert !HasRepeat(a) && !HasRepeat(b);
      hide DecisionError;
      SortByIdKeeps(a);
      SortByIdKeeps(b);
      SortKeepsRepeats(a);
      SortKeepsRepeats(b);
      SortedIdsIncrease(SortById(a));
      SortedIdsIncrease(SortById(b));
      SameCandidatesSymmetric(a, b);
      forall c
        ensures c in NormalizedAll(SortById(a)) <==> c in NormalizedAll(SortById(b))
      {
        if c in NormalizedAll(SortById(a)) {
          SameNormalizedElements(a, b, c);
        }
        if c in NormalizedAll(SortById(b)) {
          SameNormalizedElements(b, a, c);
        }
      }
      SameElementsSameCandidates(NormalizedAll(SortById(a)), NormalizedAll(SortById(b)));
    }
  }

  // ---- the least candidate is selected ----

  function Score(c: Candidate, w: Weights): nat {
    Sum(TermsOf(c, w))
  }

  lemma RankTotal(p: Ranked, q: Ranked)
    ensures RankLe(p, q) || RankLe(q, p)
  {
    StringLeTotal(p.1, q.1);
  }

  lemma RankTransitive(p: Ranked, q: Ranked, r: Ranked)
    requires RankLe(p, q) && RankLe(q, r)
    ensures RankLe(p, r)
  {
    if p.0 == q.0 == r.0 {
      StringLeTransitive(p.1, q.1, r.1);
    }
  }

  lemma {:induction false} LeastIsLeast(s: seq<Ranked>)
    requires s != []
    ensures Least(s) in s && forall p | p in s :: RankLe(Least(s), p)
  {
    hide RankLe;
    if |s| == 1 {
      RankTotal(s[0], s[0]);
    } else {
      LeastIsLeast(s[1..]);
      var rest := Least(s[1..]);
      RankTotal(s[0], rest);
      RankTotal(s[0], s[0]);
      forall p | p in s
        ensures RankLe(Least(s), p)
      {
        if p != s[0] {
          var i :| 0 <= i < |s| && s[i] == p;
          assert s[1..][i - 1] == p;
          if RankLe(s[0], rest) {
            RankTransitive(s[0], rest, p);
          }
        }
      }
    }
  }

  lemma {:induction false} EligibleHas(s: seq<Candidate>, w: Weights, p: Ranked)
    ensures p in Eligible(s, w) <==> exists i | 0 <= i < |s| :: s[i].allowed && p == (Score(s[i], w), s[i].routeId)
  {
    hide TermsOf;
    if s != [] {
      var n := |s| - 1;
      EligibleHas(s[..n], w, p);
      if i :| 0 <= i < |s| && s[i].allowed && p == (Score(s[i], w), s[i].routeId) {
        if i < n {
          assert s[..n][i] == s[i];
        }
      }
    }
  }

  lemma NormalizedScore(c: Candidate, w: Weights)
    ensures Normalized(c).allowed == c.allowed && Normalized(c).routeId == c.routeId && Score(Normalized(c), w) == Score(c, w)
  {
  }

  /** The pairs that are ranked are exactly those of the allowed candidates that came in. */
  lemma RankedAreAllowed(s: seq<Candidate>, w: Weights, p: Ranked)
    ensures p in Eligible(NormalizedAll(SortById(s)), w)
       <==> exists i | 0 <= i < |s| :: s[i].allowed && p == (Score(s[i], w), s[i].routeId)
  {
    hide Normalized, SortById, Eligible, Score;
    var all := NormalizedAll(SortById(s));
    EligibleHas(all, w, p);
    if i :| 0 <= i < |all| && all[i].allowed && p == (Score(all[i], w), all[i].routeId) {
      var k := Origin(s, i);
      NormalizedScore(s[k], w);
    }
    if i :| 0 <= i < |s| && s[i].allowed && p == (Score(s[i], w), s[i].routeId) {
      var j := Place(s, i);
      NormalizedScore(s[i], w);
    }
  }

  lemma ScoreBound(s: seq<Candidate>, w: Weights, i: nat)
    requires DecisionError(s, w).None? && i < |s| && s[i].allowed
    ensures Score(s[i], w) <= MAX_ACTION_SCORE
  {
    hide HasRepeat, DenialUnexplained;
    NormalizedTermsFit(s[i], w);
  }

  /** The planner denies exactly when nothing is allowed; otherwise it selects the least score, then the least route id. */
  lemma LeastCandidateIsSelected(s: seq<Candidate>, w: Weights)
    requires Decided(s, w).Ok?
    ensures var d := Decided(s, w).value;
      && (d.Denied? <==> forall i | 0 <= i < |s| :: !s[i].allowed)
      && (d.Selected? ==>
            && d.plan.actionScore <= 700_000_000
            && (exists i | 0 <= i < |s| :: s[i].allowed && s[i].routeId == d.plan.selected && Score(s[i], w) == d.plan.actionScore)
            && (forall i | 0 <= i < |s| && s[i].allowed ::
                  RankLe((d.plan.actionScore, d.plan.selected), (Score(s[i], w), s[i].routeId))))
  {
    hide DecisionError, Score, RankLe, SortById, NormalizedAll, Eligible, Least;
    var eligible := Eligible(NormalizedAll(SortById(s)), w);
    forall p
      ensures p in eligible <==> exists i | 0 <= i < |s| :: s[i].allowed && p == (Score(s[i], w), s[i].routeId)
    {
      RankedAreAllowed(s, w, p);
    }
    if eligible == [] {
      forall i | 0 <= i < |s|
        ensures !s[i].allowed
      {
        var p := (Score(s[i], w), s[i].routeId);
        assert p !in eligible;
      }
    } else {
      LeastIsLeast(eligible);
      var least := Least(eligible);
      var k :| 0 <= k < |s| && s[k].allowed && least == (Score(s[k], w), s[k].routeId);
      ScoreBound(s, w, k);
      forall i | 0 <= i < |s| && s[i].allowed
        ensures RankLe(least, (Score(s[i], w), s[i].routeId))
      {
        assert (Score(s[i], w), s[i].routeId) in eligible;
      }
    }
  }

  // ---- the independent check ----

  predicate ExplanationOk(e: Explanation, allDenied: bool) {
    && e.routeId != ""
    && if e.allowed then !allDenied && e.rejections == [] && e.terms.Some?
       else
         && e.terms.None? && e.rejections != []
         && (forall i | 0 <= i < |e.rejections| :: !Blank(e.rejections[i]))
         && forall i | 0 <= i < |e.rejections| - 1 :: Less(e.rejections[i], e.rejections[i + 1])
  }

  predicate ExplanationsOk(s: seq<Explanation>, allDenied: bool) {
    && (forall i | 0 <= i < |s| - 1 :: Less(s[i].routeId, s[i + 1].routeId))
    && forall i | 0 <= i < |s| :: ExplanationOk(s[i], allDenied)
  }

  method ValidateExplanations(s: seq<Explanation>, allDenied: bool) returns (r: Result<(), RouteError>)
    ensures r == if ExplanationsOk(s, allDenied) then Ok(()) else Err(DecisionContractInvalid)
  {
    hide Less, ExplanationOk;
    if exists i | 0 <= i < |s| - 1 :: !Less(s[i].routeId, s[i + 1].routeId) {
      return Err(DecisionContractInvalid);
    }
    for i := 0 to |s|
      invariant forall j | 0 <= j < i :: ExplanationOk(s[j], allDenied)
    {
      if !ExplanationOk(s[i], allDenied) {
        return Err(DecisionContractInvalid);
      }
    }
    return Ok(());
  }

  /** The explanation an id names: the first with that id. */
  predicate Names(s: seq<Explanation>, id: string, i: nat) {
    i < |s| && s[i].routeId == id && forall j | 0 <= j < i :: s[j].routeId != id
  }

  predicate ScoreFits(e: Explanation) {
    e.terms.Some? ==> TermsOk(e.terms.value)
  }

  predicate NamedOk(p: Plan, e: Explanation) {
    e.terms.Some? && TermsOk(e.terms.value) && e.allowed && e.rejections == [] && Sum(e.terms.value) == p.actionScore
  }

  predicate FirstInRank(p: Plan) {
    forall i | 0 <= i < |p.explanations| && p.explanations[i].terms.Some? ::
      RankLe((p.actionScore, p.selected), (Sum(p.explanations[i].terms.value), p.explanations[i].routeId))
  }

  predicate PlanOk(p: Plan) {
    && p.actionScore <= MAX_ACTION_SCORE
    && p.selected == p.explainedSelected && p.tieBreaker == TIE_BREAKER
    && (exists i | 0 <= i < |p.explanations| :: Names(p.explanations, p.selected, i) && NamedOk(p, p.explanations[i]))
    && (forall i | 0 <= i < |p.explanations| :: ScoreFits(p.explanations[i]))
    && FirstInRank(p)
  }

  /** What the offline check accepts. */
  predicate Accepts(d: Decision) {
    match d
    case Selected(version, digest, plan) =>
      digest == SelectedDigest(version, plan) && PlanOk(plan) && version == 1 && ExplanationsOk(plan.explanations, false)
    case Denied(version, digest, denial) =>
      digest == DeniedDigest(version, denial) && version == 1 && ExplanationsOk(denial.explanations, true)
  }

  function RankedOf(s: seq<Explanation>): seq<Ranked> {
    if s == [] then []
    else
      RankedOf(s[..|s| - 1])
      + (if s[|s| - 1].terms.Some? then [(Sum(s[|s| - 1].terms.value), s[|s| - 1].routeId)] else [])
  }

  lemma {:induction false} RankedOfHas(s: seq<Explanation>, p: Ranked)
    ensures p in RankedOf(s) <==> exists i | 0 <= i < |s| :: s[i].terms.Some? && p == (Sum(s[i].terms.value), s[i].routeId)
  {
    if s != [] {
      var n := |s| - 1;
      RankedOfHas(s[..n], p);
      if i :| 0 <= i < |s| && s[i].terms.Some? && p == (Sum(s[i].terms.value), s[i].routeId) {
        if i < n {
          assert s[..n][i] == s[i];
        }
      }
    }
  }

  lemma RankAntisymmetric(p: Ranked, q: Ranked)
    requires RankLe(p, q) && RankLe(q, p)
    ensures p == q
  {
    StringLeAntisymmetric(p.1, q.1);
  }

  /** Being the first of the ranked pairs is being one of them and below all of them. */
  lemma LeastIffFirst(p: Plan, i: nat)
    requires i < |p.explanations| && p.explanations[i].routeId == p.selected && p.explanations[i].terms.Some?
    requires Sum(p.explanations[i].terms.value) == p.actionScore
    ensures RankedOf(p.explanations) != []
    ensures Least(RankedOf(p.explanations)) == (p.actionScore, p.selected) <==> FirstInRank(p)
  {
    hide RankLe, Sum, Least, RankedOf;
    var ranked, own := RankedOf(p.explanations), (p.actionScore, p.selected);
    forall q
      ensures q in ranked <==>
                exists k | 0 <= k < |p.explanations| :: p.explanations[k].terms.Some? && q == (Sum(p.explanations[k].terms.value), p.explanations[k].routeId)
    {
      RankedOfHas(p.explanations, q);
    }
    assert own in ranked;
    LeastIsLeast(ranked);
    if FirstInRank(p) {
      RankAntisymmetric(own, Least(ranked));
    }
    if Least(ranked) == own {
      forall k | 0 <= k < |p.explanations| && p.explanations[k].terms.Some?
        ensures RankLe(own, (Sum(p.explanations[k].terms.value), p.explanations[k].routeId))
      {
        assert (Sum(p.explanations[k].terms.value), p.explanations[k].routeId) in ranked;
      }
    }
  }

  method FindSelected(s: seq<Explanation>, id: string) returns (r: Option<nat>)
    ensures r.None? ==> forall j | 0 <= j < |s| :: s[j].routeId != id
    ensures r.Some? ==> Names(s, id, r.value)
  {
    for i := 0 to |s|
      invariant forall j | 0 <= j < i :: s[j].routeId != id
    {
      if s[i].routeId == id {
        return Some(i);
      }
    }
    return None;
  }

  method VerifyPlan(p: Plan) returns (r: Result<(), RouteError>)
    ensures r.Ok? <==> PlanOk(p)
  {
    hide RankLe, TermsOk, Sum, Least, RankedOf, FirstInRank;
    if p.actionScore > MAX_ACTION_SCORE {
      return Err(DecisionScoreOutOfRange);
    }
    if p.selected != p.explainedSelected || p.tieBreaker != TIE_BREAKER {
      return Err(DecisionContractInvalid);
    }
    var found := FindSelected(p.explanations, p.selected);
    if found.None? {
      return Err(DecisionContractInvalid);
    }
    var selected := p.explanations[found.value];
    if selected.terms.None? {
      return Err(DecisionContractInvalid);
    }
    var score := Total(selected.terms.value);
    if score.Err? {
      return Err(score.error);
    }
    if !selected.allowed || selected.rejections != [] || score.value != p.actionScore {
      return Err(DecisionContractInvalid);
    }
    var ranked: seq<Ranked> := [];
    NothingRanked(p.explanations);
    for i := 0 to |p.explanations|
      invariant ranked == RankedOf(p.explanations[..i])
      invariant forall j | 0 <= j < i :: ScoreFits(p.explanations[j])
    {
      var e := p.explanations[i];
      RankedGrows(p.explanations, i);
      if e.terms.Some? {
        var total := Total(e.terms.value);
        if total.Err? {
          assert !ScoreFits(p.explanations[i]);
          return Err(total.error);
        }
        ranked := ranked + [(total.value, e.routeId)];
      }
    }
    assert p.explanations[..|p.explanations|] == p.explanations;
    LeastIffFirst(p, found.value);
    if Least(ranked) != (p.actionScore, p.selected) {
      return Err(DecisionContractInvalid);
    }
    return Ok(());
  }

  lemma NothingRanked(s: seq<Explanation>)
    ensures RankedOf(s[..0]) == []
  {
  }

  lemma RankedGrows(s: seq<Explanation>, i: nat)
    requires i < |s|
    ensures RankedOf(s[..i + 1]) == RankedOf(s[..i]) + (if s[i].terms.Some? then [(Sum(s[i].terms.value), s[i].routeId)] else [])
  {
    assert s[..i + 1][..i] == s[..i] && s[..i + 1][i] == s[i];
  }

  /** The check a holder of a stored decision can make without the candidates it was made from. */
  method VerifyIntegrity(d: Decision) returns (r: Result<(), RouteError>)
    ensures r.Ok? <==> Accepts(d)
  {
    hide PlanOk, ExplanationsOk;
    var explanations: seq<Explanation>;
    match d {
      case Selected(version, digest, plan) =>
        if digest != SelectedDigest(version, plan) {
          return Err(DecisionDigestMismatch);
        }
        r := VerifyPlan(plan);
        if r.Err? {
          return;
        }
        explanations := plan.explanations;
      case Denied(version, digest, denial) =>
        if digest != DeniedDigest(version, denial) {
          return Err(DecisionDigestMismatch);
        }
        explanations := denial.explanations;
    }
    if d.schemaVersion != 1 {
      return Err(UnsupportedDecisionSchema);
    }
    r := ValidateExplanations(explanations, d.Denied?);
  }

  // ---- planner and check agree ----

  lemma {:induction false} NeighboursOrderAll(s: seq<Explanation>, i: nat, j: nat)
    requires (forall k | 0 <= k < |s| - 1 :: Less(s[k].routeId, s[k + 1].routeId)) && i < j < |s|
    ensures Less(s[i].routeId, s[j].routeId)
    decreases j
  {
    hide Less;
    if i < j - 1 {
      NeighboursOrderAll(s, i, j - 1);
      LessTransitive(s[i].routeId, s[j - 1].routeId, s[j].routeId);
    }
  }

  /** Whoever made it, an accepted selection names an allowed candidate with the least score, then the least id. */
  lemma AcceptedSelectionIsLeast(d: Decision)
    requires Accepts(d) && d.Selected?
    ensures d.plan.actionScore <= MAX_ACTION_SCORE
    ensures exists i | 0 <= i < |d.plan.explanations| :: d.plan.explanations[i].allowed && d.plan.explanations[i].routeId == d.plan.selected
              && d.plan.explanations[i].terms.Some? && Sum(d.plan.explanations[i].terms.value) == d.plan.actionScore
    ensures forall i | 0 <= i < |d.plan.explanations| && d.plan.explanations[i].allowed ::
              && d.plan.explanations[i].terms.Some?
              && RankLe((d.plan.actionScore, d.plan.selected), (Sum(d.plan.explanations[i].terms.value), d.plan.explanations[i].routeId))
    ensures forall i, j | 0 <= i < j < |d.plan.explanations| :: d.plan.explanations[i].routeId != d.plan.explanations[j].routeId
  {
    hide RankLe, Sum, TermsOk;
    var s := d.plan.explanations;
    var i :| 0 <= i < |s| && Names(s, d.plan.selected, i) && NamedOk(d.plan, s[i]);
    forall i | 0 <= i < |s| && s[i].allowed
      ensures s[i].terms.Some?
    {
      assert ExplanationOk(s[i], false);
    }
    forall i, j | 0 <= i < j < |s|
      ensures s[i].routeId != s[j].routeId
    {
      NeighboursOrderAll(s, i, j);
    }
  }

  lemma ExplainedOk(s: seq<Candidate>, w: Weights, i: nat, allDenied: bool)
    requires DecisionError(s, w).None? && i < |NormalizedAll(SortById(s))|
    requires allDenied ==> forall k | 0 <= k < |s| :: !s[k].allowed
    ensures ExplanationOk(Explain(NormalizedAll(SortById(s))[i], w), allDenied)
  {
    hide SortById, SortUnique, Less, TermsOf, HasRepeat, Blank;
    var k := Origin(s, i);
    var c := s[k];
    assert !DenialUnexplained(c) && c.routeId != "";
    if !c.allowed {
      SortUniqueKeeps(c.rejections);
      var reasons := SortUnique(c.rejections);
      assert c.rejections[0] in reasons;
      forall j | 0 <= j < |reasons|
        ensures !Blank(reasons[j])
      {
        assert reasons[j] in c.rejections;
      }
    }
  }

  lemma DecisionExplanationsOk(s: seq<Candidate>, w: Weights, allDenied: bool)
    requires DecisionError(s, w).None?
    requires allDenied ==> forall k | 0 <= k < |s| :: !s[k].allowed
    ensures ExplanationsOk(ExplainAll(NormalizedAll(SortById(s)), w), allDenied)
  {
    SortByIdKeeps(s);
    SortKeepsRepeats(s);
    assert !HasRepeat(s);
    SortedIdsIncrease(SortById(s));
    var all := NormalizedAll(SortById(s));
    var e := ExplainAll(all, w);
    hide SortById, Less, Explain, HasRepeat, NormalizedAll, ExplanationOk, DecisionError;
    forall i | 0 <= i < |e|
      ensures e[i].routeId == Ids(all)[i] && ExplanationOk(e[i], allDenied)
    {
      ExplainsSameId(all[i], w);
      ExplainedOk(s, w, i, allDenied);
    }
    forall i | 0 <= i < |e| - 1
      ensures Less(e[i].routeId, e[i + 1].routeId)
    {
      assert Less(Ids(all)[i], Ids(all)[i + 1]);
    }
  }

  lemma ExplainsSameId(c: Candidate, w: Weights)
    ensures Explain(c, w).routeId == c.routeId && Explain(c, w).allowed == c.allowed
    ensures c.allowed ==> Explain(c, w).terms == Some(TermsOf(c, w))
    ensures !c.allowed ==> Explain(c, w).terms.None?
  {
  }

  lemma {:induction false} SameRanking(s: seq<Candidate>, w: Weights)
    ensures RankedOf(ExplainAll(s, w)) == Eligible(s, w)
  {
    hide TermsOf, Sum;
    if s != [] {
      var n := |s| - 1;
      SameRanking(s[..n], w);
      var e := ExplainAll(s, w);
      assert e[..n] == ExplainAll(s[..n], w);
      assert e[n] == Explain(s[n], w);
    }
  }

  lemma NamedPlanOk(s: seq<Candidate>, w: Weights, p: Plan)
    requires DecisionError(s, w).None? && Eligible(NormalizedAll(SortById(s)), w) != []
    requires Outcome(NormalizedAll(SortById(s)), w).Selected? && p == Outcome(NormalizedAll(SortById(s)), w).plan
    ensures exists i | 0 <= i < |p.explanations| :: Names(p.explanations, p.selected, i) && NamedOk(p, p.explanations[i])
    ensures forall i | 0 <= i < |p.explanations| :: ScoreFits(p.explanations[i])
    ensures FirstInRank(p) && p.actionScore <= MAX_ACTION_SCORE
  {
    var all := NormalizedAll(SortById(s));
    DecisionExplanationsOk(s, w, false);
    SameRanking(all, w);
    LeastIsLeast(Eligible(all, w));
    assert Decided(s, w) == Ok(Outcome(all, w));
    LeastCandidateIsSelected(s, w);
    hide TermsOf, Sum, RankLe, Least, Less, DecisionError, SortById, Eligible, RankedOf, TermsOk;
    EligibleHas(all, w, (p.actionScore, p.selected));
    var i :| 0 <= i < |all| && all[i].allowed && (p.actionScore, p.selected) == (Score(all[i], w), all[i].routeId);
    forall j | 0 <= j < |all|
      ensures ScoreFits(p.explanations[j])
    {
      FittingScore(s, w, j);
    }
    forall j | 0 <= j < i
      ensures p.explanations[j].routeId != p.selected
    {
      NeighboursOrderAll(p.explanations, j, i);
      LessIs(p.explanations[j].routeId, p.explanations[i].routeId);
    }
    FittingScore(s, w, i);
    assert Names(p.explanations, p.selected, i) && NamedOk(p, p.explanations[i]);
    LeastIffFirst(p, i);
  }

  lemma FittingScore(s: seq<Candidate>, w: Weights, i: nat)
    requires DecisionError(s, w).None? && i < |NormalizedAll(SortById(s))|
    ensures ScoreFits(Explain(NormalizedAll(SortById(s))[i], w))
  {
    hide SortById, SortUnique, TermsOf, HasRepeat, DenialUnexplained, TermsOk;
    var k := Origin(s, i);
    var c := NormalizedAll(SortById(s))[i];
    if c.allowed {
      NormalizedTermsFit(c, w);
    }
  }

  /** Every decision the planner makes passes the offline check. */
  lemma DecisionsAreAccepted(s: seq<Candidate>, w: Weights)
    requires Decided(s, w).Ok?
    ensures Accepts(Decided(s, w).value)
  {
    var all := NormalizedAll(SortById(s));
    var d := Decided(s, w).value;
    LeastCandidateIsSelected(s, w);
    DecisionExplanationsOk(s, w, d.Denied?);
    if d.Selected? {
      NamedPlanOk(s, w, d.plan);
    }
  }

  // ---- and it depends on everything else ----

  lemma NormalizingKeepsKey(c: Candidate)
    ensures KeyOf(Normalized(c)) == KeyOf(c)
  {
    if !c.allowed {
      SortUniqueKeeps(c.rejections);
      assert (set x | x in SortUnique(c.rejections)) == (set x | x in c.rejections);
    }
  }

  lemma SnapshotIsNormalized(s: seq<Candidate>, w: Weights)
    requires Decided(s, w).Ok?
    ensures var d := Decided(s, w).value;
      (if d.Selected? then d.plan.snapshot else d.denial.snapshot) == Snapshot(NormalizedAll(SortById(s)), w)
  {
    hide DecisionError, SortById, NormalizedAll, Eligible, Least;
  }

  lemma SnapshotKeepsKeys(s: seq<Candidate>)
    ensures multiset(Map(NormalizedAll(SortById(s)), KeyOf)) == multiset(Map(s, KeyOf))
  {
    hide SortById, KeyOf, Normalized;
    var sorted := SortById(s);
    assert Map(NormalizedAll(sorted), KeyOf) == Map(sorted, KeyOf) by {
      forall i | 0 <= i < |sorted|
        ensures Map(NormalizedAll(sorted), KeyOf)[i] == Map(sorted, KeyOf)[i]
      {
        NormalizingKeepsKey(sorted[i]);
      }
    }
    SortByIdKeeps(s);
    MapKeepsMultiset(sorted, s, KeyOf);
  }

  lemma SameDecisionSameCandidates(a: seq<Candidate>, b: seq<Candidate>, w: Weights)
    requires Decided(a, w).Ok? && Decided(a, w) == Decided(b, w)
    ensures SameCandidates(a, b)
  {
    hide Decided, NormalizedAll, SortById, KeyOf, Map;
    SnapshotIsNormalized(a, w);
    SnapshotIsNormalized(b, w);
    SnapshotKeepsKeys(a);
    SnapshotKeepsKeys(b);
  }

  /**
   * Exactly which inputs share a decision: the same candidates in any order, with the reasons of
   * denied ones in any order and repetition, and nothing else.
   */
  lemma DecisionFixesCandidates(a: seq<Candidate>, b: seq<Candidate>, w: Weights)
    requires Decided(a, w).Ok?
    ensures Decided(a, w) == Decided(b, w) <==> SameCandidates(a, b)
  {
    hide Decided, SameCandidates;
    if Decided(a, w) == Decided(b, w) {
      SameDecisionSameCandidates(a, b, w);
    }
    if SameCandidates(a, b) {
      DecisionIgnoresOrder(a, b, w);
    }
  }

  /**
   * Reasons an allowed candidate carries are not put in order: changing them in any list of
   * candidates gives another decision.
   */
  lemma AllowedReasonsAreKept(s: seq<Candidate>, i: nat, reasons: seq<string>, w: Weights)
    requires i < |s| && s[i].allowed && reasons != s[i].rejections && Decided(s, w).Ok?
    ensures Decided(s[i := s[i].(rejections := reasons)], w) != Decided(s, w)
  {
    hide Decided, Map, KeyOf;
    var t := s[i := s[i].(rejections := reasons)];
    DecisionFixesCandidates(s, t, w);
    MapWithoutOne(s, i, KeyOf);
    MapWithoutOne(t, i, KeyOf);
    assert t[..i] + t[i + 1..] == s[..i] + s[i + 1..];
    AllowedKeysDiffer(s[i], reasons);
    OneDiffers(multiset(Map(s[..i] + s[i + 1..], KeyOf)), KeyOf(s[i]), KeyOf(t[i]));
  }

  lemma AllowedKeysDiffer(c: Candidate, reasons: seq<string>)
    requires c.allowed && reasons != c.rejections
    ensures KeyOf(c.(rejections := reasons)) != KeyOf(c)
  {
  }

  lemma OneDiffers<A>(m: multiset<A>, x: A, y: A)
    requires x != y
    ensures m + multiset{x} != m + multiset{y}
  {
    assert (m + multiset{x})[x] == m[x] + 1 && (m + multiset{y})[x] == m[x];
  }
}
