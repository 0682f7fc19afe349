/** What a score means: each weight counts the metric of its own name, and a route only gains by getting better. */
module RouteScores {
  import opened Common
  import opened RouteDecision

  /** The terms of a candidate, name by name. */
  predicate TermsTell(t: Terms, c: Candidate, w: Weights) {
    && t.latency == w.latency * c.metrics.latency
    && t.cost == w.cost * c.metrics.cost
    && t.failure == w.failure * c.metrics.failure
    && t.semanticLoss == w.semanticLoss * c.semanticLoss
    && t.pressure == w.pressure * c.metrics.pressure
    && t.exposure == w.exposure * c.metrics.exposure
    && t.switching == w.switching * c.metrics.switching
  }

  function ExplanationsOf(d: Decision): seq<Explanation> {
    match d
    case Selected(_, _, plan) => plan.explanations
    case Denied(_, _, denial) => denial.explanations
  }

  /** What a decision says about one candidate. */
  ghost predicate Tells(e: Explanation, c: Candidate, w: Weights) {
    && e.routeId == c.routeId && e.allowed == c.allowed
    && if c.allowed then e.rejections == [] && e.terms.Some? && TermsTell(e.terms.value, c, w)
       else e.terms.None? && forall x :: x in e.rejections <==> x in c.rejections
  }

  /**
   * Every candidate is explained: an allowed one by seven terms, each the weight of a name times the
   * metric of that name, a denied one by exactly its reasons.
   */
  lemma EveryCandidateIsExplained(s: seq<Candidate>, w: Weights, i: nat) returns (j: nat)
    requires Decided(s, w).Ok? && i < |s|
    ensures |ExplanationsOf(Decided(s, w).value)| == |s|
    ensures j < |s| && Tells(ExplanationsOf(Decided(s, w).value)[j], s[i], w)
  {
    hide DecisionError, SortById, Eligible, Least, SortUnique;
    j := Place(s, i);
    SortByIdKeeps(s);
    SortUniqueKeeps(s[i].rejections);
  }

  // ---- a metric moves the score by its own weight ----

  /** The seven weighted metrics added up. */
  function Weighted(c: Candidate, w: Weights): nat {
    w.latency * c.metrics.latency + w.cost * c.metrics.cost + w.failure * c.metrics.failure + w.semanticLoss * c.semanticLoss
    + w.pressure * c.metrics.pressure + w.exposure * c.metrics.exposure + w.switching * c.metrics.switching
  }

  lemma ScoreIsWeighted(c: Candidate, w: Weights)
    ensures Score(c, w) == Weighted(c, w)
  {
  }

  lemma Product(w: nat, m: nat, x: nat)
    ensures w * (m + x) == w * m + w * x
  {
  }

  /** Raising one metric raises the score by exactly its weight times the rise. */
  lemma MetricMovesScore(c: Candidate, w: Weights, x: nat)
    ensures var m := c.metrics;
      && Score(c.(metrics := m.(latency := m.latency + x)), w) == Score(c, w) + w.latency * x
      && Score(c.(metrics := m.(cost := m.cost + x)), w) == Score(c, w) + w.cost * x
      && Score(c.(metrics := m.(failure := m.failure + x)), w) == Score(c, w) + w.failure * x
      && Score(c.(metrics := m.(pressure := m.pressure + x)), w) == Score(c, w) + w.pressure * x
      && Score(c.(metrics := m.(exposure := m.exposure + x)), w) == Score(c, w) + w.exposure * x
      && Score(c.(metrics := m.(switching := m.switching + x)), w) == Score(c, w) + w.switching * x
    ensures Score(c.(semanticLoss := c.semanticLoss + x), w) == Score(c, w) + w.semanticLoss * x
  {
    Product(w.latency, c.metrics.latency, x);
    Product(w.cost, c.metrics.cost, x);
    Product(w.failure, c.metrics.failure, x);
    Product(w.pressure, c.metrics.pressure, x);
    Product(w.exposure, c.metrics.exposure, x);
    Product(w.switching, c.metrics.switching, x);
    Product(w.semanticLoss, c.semanticLoss, x);
  }

  /** The selected route's score is its weighted sum, and no allowed candidate has a lower one. */
  lemma SelectedHasLeastSum(s: seq<Candidate>, w: Weights)
    requires Decided(s, w).Ok? && Decided(s, w).value.Selected?
    ensures var p := Decided(s, w).value.plan;
      && (exists i | 0 <= i < |s| :: s[i].allowed && s[i].routeId == p.selected && Weighted(s[i], w) == p.actionScore)
      && (forall i | 0 <= i < |s| && s[i].allowed ::
            p.actionScore < Weighted(s[i], w) || (p.actionScore == Weighted(s[i], w) && StringLe(p.selected, s[i].routeId)))
  {
    hide Decided, Score, Weighted;
    LeastCandidateIsSelected(s, w);
    forall i | 0 <= i < |s|
      ensures Score(s[i], w) == Weighted(s[i], w)
    {
      ScoreIsWeighted(s[i], w);
    }
  }

  // ---- a better route stays selected ----

  /** At least as good in every metric, and otherwise the same candidate. */
  predicate NoWorse(better: Candidate, c: Candidate) {
    && better == c.(metrics := better.metrics, semanticLoss := better.semanticLoss)
    && better.metrics.latency <= c.metrics.latency && better.metrics.cost <= c.metrics.cost && better.metrics.failure <= c.metrics.failure
    && better.metrics.pressure <= c.metrics.pressure && better.metrics.exposure <= c.metrics.exposure
    && better.metrics.switching <= c.metrics.switching && better.semanticLoss <= c.semanticLoss
  }

  lemma ProductAtMost(w: nat, x: nat, y: nat)
    requires x <= y
    ensures w * x <= w * y
  {
  }

  lemma NoWorseScore(better: Candidate, c: Candidate, w: Weights)
    requires NoWorse(better, c)
    ensures Score(better, w) <= Score(c, w)
  {
    ProductAtMost(w.latency, better.metrics.latency, c.metrics.latency);
    ProductAtMost(w.cost, better.metrics.cost, c.metrics.cost);
    ProductAtMost(w.failure, better.metrics.failure, c.metrics.failure);
    ProductAtMost(w.semanticLoss, better.semanticLoss, c.semanticLoss);
    ProductAtMost(w.pressure, better.metrics.pressure, c.metrics.pressure);
    ProductAtMost(w.exposure, better.metrics.exposure, c.metrics.exposure);
    ProductAtMost(w.switching, better.metrics.switching, c.metrics.switching);
  }

  /** Improving a candidate cannot make a decision fail. */
  lemma BetterStillDecides(s: seq<Candidate>, w: Weights, i: nat, better: Candidate)
    requires DecisionError(s, w).None? && i < |s| && NoWorse(better, s[i])
    ensures DecisionError(s[i := better], w).None?
  {
    hide WeightsOk;
    var t := s[i := better];
    forall j | 0 <= j < |t|
      ensures t[j].routeId == s[j].routeId && t[j].semanticLoss <= MAX_NORMALIZED && !DenialUnexplained(t[j])
      ensures t[j].allowed ==> MetricsOk(t[j].metrics)
    {
      assert !DenialUnexplained(s[j]) && s[j].semanticLoss <= MAX_NORMALIZED && (s[j].allowed ==> MetricsOk(s[j].metrics));
    }
    assert !HasRepeat(t);
    forall j | 0 <= j < |t|
      ensures t[j].routeId != ""
    {
      assert s[j].routeId != "";
    }
  }

  /** The selected route stays selected when its own metrics fall. */
  lemma BetterStaysSelected(s: seq<Candidate>, w: Weights, i: nat, better: Candidate)
    requires Decided(s, w).Ok? && Decided(s, w).value.Selected? && i < |s| && s[i].routeId == Decided(s, w).value.plan.selected
    requires NoWorse(better, s[i])
    ensures Decided(s[i := better], w).Ok? && Decided(s[i := better], w).value.Selected?
    ensures Decided(s[i := better], w).value.plan.selected == s[i].routeId
  {
    hide SortById, NormalizedAll, Outcome, Score, RankLe, NoWorse, DecisionError, HasRepeat;
    var t := s[i := better];
    BetterStillDecides(s, w, i, better);
    NoRepeatDecided(s, w);
    LeastCandidateIsSelected(s, w);
    LeastCandidateIsSelected(t, w);
    BetterIsSame(better, s[i]);
    var p, q := Decided(s, w).value.plan, Decided(t, w).value;
    var k :| 0 <= k < |s| && s[k].allowed && s[k].routeId == p.selected && Score(s[k], w) == p.actionScore;
    SameIdSameCandidate(s, i, k);
    assert t[i].allowed && t[i] == better;
    NoWorseScore(better, s[i], w);
    var r :| 0 <= r < |t| && t[r].allowed && t[r].routeId == q.plan.selected && Score(t[r], w) == q.plan.actionScore;
    if r != i {
      assert t[r] == s[r];
      assert RankLe((p.actionScore, p.selected), (Score(s[r], w), s[r].routeId));
      assert RankLe((q.plan.actionScore, q.plan.selected), (Score(better, w), better.routeId));
      Squeezed((p.actionScore, p.selected), (Score(better, w), better.routeId), (q.plan.actionScore, q.plan.selected));
    }
  }

  lemma BetterIsSame(better: Candidate, c: Candidate)
    requires NoWorse(better, c)
    ensures better.routeId == c.routeId && better.allowed == c.allowed
  {
  }

  lemma NoRepeatDecided(s: seq<Candidate>, w: Weights)
    requires Decided(s, w).Ok?
    ensures !HasRepeat(s)
  {
  }

  lemma SameIdSameCandidate(s: seq<Candidate>, i: nat, k: nat)
    requires !HasRepeat(s) && i < |s| && k < |s| && s[i].routeId == s[k].routeId
    ensures i == k
  {
  }

  /** A pair no worse than `p` that comes after a follower of `p` is that follower's equal. */
  lemma Squeezed(p: Ranked, b: Ranked, q: Ranked)
    requires RankLe(p, q) && RankLe(q, b) && b.0 <= p.0 && b.1 == p.1
    ensures q.1 == p.1
  {
    if q.0 == p.0 {
      StringLeAntisymmetric(p.1, q.1);
    }
  }

  // ---- what is decided at all ----

  predicate InRange(m: Metrics) {
    m.latency <= 10_000 && m.cost <= 10_000 && m.failure <= 10_000 && m.pressure <= 10_000 && m.exposure <= 10_000 && m.switching <= 10_000
  }

  /** A reason that says something. */
  ghost predicate Says(reason: string) {
    exists c :: c in reason && !IsWhitespace(c)
  }

  predicate WeightsInRange(w: Weights) {
    && w.latency <= 10_000 && w.cost <= 10_000 && w.failure <= 10_000 && w.semanticLoss <= 10_000 && w.pressure <= 10_000
    && w.exposure <= 10_000 && w.switching <= 10_000
  }

  /** A candidate that can be decided about: measured within range if allowed, with reasons if not. */
  ghost predicate Presentable(c: Candidate) {
    && c.semanticLoss <= 10_000 && c.routeId != ""
    && if c.allowed then InRange(c.metrics) else c.rejections != [] && forall k | 0 <= k < |c.rejections| :: Says(c.rejections[k])
  }

  /**
   * Exactly when there is a decision: every weight and loss and every metric of an allowed candidate is
   * at most 10,000, ids are present and distinct, and each denial gives reasons, none of them blank.
   */
  lemma DecidesExactly(s: seq<Candidate>, w: Weights)
    ensures Decided(s, w).Ok? <==>
              && WeightsInRange(w)
              && (forall i | 0 <= i < |s| :: Presentable(s[i]))
              && (forall i, j | 0 <= i < j < |s| :: s[i].routeId != s[j].routeId)
  {
    hide Outcome, SortById, NormalizedAll, DenialUnexplained, MetricsOk, Presentable;
    forall i | 0 <= i < |s|
      ensures Presentable(s[i]) <==>
                && s[i].semanticLoss <= MAX_NORMALIZED && s[i].routeId != "" && !DenialUnexplained(s[i])
                && !(s[i].allowed && !MetricsOk(s[i].metrics))
    {
      PresentableMeans(s[i]);
    }
  }

  lemma PresentableMeans(c: Candidate)
    ensures Presentable(c) <==>
              && c.semanticLoss <= MAX_NORMALIZED && c.routeId != "" && !DenialUnexplained(c) && !(c.allowed && !MetricsOk(c.metrics))
  {
    forall k | 0 <= k < |c.rejections|
      ensures Says(c.rejections[k]) <==> !Blank(c.rejections[k])
    {
    }
  }
}
