/**
  How one node is scored: preferred-resource matches, weighted headroom and the
  final adjustments, over exact reals.
*/
module Scoring {
  import opened Resources

  const MAX_NODE_SCORE := 100

  // ---- Rounding ------------------------------------------------------------

  /** math.Round: to the nearest integer, halves away from zero. */
  function Round(x: real): int {
    if x >= 0.0 then (x + 0.5).Floor else -((0.5 - x).Floor)
  }

  lemma RoundMonotone(x: real, y: real)
    requires x <= y
    ensures Round(x) <= Round(y)
  {
  }

  // ---- Preferred matches and headroom --------------------------------------

  /** One resource dimension as the scorers see it. */
  datatype Check = Check(name: string, preferred: int, available: int)

  function Checks(preferred: Resource, available: Resource): seq<Check> {
    [ Check("gpuCount", preferred.gpuCount, available.gpuCount),
      Check("gpuMemoryGiB", preferred.gpuMemoryGiB, available.gpuMemoryGiB),
      Check("kvCacheGiB", preferred.kvCacheGiB, available.kvCacheGiB),
      Check("prefillTokensPerSecond", preferred.prefillTps, available.prefillTps),
      Check("decodeTokensPerSecond", preferred.decodeTps, available.decodeTps),
      Check("totalTokensPerSecond", preferred.totalTps, available.totalTps) ]
  }

  function Matched(s: seq<Check>): (r: nat)
    ensures r <= |s|
  {
    if s == [] then 0
    else var c := s[|s| - 1]; Matched(s[..|s| - 1]) + (if c.preferred > 0 && c.available >= c.preferred then 1 else 0)
  }

  function Preferring(s: seq<Check>): (r: nat)
    ensures r <= |s|
  {
    if s == [] then 0 else Preferring(s[..|s| - 1]) + (if s[|s| - 1].preferred > 0 then 1 else 0)
  }

  /** preferredMatchCount. */
  method PreferredMatchCount(preferred: Resource, available: Resource) returns (matched: int, total: int)
    ensures matched == Matched(Checks(preferred, available)) && total == Preferring(Checks(preferred, available))
    ensures 0 <= matched <= total <= 6
  {
    var checks := Checks(preferred, available);
    matched, total := 0, 0;
    for i := 0 to |checks|
      invariant matched == Matched(checks[..i]) && total == Preferring(checks[..i]) && matched <= total
    {
      assert checks[..i + 1][..i] == checks[..i];
      if checks[i].preferred <= 0 { continue; }
      total := total + 1;
      if checks[i].available >= checks[i].preferred { matched := matched + 1; }
    }
    assert checks[..|checks|] == checks;
  }

  function Weight(key: string, name: string): real {
    if key == "balanced" || key == "" || name == key then 0.4 else 0.3
  }

  /** Spare capacity relative to what is preferred, capped at one. */
  function NormalizedHeadroom(available: int, preferred: int): real {
    if preferred <= 0 || available <= preferred then 0.0
    else
      var headroom := (available - preferred) as real / preferred as real;
      if headroom > 1.0 then 1.0 else headroom
  }

  function WeightedSum(key: string, s: seq<Check>): real {
    if s == [] then 0.0
    else
      var c := s[|s| - 1];
      WeightedSum(key, s[..|s| - 1]) +
      (if c.preferred > 0 then Weight(key, c.name) * NormalizedHeadroom(c.available, c.preferred) else 0.0)
  }

  function WeightSum(key: string, s: seq<Check>): real {
    if s == [] then 0.0
    else WeightSum(key, s[..|s| - 1]) + (if s[|s| - 1].preferred > 0 then Weight(key, s[|s| - 1].name) else 0.0)
  }

  function Scaled(sum: real, weight: real): int {
    if weight == 0.0 then 0 else Round(sum / weight * 100.0)
  }

  function HeadroomScore(key: string, s: seq<Check>): int { Scaled(WeightedSum(key, s), WeightSum(key, s)) }

  /** weightedHeadroomScore. */
  method WeightedHeadroomScore(key: string, preferred: Resource, available: Resource) returns (score: int)
    ensures score == HeadroomScore(key, Checks(preferred, available))
    ensures 0 <= score <= MAX_NODE_SCORE
  {
    var checks := Checks(preferred, available);
    var weightedSum, weightSum := 0.0, 0.0;
    for i := 0 to |checks|
      invariant weightedSum == WeightedSum(key, checks[..i]) && weightSum == WeightSum(key, checks[..i])
    {
      assert checks[..i + 1][..i] == checks[..i];
      if checks[i].preferred <= 0 { continue; }
      var weight := Weight(key, checks[i].name);
      weightedSum := weightedSum + weight * NormalizedHeadroom(checks[i].available, checks[i].preferred);
      weightSum := weightSum + weight;
    }
    assert checks[..|checks|] == checks;
    HeadroomScoreBounded(key, checks);
    score := Scaled(weightedSum, weightSum);
  }

  lemma HeadroomUnit(available: int, preferred: int)
    ensures 0.0 <= NormalizedHeadroom(available, preferred) <= 1.0
  {
  }

  lemma QuotientMonotone(a: real, b: real, d: real)
    requires a <= b && d > 0.0
    ensures a / d <= b / d
  {
  }

  lemma HeadroomMonotone(available: int, more: int, preferred: int)
    requires available <= more
    ensures NormalizedHeadroom(available, preferred) <= NormalizedHeadroom(more, preferred)
  {
    if preferred > 0 {
      QuotientMonotone((available - preferred) as real, (more - preferred) as real, preferred as real);
    }
    HeadroomUnit(more, preferred);
  }

  lemma {:induction false} SumWithinWeight(key: string, s: seq<Check>)
    ensures 0.0 <= WeightedSum(key, s) <= WeightSum(key, s)
  {
    if s != [] {
      SumWithinWeight(key, s[..|s| - 1]);
      HeadroomUnit(s[|s| - 1].available, s[|s| - 1].preferred);
    }
  }

  lemma ScaledBounded(sum: real, weight: real)
    requires 0.0 <= sum <= weight
    ensures 0 <= Scaled(sum, weight) <= MAX_NODE_SCORE
  {
    if weight > 0.0 {
      QuotientMonotone(0.0, sum, weight);
      QuotientMonotone(sum, weight, weight);
      RoundMonotone(sum / weight * 100.0, 100.0);
    }
  }

  /** The headroom score is always a valid node score. */
  lemma HeadroomScoreBounded(key: string, s: seq<Check>)
    ensures 0 <= HeadroomScore(key, s) <= MAX_NODE_SCORE
  {
    SumWithinWeight(key, s);
    ScaledBounded(WeightedSum(key, s), WeightSum(key, s));
  }

  /** The same preferences, with at least as much available in every dimension. */
  predicate Grows(s: seq<Check>, t: seq<Check>) {
    |s| == |t| && forall i :: 0 <= i < |s| ==>
      s[i].name == t[i].name && s[i].preferred == t[i].preferred && s[i].available <= t[i].available
  }

  lemma {:induction false} MatchedMonotone(s: seq<Check>, t: seq<Check>)
    requires Grows(s, t)
    ensures Matched(s) <= Matched(t)
  {
    if s != [] { MatchedMonotone(s[..|s| - 1], t[..|t| - 1]); }
  }

  lemma {:induction false} SumsMonotone(key: string, s: seq<Check>, t: seq<Check>)
    requires Grows(s, t)
    ensures WeightedSum(key, s) <= WeightedSum(key, t) && WeightSum(key, s) == WeightSum(key, t)
  {
    if s != [] {
      SumsMonotone(key, s[..|s| - 1], t[..|t| - 1]);
      HeadroomMonotone(s[|s| - 1].available, t[|t| - 1].available, s[|s| - 1].preferred);
    }
  }

  lemma ScaledMonotone(x: real, y: real, weight: real)
    requires 0.0 <= x <= y && 0.0 <= weight
    ensures Scaled(x, weight) <= Scaled(y, weight)
  {
    if weight > 0.0 {
      QuotientMonotone(x, y, weight);
      RoundMonotone(x / weight * 100.0, y / weight * 100.0);
    }
  }

  /** More of any resource never lowers the match count or the headroom score. */
  lemma MoreAvailableScoresHigher(key: string, preferred: Resource, available: Resource, more: Resource)
    requires Fits(available, more)
    ensures Matched(Checks(preferred, available)) <= Matched(Checks(preferred, more))
    ensures HeadroomScore(key, Checks(preferred, available)) <= HeadroomScore(key, Checks(preferred, more))
  {
    var s, t := Checks(preferred, available), Checks(preferred, more);
    MatchedMonotone(s, t);
    SumsMonotone(key, s, t);
    SumWithinWeight(key, s);
    ScaledMonotone(WeightedSum(key, s), WeightedSum(key, t), WeightSum(key, s));
  }

  // ---- The final adjustments -----------------------------------------------

  /** What scoring records about a node. */
  datatype Detail = Detail(
    matched: int,
    headroom: int,
    timeMultiplier: real,
    mixMultiplier: real,
    extraScore: int,
    extraMultiplier: real,
    riskPenalty: int,
    extraPenalty: int)

  /** What one scorer hands to the composer; scorers it does not know count as extras. */
  datatype Contribution =
    | PreferredCoverage(matched: int)
    | KeyResourceHeadroom(headroom: int)
    | TimeWindow(multiplier: real)
    | WorkloadMix(multiplier: real)
    | SLORisk(penalty: int)
    | Extra(score: int, multiplier: real, penalty: int)

  /** A detail before any scorer has run. */
  const UNSCORED := Detail(0, 0, 1.0, 1.0, 0, 1.0, 0, 0)

  /** Only positive factors count, and a running product that is not positive starts over at one. */
  function Multiply(product: real, factor: real): real {
    if factor <= 0.0 then product else if product <= 0.0 then factor else product * factor
  }

  function ApplyContribution(d: Detail, c: Contribution): Detail {
    match c
    case PreferredCoverage(matched) => d.(matched := matched)
    case KeyResourceHeadroom(headroom) => d.(headroom := headroom)
    case TimeWindow(multiplier) => d.(timeMultiplier := multiplier)
    case WorkloadMix(multiplier) => d.(mixMultiplier := multiplier)
    case SLORisk(penalty) => d.(riskPenalty := penalty)
    case Extra(score, multiplier, penalty) =>
      d.(extraScore := d.extraScore + score,
         extraMultiplier := Multiply(d.extraMultiplier, multiplier),
         extraPenalty := d.extraPenalty + penalty)
  }

  function Compose(s: seq<Contribution>): Detail {
    if s == [] then UNSCORED else ApplyContribution(Compose(s[..|s| - 1]), s[|s| - 1])
  }

  /** The loop of ScoreComposer.BuildDetail. */
  method BuildDetail(contributions: seq<Contribution>) returns (detail: Detail)
    ensures detail == Compose(contributions)
  {
    detail := UNSCORED;
    for i := 0 to |contributions|
      invariant detail == Compose(contributions[..i])
    {
      assert contributions[..i + 1][..i] == contributions[..i];
      detail := ApplyContribution(detail, contributions[i]);
    }
    assert contributions[..|contributions|] == contributions;
  }

  /** Two contributions that are not rival results of one built-in scorer. */
  predicate Independent(a: Contribution, b: Contribution) {
    && !(a.PreferredCoverage? && b.PreferredCoverage?)
    && !(a.KeyResourceHeadroom? && b.KeyResourceHeadroom?)
    && !(a.TimeWindow? && b.TimeWindow?)
    && !(a.WorkloadMix? && b.WorkloadMix?)
    && !(a.SLORisk? && b.SLORisk?)
  }

  lemma MultiplyCommutes(product: real, x: real, y: real)
    ensures Multiply(Multiply(product, x), y) == Multiply(Multiply(product, y), x)
  {
    if product > 0.0 && x > 0.0 && y > 0.0 {
      assert product * x > 0.0 && product * y > 0.0;
      assert product * x * y == product * y * x;
    }
  }

  lemma ContributionsCommute(d: Detail, a: Contribution, b: Contribution)
    requires Independent(a, b)
    ensures ApplyContribution(ApplyContribution(d, a), b) == ApplyContribution(ApplyContribution(d, b), a)
  {
    if a.Extra? && b.Extra? { MultiplyCommutes(d.extraMultiplier, a.multiplier, b.multiplier); }
  }

  /**
    Swapping neighbouring scorers changes nothing, so with one scorer of each
    built-in kind their order is irrelevant.
  */
  lemma {:induction false} ScorerOrderIrrelevant(before: seq<Contribution>, a: Contribution, b: Contribution,
                                                 after: seq<Contribution>)
    requires Independent(a, b)
    ensures Compose(before + [a, b] + after) == Compose(before + [b, a] + after)
    decreases |after|
  {
    var s, t := before + [a, b] + after, before + [b, a] + after;
    if after == [] {
      assert s[..|s| - 1] == before + [a] && t[..|t| - 1] == before + [b];
      assert (before + [a])[..|before|] == before && (before + [b])[..|before|] == before;
      ContributionsCommute(Compose(before), a, b);
    } else {
      var front := after[..|after| - 1];
      assert s[..|s| - 1] == before + [a, b] + front && t[..|t| - 1] == before + [b, a] + front;
      ScorerOrderIrrelevant(before, a, b, front);
    }
  }

  lemma {:induction false} MoveToEnd(before: seq<Contribution>, x: Contribution, after: seq<Contribution>)
    requires forall y :: y in after ==> Independent(x, y)
    ensures Compose(before + [x] + after) == Compose(before + after + [x])
    decreases |after|
  {
    if after == [] {
      assert before + [x] + after == before + after + [x];
    } else {
      var y, rest := after[0], after[1..];
      assert before + [x] + after == before + [x, y] + rest;
      ScorerOrderIrrelevant(before, x, y, rest);
      assert before + [y, x] + rest == (before + [y]) + [x] + rest;
      MoveToEnd(before + [y], x, rest);
      assert (before + [y]) + rest + [x] == before + after + [x];
    }
  }

  /** No two contributions are rival results of one built-in scorer. */
  predicate AllIndependent(s: seq<Contribution>) { forall i, j :: 0 <= i < j < |s| ==> Independent(s[i], s[j]) }

  lemma OthersIndependent(s: seq<Contribution>, rest: seq<Contribution>, y: Contribution)
    requires s != [] && AllIndependent(s) && multiset(rest) == multiset(s[..|s| - 1]) && y in rest
    ensures Independent(s[|s| - 1], y)
  {
    assert y in multiset(rest);
    assert y in s[..|s| - 1];
  }

  /** The order of the scorers is irrelevant: any permutation of their contributions gives the same detail. */
  lemma {:induction false} ScorersPermute(s: seq<Contribution>, t: seq<Contribution>)
    requires multiset(s) == multiset(t) && AllIndependent(s)
    ensures Compose(s) == Compose(t)
    decreases |s|
  {
    if s == [] {
      assert |multiset(t)| == 0;
    } else {
      var n := |s| - 1;
      var i := IndexIn(s, n, t);
      var before, after := t[..i], t[i + 1..];
      DropEqual(s, t, i);
      ScorersPermute(s[..n], before + after);
      forall y | y in after ensures Independent(s[n], y) { OthersIndependent(s, before + after, y); }
      MoveToEnd(before, s[n], after);
      assert t == before + [s[n]] + after;
      assert (before + after + [s[n]])[..n] == before + after;
    }
  }

  /** What the built-in scorers make of a node's available resources; `rest` holds the other fields. */
  function NodeDetail(key: string, preferred: Resource, available: Resource, rest: Detail): Detail {
    var checks := Checks(preferred, available);
    rest.(matched := Matched(checks), headroom := HeadroomScore(key, checks))
  }

  function ApplyMultiplier(score: int, multiplier: real): int {
    Round(score as real * (if multiplier <= 0.0 then 1.0 else multiplier))
  }

  function ClampScore(score: int): int {
    if score < 0 then 0 else if score > MAX_NODE_SCORE then MAX_NODE_SCORE else score
  }

  /** ScoreComposer.Normalize for one node. */
  function Decide(d: Detail): (score: int)
    ensures 0 <= score <= MAX_NODE_SCORE
  {
    var timed := ApplyMultiplier(d.headroom, d.timeMultiplier);
    var mixed := ApplyMultiplier(timed, d.mixMultiplier);
    var extra := ApplyMultiplier(mixed + d.extraScore, d.extraMultiplier);
    ClampScore(extra - (d.riskPenalty + d.extraPenalty))
  }

  lemma ApplyMultiplierMonotone(a: int, b: int, multiplier: real)
    requires a <= b
    ensures ApplyMultiplier(a, multiplier) <= ApplyMultiplier(b, multiplier)
  {
    var m := if multiplier <= 0.0 then 1.0 else multiplier;
    assert a as real * m <= b as real * m;
    RoundMonotone(a as real * m, b as real * m);
  }

  /** `e` is `d` with at least as many matches and as much headroom. */
  predicate Improves(d: Detail, e: Detail) {
    d.matched <= e.matched && d.headroom <= e.headroom && e == d.(matched := e.matched, headroom := e.headroom)
  }

  /** Under equal multipliers and penalties, more headroom never lowers the final score. */
  lemma DecideMonotone(d: Detail, e: Detail)
    requires Improves(d, e)
    ensures Decide(d) <= Decide(e)
  {
    ApplyMultiplierMonotone(d.headroom, e.headroom, d.timeMultiplier);
    var x, y := ApplyMultiplier(d.headroom, d.timeMultiplier), ApplyMultiplier(e.headroom, d.timeMultiplier);
    ApplyMultiplierMonotone(x, y, d.mixMultiplier);
    var x', y' := ApplyMultiplier(x, d.mixMultiplier), ApplyMultiplier(y, d.mixMultiplier);
    ApplyMultiplierMonotone(x' + d.extraScore, y' + d.extraScore, d.extraMultiplier);
  }

  /** More available resources improve a node's detail, and its decision does not get worse. */
  lemma MoreAvailableImproves(key: string, preferred: Resource, available: Resource, more: Resource, rest: Detail)
    requires Fits(available, more)
    ensures var d, e := NodeDetail(key, preferred, available, rest), NodeDetail(key, preferred, more, rest);
            Improves(d, e) && Decide(d) <= Decide(e)
  {
    MoreAvailableScoresHigher(key, preferred, available, more);
    DecideMonotone(NodeDetail(key, preferred, available, rest), NodeDetail(key, preferred, more, rest));
  }
}
