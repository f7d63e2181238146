/** What a node's score depends on, and in which direction: rounding, weights, multipliers, extras and penalties. */
module ScoringProofs {
  import opened Resources
  import opened Scoring

  // ---- Rounding ------------------------------------------------------------

  /** Rounding goes to a nearest integer; of two equally near ones to the one further from zero. */
  lemma RoundIsNearest(x: real)
    ensures -0.5 <= x - Round(x) as real <= 0.5
    ensures x - Round(x) as real == 0.5 ==> x < 0.0
    ensures x - Round(x) as real == -0.5 ==> x > 0.0
  {
  }

  // ---- Matches -------------------------------------------------------------

  /** A dimension counts if something is preferred, and matches if that much is available. */
  function Matches(preferred: int, available: int): int { if 0 < preferred <= available then 1 else 0 }

  function Prefers(preferred: int): int { if preferred > 0 then 1 else 0 }

  lemma {:induction false} CountSix(a: Check, b: Check, c: Check, d: Check, e: Check, f: Check)
    ensures var s := [a, b, c, d, e, f];
            && Matched(s) == Matches(a.preferred, a.available) + Matches(b.preferred, b.available) +
                             Matches(c.preferred, c.available) + Matches(d.preferred, d.available) +
                             Matches(e.preferred, e.available) + Matches(f.preferred, f.available)
            && Preferring(s) == Prefers(a.preferred) + Prefers(b.preferred) + Prefers(c.preferred) +
                                Prefers(d.preferred) + Prefers(e.preferred) + Prefers(f.preferred)
  {
    CountSnoc([], a);
    CountSnoc([a], b);
    CountSnoc([a, b], c);
    CountSnoc([a, b, c], d);
    CountSnoc([a, b, c, d], e);
    CountSnoc([a, b, c, d, e], f);
    assert [] + [a] == [a] && [a] + [b] == [a, b] && [a, b] + [c] == [a, b, c];
    assert [a, b, c] + [d] == [a, b, c, d] && [a, b, c, d] + [e] == [a, b, c, d, e];
    assert [a, b, c, d, e] + [f] == [a, b, c, d, e, f];
  }

  lemma CountSnoc(s: seq<Check>, c: Check)
    ensures Matched(s + [c]) == Matched(s) + Matches(c.preferred, c.available)
    ensures Preferring(s + [c]) == Preferring(s) + Prefers(c.preferred)
  {
    assert (s + [c])[..|s|] == s;
  }

  /** The counts over a workload's preference and a node's availability, dimension by dimension. */
  lemma MatchesByDimension(p: Resource, n: Resource)
    ensures Matched(Checks(p, n)) ==
            Matches(p.gpuCount, n.gpuCount) + Matches(p.gpuMemoryGiB, n.gpuMemoryGiB) +
            Matches(p.kvCacheGiB, n.kvCacheGiB) + Matches(p.prefillTps, n.prefillTps) +
            Matches(p.decodeTps, n.decodeTps) + Matches(p.totalTps, n.totalTps)
    ensures Preferring(Checks(p, n)) ==
            Prefers(p.gpuCount) + Prefers(p.gpuMemoryGiB) + Prefers(p.kvCacheGiB) + Prefers(p.prefillTps) +
            Prefers(p.decodeTps) + Prefers(p.totalTps)
  {
    var s := Checks(p, n);
    CountSix(s[0], s[1], s[2], s[3], s[4], s[5]);
  }

  // ---- Weighted headroom ---------------------------------------------------

  /** The sum of the headrooms of the dimensions that are preferred. */
  function TotalHeadroom(s: seq<Check>): real {
    if s == [] then 0.0
    else
      var c := s[|s| - 1];
      TotalHeadroom(s[..|s| - 1]) + if c.preferred > 0 then NormalizedHeadroom(c.available, c.preferred) else 0.0
  }

  /** The key names none of the dimensions that are preferred. */
  predicate Unfocused(key: string, s: seq<Check>) {
    forall i :: 0 <= i < |s| && s[i].preferred > 0 ==> s[i].name != key
  }

  lemma {:induction false} SameWeightThroughout(key: string, s: seq<Check>, weight: real)
    requires forall i :: 0 <= i < |s| && s[i].preferred > 0 ==> Weight(key, s[i].name) == weight
    ensures WeightedSum(key, s) == weight * TotalHeadroom(s) && WeightSum(key, s) == weight * Preferring(s) as real
  {
    if s != [] {
      var front, c := s[..|s| - 1], s[|s| - 1];
      SameWeightThroughout(key, front, weight);
      if c.preferred > 0 {
        var x, y := TotalHeadroom(front), NormalizedHeadroom(c.available, c.preferred);
        assert weight * (x + y) == weight * x + weight * y;
        assert weight * (Preferring(front) + 1) as real == weight * Preferring(front) as real + weight;
      }
    }
  }

  lemma CancelWeight(weight: real, sum: real, n: real)
    requires weight > 0.0 && n > 0.0
    ensures weight * n != 0.0 && (weight * sum) / (weight * n) == sum / n
  {
    assert weight * n > 0.0;
    var q := sum / n;
    assert q * n == sum;
    assert weight * sum == q * (weight * n);
  }

  /** Without a key among the preferred dimensions, the score is their mean headroom in percent. */
  lemma UnfocusedScoreIsMean(key: string, s: seq<Check>)
    requires key == "" || key == "balanced" || Unfocused(key, s)
    ensures HeadroomScore(key, s) ==
            if Preferring(s) == 0 then 0 else Round(TotalHeadroom(s) / Preferring(s) as real * 100.0)
  {
    var weight := if key == "" || key == "balanced" then 0.4 else 0.3;
    SameWeightThroughout(key, s, weight);
    if Preferring(s) > 0 { CancelWeight(weight, TotalHeadroom(s), Preferring(s) as real); }
  }

  /** With the key among the preferred dimensions, its weight exceeds the common one by a third. */
  lemma {:induction false} KeyWeighsMore(key: string, s: seq<Check>, k: nat)
    requires k < |s| && s[k].name == key && s[k].preferred > 0 && key != "" && key != "balanced"
    requires forall i :: 0 <= i < |s| && i != k ==> s[i].name != key
    ensures Preferring(s) > 0
    ensures WeightedSum(key, s) ==
            0.3 * TotalHeadroom(s) + 0.1 * NormalizedHeadroom(s[k].available, s[k].preferred)
    ensures WeightSum(key, s) == 0.3 * Preferring(s) as real + 0.1
  {
    var front := s[..|s| - 1];
    if k == |s| - 1 {
      SameWeightThroughout(key, front, 0.3);
    } else {
      KeyWeighsMore(key, front, k);
    }
  }

  lemma Tenths(q: real, total: real, own: real, n: real)
    requires q * (0.3 * n + 0.1) == 0.3 * total + 0.1 * own
    ensures q * (3.0 * n + 1.0) == 3.0 * total + own
  {
    assert q * (3.0 * n + 1.0) == 10.0 * (q * (0.3 * n + 0.1));
  }

  lemma Ratio(sum: real, weight: real) returns (q: real)
    requires weight > 0.0
    ensures q * weight == sum && Scaled(sum, weight) == Round(q * 100.0)
  {
    q := sum / weight;
  }

  /** `q` is the mean of `n` headrooms that add up to `total`, one of them, `own`, counted four times to three. */
  predicate FourToThree(q: real, total: real, own: real, n: nat) {
    q * (3.0 * n as real + 1.0) == 3.0 * total + own
  }

  lemma RatioOfTenths(sum: real, weight: real, total: real, own: real, n: nat) returns (q: real)
    requires sum == 0.3 * total + 0.1 * own && weight == 0.3 * n as real + 0.1
    ensures FourToThree(q, total, own, n) && Scaled(sum, weight) == Round(q * 100.0)
  {
    q := Ratio(sum, weight);
    Tenths(q, total, own, n as real);
  }

  /** The score is `q` in percent, where the key's dimension counts four parts and every other preferred one three. */
  lemma KeyCountsFourToThree(key: string, s: seq<Check>, k: nat) returns (q: real)
    requires k < |s| && s[k].name == key && s[k].preferred > 0 && key != "" && key != "balanced"
    requires forall i :: 0 <= i < |s| && i != k ==> s[i].name != key
    ensures HeadroomScore(key, s) == Round(q * 100.0)
    ensures FourToThree(q, TotalHeadroom(s), NormalizedHeadroom(s[k].available, s[k].preferred), Preferring(s))
  {
    KeyWeighsMore(key, s, k);
    q := RatioOfTenths(WeightedSum(key, s), WeightSum(key, s), TotalHeadroom(s),
        NormalizedHeadroom(s[k].available, s[k].preferred), Preferring(s));
  }

  /** Headroom is the spare part relative to what is preferred: none, all of it, or the ratio between. */
  lemma HeadroomExactly(available: int, preferred: int)
    requires preferred > 0
    ensures NormalizedHeadroom(available, preferred) == 0.0 <==> available <= preferred
    ensures NormalizedHeadroom(available, preferred) == 1.0 <==> available >= 2 * preferred
    ensures preferred <= available <= 2 * preferred ==>
            NormalizedHeadroom(available, preferred) * preferred as real == (available - preferred) as real
  {
    if available > preferred { QuotientExactly((available - preferred) as real, preferred as real); }
  }

  lemma QuotientExactly(x: real, d: real)
    requires x > 0.0 && d > 0.0
    ensures x / d > 0.0 && x / d * d == x && (x / d > 1.0 <==> x > d) && (x / d == 1.0 <==> x == d)
  {
    var q := x / d;
    assert q * d == x;
    if q < 1.0 {
      StrictlyLess(q, 1.0, d);
    } else if q > 1.0 {
      StrictlyLess(1.0, q, d);
    }
  }

  lemma StrictlyLess(a: real, b: real, d: real)
    requires a < b && d > 0.0
    ensures a * d < b * d
  {
  }

  // ---- What the composer collects ------------------------------------------

  function ExtraScores(s: seq<Contribution>): int {
    if s == [] then 0 else ExtraScores(s[..|s| - 1]) + if s[|s| - 1].Extra? then s[|s| - 1].score else 0
  }

  function ExtraPenalties(s: seq<Contribution>): int {
    if s == [] then 0 else ExtraPenalties(s[..|s| - 1]) + if s[|s| - 1].Extra? then s[|s| - 1].penalty else 0
  }

  /** The product of the extras' positive multipliers. */
  function ExtraFactor(s: seq<Contribution>): (r: real)
    ensures r > 0.0
  {
    if s == [] then 1.0
    else
      var c, rest := s[|s| - 1], ExtraFactor(s[..|s| - 1]);
      if c.Extra? && c.multiplier > 0.0 then rest * c.multiplier else rest
  }

  /** Extras accumulate: scores and penalties add up, positive multipliers multiply. */
  lemma {:induction false} ExtrasAccumulate(s: seq<Contribution>)
    ensures Compose(s).extraScore == ExtraScores(s)
    ensures Compose(s).extraPenalty == ExtraPenalties(s)
    ensures Compose(s).extraMultiplier == ExtraFactor(s)
  {
    if s != [] { ExtrasAccumulate(s[..|s| - 1]); }
  }

  /** Each built-in scorer's result ends up in its own field. */
  predicate Holds(d: Detail, c: Contribution) {
    match c
    case PreferredCoverage(matched) => d.matched == matched
    case KeyResourceHeadroom(headroom) => d.headroom == headroom
    case TimeWindow(multiplier) => d.timeMultiplier == multiplier
    case WorkloadMix(multiplier) => d.mixMultiplier == multiplier
    case SLORisk(penalty) => d.riskPenalty == penalty
    case Extra(_, _, _) => true
  }

  lemma {:induction false} BuiltInsKeepTheirFields(s: seq<Contribution>, i: nat)
    requires i < |s| && AllIndependent(s)
    ensures Holds(Compose(s), s[i])
  {
    if i < |s| - 1 {
      var front := s[..|s| - 1];
      assert AllIndependent(front);
      BuiltInsKeepTheirFields(front, i);
      assert Independent(s[i], s[|s| - 1]);
    }
  }

  /** A scorer that does not run leaves its field neutral. */
  lemma {:induction false} MissingScorersAreNeutral(s: seq<Contribution>)
    ensures (forall i :: 0 <= i < |s| ==> !s[i].PreferredCoverage?) ==> Compose(s).matched == 0
    ensures (forall i :: 0 <= i < |s| ==> !s[i].KeyResourceHeadroom?) ==> Compose(s).headroom == 0
    ensures (forall i :: 0 <= i < |s| ==> !s[i].TimeWindow?) ==> Compose(s).timeMultiplier == 1.0
    ensures (forall i :: 0 <= i < |s| ==> !s[i].WorkloadMix?) ==> Compose(s).mixMultiplier == 1.0
    ensures (forall i :: 0 <= i < |s| ==> !s[i].SLORisk?) ==> Compose(s).riskPenalty == 0
  {
    if s != [] {
      MissingScorersAreNeutral(s[..|s| - 1]);
      assert forall i :: 0 <= i < |s| - 1 ==> s[..|s| - 1][i] == s[i];
    }
  }

  // ---- The decision --------------------------------------------------------

  /** A riskier or more penalised node never scores higher. */
  lemma PenaltiesNeverHelp(d: Detail, e: Detail)
    requires d.riskPenalty <= e.riskPenalty && d.extraPenalty <= e.extraPenalty
    requires e == d.(riskPenalty := e.riskPenalty, extraPenalty := e.extraPenalty)
    ensures Decide(e) <= Decide(d)
  {
  }

  /** An extra score never hurts. */
  lemma ExtraScoreNeverHurts(d: Detail, e: Detail)
    requires d.extraScore <= e.extraScore && e == d.(extraScore := e.extraScore)
    ensures Decide(d) <= Decide(e)
  {
    var mixed := ApplyMultiplier(ApplyMultiplier(d.headroom, d.timeMultiplier), d.mixMultiplier);
    ApplyMultiplierMonotone(mixed + d.extraScore, mixed + e.extraScore, d.extraMultiplier);
  }

  lemma LargerMultiplier(score: int, m: real, n: real)
    requires 0 <= score && 0.0 < m <= n
    ensures 0 <= ApplyMultiplier(score, m) <= ApplyMultiplier(score, n)
  {
    assert 0.0 <= score as real * m <= score as real * n;
    RoundMonotone(score as real * m, score as real * n);
  }

  /** The score the extras are applied to. */
  function BeforeExtras(d: Detail): int {
    ApplyMultiplier(ApplyMultiplier(d.headroom, d.timeMultiplier), d.mixMultiplier)
  }

  /** A larger window or mix multiplier never hurts a score that is not negative, nor does a larger extra one. */
  lemma LargerMultipliersNeverHurt(d: Detail, e: Detail)
    requires e == d.(timeMultiplier := e.timeMultiplier, mixMultiplier := e.mixMultiplier,
                     extraMultiplier := e.extraMultiplier)
    requires 0.0 < d.timeMultiplier <= e.timeMultiplier && 0.0 < d.mixMultiplier <= e.mixMultiplier
    requires 0 <= d.headroom
    requires e.extraMultiplier == d.extraMultiplier ||
             (0.0 < d.extraMultiplier <= e.extraMultiplier && 0 <= BeforeExtras(d) + d.extraScore)
    ensures Decide(d) <= Decide(e)
  {
    LargerMultiplier(d.headroom, d.timeMultiplier, e.timeMultiplier);
    var x, y := ApplyMultiplier(d.headroom, d.timeMultiplier), ApplyMultiplier(d.headroom, e.timeMultiplier);
    ApplyMultiplierMonotone(x, y, d.mixMultiplier);
    LargerMultiplier(y, d.mixMultiplier, e.mixMultiplier);
    var a, b := BeforeExtras(d) + d.extraScore, BeforeExtras(e) + d.extraScore;
    ApplyMultiplierMonotone(a, b, d.extraMultiplier);
    if e.extraMultiplier != d.extraMultiplier { LargerMultiplier(b, d.extraMultiplier, e.extraMultiplier); }
  }

  /** A multiplier that is not positive counts as one. */
  function Counted(multiplier: real): real { if multiplier <= 0.0 then 1.0 else multiplier }

  lemma RoundOfInt(n: int)
    ensures Round(n as real) == n
  {
  }

  lemma MultiplyBy(score: int, multiplier: real)
    ensures ApplyMultiplier(score, multiplier) == Round(score as real * Counted(multiplier))
    ensures Counted(multiplier) == 1.0 ==> ApplyMultiplier(score, multiplier) == score
  {
    RoundOfInt(score);
  }

  predicate IsProduct(p: real, score: int, multiplier: real) { p == score as real * Counted(multiplier) }

  lemma Product(score: int, multiplier: real) returns (p: real)
    ensures IsProduct(p, score, multiplier) && ApplyMultiplier(score, multiplier) == Round(p)
  {
    p := score as real * Counted(multiplier);
  }

  function Within(score: int): int { if score < 0 then 0 else if score > 100 then 100 else score }

  /** Without multipliers the score is headroom and extras less both penalties, within 0 and 100. */
  lemma PlainDecision(d: Detail)
    requires Counted(d.timeMultiplier) == Counted(d.mixMultiplier) == Counted(d.extraMultiplier) == 1.0
    ensures Decide(d) == Within(d.headroom + d.extraScore - d.riskPenalty - d.extraPenalty)
  {
    MultiplyBy(d.headroom, d.timeMultiplier);
    MultiplyBy(d.headroom, d.mixMultiplier);
    MultiplyBy(d.headroom + d.extraScore, d.extraMultiplier);
  }

  /**
    In general: the window's and the mix's multipliers apply in turn, then the
    extra score is added, then the extra multiplier applies to all of it, and
    the penalties are taken off last; each product is rounded.
  */
  lemma DecidesInStages(d: Detail) returns (timed: real, mixed: real, extra: real)
    ensures IsProduct(timed, d.headroom, d.timeMultiplier) && IsProduct(mixed, Round(timed), d.mixMultiplier)
    ensures IsProduct(extra, Round(mixed) + d.extraScore, d.extraMultiplier)
    ensures Decide(d) == Within(Round(extra) - d.riskPenalty - d.extraPenalty)
  {
    timed := Product(d.headroom, d.timeMultiplier);
    mixed := Product(Round(timed), d.mixMultiplier);
    extra := Product(Round(mixed) + d.extraScore, d.extraMultiplier);
  }

  /** A high risk costs its fifteen points. */
  lemma RiskCosts()
    ensures Decide(Detail(1, 50, 1.0, 1.0, 0, 1.0, 15, 0)) == 35
  {
    PlainDecision(Detail(1, 50, 1.0, 1.0, 0, 1.0, 15, 0));
  }
}
