/** The per-pod scoring state: an online tracker of the best tier, and the normalisation that ends the pass. */
module ScoreState {
  import opened Resources
  import opened Scoring

  // ---- Recording -----------------------------------------------------------

  /** One call of recordScoreDetail. */
  datatype Call = Call(node: string, detail: Detail)

  datatype Tracker = Tracker(details: map<string, Detail>, bestMatched: int, bestScore: int, bestNodes: set<string>)

  const FRESH := Tracker(map[], -1, 1, {})

  function Record(t: Tracker, c: Call): Tracker {
    var details := t.details[c.node := c.detail];
    if c.detail.matched > t.bestMatched then Tracker(details, c.detail.matched, t.bestScore + 1, {c.node})
    else if c.detail.matched == t.bestMatched then Tracker(details, t.bestMatched, t.bestScore, t.bestNodes + {c.node})
    else Tracker(details, t.bestMatched, t.bestScore, t.bestNodes)
  }

  /** The intermediate score the framework is told. */
  function InitialScore(t: Tracker, c: Call): int {
    if c.detail.matched >= t.bestMatched then Record(t, c).bestScore else t.bestScore - 1
  }

  class SchedulingState {
    var scoreDetails: map<string, Detail>
    var scoreDecisions: map<string, int>
    var bestPreferredMatched: int
    var bestPreferredScore: int
    var bestPreferredNodes: set<string>

    constructor ()
      ensures Contents() == FRESH && scoreDecisions == map[]
    {
      scoreDetails := map[];
      scoreDecisions := map[];
      bestPreferredMatched := -1;
      bestPreferredScore := 1;
      bestPreferredNodes := {};
    }

    ghost function Contents(): Tracker
      reads this
    {
      Tracker(scoreDetails, bestPreferredMatched, bestPreferredScore, bestPreferredNodes)
    }

    method RecordScoreDetail(node: string, detail: Detail) returns (score: int)
      modifies this
      ensures Contents() == Record(old(Contents()), Call(node, detail))
      ensures score == InitialScore(old(Contents()), Call(node, detail))
      ensures scoreDecisions == old(scoreDecisions)
    {
      scoreDetails := scoreDetails[node := detail];
      if detail.matched > bestPreferredMatched {
        bestPreferredMatched := detail.matched;
        bestPreferredScore := bestPreferredScore + 1;
        bestPreferredNodes := {node};
        return bestPreferredScore;
      }
      if detail.matched == bestPreferredMatched {
        bestPreferredNodes := bestPreferredNodes + {node};
        return bestPreferredScore;
      }
      return bestPreferredScore - 1;
    }

    /**
      bestScoreDetailSnapshot: after any scoring calls, one per node, the details of
      exactly the nodes with the most matches.
    */
    method BestScoreDetailSnapshot() returns (best: map<string, Detail>)
      ensures best.Keys == bestPreferredNodes * scoreDetails.Keys
      ensures forall n :: n in best ==> best[n] == scoreDetails[n]
      ensures Tracks(Contents()) ==> best.Keys == TopTier(scoreDetails)
    {
      best := map[];
      var left := bestPreferredNodes;
      while left != {}
        invariant left <= bestPreferredNodes
        invariant best.Keys == (bestPreferredNodes - left) * scoreDetails.Keys
        invariant forall n :: n in best ==> best[n] == scoreDetails[n]
        decreases |left|
      {
        var n :| n in left;
        if n in scoreDetails { best := best[n := scoreDetails[n]]; }
        left := left - {n};
      }
      if Tracks(Contents()) { TracksArgmax(Contents()); }
    }

    method SetScoreDecision(node: string, score: int)
      modifies this`scoreDecisions
      ensures scoreDecisions == old(scoreDecisions)[node := score]
    {
      scoreDecisions := scoreDecisions[node := score];
    }
  }

  function Restrict(details: map<string, Detail>, names: set<string>): map<string, Detail> {
    map n | n in names && n in details :: details[n]
  }

  function Track(calls: seq<Call>): Tracker {
    if calls == [] then FRESH else Record(Track(calls[..|calls| - 1]), calls[|calls| - 1])
  }

  /** The intermediate score handed out for call `i`. */
  function ScoreOf(calls: seq<Call>, i: nat): int
    requires i < |calls|
  {
    InitialScore(Track(calls[..i]), calls[i])
  }

  /** Each node is scored once. */
  predicate Distinct(calls: seq<Call>) { forall i, j :: 0 <= i < j < |calls| ==> calls[i].node != calls[j].node }

  predicate Counts(calls: seq<Call>) { forall i :: 0 <= i < |calls| ==> calls[i].detail.matched >= 0 }

  // ---- The best tier is the argmax -----------------------------------------

  predicate InTopTier(details: map<string, Detail>, n: string) {
    n in details && forall m :: m in details ==> details[m].matched <= details[n].matched
  }

  /** The nodes with the most preferred matches, in no particular order. */
  ghost function TopTier(details: map<string, Detail>): set<string> { set n | n in details && InTopTier(details, n) }

  /** What holds after any number of calls. */
  ghost predicate Tracks(t: Tracker) {
    && (forall n :: n in t.details ==> 0 <= t.details[n].matched <= t.bestMatched)
    && (forall n :: n in t.bestNodes <==> n in t.details && t.details[n].matched == t.bestMatched)
    && (t.details != map[] ==> t.bestNodes != {})
    && (t.details == map[] ==> t.bestMatched == -1)
    && 1 <= t.bestScore <= t.bestMatched + 2
    && (t.details != map[] ==> t.bestScore >= 2)
  }

  lemma RecordTracks(t: Tracker, c: Call)
    requires Tracks(t) && c.node !in t.details && c.detail.matched >= 0
    ensures Tracks(Record(t, c))
  {
    var next := Record(t, c);
    assert c.node in next.details;
    if c.detail.matched < t.bestMatched {
      var n :| n in t.bestNodes;
      assert n in next.bestNodes;
    } else {
      assert c.node in next.bestNodes;
    }
  }

  predicate Named(calls: seq<Call>, n: string) { exists i :: 0 <= i < |calls| && calls[i].node == n }

  lemma NamedSnoc(front: seq<Call>, c: Call, n: string)
    ensures Named(front + [c], n) <==> Named(front, n) || c.node == n
  {
    var calls := front + [c];
    if Named(front, n) {
      var i :| 0 <= i < |front| && front[i].node == n;
      assert calls[i].node == n;
    }
    if c.node == n { assert calls[|front|].node == n; }
  }

  lemma {:induction false} RecordedNames(calls: seq<Call>, n: string)
    ensures n in Track(calls).details <==> Named(calls, n)
  {
    if calls != [] {
      var front, c := calls[..|calls| - 1], calls[|calls| - 1];
      RecordedNames(front, n);
      NamedSnoc(front, c, n);
      assert calls == front + [c];
    }
  }

  lemma {:induction false} RecordedDetail(calls: seq<Call>, i: nat)
    requires Distinct(calls) && i < |calls|
    ensures calls[i].node in Track(calls).details && Track(calls).details[calls[i].node] == calls[i].detail
  {
    if i < |calls| - 1 { RecordedDetail(calls[..|calls| - 1], i); }
  }

  lemma RecordedDetails(calls: seq<Call>)
    requires Distinct(calls)
    ensures forall n :: n in Track(calls).details <==> Named(calls, n)
    ensures forall i :: 0 <= i < |calls| ==>
              calls[i].node in Track(calls).details && Track(calls).details[calls[i].node] == calls[i].detail
  {
    forall n ensures n in Track(calls).details <==> Named(calls, n) { RecordedNames(calls, n); }
    forall i | 0 <= i < |calls| ensures calls[i].node in Track(calls).details
        && Track(calls).details[calls[i].node] == calls[i].detail {
      RecordedDetail(calls, i);
    }
  }

  lemma {:induction false} TrackTracks(calls: seq<Call>)
    requires Distinct(calls) && Counts(calls)
    ensures Tracks(Track(calls))
  {
    if calls != [] {
      var front, c := calls[..|calls| - 1], calls[|calls| - 1];
      TrackTracks(front);
      RecordedNames(front, c.node);
      RecordTracks(Track(front), c);
    }
  }

  lemma TracksArgmax(t: Tracker)
    requires Tracks(t)
    ensures t.bestNodes == TopTier(t.details)
  {
    if t.details != map[] {
      var b :| b in t.bestNodes;
      forall n | n in t.details ensures n in t.bestNodes <==> InTopTier(t.details, n) {
        if InTopTier(t.details, n) { assert t.details[b].matched <= t.details[n].matched; }
      }
    }
  }

  /** The online tracker ends with exactly the nodes of maximal match count, whatever the order of the calls. */
  lemma BestNodesAreArgmax(calls: seq<Call>)
    requires Distinct(calls) && Counts(calls)
    ensures Track(calls).bestNodes == TopTier(Track(calls).details)
    ensures calls != [] ==> Track(calls).bestNodes != {}
    ensures forall i :: 0 <= i < |calls| ==>
              (calls[i].node in Track(calls).bestNodes <==>
               forall j :: 0 <= j < |calls| ==> calls[j].detail.matched <= calls[i].detail.matched)
  {
    TrackTracks(calls);
    TracksArgmax(Track(calls));
    RecordedDetails(calls);
    var t := Track(calls);
    if calls != [] { assert calls[0].node in t.details; }
    forall i | 0 <= i < |calls|
      ensures calls[i].node in t.bestNodes <==> forall j :: 0 <= j < |calls| ==>
              calls[j].detail.matched <= calls[i].detail.matched
    {
      if forall j :: 0 <= j < |calls| ==> calls[j].detail.matched <= calls[i].detail.matched {
        forall m | m in t.details ensures t.details[m].matched <= calls[i].detail.matched {
          var j :| 0 <= j < |calls| && calls[j].node == m;
        }
        assert InTopTier(t.details, calls[i].node);
      } else {
        var j :| 0 <= j < |calls| && calls[j].detail.matched > calls[i].detail.matched;
        assert calls[j].node in t.details;
      }
    }
  }

  lemma SameDetails(s: seq<Call>, t: seq<Call>, n: string)
    requires Distinct(s) && Distinct(t) && multiset(s) == multiset(t) && n in Track(s).details
    ensures n in Track(t).details && Track(t).details[n] == Track(s).details[n]
  {
    RecordedDetails(s);
    RecordedDetails(t);
    var i :| 0 <= i < |s| && s[i].node == n;
    assert s[i] in multiset(t);
    var j :| 0 <= j < |t| && t[j] == s[i];
    assert t[j].node == n;
  }

  /** Concurrent scoring is harmless: any two orders of the same calls leave the same details, tier and match count. */
  lemma OrderOfScoringIrrelevant(s: seq<Call>, t: seq<Call>)
    requires Distinct(s) && Distinct(t) && Counts(s) && Counts(t) && multiset(s) == multiset(t)
    ensures Track(s).details == Track(t).details
    ensures Track(s).bestNodes == Track(t).bestNodes && Track(s).bestMatched == Track(t).bestMatched
  {
    forall n | n in Track(s).details ensures n in Track(t).details && Track(t).details[n] == Track(s).details[n] {
      SameDetails(s, t, n);
    }
    forall n | n in Track(t).details ensures n in Track(s).details { SameDetails(t, s, n); }
    assert Track(s).details == Track(t).details;
    TrackTracks(s);
    TrackTracks(t);
    TracksArgmax(Track(s));
    TracksArgmax(Track(t));
    if Track(s).details != map[] { var n :| n in Track(s).bestNodes; }
  }

  // ---- Intermediate scores -------------------------------------------------

  lemma PrefixesDistinct(calls: seq<Call>, i: nat)
    requires Distinct(calls) && Counts(calls) && i <= |calls|
    ensures Distinct(calls[..i]) && Counts(calls[..i])
  {
  }

  lemma {:induction false} BestOnlyGrows(calls: seq<Call>, i: nat)
    requires i <= |calls|
    ensures var a, b := Track(calls[..i]), Track(calls);
            && a.bestMatched <= b.bestMatched
            && (a.bestMatched == b.bestMatched ==> a.bestScore == b.bestScore)
            && (a.bestMatched < b.bestMatched ==> a.bestScore < b.bestScore)
  {
    if i == |calls| {
      assert calls[..i] == calls;
    } else {
      var front := calls[..|calls| - 1];
      BestOnlyGrows(front, i);
      assert front[..i] == calls[..i];
    }
  }

  lemma TrackNext(calls: seq<Call>, i: nat)
    requires i < |calls|
    ensures Track(calls[..i + 1]) == Record(Track(calls[..i]), calls[i])
  {
    assert calls[..i + 1][..i] == calls[..i];
  }

  /** A node in the final best tier was told the final best score; any other node was told less. */
  lemma ScoreReflectsTier(calls: seq<Call>, i: nat)
    requires Distinct(calls) && Counts(calls) && i < |calls|
    ensures calls[i].node in Track(calls).bestNodes ==> ScoreOf(calls, i) == Track(calls).bestScore
    ensures calls[i].node !in Track(calls).bestNodes ==> ScoreOf(calls, i) < Track(calls).bestScore
    ensures 1 <= ScoreOf(calls, i) <= Track(calls).bestMatched + 2
  {
    TrackTracks(calls);
    RecordedDetails(calls);
    TrackNext(calls, i);
    BestOnlyGrows(calls, i);
    BestOnlyGrows(calls, i + 1);
    PrefixesDistinct(calls, i + 1);
    TrackTracks(calls[..i + 1]);
    RecordedDetails(calls[..i + 1]);
    assert calls[..i + 1][i] == calls[i];
    assert calls[i].node in Track(calls[..i + 1]).details && calls[i].node in Track(calls).details;
  }

  /**
    While nodes are still being visited the tiers are already separated: every
    best-tier node was told strictly more than every other node, and all
    scores lie in 1..8 when match counts lie in 0..6.
  */
  lemma BestTierScoresHigher(calls: seq<Call>, i: nat, j: nat)
    requires Distinct(calls) && Counts(calls) && i < |calls| && j < |calls|
    requires calls[i].node in Track(calls).bestNodes && calls[j].node !in Track(calls).bestNodes
    ensures ScoreOf(calls, j) < ScoreOf(calls, i)
    ensures (forall k :: 0 <= k < |calls| ==> calls[k].detail.matched <= 6) ==>
            1 <= ScoreOf(calls, j) && ScoreOf(calls, i) <= 8
  {
    ScoreReflectsTier(calls, i);
    ScoreReflectsTier(calls, j);
    TrackTracks(calls);
    RecordedDetails(calls);
  }

  lemma TrackSnoc(calls: seq<Call>, c: Call)
    ensures Track(calls + [c]) == Record(Track(calls), c)
  {
    assert (calls + [c])[..|calls|] == calls;
  }

  /** The best score itself depends on the order: only its place above the others is fixed. */
  lemma BestScoreDependsOnOrder(low: Call, high: Call)
    requires low.node != high.node && 0 <= low.detail.matched < high.detail.matched
    ensures Track([low, high]).bestScore == 3 && Track([high, low]).bestScore == 2
  {
    TrackSnoc([], low);
    TrackSnoc([], high);
    TrackSnoc([low], high);
    TrackSnoc([high], low);
    assert [] + [low] == [low] && [] + [high] == [high] && [low] + [high] == [low, high]
        && [high] + [low] == [high, low];
  }

  lemma ScoreOfLast(calls: seq<Call>, c: Call)
    ensures ScoreOf(calls + [c], |calls|) == InitialScore(Track(calls), c)
  {
    assert (calls + [c])[..|calls|] == calls;
  }

  /**
    Which nodes of equal match count are told the same score: two, exactly
    when the best score did not rise between them, or rose once from a tier
    the first of them had just been in.
  */
  lemma EqualCountsScoreAlikeExactly(calls: seq<Call>, i: nat, j: nat)
    requires i < j < |calls| && calls[i].detail.matched == calls[j].detail.matched
    ensures var a, b := Track(calls[..i + 1]), Track(calls[..j + 1]);
            ScoreOf(calls, i) == ScoreOf(calls, j) <==>
            b.bestScore == a.bestScore + (if calls[i].detail.matched == a.bestMatched < b.bestMatched then 1 else 0)
  {
    TrackNext(calls, i);
    TrackNext(calls, j);
    BestOnlyGrows(calls[..j], i + 1);
    assert calls[..j][..i + 1] == calls[..i + 1];
  }

  /** Below the best tier, equal match counts need not mean equal intermediate scores: here 2 and 3. */
  lemma EqualCountsDifferentScores(a: Call, b: Call, c: Call, d: Call)
    requires 0 <= a.detail.matched == d.detail.matched < b.detail.matched < c.detail.matched
    ensures var calls := [] + [a] + [b] + [c] + [d]; ScoreOf(calls, 0) == 2 && ScoreOf(calls, 3) == 3
  {
    assert ([] + [a] + [b] + [c] + [d])[..0] == [];
    TrackSnoc([], a);
    TrackSnoc([] + [a], b);
    TrackSnoc([] + [a] + [b], c);
    ScoreOfLast([] + [a] + [b] + [c], d);
  }

  // ---- Normalisation -------------------------------------------------------

  function Decisions(details: map<string, Detail>): map<string, int> {
    map n | n in details :: Decide(details[n])
  }

  /** The smallest decision, or 100 if there is none. */
  ghost predicate IsFloor(best: map<string, int>, m: int) {
    && m <= MAX_NODE_SCORE
    && (forall n :: n in best ==> m <= best[n])
    && (m == MAX_NODE_SCORE || exists n :: n in best && best[n] == m)
  }

  function LoserFrom(anyBest: bool, floor: int): int {
    if !anyBest || floor <= 0 then 0 else floor / 2
  }

  /** nonBestPreferredTierScore. */
  method NonBestPreferredTierScore(best: map<string, int>) returns (score: int)
    ensures score == LoserFrom(best != map[], Floor(best))
  {
    if best == map[] { return 0; }
    var minScore := MAX_NODE_SCORE;
    var left := best.Keys;
    while left != {}
      invariant left <= best.Keys
      invariant minScore <= MAX_NODE_SCORE
      invariant forall n :: n in best && n !in left ==> minScore <= best[n]
      invariant minScore == MAX_NODE_SCORE || exists n :: n in best && best[n] == minScore
      decreases |left|
    {
      var n :| n in left;
      if best[n] < minScore { minScore := best[n]; }
      left := left - {n};
    }
    FloorIsUnique(best, minScore, Floor(best));
    score := LoserFrom(true, minScore);
  }

  /** The smallest decision of the top tier. */
  ghost function Floor(best: map<string, int>): (m: int)
    ensures IsFloor(best, m)
    decreases |best|
  {
    if best == map[] then MAX_NODE_SCORE
    else
      var n :| n in best;
      var rest := Floor(best - {n});
      assert forall k :: k in best && k != n ==> k in best - {n};
      if best[n] < rest then best[n] else rest
  }

  lemma FloorIsUnique(best: map<string, int>, a: int, b: int)
    requires IsFloor(best, a) && IsFloor(best, b)
    ensures a == b
  {
  }

  ghost function LoserScore(details: map<string, Detail>, best: set<string>): int {
    LoserFrom(Restrict(details, best) != map[], Floor(Decisions(Restrict(details, best))))
  }

  /** The score normalisation gives to `name`. */
  ghost function FinalScore(details: map<string, Detail>, best: set<string>, name: string): int {
    if name in best && name in details then Decide(details[name])
    else if name in details then LoserScore(details, best)
    else 0
  }

  datatype NodeScore = NodeScore(name: string, score: int)

  /** One turn of the normalisation loop. */
  method NormalizeOne(state: SchedulingState, name: string, decisions: map<string, int>,
                      loser: int) returns (score: int)
    requires decisions == Decisions(Restrict(state.scoreDetails, state.bestPreferredNodes))
    requires loser == LoserScore(state.scoreDetails, state.bestPreferredNodes)
    modifies state`scoreDecisions
    ensures score == FinalScore(state.scoreDetails, state.bestPreferredNodes, name)
    ensures state.scoreDecisions == if name in state.scoreDetails then old(state.scoreDecisions)[name := score]
            else old(state.scoreDecisions)
  {
    if name !in decisions {
      if name !in state.scoreDetails { return 0; }
      score := loser;
    } else {
      score := decisions[name];
    }
    state.SetScoreDecision(name, score);
  }

  /** A score that normalisation has settled: the final score, and remembered if the node was scored. */
  ghost predicate Settled(state: SchedulingState, s: NodeScore)
    reads state
  {
    && s.score == FinalScore(state.scoreDetails, state.bestPreferredNodes, s.name)
    && (s.name in state.scoreDetails ==> s.name in state.scoreDecisions && state.scoreDecisions[s.name] == s.score)
  }

  predicate AnyIn(scores: seq<NodeScore>, names: set<string>) {
    exists i :: 0 <= i < |scores| && scores[i].name in names
  }

  /** What the loop works with: the best tier's decisions and the score of everybody else. */
  method BestDecisions(state: SchedulingState) returns (decisions: map<string, int>, loser: int)
    ensures decisions == Decisions(Restrict(state.scoreDetails, state.bestPreferredNodes))
    ensures loser == LoserScore(state.scoreDetails, state.bestPreferredNodes)
  {
    var best := state.BestScoreDetailSnapshot();
    assert best == Restrict(state.scoreDetails, state.bestPreferredNodes);
    decisions := Decisions(best);
    loser := NonBestPreferredTierScore(decisions);
    DecisionsOfNone(best);
  }

  /**
    NormalizeScore: overwrites the list in place and remembers every decision;
    fails when no listed node is in the best tier.
  */
  method NormalizeScore(state: SchedulingState, scores: array<NodeScore>) returns (ok: bool)
    modifies state`scoreDecisions, scores
    ensures forall i :: 0 <= i < scores.Length ==> scores[i].name == old(scores[i].name) && Settled(state, scores[i])
    ensures ok <==> scores.Length == 0 || AnyIn(scores[..], Restrict(state.scoreDetails, state.bestPreferredNodes).Keys)
  {
    var decisions, loser := BestDecisions(state);
    var scored := false;
    for i := 0 to scores.Length
      invariant forall k :: 0 <= k < scores.Length ==> scores[k].name == old(scores[k].name)
      invariant forall k :: 0 <= k < i ==> Settled(state, scores[k])
      invariant scored <==> exists k :: 0 <= k < i && scores[k].name in decisions.Keys
    {
      var name := scores[i].name;
      var score := NormalizeOne(state, name, decisions, loser);
      scores[i] := NodeScore(name, score);
      scored := scored || name in decisions;
    }
    assert decisions.Keys == Restrict(state.scoreDetails, state.bestPreferredNodes).Keys;
    ok := scored || scores.Length == 0;
  }

  lemma DecisionsOfNone(details: map<string, Detail>)
    ensures (details != map[]) == (Decisions(details) != map[])
  {
    if details != map[] {
      var n :| n in details;
      assert n in Decisions(details);
    }
  }

  // ---- What the final scores guarantee -------------------------------------

  lemma LoserBounds(details: map<string, Detail>, best: set<string>)
    ensures 0 <= LoserScore(details, best) <= MAX_NODE_SCORE / 2
    ensures forall n :: n in best && n in details ==> 2 * LoserScore(details, best) <= Decide(details[n])
  {
    var decisions := Decisions(Restrict(details, best));
    forall n | n in best && n in details ensures 2 * LoserScore(details, best) <= Decide(details[n]) {
      assert n in decisions && Floor(decisions) <= decisions[n];
    }
  }

  /** Every final score is a valid node score. */
  lemma FinalScoreBounded(details: map<string, Detail>, best: set<string>, name: string)
    ensures 0 <= FinalScore(details, best, name) <= MAX_NODE_SCORE
  {
    LoserBounds(details, best);
  }

  /**
    Tier separation: a node outside the best tier never beats one inside it,
    and loses strictly to the whole tier exactly when the worst of the tier
    scored above zero.
  */
  lemma TierSeparation(details: map<string, Detail>, best: set<string>, out: string)
    requires out in details && out !in best
    ensures forall n :: n in best && n in details ==> FinalScore(details, best, out) <= FinalScore(details, best, n)
    ensures (forall n :: n in best && n in details ==> FinalScore(details, best, out) < FinalScore(details, best, n))
       <==> (forall n :: n in best && n in details ==> Decide(details[n]) > 0)
  {
    LoserBounds(details, best);
    var decisions := Decisions(Restrict(details, best));
    if n :| n in best && n in details && Decide(details[n]) == 0 {
      assert n in decisions && Floor(decisions) <= 0;
    }
  }

  /** A tie, against what the documentation says: a best tier without headroom leaves everybody at zero. */
  lemma TierCanTie()
    ensures var details := map["in" := UNSCORED.(matched := 1), "out" := UNSCORED];
            Final(details, "in") == 0 && Final(details, "out") == 0 && TopTier(details) == {"in"}
  {
    var details := map["in" := UNSCORED.(matched := 1), "out" := UNSCORED];
    assert InTopTier(details, "in") && !InTopTier(details, "out");
    assert TopTier(details) == {"in"};
    assert Decide(UNSCORED.(matched := 1)) == 0;
    LoserBounds(details, TopTier(details));
  }

  lemma {:induction false} TopTierExists(details: map<string, Detail>) returns (top: string)
    requires details != map[]
    ensures InTopTier(details, top)
    decreases |details|
  {
    top :| top in details;
    var rest := details - {top};
    if rest != map[] {
      var other := TopTierExists(rest);
      forall m | m in details && m != top ensures details[m].matched <= details[other].matched { assert m in rest; }
      if details[top].matched < details[other].matched { top := other; }
    }
  }

  /** Where an improved node leaves the top tier. */
  lemma TopTierAfter(details: map<string, Detail>, n: string, e: Detail, top: string)
    requires n in details && Improves(details[n], e) && InTopTier(details, top)
    ensures var after, best := TopTier(details[n := e]), details[top].matched;
            && (e.matched < best ==> after == TopTier(details) && n !in after)
            && (e.matched == best ==> after == TopTier(details) + {n})
            && (e.matched > best ==> after == {n})
    ensures forall m :: m in TopTier(details) <==> m in details && details[m].matched == details[top].matched
  {
    var next := details[n := e];
    if e.matched < details[top].matched {
      assert top in next && top != n;
    } else if e.matched == details[top].matched {
      assert n in next;
    } else {
      assert InTopTier(next, n);
      forall m | m in next && m != n ensures !InTopTier(next, m) { assert next[n].matched > next[m].matched; }
    }
  }

  lemma LoserIgnoresOutsiders(details: map<string, Detail>, best: set<string>, n: string, e: Detail)
    requires n in details && n !in best
    ensures LoserScore(details[n := e], best) == LoserScore(details, best)
  {
    assert Restrict(details[n := e], best) == Restrict(details, best);
  }

  ghost function Final(details: map<string, Detail>, name: string): int { FinalScore(details, TopTier(details), name) }

  /**
    Improving a node can lower its own number: exactly when it enters the top
    tier with a score below the consolation score it had outside.
  */
  lemma OwnScoreDropsExactly(details: map<string, Detail>, n: string, e: Detail)
    requires n in details && Improves(details[n], e)
    ensures Final(details[n := e], n) < Final(details, n) <==>
            && n !in TopTier(details)
            && n in TopTier(details[n := e])
            && Decide(e) < LoserScore(details, TopTier(details))
  {
    var top := TopTierExists(details);
    TopTierAfter(details, n, e, top);
    DecideMonotone(details[n], e);
    if n !in TopTier(details) { LoserIgnoresOutsiders(details, TopTier(details), n, e); }
  }

  /** An instance of that: a node with little headroom gains a match and drops from 40 to 10. */
  lemma OwnScoreCanDrop()
    ensures var plain := Detail(1, 80, 1.0, 1.0, 0, 1.0, 0, 0);
            var weak := Detail(0, 10, 1.0, 1.0, 0, 1.0, 0, 0);
            var details := map["a" := plain, "b" := weak];
            Final(details, "b") == 40 && Final(details["b" := weak.(matched := 1)], "b") == 10
  {
    var plain := Detail(1, 80, 1.0, 1.0, 0, 1.0, 0, 0);
    var weak := Detail(0, 10, 1.0, 1.0, 0, 1.0, 0, 0);
    var details := map["a" := plain, "b" := weak];
    assert Decide(plain) == 80 && Decide(weak.(matched := 1)) == 10;
    assert InTopTier(details, "a");
    TopTierAfter(details, "b", weak.(matched := 1), "a");
    assert details["b"].matched != details["a"].matched;
    var decisions := Decisions(Restrict(details, TopTier(details)));
    assert forall n :: n in decisions ==> n == "a";
    assert "a" in decisions && decisions["a"] == 80;
    assert Floor(decisions) == 80;
  }

  /** Moving into, or staying in, the best tier: `best` is the tier before, `after` the tier with `n` in it. */
  lemma InsideKeepsRank(details: map<string, Detail>, best: set<string>, after: set<string>, n: string, e: Detail,
                        m: string)
    requires n in details && m in details && m != n && Decide(details[n]) <= Decide(e)
    requires n in after && (m in after ==> m in best)
    requires FinalScore(details, best, m) <= FinalScore(details, best, n)
    ensures FinalScore(details[n := e], after, m) <= FinalScore(details[n := e], after, n)
  {
    LoserBounds(details, best);
    LoserBounds(details[n := e], after);
  }

  /** Staying outside changes nothing for anyone. */
  lemma OutsideKeepsScores(details: map<string, Detail>, best: set<string>, n: string, e: Detail, m: string)
    requires n in details && n !in best
    ensures FinalScore(details[n := e], best, m) == FinalScore(details, best, m)
  {
    LoserIgnoresOutsiders(details, best, n, e);
  }

  /**
    What matters for placement never gets worse: improving one node lets no
    other node overtake it.
  */
  lemma ImprovedNodeKeepsRank(details: map<string, Detail>, n: string, e: Detail, m: string)
    requires n in details && m in details && m != n && Improves(details[n], e)
    requires Final(details, m) <= Final(details, n)
    ensures Final(details[n := e], m) <= Final(details[n := e], n)
  {
    var top := TopTierExists(details);
    TopTierAfter(details, n, e, top);
    DecideMonotone(details[n], e);
    var best, after := TopTier(details), TopTier(details[n := e]);
    if n in after {
      InsideKeepsRank(details, best, after, n, e, m);
    } else {
      OutsideKeepsScores(details, best, n, e, n);
      OutsideKeepsScores(details, best, n, e, m);
    }
  }

  /**
    Raising what a node has available, everything else equal, never lets
    another node overtake it in the final scores.
  */
  lemma MoreAvailableKeepsRank(details: map<string, Detail>, n: string, m: string,
                               key: string, preferred: Resource, available: Resource, more: Resource)
    requires n in details && m in details && m != n && Fits(available, more)
    requires details[n] == NodeDetail(key, preferred, available, details[n])
    requires Final(details, m) <= Final(details, n)
    ensures var after := details[n := NodeDetail(key, preferred, more, details[n])]; Final(after, m) <= Final(after, n)
  {
    MoreAvailableImproves(key, preferred, available, more, details[n]);
    ImprovedNodeKeepsRank(details, n, NodeDetail(key, preferred, more, details[n]), m);
  }
}
