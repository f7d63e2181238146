/** Hourly forecasts: the agent's 24 buckets per allocation and the node-level sums the backend publishes. */
module Forecast {
  import opened Text
  import opened Resources
  import opened Windows
  import opened Allocations

  const HOURS := 24

  /** The budget an allocation is expected to use from `hour`:00 on. */
  function Bucket(a: Allocation, hour: nat): Resource {
    if AgentContains(a.windows, hour * 60) && !IsZero(MaxBudget(a)) then MaxBudget(a) else RequiredBudget(a)
  }

  function BucketsBefore(a: Allocation, n: nat): (r: seq<Resource>)
    ensures |r| == n
  {
    if n == 0 then [] else BucketsBefore(a, n - 1) + [Bucket(a, n - 1)]
  }

  function HourlyForecast(a: Allocation): seq<Resource> { BucketsBefore(a, HOURS) }

  lemma {:induction false} BucketsBeforeAt(a: Allocation, n: nat, hour: nat)
    requires hour < n
    ensures BucketsBefore(a, n)[hour] == Bucket(a, hour)
  {
    if hour < n - 1 { BucketsBeforeAt(a, n - 1, hour); }
  }

  /** A forecast reads the spec only. */
  lemma {:induction false} ForecastIgnoresStatus(a: Allocation, status: Status, n: nat)
    ensures BucketsBefore(a.(status := status), n) == BucketsBefore(a, n)
  {
    if n > 0 { ForecastIgnoresStatus(a, status, n - 1); }
  }

  method HourInForecastWindows(windows: seq<TimeWindow>, hour: int) returns (found: bool)
    ensures found <==> 0 <= hour <= 23 && AgentContains(windows, hour * 60)
  {
    if hour < 0 || hour > 23 { return false; }
    for i := 0 to |windows|
      invariant forall k :: 0 <= k < i ==> !AgentWindowContains(windows[k], hour * 60)
    {
      if AgentWindowContains(windows[i], hour * 60) { return true; }
    }
    return false;
  }

  /** buildHourlyForecast. */
  method BuildHourlyForecast(a: Allocation) returns (buckets: seq<Resource>)
    ensures |buckets| == HOURS && forall h :: 0 <= h < HOURS ==> buckets[h] == Bucket(a, h)
    ensures buckets == HourlyForecast(a)
  {
    buckets := [];
    for hour := 0 to HOURS
      invariant buckets == BucketsBefore(a, hour)
    {
      var inside := HourInForecastWindows(a.windows, hour);
      if inside && !IsZero(MaxBudget(a)) {
        buckets := buckets + [MaxBudget(a)];
      } else {
        buckets := buckets + [RequiredBudget(a)];
      }
    }
    forall h | 0 <= h < HOURS ensures buckets[h] == Bucket(a, h) { BucketsBeforeAt(a, HOURS, h); }
  }

  /** With whole-hour windows the hour's bucket is the allocation's demand at every minute of that hour. */
  lemma BucketCoversEveryMinute(a: Allocation, minute: Minute, now: ZoneClock)
    requires WholeHours(a.windows) && NamedWindows(a.windows) && ClockShows(a.windows, now, minute)
    ensures Bucket(a, minute / 60) ==
            if IsActive(a, now) && !IsZero(MaxBudget(a)) then MaxBudget(a) else RequiredBudget(a)
  {
    ActiveIsMembership(a.windows, now, minute);
    WholeHourMembership(a.windows, minute);
  }

  /** The buckets of a list of allocations at one hour. */
  function BucketsOf(s: seq<Allocation>, hour: nat): (r: seq<Resource>)
    ensures |r| == |s|
  {
    if s == [] then [] else BucketsOf(s[..|s| - 1], hour) + [Bucket(s[|s| - 1], hour)]
  }

  lemma BucketIsBudget(a: Allocation, hour: nat)
    requires WellFormed(a)
    ensures IsBudget(Bucket(a, hour))
  {
  }

  lemma {:induction false} BucketsNonNegative(s: seq<Allocation>, hour: nat)
    requires AllWellFormed(s)
    ensures AllNonNegative(BucketsOf(s, hour))
  {
    if s != [] {
      BucketsNonNegative(s[..|s| - 1], hour);
      BucketIsBudget(s[|s| - 1], hour);
    }
  }

  lemma {:induction false} BucketsConcat(a: seq<Allocation>, b: seq<Allocation>, hour: nat)
    ensures BucketsOf(a + b, hour) == BucketsOf(a, hour) + BucketsOf(b, hour)
  {
    if b == [] {
      assert a + b == a;
    } else {
      assert (a + b)[..|a + b| - 1] == a + b[..|b| - 1];
      BucketsConcat(a, b[..|b| - 1], hour);
    }
  }

  lemma BucketsRemove(before: seq<Allocation>, x: Allocation, after: seq<Allocation>, hour: nat)
    ensures Total(BucketsOf(before + [x] + after, hour)) ==
            Plus(Total(BucketsOf(before + after, hour)), Bucket(x, hour))
  {
    BucketsConcat(before + [x], after, hour);
    BucketsConcat(before, [x], hour);
    BucketsConcat(before, after, hour);
    assert BucketsOf([x], hour) == [Bucket(x, hour)] by { assert [x][..0] == []; }
    TotalRemove(BucketsOf(before, hour), Bucket(x, hour), BucketsOf(after, hour));
  }

  /** Fewer allocations, smaller forecast. */
  lemma {:induction false} BucketsSubMultiset(part: seq<Allocation>, whole: seq<Allocation>, hour: nat)
    requires multiset(part) <= multiset(whole) && AllWellFormed(whole)
    ensures Fits(Total(BucketsOf(part, hour)), Total(BucketsOf(whole, hour)))
  {
    if part == [] {
      BucketsNonNegative(whole, hour);
      TotalNonNegative(BucketsOf(whole, hour));
    } else {
      var n := |part| - 1;
      var i := IndexIn(part, n, whole);
      DropFromBoth(part, whole, i);
      var before, after := whole[..i], whole[i + 1..];
      BucketsSubMultiset(part[..n], before + after, hour);
      assert whole == before + [part[n]] + after;
      BucketsRemove(before, part[n], after, hour);
    }
  }

  // ---- What the backend publishes ------------------------------------------

  predicate IsReleased(phase: string) { FoldsTo(phase, "released") }

  /** The resources an allocation uses now: current, else observed, else specified. */
  function CurrentResources(a: Allocation): Option<Resource> {
    if a.status.current.Some? then a.status.current
    else if a.status.observed.Some? then a.status.observed
    else a.resources
  }

  /** What one allocation adds to the node's forecast at `hour`, if anything. */
  function Contribution(a: Allocation, hour: nat): Option<Resource> {
    if IsReleased(a.status.phase) then None
    else if a.status.forecast.Some? then
      (if hour < |a.status.forecast.value| then Some(a.status.forecast.value[hour]) else None)
    else CurrentResources(a)
  }

  /**
    A released allocation adds nothing, a forecast its bucket, and without one
    what is in use: current, observed, specified.
  */
  lemma ContributionCases(a: Allocation, hour: nat)
    ensures FoldsTo(a.status.phase, "released") ==> Contribution(a, hour) == None
    ensures !FoldsTo(a.status.phase, "released") ==>
              match a.status.forecast
              case Some(buckets) =>
                Contribution(a, hour) == if hour < |buckets| then Some(buckets[hour]) else None
              case None =>
                && (a.status.current.Some? ==> Contribution(a, hour) == a.status.current)
                && (a.status.current.None? && a.status.observed.Some? ==> Contribution(a, hour) == a.status.observed)
                && (a.status.current.None? && a.status.observed.None? ==> Contribution(a, hour) == a.resources)
  {
  }

  function AddOption(total: Resource, r: Option<Resource>): Resource { if r.Some? then Add(total, r.value) else total }

  function PublishedBucket(s: seq<Allocation>, hour: nat): Resource {
    if s == [] then ZERO else AddOption(PublishedBucket(s[..|s| - 1], hour), Contribution(s[|s| - 1], hour))
  }

  lemma PublishedSnoc(s: seq<Allocation>, a: Allocation, hour: nat)
    ensures PublishedBucket(s + [a], hour) == AddOption(PublishedBucket(s, hour), Contribution(a, hour))
  {
    assert (s + [a])[..|s|] == s;
  }

  /** Adds one allocation to the 24 accumulators, in place. */
  method AddToBuckets(buckets: array<Resource>, a: Allocation)
    requires buckets.Length == HOURS
    modifies buckets
    ensures forall h :: 0 <= h < HOURS ==> buckets[h] == AddOption(old(buckets[h]), Contribution(a, h))
  {
    for hour := 0 to HOURS
      invariant forall h :: 0 <= h < hour ==> buckets[h] == AddOption(old(buckets[h]), Contribution(a, h))
      invariant forall h :: hour <= h < HOURS ==> buckets[h] == old(buckets[h])
    {
      buckets[hour] := AddOption(buckets[hour], Contribution(a, hour));
    }
  }

  predicate HoldsPublished(buckets: seq<Resource>, s: seq<Allocation>) {
    |buckets| == HOURS && forall h :: 0 <= h < HOURS ==> buckets[h] == PublishedBucket(s, h)
  }

  /** hourlyForecastFromAllocations. */
  method HourlyForecastFromAllocations(s: seq<Allocation>) returns (buckets: array<Resource>)
    ensures fresh(buckets) && HoldsPublished(buckets[..], s)
  {
    buckets := new Resource[HOURS](_ => ZERO);
    for i := 0 to |s|
      invariant HoldsPublished(buckets[..], s[..i])
    {
      ghost var before := buckets[..];
      AddToBuckets(buckets, s[i]);
      assert s[..i + 1] == s[..i] + [s[i]];
      forall h | 0 <= h < HOURS ensures buckets[..][h] == PublishedBucket(s[..i + 1], h) {
        PublishedSnoc(s[..i], s[i], h);
        assert before[h] == PublishedBucket(s[..i], h);
      }
    }
    assert s[..|s|] == s;
  }

  /** An allocation the agent has recorded: not released, and carrying the forecast built from its spec. */
  predicate Recorded(a: Allocation) {
    !IsReleased(a.status.phase) && a.status.forecast == Some(HourlyForecast(a))
  }

  predicate AllRecorded(s: seq<Allocation>) { forall i :: 0 <= i < |s| ==> Recorded(s[i]) }

  lemma RecordedContribution(a: Allocation, hour: nat)
    requires Recorded(a) && hour < HOURS
    ensures Contribution(a, hour) == Some(Bucket(a, hour))
  {
    BucketsBeforeAt(a, HOURS, hour);
  }

  /** For recorded allocations the published bucket is the wrapping sum of their buckets. */
  lemma {:induction false} PublishedIsSumOfBuckets(s: seq<Allocation>, hour: nat)
    requires AllRecorded(s) && hour < HOURS
    ensures PublishedBucket(s, hour) == WrappedTotal(BucketsOf(s, hour))
  {
    if s != [] {
      PublishedIsSumOfBuckets(s[..|s| - 1], hour);
      RecordedContribution(s[|s| - 1], hour);
      assert BucketsOf(s, hour)[..|s| - 1] == BucketsOf(s[..|s| - 1], hour);
    }
  }
}
