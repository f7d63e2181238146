/**
  The contract between central placement and node-local arbitration: a
  workload the envelope admits is not turned away by the planner of the node.
*/
module Handover {
  import opened Text
  import opened Resources
  import opened Windows
  import opened Allocations
  import opened Ordering
  import opened Observation
  import opened Planner
  import opened PlannerProofs
  import opened Forecast
  import opened Envelope

  // ---- The node status the agent publishes ---------------------------------

  function ResidentOf(a: Allocation): Resident {
    Resident(a.workloadType, a.priority, a.windows, a.request, CurrentResources(a), a.status.current,
        a.status.forecast, a.actions)
  }

  function ResidentsOf(s: seq<Allocation>): (r: seq<Resident>)
    ensures |r| == |s|
  {
    if s == [] then [] else ResidentsOf(s[..|s| - 1]) + [ResidentOf(s[|s| - 1])]
  }

  function PublishedBefore(s: seq<Allocation>, n: nat): (r: seq<Resource>)
    ensures |r| == n
  {
    if n == 0 then [] else PublishedBefore(s, n - 1) + [PublishedBucket(s, n - 1)]
  }

  lemma {:induction false} PublishedBeforeAt(s: seq<Allocation>, n: nat, hour: nat)
    requires hour < n
    ensures PublishedBefore(s, n)[hour] == PublishedBucket(s, hour)
  {
    if hour < n - 1 { PublishedBeforeAt(s, n - 1, hour); }
  }

  /** The status the backend's snapshot publishes for a node that runs `s`. */
  predicate Publishes(status: NodeStatus, node: Node, s: seq<Allocation>) {
    && node.allocatable.Some?
    && status.allocatable == node.allocatable
    && status.residents == ResidentsOf(s)
    && status.forecast == Some(PublishedBefore(s, HOURS))
  }

  /** The entry that Reserve writes for a workload: windows, request and priority are copied from its profile. */
  predicate EntryFor(a: Allocation, p: Profile) {
    a.windows == p.windows && a.request == p.request && a.priority == p.priority
  }

  // ---- Central side --------------------------------------------------------

  lemma RecordedResidentBucket(a: Allocation, hour: nat)
    requires Recorded(a) && hour < HOURS
    ensures ResidentBucket(ResidentOf(a), hour) == Bucket(a, hour)
  {
    BucketsBeforeAt(a, HOURS, hour);
  }

  /** The loads the check computes from a published status are the residents' own buckets. */
  lemma {:induction false} LoadsAreBuckets(p: Profile, s: seq<Allocation>, hour: nat)
    requires AllRecorded(s) && hour < HOURS
    ensures AllBuckets(Loads(p, ResidentsOf(s), hour)) == BucketsOf(s, hour)
  {
    if s != [] {
      var front, a := s[..|s| - 1], s[|s| - 1];
      LoadsAreBuckets(p, front, hour);
      RecordedResidentBucket(a, hour);
      LoadsSnoc(p, ResidentsOf(front), ResidentOf(a), hour);
      AllBucketsSnoc(Loads(p, ResidentsOf(front), hour), Load(CanReclaim(p, ResidentOf(a)), Bucket(a, hour)));
    }
  }

  lemma AllBucketsSnoc(loads: seq<Load>, l: Load)
    ensures AllBuckets(loads + [l]) == AllBuckets(loads) + [l.bucket]
  {
    assert (loads + [l])[..|loads|] == loads;
  }

  predicate Reclaimable(p: Profile, a: Allocation) { CanReclaim(p, ResidentOf(a)) }

  /** The residents the newcomer may not reclaim from. */
  function Kept(p: Profile, s: seq<Allocation>): seq<Allocation> {
    if s == [] then []
    else Kept(p, s[..|s| - 1]) + (if Reclaimable(p, s[|s| - 1]) then [] else [s[|s| - 1]])
  }

  lemma BucketsSnoc(s: seq<Allocation>, a: Allocation, hour: nat)
    ensures BucketsOf(s + [a], hour) == BucketsOf(s, hour) + [Bucket(a, hour)]
  {
    assert (s + [a])[..|s|] == s;
  }

  lemma {:induction false} KeptBucketsAreBuckets(p: Profile, s: seq<Allocation>, hour: nat)
    requires AllRecorded(s) && hour < HOURS
    ensures KeptBuckets(p, ResidentsOf(s), hour) == BucketsOf(Kept(p, s), hour)
  {
    if s != [] {
      var front, a := s[..|s| - 1], s[|s| - 1];
      KeptBucketsAreBuckets(p, front, hour);
      RecordedResidentBucket(a, hour);
      var reclaim := Reclaimable(p, a);
      LoadsSnoc(p, ResidentsOf(front), ResidentOf(a), hour);
      MarkedSnoc(Loads(p, ResidentsOf(front), hour), Load(reclaim, Bucket(a, hour)), false);
      BucketsSnoc(Kept(p, front), a, hour);
      assert Kept(p, front) + [] == Kept(p, front);
    }
  }

  lemma {:induction false} KeptKeepsCounts(p: Profile, s: seq<Allocation>, a: Allocation)
    requires !Reclaimable(p, a)
    ensures multiset(Kept(p, s))[a] == multiset(s)[a]
  {
    if s != [] {
      KeptKeepsCounts(p, s[..|s| - 1], a);
      MultisetOfSnoc(s);
    }
  }

  lemma {:induction false} KeptWellFormed(p: Profile, s: seq<Allocation>)
    requires AllWellFormed(s)
    ensures AllWellFormed(Kept(p, s))
  {
    if s != [] { KeptWellFormed(p, s[..|s| - 1]); }
  }

  /** The total load at `hour`, residents and newcomer, is representable. */
  predicate LoadRepresentable(p: Profile, s: seq<Allocation>, hour: nat) {
    IsInt32(Plus(Total(BucketsOf(s, hour)), OwnBucket(p, hour)))
  }

  lemma PublishedForecastIsExact(p: Profile, status: NodeStatus, node: Node, s: seq<Allocation>, hour: nat)
    requires Publishes(status, node, s) && AllRecorded(s) && AllWellFormed(s) && hour < HOURS
    requires NonNegative(OwnBucket(p, hour)) && LoadRepresentable(p, s, hour)
    ensures ForecastIsExact(p, status, hour)
  {
    LoadsAreBuckets(p, s, hour);
    BucketsNonNegative(s, hour);
    TotalNonNegative(BucketsOf(s, hour));
    WrappedTotalIsExact(BucketsOf(s, hour));
    PublishedIsSumOfBuckets(s, hour);
    PublishedBeforeAt(s, HOURS, hour);
    LoadBucketsNonNegative(Loads(p, ResidentsOf(s), hour));
  }

  lemma {:induction false} LoadBucketsNonNegative(loads: seq<Load>)
    requires AllNonNegative(AllBuckets(loads))
    ensures LoadsNonNegative(loads)
  {
    if loads != [] {
      var front := loads[..|loads| - 1];
      assert AllBuckets(loads)[..|front|] == AllBuckets(front);
      assert AllNonNegative(AllBuckets(front)) by {
        forall i | 0 <= i < |front| ensures NonNegative(AllBuckets(front)[i]) {
          assert AllBuckets(loads)[i] == AllBuckets(front)[i];
        }
      }
      LoadBucketsNonNegative(front);
      assert AllBuckets(loads)[|front|] == loads[|front|].bucket;
    }
  }

  /** What admission says about the residents: those that stay, with the newcomer, fit at every hour. */
  lemma AdmissionBoundsKept(p: Profile, status: NodeStatus, node: Node, s: seq<Allocation>, hour: nat)
    requires Publishes(status, node, s) && AllRecorded(s) && AllWellFormed(s) && hour < HOURS
    requires NonNegative(OwnBucket(p, hour)) && LoadRepresentable(p, s, hour)
    requires EnvelopeApplies(p, status) && Admits(p, status)
    ensures Fits(Plus(Total(BucketsOf(Kept(p, s), hour)), OwnBucket(p, hour)), node.allocatable.value)
  {
    PublishedForecastIsExact(p, status, node, s, hour);
    AdmittedHourFits(p, status, node.allocatable.value, hour, HOURS);
    KeptBucketsAreBuckets(p, s, hour);
  }

  // ---- Local side ----------------------------------------------------------

  /**
    The allocation's windows have names, and the zones they mention show one
    minute of `hour`: its first, or any of the sixty if the windows open and
    close on the hour.
  */
  ghost predicate WithinHour(a: Allocation, now: ZoneClock, hour: nat) {
    && NamedWindows(a.windows)
    && exists minute: Minute ::
         ClockShows(a.windows, now, minute) && minute / 60 == hour && (minute == hour * 60 || WholeHours(a.windows))
  }

  /** Within the hour, what the planner insists on is the hour's bucket. */
  lemma MandatoryIsBucket(a: Allocation, now: ZoneClock, hour: nat)
    requires hour < HOURS && WithinHour(a, now, hour)
    ensures Mandatory(a, now) == Bucket(a, hour)
  {
    var minute: Minute :| ClockShows(a.windows, now, minute) && minute / 60 == hour
        && (minute == hour * 60 || WholeHours(a.windows));
    ActiveIsMembership(a.windows, now, minute);
    if WholeHours(a.windows) { WholeHourMembership(a.windows, minute); }
  }

  /**
    Without that agreement of the clocks: the planner insists on the hour's
    bucket exactly when it finds the allocation active just if the forecast
    placed a window there, or the two budgets are the same anyway.
  */
  lemma MandatoryIsBucketExactly(a: Allocation, now: ZoneClock, hour: nat)
    ensures Mandatory(a, now) == Bucket(a, hour) <==>
            (IsActive(a, now) <==> AgentContains(a.windows, hour * 60)) || IsZero(MaxBudget(a))
                || MaxBudget(a) == RequiredBudget(a)
  {
  }

  /** What is granted stays within the bucket, next to an active peer or with preferred within required. */
  lemma GrantWithinBucket(a: Allocation, now: ZoneClock, hour: nat, groupActive: bool, left: Resource)
    requires hour < HOURS && WithinHour(a, now, hour)
    requires groupActive || Fits(PreferredBudget(a), RequiredBudget(a))
    ensures Fits(Grant(a, now, groupActive, left), Bucket(a, hour))
  {
    MandatoryIsBucket(a, now, hour);
  }

  ghost predicate AllWithinHour(s: seq<Allocation>, now: ZoneClock, hour: nat) {
    forall i :: 0 <= i < |s| ==> WithinHour(s[i], now, hour)
  }

  /** The plan at `j` takes no more than the bucket of its allocation. */
  predicate WithinBucket(node: Node, s: seq<Allocation>, now: ZoneClock, hour: nat, j: nat)
    requires j < |Plans(node, s, now)| && j < |s|
  {
    Fits(AcceptedPart(Plans(node, s, now)[j]), Bucket(Order(s, now)[j], hour))
  }

  lemma PlanWithinBucket(node: Node, s: seq<Allocation>, now: ZoneClock, hour: nat, j: nat)
    requires Int32Node(node) && AllWellFormed(s) && j < |s| && hour < HOURS
    requires WithinHour(Order(s, now)[j], now, hour) && WellFormed(Order(s, now)[j])
    requires |Items(s, now)| == |s|
    requires Items(s, now)[j].groupActive || Fits(PreferredBudget(Order(s, now)[j]), RequiredBudget(Order(s, now)[j]))
    ensures |Plans(node, s, now)| == |s| && WithinBucket(node, s, now, hour, j)
  {
    PlanTiers(node, s, now, j);
    var a := Order(s, now)[j];
    GrantWithinBucket(a, now, hour, Items(s, now)[j].groupActive, Left(node, Plans(node, s, now), j));
    BucketIsBudget(a, hour);
  }

  lemma {:induction false} PlansWithinBuckets(plans: seq<Plan>, o: seq<Allocation>, hour: nat)
    requires |plans| == |o| && forall j :: 0 <= j < |o| ==> Fits(AcceptedPart(plans[j]), Bucket(o[j], hour))
    ensures Fits(AcceptedTotal(plans), Total(BucketsOf(o, hour)))
  {
    if o != [] {
      var n := |o| - 1;
      PlansWithinBuckets(plans[..n], o[..n], hour);
      assert plans == plans[..n] + [plans[n]] && o == o[..n] + [o[n]];
      AcceptedTotalSnoc(plans[..n], plans[n]);
      BucketsSnoc(o[..n], o[n], hour);
      TotalSnoc(BucketsOf(o[..n], hour), Bucket(o[n], hour));
      AddSides(AcceptedTotal(plans[..n]), Total(BucketsOf(o[..n], hour)), AcceptedPart(plans[n]), Bucket(o[n], hour));
    }
  }

  lemma AcceptedWithinBuckets(node: Node, s: seq<Allocation>, now: ZoneClock, hour: nat, i: nat)
    requires |Plans(node, s, now)| == |s| && i <= |s|
    requires forall j :: 0 <= j < i ==> WithinBucket(node, s, now, hour, j)
    ensures Fits(AcceptedTotal(Plans(node, s, now)[..i]), Total(BucketsOf(Order(s, now)[..i], hour)))
  {
    var plans, o := Plans(node, s, now)[..i], Order(s, now)[..i];
    forall j | 0 <= j < i ensures Fits(AcceptedPart(plans[j]), Bucket(o[j], hour)) {
      assert WithinBucket(node, s, now, hour, j);
    }
    PlansWithinBuckets(plans, o, hour);
  }

  lemma AddSides(a: Resource, b: Resource, x: Resource, y: Resource)
    requires Fits(a, b) && Fits(x, y)
    ensures Fits(Plus(a, x), Plus(b, y))
  {
  }

  // ---- The contract --------------------------------------------------------

  /** The rank the planner gives an allocation is the rank of its spec priority, which is what the scheduler sees. */
  predicate RankAgrees(a: Allocation) { Rank(a) == PriorityRank(a.priority) }

  /**
    Resident `e`, if planned before the newcomer, keeps to its bucket: it has an
    active peer or its preferred is within required.
  */
  ghost predicate KeepsToBucket(all: seq<Allocation>, newcomer: Allocation, e: Allocation, now: ZoneClock) {
    Before(newcomer, e, now) || ActivePeer(all, PriorityOf(e), now) || Fits(PreferredBudget(e), RequiredBudget(e))
  }

  /**
    What is planned ahead of the newcomer is shown by the published status.
    The agent plans every listed resident but publishes only applied ones, so
    this is not automatic; residents behind the newcomer may be missing.
  */
  ghost predicate EarlierPublished(published: seq<Allocation>, planned: seq<Allocation>, newcomer: Allocation,
                                   now: ZoneClock) {
    forall e :: e in planned && !Before(newcomer, e, now) ==> multiset(planned)[e] <= multiset(published)[e]
  }

  /**
    Everything the two sides must agree on beforehand; `published` is what the
    status shows, `planned` what the agent plans.
  */
  ghost predicate HandoverSetting(p: Profile, newcomer: Allocation, published: seq<Allocation>,
                                  planned: seq<Allocation>,
                                  now: ZoneClock, hour: nat)
    requires hour < HOURS
  {
    var all := planned + [newcomer];
    && AllRecorded(published) && AllWellFormed(published) && EarlierPublished(published, planned, newcomer, now)
    && AllWellFormed(all) && Canonical(all) && AllWithinHour(all, now, hour)
    && (forall i :: 0 <= i < |all| ==> RankAgrees(all[i]))
    && EntryFor(newcomer, p) && newcomer.request.Some? && newcomer.request.value.required.Some?
    && ReadAlike(p.windows)
    && LoadRepresentable(p, published, hour)
    && (forall i :: 0 <= i < |planned| ==> KeepsToBucket(all, newcomer, planned[i], now))
  }

  /** The scheduler's and the planner's idea of the newcomer's budget at `hour` coincide. */
  lemma OwnBucketIsBucket(p: Profile, a: Allocation, hour: nat)
    requires hour < HOURS && EntryFor(a, p) && a.request.Some? && a.request.value.required.Some? && ReadAlike(p.windows)
    ensures OwnBucket(p, hour) == Bucket(a, hour)
  {
    WindowListsAgree(p.windows, hour * 60);
  }

  lemma NotReclaimableIfEarlier(p: Profile, newcomer: Allocation, e: Allocation, now: ZoneClock)
    requires RankAgrees(newcomer) && RankAgrees(e) && EntryFor(newcomer, p) && !Before(newcomer, e, now)
    ensures !Reclaimable(p, e)
  {
  }

  lemma PrefixBefore<T>(o: seq<T>, i: nat, s: seq<T>, x: T)
    requires i < |o| && o[i] == x && multiset(o) == multiset(s) + multiset{x}
    ensures multiset(o[..i]) <= multiset(s)
  {
    assert o == o[..i] + [x] + o[i + 1..];
    var whole := multiset(o[..i]) + multiset{x} + multiset(o[i + 1..]);
    assert multiset(o) == whole;
    forall y ensures multiset(o[..i])[y] <= multiset(s)[y] {
      assert whole[y] == (multiset(s) + multiset{x})[y];
    }
  }

  /** Everything planned before position `i` is among the residents. */
  lemma EarlierAreResidents(residents: seq<Allocation>, newcomer: Allocation, now: ZoneClock, i: nat)
    requires i < |residents| + 1 && Order(residents + [newcomer], now)[i] == newcomer
    ensures multiset(Order(residents + [newcomer], now)[..i]) <= multiset(residents)
  {
    OrderIsPermutation(residents + [newcomer], now);
    PrefixBefore(Order(residents + [newcomer], now), i, residents, newcomer);
  }

  lemma EarlierMember(residents: seq<Allocation>, newcomer: Allocation, now: ZoneClock, i: nat, j: nat) returns (r: nat)
    requires j < i < |residents| + 1 && Order(residents + [newcomer], now)[i] == newcomer
    ensures r < |residents| && residents[r] == Order(residents + [newcomer], now)[j]
    ensures !Before(newcomer, residents[r], now)
  {
    var o := Order(residents + [newcomer], now);
    EarlierAreResidents(residents, newcomer, now, i);
    assert o[..i][j] in multiset(o[..i]);
    assert o[j] in multiset(residents);
    r :| 0 <= r < |residents| && residents[r] == o[j];
    OrderIsOrdered(residents + [newcomer], now);
    assert !Before(o[i], o[j], now);
  }

  /** The residents planned before the newcomer are ones it could not reclaim, so admission already counted them. */
  lemma EarlierAreKept(p: Profile, published: seq<Allocation>, planned: seq<Allocation>, newcomer: Allocation,
                       now: ZoneClock, i: nat)
    requires i < |planned| + 1 && Order(planned + [newcomer], now)[i] == newcomer
    requires EarlierPublished(published, planned, newcomer, now)
    requires RankAgrees(newcomer) && EntryFor(newcomer, p) && forall k :: 0 <= k < |planned| ==> RankAgrees(planned[k])
    ensures multiset(Order(planned + [newcomer], now)[..i]) <= multiset(Kept(p, published))
  {
    var part := Order(planned + [newcomer], now)[..i];
    EarlierAreResidents(planned, newcomer, now, i);
    forall y ensures multiset(part)[y] <= multiset(Kept(p, published))[y] {
      if y in multiset(part) {
        var j :| 0 <= j < i && part[j] == y;
        var r := EarlierMember(planned, newcomer, now, i, j);
        NotReclaimableIfEarlier(p, newcomer, y, now);
        KeptKeepsCounts(p, published, y);
        assert planned[r] == y;
      }
    }
  }

  lemma EarlierStayWithinBuckets(p: Profile, node: Node, published: seq<Allocation>, planned: seq<Allocation>,
                                 newcomer: Allocation, now: ZoneClock, hour: nat, i: nat, j: nat)
    requires hour < HOURS && HandoverSetting(p, newcomer, published, planned, now, hour) && Int32Node(node)
    requires j < i < |planned| + 1 && Order(planned + [newcomer], now)[i] == newcomer
    ensures var all := planned + [newcomer]; |Plans(node, all, now)| == |all| && WithinBucket(node, all, now, hour, j)
  {
    var all := planned + [newcomer];
    var r := EarlierMember(planned, newcomer, now, i, j);
    var e := planned[r];
    assert all[r] == e;
    assert KeepsToBucket(all, newcomer, e, now);
    ItemAllocations(all, now, j);
    GroupActiveMeansActivePeer(all, now, j);
    PlanWithinBucket(node, all, now, hour, j);
  }

  lemma FitsInWhatIsLeft(capacity: Resource, allocatable: Resource, taken: Resource, kept: Resource, own: Resource)
    requires Fits(allocatable, capacity) && Fits(taken, kept) && Fits(Plus(kept, own), allocatable)
    ensures Fits(own, Minus(capacity, taken))
  {
  }

  /**
    Central admission implies that the node does not turn the workload away.
    If the envelope admits an online, windowed workload with a non-zero max
    against a published status that shows whatever is planned ahead of it,
    then planning the residents and the newcomer together at any whole hour,
    or at any minute if all windows open and close on the hour, never rejects
    the newcomer.
  */
  lemma AdmittedIsNotRejected(p: Profile, status: NodeStatus, node: Node, published: seq<Allocation>,
                              planned: seq<Allocation>,
                              newcomer: Allocation, now: ZoneClock, hour: nat, i: nat)
    requires hour < HOURS && Int32Node(node) && Publishes(status, node, published)
    requires EnvelopeApplies(p, status) && Admits(p, status)
    requires HandoverSetting(p, newcomer, published, planned, now, hour)
    requires i < |planned| + 1 && Order(planned + [newcomer], now)[i] == newcomer
    ensures var all := planned + [newcomer];
            && |Plans(node, all, now)| == |all|
            && Plans(node, all, now)[i].allocation == newcomer
            && Plans(node, all, now)[i].tier != RejectedTier
  {
    var all := planned + [newcomer];
    var o := Order(all, now);
    assert all[|planned|] == newcomer;
    assert forall k :: 0 <= k < |planned| ==> RankAgrees(planned[k]) by {
      forall k | 0 <= k < |planned| ensures RankAgrees(planned[k]) { assert all[k] == planned[k]; }
    }
    PlanTiers(node, all, now, i);
    forall j | 0 <= j < i ensures WithinBucket(node, all, now, hour, j) {
      EarlierStayWithinBuckets(p, node, published, planned, newcomer, now, hour, i, j);
    }
    AcceptedWithinBuckets(node, all, now, hour, i);
    EarlierAreKept(p, published, planned, newcomer, now, i);
    KeptWellFormed(p, published);
    BucketsSubMultiset(o[..i], Kept(p, published), hour);
    OwnBucketIsBucket(p, newcomer, hour);
    BucketIsBudget(newcomer, hour);
    AdmissionBoundsKept(p, status, node, published, hour);
    MandatoryIsBucket(newcomer, now, hour);
    CapacityCoversAllocatable(node, []);
    var taken, kept := AcceptedTotal(Plans(node, all, now)[..i]), Total(BucketsOf(Kept(p, published), hour));
    FitsTransitive(taken, Total(BucketsOf(o[..i], hour)), kept);
    FitsInWhatIsLeft(NodeCapacity(node), node.allocatable.value, taken, kept, OwnBucket(p, hour));
  }

  /**
    And it is accepted outright, unless tokens are granted on a node without
    GPU capacity.
  */
  lemma AdmittedIsAcceptedExactly(p: Profile, status: NodeStatus, node: Node, published: seq<Allocation>,
                                  planned: seq<Allocation>,
                                  newcomer: Allocation, now: ZoneClock, hour: nat, i: nat)
    requires hour < HOURS && Int32Node(node) && Publishes(status, node, published)
             && ObservedNonNegative(Observe(node, []))
    requires EnvelopeApplies(p, status) && Admits(p, status)
    requires HandoverSetting(p, newcomer, published, planned, now, hour)
    requires i < |planned| + 1 && Order(planned + [newcomer], now)[i] == newcomer
    ensures |Plans(node, planned + [newcomer], now)| == |planned| + 1
    ensures var plan := Plans(node, planned + [newcomer], now)[i];
            Accepted(plan) <==> !(NeedsTokens(plan.granted) && GpuCapacity(node).gpuCount == 0)
  {
    var all := planned + [newcomer];
    AdmittedIsNotRejected(p, status, node, published, planned, newcomer, now, hour, i);
    NotRejectedIsAcceptedExactly(node, all, now, i);
  }

  lemma NotRejectedIsAcceptedExactly(node: Node, s: seq<Allocation>, now: ZoneClock, i: nat)
    requires Int32Node(node) && AllWellFormed(s) && i < |s| && ObservedNonNegative(Observe(node, []))
    ensures |Plans(node, s, now)| == |s|
    ensures var plan := Plans(node, s, now)[i];
            plan.tier != RejectedTier ==> (Accepted(plan) <==>
                !(NeedsTokens(plan.granted) && GpuCapacity(node).gpuCount == 0))
  {
    PlanTiers(node, s, now, i);
    DegradedOnlyWithoutGpu(node, s, now, i);
  }

  lemma FitsTransitive(a: Resource, b: Resource, c: Resource)
    requires Fits(a, b) && Fits(b, c)
    ensures Fits(a, c)
  {
  }

  // ---- Residents that publish something else than is reclaimed from them ----

  /** What a resident adds to the published forecast at `hour`. */
  function Shown(a: Allocation, hour: nat): Resource {
    if Contribution(a, hour).Some? then Contribution(a, hour).value else ZERO
  }

  function ShownBy(s: seq<Allocation>, hour: nat): (r: seq<Resource>)
    ensures |r| == |s|
  {
    if s == [] then [] else ShownBy(s[..|s| - 1], hour) + [Shown(s[|s| - 1], hour)]
  }

  /** What the check would give back for a resident at `hour`. */
  function HeldBy(s: seq<Allocation>, hour: nat): (r: seq<Resource>)
    ensures |r| == |s|
  {
    if s == [] then [] else HeldBy(s[..|s| - 1], hour) + [ResidentBucket(ResidentOf(s[|s| - 1]), hour)]
  }

  lemma {:induction false} LoadsAreHeld(p: Profile, s: seq<Allocation>, hour: nat)
    ensures AllBuckets(Loads(p, ResidentsOf(s), hour)) == HeldBy(s, hour)
  {
    if s != [] {
      var front, a := s[..|s| - 1], s[|s| - 1];
      LoadsAreHeld(p, front, hour);
      LoadsSnoc(p, ResidentsOf(front), ResidentOf(a), hour);
      AllBucketsSnoc(Loads(p, ResidentsOf(front), hour),
          Load(CanReclaim(p, ResidentOf(a)), ResidentBucket(ResidentOf(a), hour)));
    }
  }

  lemma AddShown(total: Resource, a: Allocation, hour: nat)
    requires IsInt32(total) && IsInt32(Plus(total, Shown(a, hour)))
    ensures AddOption(total, Contribution(a, hour)) == Plus(total, Shown(a, hour))
  {
    AddIsExact(total, Shown(a, hour));
  }

  lemma {:induction false} PublishedIsShown(s: seq<Allocation>, hour: nat)
    requires AllNonNegative(ShownBy(s, hour)) && IsInt32(Total(ShownBy(s, hour)))
    ensures PublishedBucket(s, hour) == Total(ShownBy(s, hour))
  {
    if s != [] {
      var front, a := s[..|s| - 1], s[|s| - 1];
      assert ShownBy(s, hour) == ShownBy(front, hour) + [Shown(a, hour)];
      TotalSnoc(ShownBy(front, hour), Shown(a, hour));
      assert AllNonNegative(ShownBy(front, hour)) by {
        forall i | 0 <= i < |front| ensures NonNegative(ShownBy(front, hour)[i]) {
          assert ShownBy(s, hour)[i] == ShownBy(front, hour)[i];
        }
      }
      assert NonNegative(Shown(a, hour)) by { assert ShownBy(s, hour)[|front|] == Shown(a, hour); }
      TotalNonNegative(ShownBy(front, hour));
      PublishedIsShown(front, hour);
      AddShown(Total(ShownBy(front, hour)), a, hour);
    }
  }

  /**
    When the hourly test against a published status can be trusted, whatever
    the capacity: exactly when, in each dimension, what the residents show adds
    up to what would be reclaimed from them, or falls short of it where nobody
    kept, nor the newcomer, uses anything. A resident without a forecast shows
    its current usage and is reclaimed at its request, so the two may differ.
  */
  lemma PublishedTestAgreesExactly(p: Profile, status: NodeStatus, node: Node, s: seq<Allocation>, hour: nat)
    requires hour < HOURS && Publishes(status, node, s) && LoadsRepresentable(p, status, hour)
    requires AllNonNegative(ShownBy(s, hour)) && IsInt32(Total(ShownBy(s, hour)))
    ensures (forall capacity :: HourAdmitted(p, status, capacity, hour) <==>
            KeptLoadFits(p, status, capacity, hour)) <==>
            EachPublishedAs(Total(ShownBy(s, hour)), Total(HeldBy(s, hour)),
                            Plus(Total(KeptBuckets(p, status.residents, hour)), OwnBucket(p, hour)))
  {
    PublishedBeforeAt(s, HOURS, hour);
    PublishedIsShown(s, hour);
    LoadsAreHeld(p, s, hour);
    HourTestAgreesExactly(p, status, hour);
  }

  // An instance: an 8-GPU node with a protected resident and one that can be reclaimed.

  function FlatRequest(budget: Resource): Option<Request> { Some(Request(Some(budget), None, None)) }

  /** A resident without windows. */
  function Steady(name: string, workloadType: string, priority: string, budget: Resource, status: Status): Allocation {
    Allocation("", name, None, "", [], workloadType, priority, [], FlatRequest(budget), None, None, status)
  }

  /** Five GPUs, with a forecast saying so. */
  function BusyResident(forecast: seq<Resource>): Allocation {
    Steady("busy", "online", "critical", Gpus(5), Status("Applied", Some(Gpus(5)), Some(Gpus(5)), Some(forecast)))
  }

  /** Just reserved and not yet recorded: one GPU assigned, up to five inside its windows. */
  function ReservedResident(windows: seq<TimeWindow>): Allocation {
    Allocation("", "reserved", None, "", [], "batch", "low", windows, Some(Request(Some(Gpus(1)), None, Some(Gpus(5)))),
               Some(Gpus(1)), None, Status("", None, None, None))
  }

  /** Some window is open at the start of every hour. */
  predicate AlwaysOpen(windows: seq<TimeWindow>) {
    forall hour :: 0 <= hour < HOURS ==> CentralContains(windows, hour * 60)
  }

  /** Four GPUs around the clock. */
  function FourGpus(windows: seq<TimeWindow>): Profile { Profile("online", "high", windows, FlatRequest(Gpus(4))) }

  /** Whatever the windows, a flat request is the budget of every hour. */
  lemma FlatRequestBucket(windows: seq<TimeWindow>, budget: Resource, hour: nat)
    ensures ResourcesForHour(windows, RequiredOf(FlatRequest(budget)), MaxOf(FlatRequest(budget)), hour) == budget
  {
  }

  lemma NamesFold()
    ensures IsOnline("online") && IsDelayTolerant("batch") && !IsReleased("Applied") && !IsReleased("")
  {
    assert |ToLower("")| != |"released"|;
    assert ToLower("online") == "online" && ToLower("batch") == "batch";
    assert |ToLower("Applied")| != |"released"|;
  }

  lemma ReservedLoad(windows: seq<TimeWindow>, hour: nat)
    requires CentralContains(windows, hour * 60)
    ensures ResidentBucket(ResidentOf(ReservedResident(windows)), hour) == Gpus(5)
    ensures Contribution(ReservedResident(windows), hour) == Some(Gpus(1))
  {
    NamesFold();
    GpusFit(5, 5);
  }

  lemma InstanceLoads(windows: seq<TimeWindow>, open: seq<TimeWindow>, forecast: seq<Resource>, hour: nat)
    requires hour < |forecast| && forecast[hour] == Gpus(5) && CentralContains(open, hour * 60)
    ensures Understated(FourGpus(windows), BusyResident(forecast), ReservedResident(open), hour, 5, 1, 5, 4)
  {
    NamedRanks();
    NamesFold();
    FlatRequestBucket(windows, Gpus(4), hour);
    ReservedLoad(open, hour);
  }

  lemma PairOfLoads(p: Profile, x: Resident, y: Resident, hour: nat)
    ensures Loads(p, [x, y], hour) ==
            [Load(CanReclaim(p, x), ResidentBucket(x, hour)), Load(CanReclaim(p, y), ResidentBucket(y, hour))]
  {
    LoadsSnoc(p, [], x, hour);
    LoadsSnoc(p, [x], y, hour);
    assert [] + [x] == [x] && [x] + [y] == [x, y];
  }

  lemma PairMarked(l: Load, m: Load)
    requires !l.reclaimable && m.reclaimable
    ensures Marked([l, m], false) == [l.bucket] && Marked([l, m], true) == [m.bucket]
  {
    assert [] + [l] == [l] && [l] + [m] == [l, m];
    MarkedSnoc([], l, false);
    MarkedSnoc([l], m, false);
    MarkedSnoc([], l, true);
    MarkedSnoc([l], m, true);
  }

  lemma PairOfResidents(a: Allocation, b: Allocation)
    ensures ResidentsOf([a, b]) == [ResidentOf(a), ResidentOf(b)]
  {
    assert [a, b][..1] == [a] && [a][..0] == [];
    assert ResidentsOf([a]) == [ResidentOf(a)];
  }

  lemma TwoLoads(p: Profile, x: Resident, y: Resident, hour: nat)
    requires !CanReclaim(p, x) && CanReclaim(p, y)
    ensures KeptBuckets(p, [x, y], hour) == [ResidentBucket(x, hour)]
    ensures ReclaimableBuckets(p, [x, y], hour) == [ResidentBucket(y, hour)]
  {
    PairOfLoads(p, x, y, hour);
    PairMarked(Load(false, ResidentBucket(x, hour)), Load(true, ResidentBucket(y, hour)));
  }

  lemma TwoPublished(a: Allocation, b: Allocation, hour: nat, x: Resource, y: Resource)
    requires Contribution(a, hour) == Some(x) && Contribution(b, hour) == Some(y)
    ensures PublishedBucket([a, b], hour) == Add(Add(ZERO, x), y)
  {
    assert [] + [a] == [a] && [a] + [b] == [a, b];
    PublishedSnoc([], a, hour);
    PublishedSnoc([a], b, hour);
  }

  lemma WrappedSingleton(x: Resource)
    ensures WrappedTotal([x]) == Add(ZERO, x)
  {
    assert [] + [x] == [x];
    WrappedTotalSnoc([], x);
  }

  /** The hour's test in terms of its four numbers, when there is something to reclaim. */
  lemma TestByNumbers(p: Profile, n: NodeStatus, capacity: Resource, hour: nat, published: Resource, own: Resource,
                      kept: Resource, gone: Resource)
    requires NodeBucket(n, hour) == published && OwnBucket(p, hour) == own && !IsZero(gone)
    requires WrappedTotal(ReclaimableBuckets(p, n.residents, hour)) == gone
             && Total(KeptBuckets(p, n.residents, hour)) == kept
    ensures Fits(Subtract(Add(published, own), gone), capacity) ==> HourAdmitted(p, n, capacity, hour)
    ensures KeptLoadFits(p, n, capacity, hour) <==> Fits(Plus(kept, own), capacity)
  {
  }

  /** One resident that is kept at what it shows, and one that shows less than is reclaimed from it. */
  lemma TwoResidents(p: Profile, status: NodeStatus, node: Node, busy: Allocation, idle: Allocation, hour: nat,
                     kept: Resource, used: Resource, held: Resource)
    requires hour < HOURS && Publishes(status, node, [busy, idle]) && !Reclaimable(p, busy) && Reclaimable(p, idle)
    requires Contribution(busy, hour) == Some(kept) && ResidentBucket(ResidentOf(busy), hour) == kept
    requires Contribution(idle, hour) == Some(used) && ResidentBucket(ResidentOf(idle), hour) == held
    ensures NodeBucket(status, hour) == Add(Add(ZERO, kept), used)
    ensures WrappedTotal(ReclaimableBuckets(p, status.residents, hour)) == Add(ZERO, held)
    ensures Total(KeptBuckets(p, status.residents, hour)) == kept
  {
    PairOfResidents(busy, idle);
    TwoLoads(p, ResidentOf(busy), ResidentOf(idle), hour);
    TwoPublished(busy, idle, hour, kept, used);
    PublishedBeforeAt([busy, idle], HOURS, hour);
    TotalSingleton(kept);
    WrappedSingleton(held);
  }

  lemma GpuNumbers(kept: nat, used: nat, held: nat, own: nat)
    requires InInt32(kept + used + own) && 0 < held <= kept + used + own && InInt32(held)
    ensures Add(Add(ZERO, Gpus(kept)), Gpus(used)) == Gpus(kept + used) && Add(ZERO, Gpus(held)) == Gpus(held)
    ensures Subtract(Add(Gpus(kept + used), Gpus(own)), Gpus(held)) == Gpus(kept + used + own - held)
    ensures Plus(Gpus(kept), Gpus(own)) == Gpus(kept + own)
  {
    GpusFit(0, 0);
    GpusAdd(0, kept);
    GpusAdd(kept, used);
    GpusAdd(0, held);
    GpusAdd(kept + used, own);
    GpusSubtract(kept + used + own, held);
    GpusAdd(kept, own);
  }

  lemma HiddenByNumbers(p: Profile, n: NodeStatus, hour: nat, kept: nat, used: nat, held: nat, own: nat, capacity: nat)
    requires NodeBucket(n, hour) == Add(Add(ZERO, Gpus(kept)), Gpus(used)) && OwnBucket(p, hour) == Gpus(own)
    requires WrappedTotal(ReclaimableBuckets(p, n.residents, hour)) == Add(ZERO, Gpus(held))
    requires Total(KeptBuckets(p, n.residents, hour)) == Gpus(kept)
    requires InInt32(kept + used + own) && 0 < held <= kept + used + own && InInt32(held)
    requires kept + used + own - held <= capacity < kept + own
    ensures HourAdmitted(p, n, Gpus(capacity), hour) && !KeptLoadFits(p, n, Gpus(capacity), hour)
  {
    GpuNumbers(kept, used, held, own);
    GpusFit(kept + used + own - held, capacity);
    GpusFit(held, held);
    GpusFit(kept + own, capacity);
    TestByNumbers(p, n, Gpus(capacity), hour, Gpus(kept + used), Gpus(own), Gpus(kept), Gpus(held));
  }

  /**
    A kept resident shows `kept` GPUs; the other shows `used` and is reclaimed at
    `held`; the newcomer asks for `own`.
  */
  predicate Understated(p: Profile, busy: Allocation, idle: Allocation, hour: nat, kept: nat, used: nat, held: nat,
                        own: nat) {
    && !Reclaimable(p, busy) && Reclaimable(p, idle)
    && Contribution(busy, hour) == Some(Gpus(kept)) && ResidentBucket(ResidentOf(busy), hour) == Gpus(kept)
    && Contribution(idle, hour) == Some(Gpus(used)) && ResidentBucket(ResidentOf(idle), hour) == Gpus(held)
    && OwnBucket(p, hour) == Gpus(own)
  }

  lemma UnderstatedHour(p: Profile, status: NodeStatus, node: Node, busy: Allocation, idle: Allocation, hour: nat,
                        kept: nat, used: nat, held: nat, own: nat, capacity: nat)
    requires hour < HOURS && Publishes(status, node, [busy, idle])
             && Understated(p, busy, idle, hour, kept, used, held, own)
    requires InInt32(kept + used + own) && 0 < held <= kept + used + own && InInt32(held)
    requires kept + used + own - held <= capacity < kept + own
    ensures HourAdmitted(p, status, Gpus(capacity), hour) && !KeptLoadFits(p, status, Gpus(capacity), hour)
    ensures Total(KeptBuckets(p, status.residents, hour)) == Gpus(kept)
  {
    TwoResidents(p, status, node, busy, idle, hour, Gpus(kept), Gpus(used), Gpus(held));
    HiddenByNumbers(p, status, hour, kept, used, held, own, capacity);
  }

  /**
    Whenever `used` falls far enough short of `held`, the check admits the
    newcomer although at every hour it does not fit beside what is kept.
  */
  lemma UnderstatedReclaimHidesLoad(p: Profile, status: NodeStatus, node: Node, busy: Allocation, idle: Allocation,
                                    kept: nat, used: nat, held: nat, own: nat, capacity: nat)
    requires Publishes(status, node, [busy, idle]) && node.allocatable == Some(Gpus(capacity))
    requires forall hour :: 0 <= hour < HOURS ==> Understated(p, busy, idle, hour, kept, used, held, own)
    requires InInt32(kept + used + own) && 0 < held <= kept + used + own && InInt32(held)
    requires kept + used + own - held <= capacity < kept + own
    ensures Admits(p, status) && forall hour :: 0 <= hour < HOURS ==>
            !KeptLoadFits(p, status, node.allocatable.value, hour)
  {
    forall hour | 0 <= hour < HOURS
      ensures HourAdmitted(p, status, Gpus(capacity), hour) && !KeptLoadFits(p, status, Gpus(capacity), hour)
    {
      UnderstatedHour(p, status, node, busy, idle, hour, kept, used, held, own, capacity);
    }
    AdmittedIfEveryHour(p, status, Gpus(capacity), HOURS);
  }

  /**
    An instance: six GPUs are published and five are given back, so the check
    admits the newcomer's four on a node with eight, although the protected
    resident alone keeps five of them: nine are needed at every hour.
  */
  lemma ReclaimWithoutForecastHidesLoad(windows: seq<TimeWindow>, open: seq<TimeWindow>, status: NodeStatus,
                                        node: Node, forecast: seq<Resource>)
    requires windows != [] && AlwaysOpen(open) && node.allocatable == Some(Gpus(8))
    requires |forecast| == HOURS && forall hour :: 0 <= hour < HOURS ==> forecast[hour] == Gpus(5)
    requires Publishes(status, node, [BusyResident(forecast), ReservedResident(open)])
    ensures var p := FourGpus(windows);
            && EnvelopeApplies(p, status) && Admits(p, status)
            && forall hour :: 0 <= hour < HOURS ==> !KeptLoadFits(p, status, node.allocatable.value, hour)
  {
    var p := FourGpus(windows);
    NamesFold();
    GpusFit(4, 4);
    forall hour | 0 <= hour < HOURS
      ensures Understated(p, BusyResident(forecast), ReservedResident(open), hour, 5, 1, 5, 4)
    {
      InstanceLoads(windows, open, forecast, hour);
    }
    UnderstatedReclaimHidesLoad(p, status, node, BusyResident(forecast), ReservedResident(open), 5, 1, 5, 4, 8);
  }

  // ---- Who gives way, on eight GPUs ----------------------------------------

  /** A recorded online resident of low priority that forecasts five GPUs at every hour. */
  function LowResident(actions: Option<Actions>, forecast: seq<Resource>): Allocation {
    Allocation("", "low", None, "", [], "online", "low", [], FlatRequest(Gpus(5)), None, actions,
               Status("Applied", Some(Gpus(5)), Some(Gpus(5)), Some(forecast)))
  }

  lemma LoneProtected(p: Profile, r: Resident, hour: nat)
    ensures BucketsOfProtected(p, [r], hour, true) == ListIf(Protected(p, r), ResidentBucket(r, hour))
  {
    assert [r][..0] == [];
  }

  lemma LoneLoads(p: Profile, r: Resident, hour: nat)
    ensures AllBuckets(Loads(p, [r], hour)) == [ResidentBucket(r, hour)]
    ensures LoadsNonNegative(Loads(p, [r], hour)) <==> NonNegative(ResidentBucket(r, hour))
  {
    LoadsSnoc(p, [], r, hour);
    assert [] + [r] == [r];
    AllBucketsSnoc([], Load(CanReclaim(p, r), ResidentBucket(r, hour)));
  }

  /** At `hour` the resident publishes and holds `held` GPUs, and the newcomer asks for `own`. */
  predicate AsForecast(p: Profile, a: Allocation, held: nat, own: nat, hour: nat) {
    && Contribution(a, hour) == Some(Gpus(held)) && ResidentBucket(ResidentOf(a), hour) == Gpus(held)
    && OwnBucket(p, hour) == Gpus(own)
  }

  /** One resident that publishes what is reclaimed from it, in one hour. */
  lemma LoneHour(p: Profile, status: NodeStatus, node: Node, a: Allocation, hour: nat, held: nat, own: nat,
                 capacity: nat)
    requires hour < HOURS && Publishes(status, node, [a]) && InInt32(held + own)
    requires AsForecast(p, a, held, own, hour)
    ensures ForecastIsExact(p, status, hour)
    ensures var protected := Protected(p, ResidentOf(a));
            ProtectedFit(p, status, Gpus(capacity), hour) <==> (if protected then held + own else own) <= capacity
  {
    var s := ResidentOf(a);
    assert [] + [a] == [a];
    PublishedSnoc([], a, hour);
    PublishedBeforeAt([a], HOURS, hour);
    assert status.residents == [s] by { assert [a][..0] == []; }
    LoneLoads(p, s, hour);
    LoneProtected(p, s, hour);
    TotalSingleton(Gpus(held));
    GpusFit(0, 0);
    GpusAdd(0, held);
    GpusAdd(held, own);
    GpusAdd(0, own);
    GpusFit(held + own, capacity);
    GpusFit(own, capacity);
  }

  /** And in all hours, where the newcomer fits alone and not beside the resident. */
  lemma LoneDecides(p: Profile, status: NodeStatus, node: Node, a: Allocation, held: nat, own: nat, capacity: nat)
    requires Publishes(status, node, [a]) && node.allocatable == Some(Gpus(capacity))
    requires FoldsTo(p.workloadType, "online") && p.windows != [] && MaxIs(p.request, Gpus(own))
    requires 0 < own <= capacity < held + own && InInt32(held + own)
    requires forall hour :: 0 <= hour < HOURS ==> AsForecast(p, a, held, own, hour)
    ensures Admits(p, status) <==> !Protected(p, ResidentOf(a))
  {
    forall hour | 0 <= hour < HOURS
      ensures ForecastIsExact(p, status, hour)
      ensures ProtectedFit(p, status, Gpus(capacity), hour) <==> !Protected(p, ResidentOf(a))
    {
      assert AsForecast(p, a, held, own, hour);
      LoneHour(p, status, node, a, hour, held, own, capacity);
    }
    assert ProtectedFit(p, status, Gpus(capacity), 0) <==> !Protected(p, ResidentOf(a));
    GpusFit(own, own);
    CheckDecides(p, status, Gpus(own));
    assert CapacityIs(status, Gpus(capacity));
  }

  lemma OnlineOnly()
    ensures FoldsTo("online", "online") && !FoldsTo("online", "offline") && !FoldsTo("online", "batch")
  {
    assert ToLower("online") == "online" && |"online"| == 6 && |"offline"| == 7 && |"batch"| == 5;
  }

  /** Below an online newcomer, an online resident is protected exactly if it cannot be acted on. */
  lemma OnlineProtected(p: Profile, r: Resident)
    requires p.workloadType == "online" == r.workloadType && p.priority == "high" && r.priority == "low"
    ensures Protected(p, r) <==> !MayBeActedOn(r)
  {
    var high, low := p.priority, r.priority;
    NamedRanks();
    OnlineOnly();
    assert PriorityRank(high) > PriorityRank(low);
  }

  lemma AppliedForecast(a: Allocation, hour: nat)
    requires a.status.phase == "Applied" && a.status.forecast.Some? && hour < |a.status.forecast.value|
    ensures Contribution(a, hour) == Some(a.status.forecast.value[hour])
    ensures ResidentBucket(ResidentOf(a), hour) == a.status.forecast.value[hour]
  {
    NamesFold();
  }

  lemma OnlineDecides(p: Profile, status: NodeStatus, node: Node, a: Allocation, forecast: seq<Resource>)
    requires p.windows != [] && node.allocatable == Some(Gpus(8)) && p.request == FlatRequest(Gpus(4))
    requires p.workloadType == "online" == a.workloadType && p.priority == "high" && a.priority == "low"
    requires |forecast| == HOURS && forall hour :: 0 <= hour < HOURS ==> forecast[hour] == Gpus(5)
    requires a.status.phase == "Applied" && a.status.forecast == Some(forecast) && Publishes(status, node, [a])
    ensures Admits(p, status) <==> MayBeActedOn(ResidentOf(a))
  {
    OnlineProtected(p, ResidentOf(a));
    OnlineOnly();
    forall hour | 0 <= hour < HOURS ensures AsForecast(p, a, 5, 4, hour) {
      FlatRequestBucket(p.windows, Gpus(4), hour);
      AppliedForecast(a, hour);
    }
    LoneDecides(p, status, node, a, 5, 4, 8);
  }

  /**
    Nine GPUs are wanted and eight are there, so the newcomer is admitted
    exactly if the resident gives way; and it gives way exactly if it may be
    throttled, paused or evicted.
  */
  lemma GivesWayExactly(windows: seq<TimeWindow>, status: NodeStatus, node: Node, actions: Option<Actions>,
                        forecast: seq<Resource>)
    requires windows != [] && node.allocatable == Some(Gpus(8))
    requires |forecast| == HOURS && forall hour :: 0 <= hour < HOURS ==> forecast[hour] == Gpus(5)
    requires Publishes(status, node, [LowResident(actions, forecast)])
    ensures Admits(FourGpus(windows), status) <==>
            actions.Some? && (actions.value.throttleable || actions.value.pauseable || actions.value.evictable)
  {
    OnlineDecides(FourGpus(windows), status, node, LowResident(actions, forecast), forecast);
  }

  const EVICTABLE := Actions(false, false, false, true)
  const RECLAIMABLE := Actions(true, false, false, false)

  /** An evictable online resident gives way. */
  lemma EvictableGivesWay(windows: seq<TimeWindow>, status: NodeStatus, node: Node, forecast: seq<Resource>)
    requires windows != [] && node.allocatable == Some(Gpus(8))
    requires |forecast| == HOURS && forall hour :: 0 <= hour < HOURS ==> forecast[hour] == Gpus(5)
    requires Publishes(status, node, [LowResident(Some(EVICTABLE), forecast)])
    ensures Admits(FourGpus(windows), status)
  {
    GivesWayExactly(windows, status, node, Some(EVICTABLE), forecast);
  }

  /** One that is only marked as reclaimable does not. */
  lemma ReclaimableStays(windows: seq<TimeWindow>, status: NodeStatus, node: Node, forecast: seq<Resource>)
    requires windows != [] && node.allocatable == Some(Gpus(8))
    requires |forecast| == HOURS && forall hour :: 0 <= hour < HOURS ==> forecast[hour] == Gpus(5)
    requires Publishes(status, node, [LowResident(Some(RECLAIMABLE), forecast)])
    ensures !Admits(FourGpus(windows), status)
  {
    GivesWayExactly(windows, status, node, Some(RECLAIMABLE), forecast);
  }

  /** Such windows exist: any whose two ends are the same clock text. */
  lemma AllDayIsAlwaysOpen(w: TimeWindow)
    requires CentralMinute(w.start).Some? && w.end == w.start
    ensures AlwaysOpen([w])
  {
    forall hour | 0 <= hour < HOURS ensures CentralContains([w], hour * 60) { FullDayContains(w, hour * 60); }
  }
}
