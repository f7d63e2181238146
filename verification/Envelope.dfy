/** The central time-window envelope: 24 hourly admission tests with reclaim. */
module Envelope {
  import opened Text
  import opened Resources
  import opened Windows
  import opened Allocations
  import opened Forecast

  datatype Profile = Profile(workloadType: string, priority: string, windows: seq<TimeWindow>, request: Option<Request>)

  /** One entry of a node's status.allocations. */
  datatype Resident = Resident(
    workloadType: string,
    priority: string,
    windows: seq<TimeWindow>,
    request: Option<Request>,
    resources: Option<Resource>,
    current: Option<Resource>,
    forecast: Option<seq<Resource>>,
    actions: Option<Actions>)

  datatype NodeStatus = NodeStatus(
    allocatable: Option<Resource>,
    available: Option<Resource>,
    inUse: Option<Resource>,
    forecast: Option<seq<Resource>>,
    residents: seq<Resident>)

  // ---- Request selection ---------------------------------------------------

  function RequiredOf(request: Option<Request>): Resource {
    if request.Some? && request.value.required.Some? then request.value.required.value else ZERO
  }

  function MaxOf(request: Option<Request>): Resource {
    if request.None? then ZERO
    else if request.value.maximum.Some? then request.value.maximum.value
    else if request.value.preferred.Some? then request.value.preferred.value
    else if request.value.required.Some? then request.value.required.value
    else ZERO
  }

  function ResourcesForHour(windows: seq<TimeWindow>, required: Resource, maximum: Resource, hour: nat): Resource {
    if CentralContains(windows, hour * 60) && !IsZero(maximum) then maximum else required
  }

  /** The workload's own budget at `hour`. */
  function OwnBucket(p: Profile, hour: nat): Resource {
    ResourcesForHour(p.windows, RequiredOf(p.request), MaxOf(p.request), hour)
  }

  /** allocationResourceForHour. */
  function ResidentBucket(r: Resident, hour: nat): Resource {
    if r.forecast.Some? && hour < |r.forecast.value| then r.forecast.value[hour]
    else if r.request.Some? then ResourcesForHour(r.windows, RequiredOf(r.request), MaxOf(r.request), hour)
    else if r.current.Some? then r.current.value
    else if r.resources.Some? then r.resources.value
    else ZERO
  }

  function NodeBucket(n: NodeStatus, hour: nat): Resource {
    if n.forecast.Some? && hour < |n.forecast.value| then n.forecast.value[hour] else ZERO
  }

  function EnvelopeCapacity(n: NodeStatus): Option<Resource> {
    if n.allocatable.Some? then n.allocatable
    else if n.available.Some? && n.inUse.Some? then Some(Add(n.available.value, n.inUse.value))
    else None
  }

  // ---- Reclaim -------------------------------------------------------------

  predicate IsOnline(workloadType: string) { FoldsTo(workloadType, "online") || FoldsTo(workloadType, "hybrid") }

  predicate IsDelayTolerant(workloadType: string) { FoldsTo(workloadType, "offline") || FoldsTo(workloadType, "batch") }

  /** canCurrentWorkloadReclaimFrom. */
  predicate CanReclaim(p: Profile, r: Resident) {
    && IsOnline(p.workloadType)
    && PriorityRank(p.priority) > PriorityRank(r.priority)
    && (IsDelayTolerant(r.workloadType) ||
        (r.actions.Some? && (r.actions.value.throttleable || r.actions.value.pauseable || r.actions.value.evictable)))
  }

  /** A resident's bucket, marked as reclaimable for the newcomer or not. */
  datatype Load = Load(reclaimable: bool, bucket: Resource)

  function Loads(p: Profile, s: seq<Resident>, hour: nat): (r: seq<Load>)
    ensures |r| == |s|
  {
    if s == [] then []
    else Loads(p, s[..|s| - 1], hour) + [Load(CanReclaim(p, s[|s| - 1]), ResidentBucket(s[|s| - 1], hour))]
  }

  function AllBuckets(loads: seq<Load>): (r: seq<Resource>)
    ensures |r| == |loads|
  {
    if loads == [] then [] else AllBuckets(loads[..|loads| - 1]) + [loads[|loads| - 1].bucket]
  }

  /** `value` if `present`, as a list. */
  function ListIf(present: bool, value: Resource): seq<Resource> { if present then [value] else [] }

  /** The buckets with the given mark. */
  function Marked(loads: seq<Load>, reclaimable: bool): seq<Resource> {
    if loads == [] then []
    else Marked(loads[..|loads| - 1], reclaimable) +
         ListIf(loads[|loads| - 1].reclaimable == reclaimable, loads[|loads| - 1].bucket)
  }

  function ReclaimableBuckets(p: Profile, s: seq<Resident>, hour: nat): seq<Resource> {
    Marked(Loads(p, s, hour), true)
  }

  function KeptBuckets(p: Profile, s: seq<Resident>, hour: nat): seq<Resource> { Marked(Loads(p, s, hour), false) }

  lemma WrappedTotalSnoc(s: seq<Resource>, x: Resource)
    ensures WrappedTotal(s + [x]) == Add(WrappedTotal(s), x)
  {
    assert (s + [x])[..|s|] == s;
  }

  lemma TotalSnoc(s: seq<Resource>, x: Resource)
    ensures Total(s + [x]) == Plus(Total(s), x)
  {
    assert (s + [x])[..|s|] == s;
  }

  lemma MarkedSnoc(loads: seq<Load>, l: Load, reclaimable: bool)
    ensures Marked(loads + [l], reclaimable) == Marked(loads, reclaimable)
            + ListIf(l.reclaimable == reclaimable, l.bucket)
  {
    assert (loads + [l])[..|loads|] == loads;
  }

  lemma LoadsSnoc(p: Profile, s: seq<Resident>, r: Resident, hour: nat)
    ensures Loads(p, s + [r], hour) == Loads(p, s, hour) + [Load(CanReclaim(p, r), ResidentBucket(r, hour))]
  {
    assert (s + [r])[..|s|] == s;
  }

  lemma ReclaimableSnoc(p: Profile, s: seq<Resident>, r: Resident, hour: nat)
    ensures WrappedTotal(ReclaimableBuckets(p, s + [r], hour)) ==
            if CanReclaim(p, r) then Add(WrappedTotal(ReclaimableBuckets(p, s, hour)), ResidentBucket(r, hour))
            else WrappedTotal(ReclaimableBuckets(p, s, hour))
  {
    LoadsSnoc(p, s, r, hour);
    MarkedSnoc(Loads(p, s, hour), Load(CanReclaim(p, r), ResidentBucket(r, hour)), true);
    var before := ReclaimableBuckets(p, s, hour);
    WrappedTotalSnoc(before, ResidentBucket(r, hour));
    assert before + [] == before;
  }

  /** reclaimableResourceForHour. */
  method ReclaimableResourceForHour(p: Profile, n: NodeStatus, hour: nat) returns (total: Resource)
    ensures total == WrappedTotal(ReclaimableBuckets(p, n.residents, hour))
  {
    total := ZERO;
    var s := n.residents;
    for i := 0 to |s|
      invariant total == WrappedTotal(ReclaimableBuckets(p, s[..i], hour))
    {
      assert s[..i + 1] == s[..i] + [s[i]];
      ReclaimableSnoc(p, s[..i], s[i], hour);
      if !CanReclaim(p, s[i]) { continue; }
      total := Add(total, ResidentBucket(s[i], hour));
    }
    assert s[..|s|] == s;
  }

  // ---- The check -----------------------------------------------------------

  /** The test the loop runs for one hour. */
  predicate HourAdmitted(p: Profile, n: NodeStatus, capacity: Resource, hour: nat) {
    var total := Add(NodeBucket(n, hour), OwnBucket(p, hour));
    Fits(total, capacity) ||
    (var reclaimable := WrappedTotal(ReclaimableBuckets(p, n.residents, hour));
     !IsZero(reclaimable) && Fits(Subtract(total, reclaimable), capacity))
  }

  /** The hourly tests run only for online workloads with windows and a non-zero max, on nodes of known capacity. */
  predicate EnvelopeApplies(p: Profile, n: NodeStatus) {
    IsOnline(p.workloadType) && p.windows != [] && EnvelopeCapacity(n).Some? && !IsZero(MaxOf(p.request))
  }

  /** Every hour before `n` passes its test. */
  predicate AdmittedBefore(p: Profile, n: NodeStatus, capacity: Resource, hours: nat) {
    hours == 0 || (AdmittedBefore(p, n, capacity, hours - 1) && HourAdmitted(p, n, capacity, hours - 1))
  }

  predicate Admits(p: Profile, n: NodeStatus) {
    EnvelopeApplies(p, n) ==> AdmittedBefore(p, n, EnvelopeCapacity(n).value, HOURS)
  }

  lemma {:induction false} FailingHourDecides(p: Profile, n: NodeStatus, capacity: Resource, hour: nat, hours: nat)
    requires hour < hours && !HourAdmitted(p, n, capacity, hour)
    ensures !AdmittedBefore(p, n, capacity, hours)
  {
    if hour < hours - 1 { FailingHourDecides(p, n, capacity, hour, hours - 1); }
  }

  lemma {:induction false} AdmittedIfEveryHour(p: Profile, n: NodeStatus, capacity: Resource, hours: nat)
    requires forall hour :: 0 <= hour < hours ==> HourAdmitted(p, n, capacity, hour)
    ensures AdmittedBefore(p, n, capacity, hours)
  {
    if hours > 0 { AdmittedIfEveryHour(p, n, capacity, hours - 1); }
  }

  /** One round of the loop. */
  method CheckHour(p: Profile, n: NodeStatus, capacity: Resource, hour: nat) returns (admitted: bool)
    requires hour < HOURS
    ensures admitted <==> HourAdmitted(p, n, capacity, hour)
  {
    var inside := HourInTimeWindows(p.windows, hour);
    var own := if inside && !IsZero(MaxOf(p.request)) then MaxOf(p.request) else RequiredOf(p.request);
    var total := Add(NodeBucket(n, hour), own);
    if Fits(total, capacity) { return true; }
    var reclaimable := ReclaimableResourceForHour(p, n, hour);
    if IsZero(reclaimable) { return false; }
    var adjusted := Subtract(total, reclaimable);
    return Fits(adjusted, capacity);
  }

  /** TimeWindowEnvelopeConstraint.Check. */
  method Check(p: Profile, n: NodeStatus) returns (allowed: bool)
    ensures allowed <==> Admits(p, n)
  {
    if !IsOnline(p.workloadType) || |p.windows| == 0 { return true; }
    var capacity := EnvelopeCapacity(n);
    if capacity.None? { return true; }
    if IsZero(MaxOf(p.request)) { return true; }
    for hour := 0 to HOURS
      invariant AdmittedBefore(p, n, capacity.value, hour)
    {
      var admitted := CheckHour(p, n, capacity.value, hour);
      if !admitted {
        FailingHourDecides(p, n, capacity.value, hour, HOURS);
        return false;
      }
    }
    return true;
  }

  // ---- Exactness -----------------------------------------------------------

  lemma TotalListIf(s: seq<Resource>, present: bool, b: Resource)
    ensures Total(s + ListIf(present, b)) == if present then Plus(Total(s), b) else Total(s)
  {
    TotalSnoc(s, b);
    assert s + [] == s;
  }

  lemma SplitOneMore(all: seq<Resource>, kept: seq<Resource>, gone: seq<Resource>, b: Resource, reclaim: bool)
    requires Total(all) == Plus(Total(kept), Total(gone))
    ensures Total(all + [b]) == Plus(Total(kept + ListIf(!reclaim, b)), Total(gone + ListIf(reclaim, b)))
  {
    TotalListIf(all, true, b);
    TotalListIf(kept, !reclaim, b);
    TotalListIf(gone, reclaim, b);
    PlusShuffle(Total(kept), Total(gone), b);
  }

  lemma {:induction false} MarkedPartsAddUp(loads: seq<Load>)
    ensures Total(AllBuckets(loads)) == Plus(Total(Marked(loads, false)), Total(Marked(loads, true)))
  {
    if loads != [] {
      var front, l := loads[..|loads| - 1], loads[|loads| - 1];
      MarkedPartsAddUp(front);
      SplitOneMore(AllBuckets(front), Marked(front, false), Marked(front, true), l.bucket, l.reclaimable);
    }
  }

  predicate LoadsNonNegative(loads: seq<Load>) { forall i :: 0 <= i < |loads| ==> NonNegative(loads[i].bucket) }

  lemma {:induction false} MarkedNonNegative(loads: seq<Load>, reclaimable: bool)
    requires LoadsNonNegative(loads)
    ensures AllNonNegative(Marked(loads, reclaimable))
  {
    if loads != [] { MarkedNonNegative(loads[..|loads| - 1], reclaimable); }
  }

  /** The node's forecast at `hour` is the exact sum of its residents' buckets, and the total load is representable. */
  predicate ForecastIsExact(p: Profile, n: NodeStatus, hour: nat) {
    && LoadsNonNegative(Loads(p, n.residents, hour))
    && NodeBucket(n, hour) == Total(AllBuckets(Loads(p, n.residents, hour)))
    && NonNegative(OwnBucket(p, hour))
    && IsInt32(Plus(NodeBucket(n, hour), OwnBucket(p, hour)))
  }

  lemma HourArithmetic(kept: Resource, gone: Resource, own: Resource, capacity: Resource)
    requires NonNegative(kept) && NonNegative(gone) && NonNegative(own) && IsInt32(Plus(Plus(kept, gone), own))
    ensures var total := Add(Plus(kept, gone), own);
            && Subtract(total, gone) == Plus(kept, own)
            && (Fits(total, capacity) || (!IsZero(gone) && Fits(Subtract(total, gone), capacity))
                <==> Fits(Plus(kept, own), capacity))
  {
    AddIsExact(Plus(kept, gone), own);
    SubtractIsExact(Plus(Plus(kept, gone), own), gone);
  }

  /**
    The hourly test is exact: it passes if and only if the residents that may
    not be reclaimed, together with the newcomer, fit the capacity. The clamp
    in the subtraction never hides load.
  */
  lemma HourTestIsExact(p: Profile, n: NodeStatus, capacity: Resource, hour: nat)
    requires ForecastIsExact(p, n, hour)
    ensures HourAdmitted(p, n, capacity, hour)
       <==> Fits(Plus(Total(KeptBuckets(p, n.residents, hour)), OwnBucket(p, hour)), capacity)
    ensures var total := Add(NodeBucket(n, hour), OwnBucket(p, hour));
            Subtract(total, WrappedTotal(ReclaimableBuckets(p, n.residents, hour))) ==
            Plus(Total(KeptBuckets(p, n.residents, hour)), OwnBucket(p, hour))
  {
    var loads := Loads(p, n.residents, hour);
    var kept, gone := Marked(loads, false), Marked(loads, true);
    MarkedPartsAddUp(loads);
    MarkedNonNegative(loads, false);
    MarkedNonNegative(loads, true);
    TotalNonNegative(kept);
    TotalNonNegative(gone);
    WrappedTotalIsExact(gone);
    HourArithmetic(Total(kept), Total(gone), OwnBucket(p, hour), capacity);
  }

  /** The load that stays after reclaim, with the newcomer, fits at `hour`. */
  predicate KeptLoadFits(p: Profile, n: NodeStatus, capacity: Resource, hour: nat) {
    Fits(Plus(Total(KeptBuckets(p, n.residents, hour)), OwnBucket(p, hour)), capacity)
  }

  lemma {:induction false} FailingHour(p: Profile, n: NodeStatus, capacity: Resource, hours: nat) returns (hour: nat)
    requires !AdmittedBefore(p, n, capacity, hours)
    ensures hour < hours && !HourAdmitted(p, n, capacity, hour)
  {
    if !HourAdmitted(p, n, capacity, hours - 1) {
      hour := hours - 1;
    } else {
      hour := FailingHour(p, n, capacity, hours - 1);
    }
  }

  lemma AdmittedHourFits(p: Profile, n: NodeStatus, capacity: Resource, hour: nat, hours: nat)
    requires hour < hours && ForecastIsExact(p, n, hour) && AdmittedBefore(p, n, capacity, hours)
    ensures KeptLoadFits(p, n, capacity, hour)
  {
    if !HourAdmitted(p, n, capacity, hour) { FailingHourDecides(p, n, capacity, hour, hours); }
    HourTestIsExact(p, n, capacity, hour);
  }

  /** In every hour the published forecast is exact. */
  ghost predicate ForecastsAreExact(p: Profile, n: NodeStatus) {
    forall hour :: 0 <= hour < HOURS ==> ForecastIsExact(p, n, hour)
  }

  /** In every hour the load that stays after reclaim fits. */
  ghost predicate KeptLoadAlwaysFits(p: Profile, n: NodeStatus, capacity: Resource) {
    forall hour :: 0 <= hour < HOURS ==> KeptLoadFits(p, n, capacity, hour)
  }

  lemma AllAdmittedFit(p: Profile, n: NodeStatus, capacity: Resource, hours: nat)
    requires ForecastsAreExact(p, n) && hours == HOURS && AdmittedBefore(p, n, capacity, hours)
    ensures KeptLoadAlwaysFits(p, n, capacity)
  {
    forall hour | 0 <= hour < HOURS ensures KeptLoadFits(p, n, capacity, hour) {
      assert ForecastIsExact(p, n, hour);
      AdmittedHourFits(p, n, capacity, hour, hours);
    }
  }

  lemma RefusedDoesNotFit(p: Profile, n: NodeStatus, capacity: Resource, hours: nat)
    requires ForecastsAreExact(p, n) && hours == HOURS && !AdmittedBefore(p, n, capacity, hours)
    ensures !KeptLoadAlwaysFits(p, n, capacity)
  {
    var hour := FailingHour(p, n, capacity, hours);
    assert ForecastIsExact(p, n, hour);
    HourTestIsExact(p, n, capacity, hour);
    assert !KeptLoadFits(p, n, capacity, hour);
  }

  /** Past its early exits, the whole check accepts exactly the workloads whose envelope fits in all 24 hours. */
  lemma EnvelopeIsExact(p: Profile, n: NodeStatus)
    requires EnvelopeApplies(p, n) && ForecastsAreExact(p, n)
    ensures Admits(p, n) <==> KeptLoadAlwaysFits(p, n, EnvelopeCapacity(n).value)
  {
    if Admits(p, n) {
      AllAdmittedFit(p, n, EnvelopeCapacity(n).value, HOURS);
    } else {
      RefusedDoesNotFit(p, n, EnvelopeCapacity(n).value, HOURS);
    }
  }

  /** Whatever is reclaimed ranks strictly below the newcomer. */
  lemma {:induction false} ReclaimedRanksLower(p: Profile, s: seq<Resident>, hour: nat, i: nat)
    requires i < |s| && Loads(p, s, hour)[i].reclaimable
    ensures PriorityRank(s[i].priority) < PriorityRank(p.priority)
  {
    if i < |s| - 1 { ReclaimedRanksLower(p, s[..|s| - 1], hour, i); }
  }

  // ---- Who is kept ---------------------------------------------------------

  /** The resident may be throttled, paused or evicted; being marked reclaimable does not count. */
  predicate MayBeActedOn(r: Resident) {
    r.actions.Some? && (r.actions.value.throttleable || r.actions.value.pauseable || r.actions.value.evictable)
  }

  /**
    A resident the newcomer may not reclaim from: the newcomer is neither an
    online nor a hybrid workload, or does not rank above the resident, or the
    resident is neither offline nor batch work and cannot be acted on.
  */
  predicate Protected(p: Profile, r: Resident) {
    || (!FoldsTo(p.workloadType, "online") && !FoldsTo(p.workloadType, "hybrid"))
    || PriorityRank(p.priority) <= PriorityRank(r.priority)
    || (!FoldsTo(r.workloadType, "offline") && !FoldsTo(r.workloadType, "batch") && !MayBeActedOn(r))
  }

  /** The buckets of the residents that are protected, or of the others. */
  function BucketsOfProtected(p: Profile, s: seq<Resident>, hour: nat, wanted: bool): seq<Resource> {
    if s == [] then []
    else
      BucketsOfProtected(p, s[..|s| - 1], hour, wanted) +
      ListIf(Protected(p, s[|s| - 1]) == wanted, ResidentBucket(s[|s| - 1], hour))
  }

  /** Exactly the protected residents are kept, and exactly the others are reclaimed, at every hour. */
  lemma {:induction false} KeptExactly(p: Profile, s: seq<Resident>, hour: nat)
    ensures KeptBuckets(p, s, hour) == BucketsOfProtected(p, s, hour, true)
    ensures ReclaimableBuckets(p, s, hour) == BucketsOfProtected(p, s, hour, false)
  {
    if s != [] {
      var front, r := s[..|s| - 1], s[|s| - 1];
      KeptExactly(p, front, hour);
      assert s == front + [r];
      LoadsSnoc(p, front, r, hour);
      MarkedSnoc(Loads(p, front, hour), Load(CanReclaim(p, r), ResidentBucket(r, hour)), false);
      MarkedSnoc(Loads(p, front, hour), Load(CanReclaim(p, r), ResidentBucket(r, hour)), true);
      ReclaimIffUnprotected(p, r);
    }
  }

  lemma ReclaimIffUnprotected(p: Profile, r: Resident)
    ensures CanReclaim(p, r) <==> !Protected(p, r)
  {
  }

  /**
    What a resident counts for at `hour`: its forecast's bucket, else its max in
    a window and its required budget outside, else its current usage or what it
    was assigned.
  */
  lemma ResidentBucketCases(r: Resident, hour: nat)
    ensures r.forecast.Some? && hour < |r.forecast.value| ==> ResidentBucket(r, hour) == r.forecast.value[hour]
    ensures r.forecast.None? || |r.forecast.value| <= hour ==>
              var b := ResidentBucket(r, hour);
              && (r.request.Some? ==>
                    b == OwnBucket(Profile(r.workloadType, r.priority, r.windows, r.request), hour))
              && (r.request.None? && r.current.Some? ==> b == r.current.value)
              && (r.request.None? && r.current.None? && r.resources.Some? ==> b == r.resources.value)
              && (r.request.None? && r.current.None? && r.resources.None? ==> b == ZERO)
  {
  }

  /** The capacity the check compares with: what is allocatable, or else what is available and in use together. */
  predicate CapacityIs(n: NodeStatus, capacity: Resource) {
    || n.allocatable == Some(capacity)
    || (n.allocatable.None? && n.available.Some? && n.inUse.Some? && capacity == Add(n.available.value, n.inUse.value))
  }

  /** The budget the check looks for first: the first of max, preferred and required that the request names. */
  predicate MaxIs(request: Option<Request>, budget: Resource) {
    if request.None? then budget == ZERO
    else
      && (request.value.maximum.Some? ==> budget == request.value.maximum.value)
      && (request.value.maximum.None? && request.value.preferred.Some? ==> budget == request.value.preferred.value)
      && (request.value.maximum.None? && request.value.preferred.None? ==> budget == RequiredOf(request))
  }

  /**
    The whole check in its own terms. It lets a workload pass unexamined if
    that is neither online nor hybrid, has no windows or asks for nothing, or
    if the node's capacity is unknown. Any other it admits exactly when the
    protected residents' buckets and its own fit that capacity in all 24 hours.
  */
  lemma CheckDecides(p: Profile, n: NodeStatus, budget: Resource)
    requires MaxIs(p.request, budget)
    ensures !FoldsTo(p.workloadType, "online") && !FoldsTo(p.workloadType, "hybrid") ==> Admits(p, n)
    ensures p.windows == [] || budget == ZERO || (forall c :: !CapacityIs(n, c)) ==> Admits(p, n)
    ensures (FoldsTo(p.workloadType, "online") || FoldsTo(p.workloadType, "hybrid")) && p.windows != [] &&
            budget != ZERO && ForecastsAreExact(p, n) ==>
            forall c :: CapacityIs(n, c) ==> (Admits(p, n) <==> ProtectedAlwaysFit(p, n, c))
  {
    assert budget == MaxOf(p.request);
    if EnvelopeCapacity(n).Some? { assert CapacityIs(n, EnvelopeCapacity(n).value); }
    forall c | CapacityIs(n, c) && EnvelopeApplies(p, n) && ForecastsAreExact(p, n)
      ensures Admits(p, n) <==> ProtectedAlwaysFit(p, n, c)
    {
      assert EnvelopeCapacity(n) == Some(c);
      EnvelopeIsExact(p, n);
      KeptIsProtected(p, n, c);
    }
  }

  /** In every hour the protected residents and the newcomer fit. */
  ghost predicate ProtectedAlwaysFit(p: Profile, n: NodeStatus, capacity: Resource) {
    forall hour :: 0 <= hour < HOURS ==> ProtectedFit(p, n, capacity, hour)
  }

  predicate ProtectedFit(p: Profile, n: NodeStatus, capacity: Resource, hour: nat) {
    Fits(Plus(Total(BucketsOfProtected(p, n.residents, hour, true)), OwnBucket(p, hour)), capacity)
  }

  lemma KeptIsProtected(p: Profile, n: NodeStatus, capacity: Resource)
    ensures KeptLoadAlwaysFits(p, n, capacity) <==> ProtectedAlwaysFit(p, n, capacity)
  {
    forall hour | 0 <= hour < HOURS ensures KeptLoadFits(p, n, capacity, hour) <==> ProtectedFit(p, n, capacity, hour) {
      KeptExactly(p, n.residents, hour);
    }
  }

  // ---- Where exactness ends ------------------------------------------------

  /** A sum in one dimension that fits `limit`, or is too large for an int32. */
  predicate FitsOrWraps(sum: int, limit: int) { sum <= limit || sum > INT32_MAX }

  predicate EachFitsOrWraps(sum: Resource, limit: Resource) {
    && FitsOrWraps(sum.gpuCount, limit.gpuCount)
    && FitsOrWraps(sum.gpuMemoryGiB, limit.gpuMemoryGiB)
    && FitsOrWraps(sum.kvCacheGiB, limit.kvCacheGiB)
    && FitsOrWraps(sum.prefillTps, limit.prefillTps)
    && FitsOrWraps(sum.decodeTps, limit.decodeTps)
    && FitsOrWraps(sum.totalTps, limit.totalTps)
  }

  lemma WrappedSumFits(a: int, b: int, limit: int)
    requires 0 <= a <= INT32_MAX && 0 <= b <= INT32_MAX && 0 <= limit <= INT32_MAX
    ensures Wrap32(a + b) <= limit <==> FitsOrWraps(a + b, limit)
  {
  }

  lemma AddFitsExactly(a: Resource, b: Resource, limit: Resource)
    requires IsBudget(a) && IsBudget(b) && IsBudget(limit)
    ensures Fits(Add(a, b), limit) <==> EachFitsOrWraps(Plus(a, b), limit)
    ensures EachFitsOrWraps(Plus(a, b), limit) && !Fits(Plus(a, b), limit) ==> !IsInt32(Plus(a, b))
  {
    WrappedSumFits(a.gpuCount, b.gpuCount, limit.gpuCount);
    WrappedSumFits(a.gpuMemoryGiB, b.gpuMemoryGiB, limit.gpuMemoryGiB);
    WrappedSumFits(a.kvCacheGiB, b.kvCacheGiB, limit.kvCacheGiB);
    WrappedSumFits(a.prefillTps, b.prefillTps, limit.prefillTps);
    WrappedSumFits(a.decodeTps, b.decodeTps, limit.decodeTps);
    WrappedSumFits(a.totalTps, b.totalTps, limit.totalTps);
  }

  /**
    Overflow, exactly: with nothing to reclaim, an hour passes if and only if
    every dimension of the load fits or is too large for an int32. So load is
    hidden precisely in the dimensions that overflow.
  */
  lemma OverflowHidesLoad(p: Profile, n: NodeStatus, capacity: Resource, hour: nat)
    requires IsBudget(NodeBucket(n, hour)) && IsBudget(OwnBucket(p, hour)) && IsBudget(capacity)
    requires IsZero(WrappedTotal(ReclaimableBuckets(p, n.residents, hour)))
    ensures HourAdmitted(p, n, capacity, hour) <==>
            EachFitsOrWraps(Plus(NodeBucket(n, hour), OwnBucket(p, hour)), capacity)
  {
    AddFitsExactly(NodeBucket(n, hour), OwnBucket(p, hour), capacity);
  }

  /**
    In one dimension, subtracting what is reclaimed (`all` less `kept`) from
    what is published leaves what is kept: the published load is the load, or
    it falls short where nothing is kept.
  */
  predicate PublishedAs(published: int, all: int, kept: int) { published == all || (published < all && kept == 0) }

  predicate EachPublishedAs(published: Resource, all: Resource, kept: Resource) {
    && PublishedAs(published.gpuCount, all.gpuCount, kept.gpuCount)
    && PublishedAs(published.gpuMemoryGiB, all.gpuMemoryGiB, kept.gpuMemoryGiB)
    && PublishedAs(published.kvCacheGiB, all.kvCacheGiB, kept.kvCacheGiB)
    && PublishedAs(published.prefillTps, all.prefillTps, kept.prefillTps)
    && PublishedAs(published.decodeTps, all.decodeTps, kept.decodeTps)
    && PublishedAs(published.totalTps, all.totalTps, kept.totalTps)
  }

  lemma ClampedDifference(published: int, own: int, kept: int, gone: int)
    requires 0 <= published && 0 <= own && 0 <= kept && 0 <= gone && InInt32(published + own) && InInt32(gone)
    ensures ClampNonNegative(Wrap32(Wrap32(published + own) - gone)) == kept + own <==>
            PublishedAs(published, kept + gone, kept + own)
  {
  }

  lemma SubtractionRestores(published: Resource, own: Resource, kept: Resource, gone: Resource)
    requires NonNegative(published) && NonNegative(own) && NonNegative(kept) && NonNegative(gone)
    requires IsInt32(Plus(published, own)) && IsInt32(gone)
    ensures Subtract(Add(published, own), gone) == Plus(kept, own) <==>
            EachPublishedAs(published, Plus(kept, gone), Plus(kept, own))
  {
    ClampedDifference(published.gpuCount, own.gpuCount, kept.gpuCount, gone.gpuCount);
    ClampedDifference(published.gpuMemoryGiB, own.gpuMemoryGiB, kept.gpuMemoryGiB, gone.gpuMemoryGiB);
    ClampedDifference(published.kvCacheGiB, own.kvCacheGiB, kept.kvCacheGiB, gone.kvCacheGiB);
    ClampedDifference(published.prefillTps, own.prefillTps, kept.prefillTps, gone.prefillTps);
    ClampedDifference(published.decodeTps, own.decodeTps, kept.decodeTps, gone.decodeTps);
    ClampedDifference(published.totalTps, own.totalTps, kept.totalTps, gone.totalTps);
  }

  lemma SubtractShrinks(total: Resource, gone: Resource, limit: Resource)
    requires IsBudget(total) && IsBudget(gone) && Fits(total, limit)
    ensures Fits(Subtract(total, gone), limit) && (IsZero(gone) ==> Subtract(total, gone) == total)
  {
  }

  /** Non-negative int32 loads throughout; nothing is assumed about how the published bucket relates to them. */
  predicate LoadsRepresentable(p: Profile, n: NodeStatus, hour: nat) {
    && LoadsNonNegative(Loads(p, n.residents, hour))
    && IsInt32(Total(AllBuckets(Loads(p, n.residents, hour))))
    && NonNegative(NodeBucket(n, hour)) && NonNegative(OwnBucket(p, hour))
    && IsInt32(Plus(NodeBucket(n, hour), OwnBucket(p, hour)))
  }

  /** What the reclaim arithmetic leaves of the published load, newcomer included. */
  function Remainder(p: Profile, n: NodeStatus, hour: nat): Resource {
    Subtract(Add(NodeBucket(n, hour), OwnBucket(p, hour)), WrappedTotal(ReclaimableBuckets(p, n.residents, hour)))
  }

  lemma LoadParts(p: Profile, n: NodeStatus, hour: nat)
    requires LoadsRepresentable(p, n, hour)
    ensures var kept, gone := Total(KeptBuckets(p, n.residents, hour)), Total(ReclaimableBuckets(p, n.residents, hour));
            && NonNegative(kept) && IsBudget(gone) && WrappedTotal(ReclaimableBuckets(p, n.residents, hour)) == gone
            && Total(AllBuckets(Loads(p, n.residents, hour))) == Plus(kept, gone)
  {
    var loads := Loads(p, n.residents, hour);
    MarkedPartsAddUp(loads);
    MarkedNonNegative(loads, false);
    MarkedNonNegative(loads, true);
    TotalNonNegative(Marked(loads, false));
    TotalNonNegative(Marked(loads, true));
    WrappedTotalIsExact(Marked(loads, true));
  }

  /** The hourly test is a test of the remainder. */
  lemma TestsTheRemainder(p: Profile, n: NodeStatus, capacity: Resource, hour: nat)
    requires LoadsRepresentable(p, n, hour)
    ensures HourAdmitted(p, n, capacity, hour) <==> Fits(Remainder(p, n, hour), capacity)
  {
    LoadParts(p, n, hour);
    var pub, own := NodeBucket(n, hour), OwnBucket(p, hour);
    AddIsExact(pub, own);
    var total, gone := Add(pub, own), WrappedTotal(ReclaimableBuckets(p, n.residents, hour));
    SubtractShrinks(total, gone, total);
    if Fits(total, capacity) { SubtractShrinks(total, gone, capacity); }
  }

  /** Two loads that fit the same capacities are equal. */
  lemma FitsDetermines(a: Resource, b: Resource)
    requires forall c :: Fits(a, c) <==> Fits(b, c)
    ensures a == b
  {
    assert Fits(a, a) && Fits(b, b);
    assert Fits(b, a) && Fits(a, b);
  }

  /**
    When the hourly test can be trusted, for every capacity: exactly when in
    each dimension the published bucket is the sum of the residents' buckets,
    or falls short of it where neither a kept resident nor the newcomer uses
    anything.
  */
  lemma HourTestAgreesExactly(p: Profile, n: NodeStatus, hour: nat)
    requires LoadsRepresentable(p, n, hour)
    ensures (forall capacity :: HourAdmitted(p, n, capacity, hour) <==> KeptLoadFits(p, n, capacity, hour)) <==>
            EachPublishedAs(NodeBucket(n, hour), Total(AllBuckets(Loads(p, n.residents, hour))),
                            Plus(Total(KeptBuckets(p, n.residents, hour)), OwnBucket(p, hour)))
  {
    LoadParts(p, n, hour);
    var kept, gone, own := Total(KeptBuckets(p, n.residents, hour)), Total(ReclaimableBuckets(p, n.residents, hour)),
        OwnBucket(p, hour);
    SubtractionRestores(NodeBucket(n, hour), own, kept, gone);
    var rest, load := Remainder(p, n, hour), Plus(kept, own);
    forall capacity ensures HourAdmitted(p, n, capacity, hour) <==> Fits(rest, capacity) {
      TestsTheRemainder(p, n, capacity, hour);
    }
    if forall capacity :: HourAdmitted(p, n, capacity, hour) <==> KeptLoadFits(p, n, capacity, hour) {
      forall c ensures Fits(rest, c) <==> Fits(load, c) {
        assert HourAdmitted(p, n, c, hour) <==> KeptLoadFits(p, n, c, hour);
      }
      FitsDetermines(rest, load);
    }
  }
}
