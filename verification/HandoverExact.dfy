/**
  When exactly the hand-over contract holds for workloads that rank below every resident:
  the planned residents' accepted budgets at that instant must stay within what
  the published status forecasts for the hour.
*/
module HandoverExact {
  import opened Text
  import opened Resources
  import opened Windows
  import opened Allocations
  import opened Ordering
  import opened Observation
  import opened Planner
  import opened PlannerProofs
  import opened Forecast
  import opened Envelope
  import opened Handover

  // ---- A newcomer that ranks below every resident --------------------------

  lemma {:induction false} HighOfAll(s: seq<Allocation>, k: int)
    requires RanksAtLeast(s, k)
    ensures High(s, k) == s && Low(s, k) == []
  {
    if s != [] {
      var front, x := s[..|s| - 1], s[|s| - 1];
      HighOfAll(front, k);
      assert Rank(x) >= k;
      assert front + [x] == s;
    }
  }

  lemma HighOfSnoc(s: seq<Allocation>, x: Allocation, k: int)
    requires RanksAtLeast(s, k) && Rank(x) < k
    ensures High(s + [x], k) == s && Low(s + [x], k) == [x]
  {
    HighOfAll(s, k);
    assert (s + [x])[..|s|] == s;
    assert s + [] == s && [] + [x] == [x];
  }

  /** The budgets accepted when only the residents are planned. */
  function Taken(node: Node, residents: seq<Allocation>, now: ZoneClock): Resource {
    AcceptedTotal(Plans(node, residents, now))
  }

  lemma OrderedLast(residents: seq<Allocation>, newcomer: Allocation, k: int, now: ZoneClock)
    requires RanksAtLeast(residents, k) && Rank(newcomer) < k
    ensures Order(residents + [newcomer], now) == Order(residents, now) + [newcomer]
  {
    HighOfSnoc(residents, newcomer, k);
    OrderSplitsByRank(residents + [newcomer], k, now);
    assert [newcomer][..0] == [];
    assert Order([newcomer], now) == [newcomer];
  }

  lemma WellFormedSnoc(s: seq<Allocation>, x: Allocation)
    requires AllWellFormed(s) && WellFormed(x)
    ensures AllWellFormed(s + [x])
  {
  }

  /** A newcomer below every resident is planned last, from what the residents alone leave. */
  lemma PlannedLast(node: Node, residents: seq<Allocation>, newcomer: Allocation, k: int, now: ZoneClock)
    requires Int32Node(node) && AllWellFormed(residents) && WellFormed(newcomer)
    requires RanksAtLeast(residents, k) && Rank(newcomer) < k
    ensures var plans := Plans(node, residents + [newcomer], now);
            && |plans| == |residents| + 1 && plans[|residents|].allocation == newcomer
            && (plans[|residents|].tier == RejectedTier
                <==> !Fits(Mandatory(newcomer, now), Minus(NodeCapacity(node), Taken(node, residents, now))))
  {
    var all, n := residents + [newcomer], |residents|;
    HighOfSnoc(residents, newcomer, k);
    OrderedLast(residents, newcomer, k, now);
    HighPartIsPrefix(node, all, k, now);
    WellFormedSnoc(residents, newcomer);
    PlanTiers(node, all, now, n);
  }

  /** A workload below rank `k` on which both sides agree. */
  ghost predicate NewcomerBelow(p: Profile, a: Allocation, k: int, now: ZoneClock, hour: nat)
    requires hour < HOURS
  {
    && EntryFor(a, p) && a.request.Some? && a.request.value.required.Some? && ReadAlike(p.windows)
    && WellFormed(a) && WithinHour(a, now, hour) && Rank(a) < k && PriorityRank(p.priority) < k
  }

  /** Every resident ranks `k` or above, on either side's reckoning. */
  predicate ResidentsFrom(s: seq<Allocation>, k: int) {
    RanksAtLeast(s, k) && forall i :: 0 <= i < |s| ==> RankAgrees(s[i])
  }

  /** A workload below every resident may reclaim from nobody. */
  lemma {:induction false} KeepsAllAbove(p: Profile, s: seq<Allocation>, k: int)
    requires PriorityRank(p.priority) < k && ResidentsFrom(s, k)
    ensures Kept(p, s) == s
  {
    if s != [] {
      var front, x := s[..|s| - 1], s[|s| - 1];
      KeepsAllAbove(p, front, k);
      assert Rank(x) >= k && RankAgrees(x);
      assert s == front + [x];
    }
  }

  /** What the residents published for `hour`. */
  function Forecasted(residents: seq<Allocation>, hour: nat): Resource { Total(BucketsOf(residents, hour)) }

  /** Residents whose grants stay within what the status forecasts leave room for every admitted newcomer. */
  lemma WithinForecastProtects(p: Profile, status: NodeStatus, node: Node, published: seq<Allocation>,
                               planned: seq<Allocation>,
                               newcomer: Allocation, k: int, now: ZoneClock, hour: nat)
    requires hour < HOURS && Int32Node(node) && Publishes(status, node, published)
    requires AllRecorded(published) && AllWellFormed(published) && ResidentsFrom(published, k)
    requires AllWellFormed(planned) && RanksAtLeast(planned, k)
    requires NewcomerBelow(p, newcomer, k, now, hour) && LoadRepresentable(p, published, hour)
    requires EnvelopeApplies(p, status) && Admits(p, status)
    requires Fits(Taken(node, planned, now), Forecasted(published, hour))
    ensures var plans := Plans(node, planned + [newcomer], now);
            |plans| == |planned| + 1 && plans[|planned|].tier != RejectedTier
  {
    PlannedLast(node, planned, newcomer, k, now);
    OwnBucketIsBucket(p, newcomer, hour);
    BucketIsBudget(newcomer, hour);
    AdmissionBoundsKept(p, status, node, published, hour);
    KeepsAllAbove(p, published, k);
    MandatoryIsBucket(newcomer, now, hour);
    CapacityCoversAllocatable(node, []);
    FitsInWhatIsLeft(NodeCapacity(node), node.allocatable.value, Taken(node, planned, now),
                     Forecasted(published, hour), OwnBucket(p, hour));
  }

  // ---- A probing workload --------------------------------------------------

  function DigitChar(d: int): char
    requires 0 <= d <= 9
  {
    '0' + d as char
  }

  function HourText(hour: nat): string
    requires hour < HOURS
  {
    [DigitChar(hour / 10), DigitChar(hour % 10), ':', '0', '0']
  }

  lemma TwoDigits(a: int, b: int)
    requires 0 <= a <= 9 && 0 <= b <= 9
    ensures AllDigits([DigitChar(a), DigitChar(b)]) && Decimal([DigitChar(a), DigitChar(b)]) == 10 * a + b
  {
    var s := [DigitChar(a), DigitChar(b)];
    assert s[..1] == [DigitChar(a)] && s[..1][..0] == "";
    assert Decimal(s[..1]) == a;
  }

  lemma HourTextReads(hour: nat)
    requires hour < HOURS
    ensures ClockShaped(HourText(hour)) && AgentMinute(HourText(hour)) == Some(hour * 60)
  {
    var s := HourText(hour);
    TwoDigits(hour / 10, hour % 10);
    TwoDigits(0, 0);
    assert s[..2] == [DigitChar(hour / 10), DigitChar(hour % 10)];
    assert s[3..] == [DigitChar(0), DigitChar(0)];
  }

  /** The window from `hour`:00 to the next full hour. */
  function HourWindow(hour: nat): TimeWindow
    requires hour < HOURS
  {
    TimeWindow("probe", HourText(hour), HourText((hour + 1) % HOURS), "")
  }

  lemma HourWindowReads(hour: nat)
    requires hour < HOURS
    ensures var w := HourWindow(hour);
            && CentralMinute(w.start) == AgentMinute(w.start) == Some(hour * 60)
            && CentralMinute(w.end) == AgentMinute(w.end) == Some((hour + 1) % HOURS * 60)
  {
    HourTextReads(hour);
    HourTextReads((hour + 1) % HOURS);
    ClockShapedReadsAlike(HourText(hour));
    ClockShapedReadsAlike(HourText((hour + 1) % HOURS));
  }

  lemma OneHourSpan(hour: nat, other: nat)
    requires hour < HOURS && other < HOURS
    ensures MinuteInWindow(other * 60, hour * 60, (hour + 1) % HOURS * 60) <==> other == hour
  {
  }

  lemma ContainsSingleton(w: TimeWindow, minute: int)
    ensures AgentContains([w], minute) <==> AgentWindowContains(w, minute)
  {
    assert w in [w];
  }

  lemma HourWindowContains(hour: nat, other: nat)
    requires hour < HOURS && other < HOURS
    ensures AgentContains([HourWindow(hour)], other * 60) <==> other == hour
  {
    HourWindowReads(hour);
    OneHourSpan(hour, other);
    ContainsSingleton(HourWindow(hour), other * 60);
  }

  /** A workload that asks for nothing outside one hour and for `budget` inside it. */
  function ProbeRequest(budget: Resource): Option<Request> { Some(Request(Some(ZERO), None, Some(budget))) }

  function ProbeProfile(hour: nat, budget: Resource): Profile
    requires hour < HOURS
  {
    Profile("online", "", [HourWindow(hour)], ProbeRequest(budget))
  }

  function Probe(hour: nat, budget: Resource): Allocation
    requires hour < HOURS
  {
    Allocation("", "probe", None, "", [], "online", "", [HourWindow(hour)], ProbeRequest(budget), None, None,
        Status("", None, None, None))
  }

  lemma ProbeWindowWithinHour(hour: nat, now: ZoneClock)
    requires hour < HOURS && now("") == hour * 60
    ensures NamedWindows([HourWindow(hour)]) && ClockShows([HourWindow(hour)], now, hour * 60)
            && ReadAlike([HourWindow(hour)])
  {
    HourWindowReads(hour);
    assert HourWindow(hour).name[0] == 'p';
  }

  lemma ProbeIsWellFormed(hour: nat, budget: Resource)
    requires hour < HOURS && IsBudget(budget)
    ensures WellFormed(Probe(hour, budget))
  {
  }

  lemma ProbeIsBelow(hour: nat, budget: Resource, k: int, now: ZoneClock)
    requires hour < HOURS && IsBudget(budget) && now("") == hour * 60 && 1 <= k
    ensures NewcomerBelow(ProbeProfile(hour, budget), Probe(hour, budget), k, now, hour)
  {
    ProbeWindowWithinHour(hour, now);
    ProbeIsWellFormed(hour, budget);
    UnknownPriorityRanksLowest();
  }

  lemma UnknownPriorityRanksLowest()
    ensures PriorityRank("") == 0
  {
    assert ToLower("") == "";
    NotInTable(PRIORITY_RANKS, "");
  }

  lemma {:induction false} NotInTable(table: seq<(string, int)>, priority: string)
    requires forall i :: 0 <= i < |table| ==> table[i].0 != priority
    ensures RankIn(table, priority) == 0
  {
    if table != [] { NotInTable(table[1..], priority); }
  }

  lemma ProbeBucket(hour: nat, budget: Resource, other: nat)
    requires hour < HOURS && other < HOURS
    ensures OwnBucket(ProbeProfile(hour, budget), other) == if other == hour && !IsZero(budget) then budget else ZERO
  {
    HourWindowContains(hour, other);
    HourWindowReads(hour);
    WindowListsAgree([HourWindow(hour)], other * 60);
  }

  lemma RestoreSum(capacity: Resource, load: Resource)
    ensures Plus(load, Minus(capacity, load)) == capacity && Plus(load, ZERO) == load
  {
  }

  /** At every hour the probe fits beside the residents, using all that is left in its own hour. */
  lemma ProbeHourAdmitted(status: NodeStatus, node: Node, residents: seq<Allocation>, hour: nat, other: nat)
    requires hour < HOURS && other < HOURS && Publishes(status, node, residents)
    requires AllRecorded(residents) && AllWellFormed(residents) && ResidentsFrom(residents, 1)
    requires IsBudget(node.allocatable.value)
    requires Fits(Forecasted(residents, hour), node.allocatable.value)
             && Fits(Forecasted(residents, other), node.allocatable.value)
    ensures HourAdmitted(ProbeProfile(hour, Minus(node.allocatable.value, Forecasted(residents, hour))), status,
            node.allocatable.value, other)
  {
    var capacity := node.allocatable.value;
    var budget := Minus(capacity, Forecasted(residents, hour));
    var p := ProbeProfile(hour, budget);
    ProbeBucket(hour, budget, other);
    RestoreSum(capacity, Forecasted(residents, hour));
    RestoreSum(capacity, Forecasted(residents, other));
    BucketsNonNegative(residents, other);
    TotalNonNegative(BucketsOf(residents, other));
    ProbeLoadRepresentable(Forecasted(residents, other), OwnBucket(p, other), capacity);
    PublishedForecastIsExact(p, status, node, residents, other);
    UnknownPriorityRanksLowest();
    KeepsAllAbove(p, residents, 1);
    KeptBucketsAreBuckets(p, residents, other);
    HourTestIsExact(p, status, capacity, other);
  }

  lemma ProbeLoadRepresentable(load: Resource, own: Resource, capacity: Resource)
    requires NonNegative(load) && NonNegative(own) && Fits(Plus(load, own), capacity) && IsInt32(capacity)
    ensures IsInt32(Plus(load, own))
  {
  }

  /** The residents' forecast fits the node at every hour. */
  predicate ForecastFits(node: Node, residents: seq<Allocation>)
    requires node.allocatable.Some?
  {
    forall hour :: 0 <= hour < HOURS ==> Fits(Forecasted(residents, hour), node.allocatable.value)
  }

  lemma ProbeAdmitted(p: Profile, status: NodeStatus, node: Node, residents: seq<Allocation>, hour: nat)
    requires hour < HOURS && Publishes(status, node, residents)
    requires AllRecorded(residents) && AllWellFormed(residents) && ResidentsFrom(residents, 1)
    requires IsBudget(node.allocatable.value) && ForecastFits(node, residents)
    requires p == ProbeProfile(hour, Minus(node.allocatable.value, Forecasted(residents, hour)))
    ensures AdmittedBefore(p, status, node.allocatable.value, HOURS)
  {
    forall other | 0 <= other < HOURS ensures HourAdmitted(p, status, node.allocatable.value, other) {
      ProbeHourAdmitted(status, node, residents, hour, other);
    }
    AdmittedIfEveryHour(p, status, node.allocatable.value, HOURS);
  }

  lemma OnlineIsOnline()
    ensures IsOnline("online")
  {
  }

  lemma ExcessLeavesRoom(taken: Resource, forecasted: Resource, capacity: Resource)
    requires Fits(taken, capacity) && !Fits(taken, forecasted)
    ensures !IsZero(Minus(capacity, forecasted))
    ensures !Fits(Minus(capacity, forecasted), Minus(capacity, taken))
  {
  }

  lemma ProbeMandatory(hour: nat, budget: Resource, now: ZoneClock)
    requires hour < HOURS && IsBudget(budget) && !IsZero(budget) && now("") == hour * 60
    ensures Mandatory(Probe(hour, budget), now) == budget
  {
    ProbeIsBelow(hour, budget, 1, now);
    MandatoryIsBucket(Probe(hour, budget), now, hour);
    HourWindowContains(hour, hour);
  }

  lemma BudgetLeft(capacity: Resource, load: Resource)
    requires IsBudget(capacity) && NonNegative(load) && Fits(load, capacity)
    ensures IsBudget(Minus(capacity, load))
  {
  }

  /** If the residents take more than the status forecasts, some admitted workload is rejected: this one. */
  lemma BeyondForecastBreaks(status: NodeStatus, node: Node, published: seq<Allocation>, planned: seq<Allocation>,
                             k: int, now: ZoneClock, hour: nat)
    requires hour < HOURS && Int32Node(node) && Publishes(status, node, published) && 1 <= k
    requires AllRecorded(published) && AllWellFormed(published) && ResidentsFrom(published, k)
    requires AllWellFormed(planned) && RanksAtLeast(planned, k)
    requires IsBudget(node.allocatable.value) && NodeCapacity(node) == node.allocatable.value
             && ForecastFits(node, published)
    requires now("") == hour * 60
    requires !Fits(Taken(node, planned, now), Forecasted(published, hour))
    ensures var budget := Minus(node.allocatable.value, Forecasted(published, hour));
            var p, newcomer := ProbeProfile(hour, budget), Probe(hour, budget);
            && NewcomerBelow(p, newcomer, k, now, hour) && LoadRepresentable(p, published, hour)
            && EnvelopeApplies(p, status) && Admits(p, status)
            && var plans := Plans(node, planned + [newcomer], now);
               |plans| == |planned| + 1 && plans[|planned|].tier == RejectedTier
  {
    var capacity := node.allocatable.value;
    var budget := Minus(capacity, Forecasted(published, hour));
    var p, newcomer := ProbeProfile(hour, budget), Probe(hour, budget);
    TakenFits(node, planned, now);
    ExcessLeavesRoom(Taken(node, planned, now), Forecasted(published, hour), capacity);
    BucketsNonNegative(published, hour);
    TotalNonNegative(BucketsOf(published, hour));
    BudgetLeft(capacity, Forecasted(published, hour));
    ProbeIsBelow(hour, budget, k, now);
    ProbeBucket(hour, budget, hour);
    RestoreSum(capacity, Forecasted(published, hour));
    ProbeAdmitted(p, status, node, published, hour);
    OnlineIsOnline();
    UnknownPriorityRanksLowest();
    PlannedLast(node, planned, newcomer, k, now);
    ProbeMandatory(hour, budget, now);
  }

  lemma TakenFits(node: Node, planned: seq<Allocation>, now: ZoneClock)
    requires Int32Node(node) && AllWellFormed(planned)
    ensures Fits(Taken(node, planned, now), NodeCapacity(node))
  {
    PlannerConserves(node, planned, now, |planned|);
    assert Plans(node, planned, now)[..|planned|] == Plans(node, planned, now);
  }

  /** Every admitted workload below rank `k` is accepted at `now`. */
  ghost predicate ContractHolds(status: NodeStatus, node: Node, published: seq<Allocation>, planned: seq<Allocation>,
                                k: int, now: ZoneClock, hour: nat)
    requires hour < HOURS
  {
    forall p: Profile, newcomer: Allocation ::
      NewcomerBelow(p, newcomer, k, now, hour) && LoadRepresentable(p, published, hour)
      && EnvelopeApplies(p, status) && Admits(p, status) ==>
        var plans := Plans(node, planned + [newcomer], now);
        |plans| == |planned| + 1 && plans[|planned|].tier != RejectedTier
  }

  /**
    The contract is exact: no admitted workload that ranks below all residents
    is rejected at `hour` if and only if what the planned residents alone are
    granted at that instant is within what the published ones forecast for the
    hour. The two lists need not be related.
  */
  lemma ContractHoldsExactly(status: NodeStatus, node: Node, published: seq<Allocation>, planned: seq<Allocation>,
                             k: int, now: ZoneClock, hour: nat)
    requires hour < HOURS && Int32Node(node) && Publishes(status, node, published) && 1 <= k
    requires AllRecorded(published) && AllWellFormed(published) && ResidentsFrom(published, k)
    requires AllWellFormed(planned) && RanksAtLeast(planned, k)
    requires IsBudget(node.allocatable.value) && NodeCapacity(node) == node.allocatable.value
             && ForecastFits(node, published)
    requires now("") == hour * 60
    ensures ContractHolds(status, node, published, planned, k, now, hour) <==>
            Fits(Taken(node, planned, now), Forecasted(published, hour))
  {
    if Fits(Taken(node, planned, now), Forecasted(published, hour)) {
      forall p: Profile, newcomer: Allocation |
        NewcomerBelow(p, newcomer, k, now, hour) && LoadRepresentable(p, published, hour)
        && EnvelopeApplies(p, status) && Admits(p, status)
        ensures var plans := Plans(node, planned + [newcomer], now);
                |plans| == |planned| + 1 && plans[|planned|].tier != RejectedTier
      {
        WithinForecastProtects(p, status, node, published, planned, newcomer, k, now, hour);
      }
    } else {
      BeyondForecastBreaks(status, node, published, planned, k, now, hour);
    }
  }

  // ---- The condition on the resident itself --------------------------------

  /** Outside its windows, a preferred budget beyond the required one can be granted. */
  predicate GrantsBeyondRequired(node: Node, a: Allocation, now: ZoneClock) {
    && !IsActive(a, now) && !Fits(PreferredBudget(a), RequiredBudget(a))
    && Fits(RequiredBudget(a), NodeCapacity(node)) && Fits(PreferredBudget(a), NodeCapacity(node))
    && Grantable(node, PreferredBudget(a))
  }

  lemma LoneForecast(a: Allocation, hour: nat)
    ensures Forecasted([a], hour) == Bucket(a, hour)
  {
    assert [a][..0] == [];
    assert BucketsOf([a], hour) == [Bucket(a, hour)];
    TotalSingleton(Bucket(a, hour));
  }

  lemma GrantExceeds(a: Allocation, now: ZoneClock, capacity: Resource)
    requires WellFormed(a)
    ensures !Fits(Grant(a, now, IsActive(a, now), capacity), Mandatory(a, now)) <==>
            !IsActive(a, now) && Fits(PreferredBudget(a), capacity) && !Fits(PreferredBudget(a), RequiredBudget(a))
    ensures !Fits(Grant(a, now, IsActive(a, now), capacity), Mandatory(a, now)) ==>
            Grant(a, now, IsActive(a, now), capacity) == PreferredBudget(a) && Mandatory(a, now) == RequiredBudget(a)
    ensures NonNegative(Mandatory(a, now))
  {
  }

  /** When a lone resident exceeds its forecast, in terms of its own budgets and windows. */
  lemma LoneResidentExceedsExactly(node: Node, a: Allocation, now: ZoneClock, hour: nat)
    requires hour < HOURS && Int32Node(node) && WellFormed(a) && WithinHour(a, now, hour)
    ensures !Fits(Taken(node, [a], now), Forecasted([a], hour)) <==> GrantsBeyondRequired(node, a, now)
  {
    LoneForecast(a, hour);
    MandatoryIsBucket(a, now, hour);
    LoneAccepted(node, a, now);
    LoneGrantExceeds(node, a, now);
  }

  lemma LoneGrantExceeds(node: Node, a: Allocation, now: ZoneClock)
    requires WellFormed(a)
    ensures !Fits(LoneGrant(node, a, now), Mandatory(a, now)) <==> GrantsBeyondRequired(node, a, now)
  {
    GrantExceeds(a, now, NodeCapacity(node));
  }

  /** So one resident whose preferred budget exceeds its required one is enough to break the contract. */
  lemma LoneResidentBreaksContract(status: NodeStatus, node: Node, a: Allocation, k: int, now: ZoneClock, hour: nat)
    requires hour < HOURS && Int32Node(node) && Publishes(status, node, [a]) && 1 <= k <= Rank(a) && RankAgrees(a)
    requires Recorded(a) && WellFormed(a) && WithinHour(a, now, hour) && now("") == hour * 60
    requires IsBudget(node.allocatable.value) && NodeCapacity(node) == node.allocatable.value && ForecastFits(node, [a])
    ensures ContractHolds(status, node, [a], [a], k, now, hour) <==> !GrantsBeyondRequired(node, a, now)
  {
    LoneResidentExceedsExactly(node, a, now, hour);
    ContractHoldsExactly(status, node, [a], [a], k, now, hour);
  }

  // An instance: on four GPUs, a resident that needs one, prefers two, and is granted two.

  function PreferringSpec(): Allocation {
    Allocation("", "resident", None, "", [], "online", "high", [], Some(Request(Some(Gpus(1)), Some(Gpus(2)), None)),
        None, None, Status("", None, None, None))
  }

  /** The same, as recorded by the agent. */
  function PreferringResident(): Allocation {
    PreferringSpec().(status := Status("Applied", Some(Gpus(2)), Some(Gpus(2)), Some(HourlyForecast(PreferringSpec()))))
  }

  function FourGpuNode(): Node { RoomyNode(Gpus(4)) }

  lemma FourGpuCapacity()
    ensures NodeCapacity(FourGpuNode()) == Gpus(4) && Int32Node(FourGpuNode())
  {
  }

  lemma PreferringBudgets()
    ensures var a := PreferringResident();
            && RequiredBudget(a) == Gpus(1) && PreferredBudget(a) == Gpus(2) && MaxBudget(a) == Gpus(2)
                 && a.windows == []
            && a.priority == "high" && PriorityOf(a) == "high"
  {
  }

  lemma PreferringIsRecorded()
    ensures Recorded(PreferringResident())
  {
    ForecastIgnoresStatus(PreferringSpec(), PreferringResident().status, HOURS);
    NamesFold();
  }

  lemma GpuBudget(n: int)
    requires 0 <= n <= INT32_MAX
    ensures IsBudget(Gpus(n)) && !NeedsTokens(Gpus(n))
  {
  }

  lemma PreferringIsGrantable(node: Node)
    requires node == FourGpuNode()
    ensures Grantable(node, Gpus(2))
  {
  }

  /** Without windows every hour is as good as another. */
  lemma WindowlessWithinHour(a: Allocation, now: ZoneClock, hour: nat)
    requires hour < HOURS && a.windows == []
    ensures WithinHour(a, now, hour) && !IsActive(a, now) && !AgentContains(a.windows, hour * 60)
  {
    var minute: Minute := hour * 60;
    assert ClockShows(a.windows, now, minute) && minute / 60 == hour;
  }

  lemma PreferringResidentFacts(node: Node, now: ZoneClock, hour: nat)
    requires hour < HOURS && node == FourGpuNode()
    ensures var a := PreferringResident();
            && WellFormed(a) && WithinHour(a, now, hour) && Rank(a) == 3 && RankAgrees(a)
            && GrantsBeyondRequired(node, a, now) && Forecasted([a], hour) == Gpus(1)
  {
    var a := PreferringResident();
    PreferringBudgets();
    GpuBudget(1);
    GpuBudget(2);
    WindowlessWithinHour(a, now, hour);
    NamedRanks();
    FourGpuCapacity();
    PreferringIsGrantable(node);
    GpusFit(1, 4);
    GpusFit(2, 4);
    GpusFit(2, 1);
    LoneForecast(a, hour);
  }

  /**
    The contract broken, concretely: with that resident on the node, a
    workload asking for the three GPUs its forecast leaves is admitted by the
    envelope at every hour and rejected by the planner.
  */
  lemma PreferringResidentBreaksContract(status: NodeStatus, now: ZoneClock, hour: nat)
    requires hour < HOURS && now("") == hour * 60 && Publishes(status, FourGpuNode(), [PreferringResident()])
    ensures var p, newcomer := ProbeProfile(hour, Gpus(3)), Probe(hour, Gpus(3));
            && EnvelopeApplies(p, status) && Admits(p, status)
            && var plans := Plans(FourGpuNode(), [PreferringResident()] + [newcomer], now);
               |plans| == 2 && plans[1].tier == RejectedTier
  {
    var node, a := FourGpuNode(), PreferringResident();
    PreferringResidentFacts(node, now, hour);
    PreferringIsRecorded();
    FourGpuCapacity();
    LoneResidentExceedsExactly(node, a, now, hour);
    PreferringFits(node, now);
    LoneRecorded(a);
    LoneResidentLists(a, 1);
    RejectsRest(status, node, [a], [a], now, hour, 4, 1);
  }

  /** A workload for what the status leaves at `hour`, when the planned residents take more than it shows. */
  lemma AdmittedAndRejected(status: NodeStatus, node: Node, published: seq<Allocation>, planned: seq<Allocation>,
                            now: ZoneClock, hour: nat, budget: Resource)
    requires hour < HOURS && Int32Node(node) && Publishes(status, node, published) && now("") == hour * 60
    requires AllRecorded(published) && AllWellFormed(published) && ResidentsFrom(published, 1)
    requires AllWellFormed(planned) && RanksAtLeast(planned, 1)
    requires IsBudget(node.allocatable.value) && NodeCapacity(node) == node.allocatable.value
             && ForecastFits(node, published)
    requires !Fits(Taken(node, planned, now), Forecasted(published, hour))
    requires budget == Minus(node.allocatable.value, Forecasted(published, hour))
    ensures var p, newcomer := ProbeProfile(hour, budget), Probe(hour, budget);
            && EnvelopeApplies(p, status) && Admits(p, status)
            && var plans := Plans(node, planned + [newcomer], now);
               |plans| == |planned| + 1 && plans[|planned|].tier == RejectedTier
  {
    BeyondForecastBreaks(status, node, published, planned, 1, now, hour);
  }

  /** In GPUs: `c` of them on the node, `f` forecast, and the planned residents hold more than that. */
  lemma RejectsRest(status: NodeStatus, node: Node, published: seq<Allocation>, planned: seq<Allocation>,
                    now: ZoneClock, hour: nat, c: int, f: int)
    requires hour < HOURS && now("") == hour * 60 && 0 <= f <= c <= INT32_MAX
    requires Int32Node(node) && node.allocatable == Some(Gpus(c)) && NodeCapacity(node) == Gpus(c)
    requires AllRecorded(published) && Publishes(status, node, published) && ForecastFits(node, published)
    requires AllWellFormed(published) && ResidentsFrom(published, 1) && AllWellFormed(planned)
             && RanksAtLeast(planned, 1)
    requires !Fits(Taken(node, planned, now), Forecasted(published, hour)) && Forecasted(published, hour) == Gpus(f)
    ensures var p, newcomer := ProbeProfile(hour, Gpus(c - f)), Probe(hour, Gpus(c - f));
            && EnvelopeApplies(p, status) && Admits(p, status)
            && var plans := Plans(node, planned + [newcomer], now);
               |plans| == |planned| + 1 && plans[|planned|].tier == RejectedTier
  {
    GpuBudget(c);
    GpusMinus(c, f);
    AdmittedAndRejected(status, node, published, planned, now, hour, Gpus(c - f));
  }

  lemma LoneRecorded(a: Allocation)
    requires Recorded(a)
    ensures AllRecorded([a])
  {
  }

  lemma LoneResidentLists(a: Allocation, k: int)
    requires WellFormed(a) && Rank(a) >= k && RankAgrees(a)
    ensures AllWellFormed([a]) && RanksAtLeast([a], k) && ResidentsFrom([a], k)
  {
  }

  lemma PreferringFits(node: Node, now: ZoneClock)
    requires node == FourGpuNode()
    ensures ForecastFits(node, [PreferringResident()]) && IsBudget(Gpus(4))
  {
    forall hour | 0 <= hour < HOURS ensures Fits(Forecasted([PreferringResident()], hour), Gpus(4)) {
      PreferringResidentFacts(node, now, hour);
      GpusFit(1, 4);
    }
    GpuBudget(4);
  }

  // ---- The contract in use -------------------------------------------------

  /** What AdmittedIsNotRejected asks of the residents, with preferred budgets within required ones. */
  ghost predicate SteadyResidents(residents: seq<Allocation>, now: ZoneClock, hour: nat) {
    && AllRecorded(residents) && AllWellFormed(residents) && Canonical(residents) && AllWithinHour(residents, now, hour)
    && ResidentsFrom(residents, 1)
    && forall i :: 0 <= i < |residents| ==> Fits(PreferredBudget(residents[i]), RequiredBudget(residents[i]))
  }

  lemma ProbeRank(hour: nat, budget: Resource)
    requires hour < HOURS
    ensures Rank(Probe(hour, budget)) == 0 && RankAgrees(Probe(hour, budget))
  {
    UnknownPriorityRanksLowest();
  }

  lemma CanonicalWithProbe(residents: seq<Allocation>, x: Allocation)
    requires Canonical(residents) && RanksAtLeast(residents, 1) && Rank(x) == 0
    ensures Canonical(residents + [x])
  {
    var all := residents + [x];
    forall i, j | 0 <= i < |all| && 0 <= j < |all| && Rank(all[i]) == Rank(all[j])
      ensures PriorityOf(all[i]) == PriorityOf(all[j])
    {
      assert i < |residents| ==> all[i] == residents[i];
      assert j < |residents| ==> all[j] == residents[j];
    }
  }

  lemma ProbeSetting(residents: seq<Allocation>, now: ZoneClock, hour: nat, budget: Resource)
    requires hour < HOURS && SteadyResidents(residents, now, hour) && now("") == hour * 60 && IsBudget(budget)
    requires LoadRepresentable(ProbeProfile(hour, budget), residents, hour)
    ensures HandoverSetting(ProbeProfile(hour, budget), Probe(hour, budget), residents, residents, now, hour)
  {
    var x := Probe(hour, budget);
    var all := residents + [x];
    ProbeIsBelow(hour, budget, 1, now);
    ProbeRank(hour, budget);
    CanonicalWithProbe(residents, x);
    WellFormedSnoc(residents, x);
    forall i | 0 <= i < |all| ensures WithinHour(all[i], now, hour) && RankAgrees(all[i]) {
      if i < |residents| { assert all[i] == residents[i]; }
    }
  }

  /**
    Whatever steady residents' forecasts leave of the node at an hour can be
    handed out in full: a workload asking for all of it is admitted by the
    envelope, meets every assumption of the contract, and is not rejected.
  */
  lemma RemainderCanBePlaced(status: NodeStatus, node: Node, residents: seq<Allocation>, now: ZoneClock, hour: nat)
    requires hour < HOURS && Int32Node(node) && Publishes(status, node, residents)
             && SteadyResidents(residents, now, hour)
    requires IsBudget(node.allocatable.value) && ForecastFits(node, residents) && now("") == hour * 60
    requires !IsZero(Minus(node.allocatable.value, Forecasted(residents, hour)))
    ensures var budget := Minus(node.allocatable.value, Forecasted(residents, hour));
            var p, newcomer := ProbeProfile(hour, budget), Probe(hour, budget);
            && EnvelopeApplies(p, status) && Admits(p, status)
            && HandoverSetting(p, newcomer, residents, residents, now, hour)
            && var plans := Plans(node, residents + [newcomer], now);
               |plans| == |residents| + 1 && plans[|residents|].allocation == newcomer
                   && plans[|residents|].tier != RejectedTier
  {
    var capacity := node.allocatable.value;
    var budget := Minus(capacity, Forecasted(residents, hour));
    var p, newcomer := ProbeProfile(hour, budget), Probe(hour, budget);
    BucketsNonNegative(residents, hour);
    TotalNonNegative(BucketsOf(residents, hour));
    BudgetLeft(capacity, Forecasted(residents, hour));
    ProbeBucket(hour, budget, hour);
    RestoreSum(capacity, Forecasted(residents, hour));
    ProbeAdmitted(p, status, node, residents, hour);
    OnlineIsOnline();
    ProbeSetting(residents, now, hour, budget);
    ProbeRank(hour, budget);
    OrderedLast(residents, newcomer, 1, now);
    AdmittedIsNotRejected(p, status, node, residents, residents, newcomer, now, hour, |residents|);
  }
}
