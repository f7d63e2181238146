/** Concrete four-GPU nodes on which the promises fail: an unapplied resident, a hidden ledger, a stuck workload. */
module Scenarios {
  import opened Text
  import opened Resources
  import opened Windows
  import opened Allocations
  import opened Ordering
  import opened Observation
  import opened Planner
  import opened PlannerProofs
  import opened Forecast
  import opened Envelope
  import opened Handover
  import opened HandoverExact
  import opened StatusLedger
  import opened Reconcile
  import opened ReconcileProofs
  import opened PassFailures

  /** A ledger that lists `workloads` and records `statuses`. */
  function LedgerWith(own: Allocation, workloads: seq<WorkloadSpec>, phase: string,
                      statuses: seq<WorkloadStatus>): NodeLedger {
    NodeLedger(own, "", "ledger", None, "", workloads, phase, statuses)
  }

  // ---- Two workloads on four GPUs ------------------------------------------

  /** `a` requires and prefers `required` GPUs and takes up to `maximum`, at a named priority. */
  predicate Asks(a: Allocation, priority: string, required: int, maximum: int) {
    && RequiredBudget(a) == Gpus(required) && PreferredBudget(a) == Gpus(required) && MaxBudget(a) == Gpus(maximum)
    && PriorityOf(a) == priority && a.priority == priority
  }

  lemma AsksWell(a: Allocation, priority: string, required: int, maximum: int)
    requires Asks(a, priority, required, maximum) && 0 <= required <= INT32_MAX && 0 <= maximum <= INT32_MAX
    ensures WellFormed(a) && Rank(a) == PriorityRank(priority) && RankAgrees(a)
  {
    GpuBudget(required);
    GpuBudget(maximum);
  }

  /**
    What such a workload is granted of `left` GPUs: all of its maximum while
    active, its required budget otherwise, or nothing.
  */
  function GpusGranted(active: bool, required: int, maximum: int, left: int): int {
    var wanted := if active && maximum != 0 then maximum else required;
    if wanted <= left then wanted else 0
  }

  lemma AskedGrant(a: Allocation, priority: string, required: int, maximum: int, now: ZoneClock, left: int)
    requires Asks(a, priority, required, maximum)
    ensures var wanted := if IsActive(a, now) && maximum != 0 then maximum else required;
            Mandatory(a, now) == Gpus(wanted) && Grant(a, now, IsActive(a, now), Gpus(left)) == Gpus(wanted)
  {
    GpusFit(maximum, left);
    GpusFit(required, left);
  }

  lemma AskedPlan(a: Allocation, priority: string, required: int, maximum: int, now: ZoneClock, left: int, p: Plan)
    requires Asks(a, priority, required, maximum) && 0 < required <= 4 && 0 <= maximum <= 4 && left <= 4
    requires PlannedFrom(FourGpuNode(), a, now, Gpus(left), p)
    ensures p.granted == Gpus(GpusGranted(IsActive(a, now), required, maximum, left))
    ensures Accepted(p) <==> GpusGranted(IsActive(a, now), required, maximum, left) != 0
    ensures p.allocation == a && p.action == (if Accepted(p) then Apply else FallbackFor(a))
  {
    var wanted := if IsActive(a, now) && maximum != 0 then maximum else required;
    AskedGrant(a, priority, required, maximum, now, left);
    GpusFit(wanted, left);
    GpusFit(wanted, 4);
    GpusFit(0, 0);
    GpuBudget(4);
    RoomyNodeGrants(Gpus(4), Gpus(wanted));
  }

  lemma FourGpuFacts()
    ensures Int32Node(FourGpuNode()) && NodeCapacity(FourGpuNode()) == Gpus(4) && IsBudget(Gpus(4))
  {
    GpuBudget(4);
    GpusFit(4, 4);
    RoomyNodeGrants(Gpus(4), Gpus(4));
  }

  /** What two such workloads are planned as, the second from what the first leaves. */
  predicate SharedFour(s: seq<Allocation>, required: int, maximum: int, flat: int, now: ZoneClock, plans: seq<Plan>) {
    && |s| == 2 && |plans| == 2 && plans[0].allocation == s[0] && plans[1].allocation == s[1]
    && var first := GpusGranted(IsActive(s[0], now), required, maximum, 4);
       var second := GpusGranted(IsActive(s[1], now), flat, flat, 4 - first);
       && plans[0].granted == Gpus(first) && (Accepted(plans[0]) <==> first != 0)
       && plans[1].granted == Gpus(second) && (Accepted(plans[1]) <==> second != 0)
       && plans[1].action == (if Accepted(plans[1]) then Apply else FallbackFor(s[1]))
  }

  lemma TwoInTurn(s: seq<Allocation>, priority: string, required: int, maximum: int, other: string, flat: int,
                  now: ZoneClock, plans: seq<Plan>)
    requires |s| == 2 && Asks(s[0], priority, required, maximum) && Asks(s[1], other, flat, flat)
    requires 0 < required <= 4 && 0 <= maximum <= 4 && 0 < flat <= 4
    requires PlannedInTurn(FourGpuNode(), s, now, plans)
    ensures SharedFour(s, required, maximum, flat, now, plans)
  {
    FourGpuFacts();
    AskedPlan(s[0], priority, required, maximum, now, 4, plans[0]);
    var first := GpusGranted(IsActive(s[0], now), required, maximum, 4);
    RestOfFour(plans[0], first);
    AskedPlan(s[1], other, flat, flat, now, 4 - first, plans[1]);
  }

  /** The plans of two such workloads, the second below the first. */
  lemma TwoOnFour(s: seq<Allocation>, priority: string, required: int, maximum: int, other: string, flat: int,
                  now: ZoneClock)
    requires |s| == 2 && Asks(s[0], priority, required, maximum) && Asks(s[1], other, flat, flat)
    requires PriorityRank(priority) > PriorityRank(other)
    requires 0 < required <= 4 && 0 <= maximum <= 4 && 0 < flat <= 4
    ensures SharedFour(s, required, maximum, flat, now, Plans(FourGpuNode(), s, now))
  {
    FourGpuFacts();
    AsksWell(s[0], priority, required, maximum);
    AsksWell(s[1], other, flat, flat);
    PairPlans(FourGpuNode(), s, now);
    TwoInTurn(s, priority, required, maximum, other, flat, now, Plans(FourGpuNode(), s, now));
  }

  lemma RestOfFour(p: Plan, first: int)
    requires p.granted == Gpus(first) && (Accepted(p) <==> first != 0)
    ensures Minus(Gpus(4), AcceptedPart(p)) == Gpus(4 - first)
  {
    GpusFit(first, first);
  }

  // ---- The active peer comes first -----------------------------------------

  lemma ActiveFirst(s: seq<Allocation>, a: Allocation, b: Allocation, now: ZoneClock)
    requires (s == [a, b] || s == [b, a]) && Rank(a) == Rank(b) && IsActive(a, now) && !IsActive(b, now)
    ensures Order(s, now) == [a, b]
  {
    PlannedInOrder(s, now, 0, 1);
    OrderIsPermutation(s, now);
    assert multiset(s) == multiset{a, b};
    PairPermutes(Order(s, now), a, b);
  }

  /**
    Of two workloads of one priority, whichever is listed first, the one inside
    its window is planned first: it gets its max of four GPUs, and its inactive
    peer is rejected.
  */
  lemma ActivePeerComesFirst(s: seq<Allocation>, a: Allocation, b: Allocation, now: ZoneClock)
    requires (s == [a, b] || s == [b, a]) && Asks(a, "high", 1, 4) && Asks(b, "high", 2, 2)
    requires IsActive(a, now) && !IsActive(b, now)
    ensures var plans := Plans(FourGpuNode(), s, now);
            && |plans| == 2 && plans[0].allocation == a && plans[1].allocation == b
            && Accepted(plans[0]) && plans[0].tier == MaxTier && plans[0].granted == Gpus(4)
            && plans[1].tier == RejectedTier && !Accepted(plans[1])
  {
    var node := FourGpuNode();
    AsksWell(a, "high", 1, 4);
    AsksWell(b, "high", 2, 2);
    FourGpuFacts();
    ActiveFirst(s, a, b, now);
    var x := PlanIs(node, s, now, 0);
    var y := PlanIs(node, s, now, 1);
    MaxThenNothing(a, b, now, Plans(node, s, now), x, y);
  }

  lemma MaxThenNothing(a: Allocation, b: Allocation, now: ZoneClock, plans: seq<Plan>, x: bool, y: bool)
    requires Asks(a, "high", 1, 4) && Asks(b, "high", 2, 2) && IsActive(a, now) && !IsActive(b, now) && |plans| == 2
    requires PlannedAs(FourGpuNode(), a, now, x, Left(FourGpuNode(), plans, 0), plans[0])
    requires PlannedAs(FourGpuNode(), b, now, y, Left(FourGpuNode(), plans, 1), plans[1])
    ensures Accepted(plans[0]) && plans[0].tier == MaxTier && plans[0].granted == Gpus(4)
    ensures plans[1].tier == RejectedTier && !Accepted(plans[1])
  {
    FourGpuFacts();
    LeftOfTwo(FourGpuNode(), plans);
    AllOfFour(a, now, x, plans[0]);
    GpusMinus(4, 4);
    NothingOfNone(b, now, y, plans[1]);
  }

  lemma AllOfFour(a: Allocation, now: ZoneClock, peers: bool, p: Plan)
    requires MaxBudget(a) == Gpus(4) && IsActive(a, now) && PlannedAs(FourGpuNode(), a, now, peers, Gpus(4), p)
    ensures Accepted(p) && p.tier == MaxTier && p.granted == Gpus(4)
  {
    GpusFit(4, 4);
    RoomyNodeGrants(Gpus(4), Gpus(4));
  }

  lemma NothingOfNone(b: Allocation, now: ZoneClock, peers: bool, p: Plan)
    requires RequiredBudget(b) == Gpus(2) && !IsActive(b, now) && PlannedAs(FourGpuNode(), b, now, peers, Gpus(0), p)
    ensures p.tier == RejectedTier && !Accepted(p)
  {
    GpusFit(2, 0);
  }

  /** A spec that requires `required` GPUs and takes up to `maximum`. */
  function Asking(name: string, priority: string, windows: seq<TimeWindow>, required: int, maximum: int,
                  actions: Option<Actions>): WorkloadSpec {
    WorkloadSpec(name, "online", priority, windows, Some(Request(Some(Gpus(required)), None, Some(Gpus(maximum)))),
        None, None, actions)
  }

  lemma AskingAsks(l: NodeLedger, name: string, priority: string, windows: seq<TimeWindow>, required: int,
                   maximum: int, actions: Option<Actions>)
    requires priority != ""
    ensures var a := ExpandOne(l, Asking(name, priority, windows, required, maximum, actions));
            Asks(a, priority, required, maximum) && a.windows == windows && a.actions == actions && OwnName(a) == name
  {
  }

  lemma TwoListed(l: NodeLedger)
    requires Serving(l) && |l.workloads| == 2
    ensures Listed(l) == [ExpandOne(l, l.workloads[0]), ExpandOne(l, l.workloads[1])]
  {
    ExpandedAt(l, l.workloads, 0);
    ExpandedAt(l, l.workloads, 1);
  }

  // ---- A refused workload stops the pass -----------------------------------

  function FreshLedger(own: Allocation): NodeLedger {
    LedgerWith(own, [Asking("a", "high", [], 1, 1, None), Asking("b", "low", [], 1, 1, None)], "", [])
  }

  lemma FreshPlans(own: Allocation, now: ZoneClock, l: NodeLedger)
    requires l == FreshLedger(own)
    ensures var plans := PassPlans(FourGpuNode(), l, now);
            && |plans| == 2 && Accepted(plans[0]) && Accepted(plans[1])
            && OwnName(plans[0].allocation) == "a" && OwnName(plans[1].allocation) == "b"
            && !UpToDate(plans[0]) && plans[0].granted == Gpus(1)
  {
    NamedRanks();
    AskingAsks(l, "a", "high", [], 1, 1, None);
    AskingAsks(l, "b", "low", [], 1, 1, None);
    TwoListed(l);
    TwoOnFour(Listed(l), "high", 1, 1, "low", 1, now);
  }

  lemma FirstRefused(plans: seq<Plan>, world: World)
    requires |plans| == 2 && Accepted(plans[0]) && !UpToDate(plans[0])
    requires (forall name, phase :: world.update(name, phase) == Written) && !world.apply(OwnName(plans[0].allocation))
    ensures FailsFirst(plans, world, 0) && HandedNames(plans[..1], world) == [OwnName(plans[0].allocation)]
    ensures Mentions(plans[..1], OwnName(plans[1].allocation)) ==>
            OwnName(plans[0].allocation) == OwnName(plans[1].allocation)
  {
    assert plans[..1] == [plans[0]] && plans[..1][..0] == [];
    assert HandedNames([], world) == [];
  }

  /**
    Both workloads are accepted. The backend refuses `a`, so the pass stops
    there: `a` is recorded as failed, and `b` is neither handed over nor
    recorded.
  */
  lemma RefusedWorkloadStopsPass(own: Allocation, now: ZoneClock, world: World)
    requires world.sync == Synced && (forall name, phase :: world.update(name, phase) == Written)
    requires !world.apply("a") && world.apply("b")
    ensures var pass := PassIn(FourGpuNode(), FreshLedger(own), now, world);
            && !pass.ok && pass.store.applied == ["a"] && pass.store.nodeWrites == 1
            && Lookup(pass.store.statuses, "b") == None
            && var e := Lookup(pass.store.statuses, "a");
               e.Some? && e.value.phase == "Failed" && e.value.applied == Some(Gpus(1))
  {
    FreshPlans(own, now, FreshLedger(own));
    assert "a" != "b" by { assert "a"[0] != "b"[0]; }
    StopsAtFirst(FourGpuNode(), FreshLedger(own), now, world, "a", "b");
  }

  lemma StopsAtFirst(node: Node, l: NodeLedger, now: ZoneClock, world: World, a: string, b: string)
    requires world.sync == Synced && (forall name, phase :: world.update(name, phase) == Written) && !world.apply(a)
    requires l.statuses == [] && a != b
    requires var plans := PassPlans(node, l, now);
             && |plans| == 2 && Accepted(plans[0]) && !UpToDate(plans[0])
             && OwnName(plans[0].allocation) == a && OwnName(plans[1].allocation) == b
    ensures OnlyFirstRefused(PassIn(node, l, now, world), PassPlans(node, l, now), a, b)
  {
    FirstRefused(PassPlans(node, l, now), world);
    PassStopsAtFirstFailure(node, l, now, world, 0);
    RefusedLeaves(PassIn(node, l, now, world), l, PassPlans(node, l, now), world, a, b);
  }

  predicate OnlyFirstRefused(pass: Attempt, plans: seq<Plan>, a: string, b: string) {
    && plans != [] && !pass.ok && pass.store.applied == [a] && pass.store.nodeWrites == 1
    && Lookup(pass.store.statuses, b) == None && LeftAs(pass.store, plans[0], "Failed")
  }

  lemma RefusedLeaves(pass: Attempt, l: NodeLedger, plans: seq<Plan>, world: World, a: string, b: string)
    requires |plans| == 2 && l.statuses == [] && StoppedAt(pass, l, plans, world, 0) && a != b
    requires Accepted(plans[0]) && !UpToDate(plans[0]) && !world.apply(a)
    requires forall name, phase :: world.update(name, phase) == Written
    requires OwnName(plans[0].allocation) == a && OwnName(plans[1].allocation) == b
    ensures OnlyFirstRefused(pass, plans, a, b)
  {
    FirstRefused(plans, world);
    FailedPlanLeftAs(pass, l, plans, world, 0);
    assert AsListed(pass.store, l.statuses, b);
  }

  // ---- A release hides an applied workload ---------------------------------

  /** `a` holds all four GPUs, as recorded; `b` wants one and may be evicted. */
  function CrowdedLedger(own: Allocation, forecast: seq<Resource>): NodeLedger {
    LedgerWith(own, [Asking("a", "high", [], 4, 4, None), Asking("b", "low", [], 1, 1, Some(EVICTABLE))], "Applied",
               [WorkloadStatus("a", "Applied", Some(Gpus(4)), Some(forecast))])
  }

  lemma CrowdedStatuses(own: Allocation, forecast: seq<Resource>)
    ensures var l := CrowdedLedger(own, forecast);
            && Settled(ExpandOne(l, l.workloads[0]).status, Gpus(4))
            && ExpandOne(l, l.workloads[1]).status == BLANK
  {
    var s := CrowdedLedger(own, forecast).statuses;
    IndexIs(s, "a", 0);
    assert "a" != "b" by { assert "a"[0] != "b"[0]; }
    IndexIs(s, "b", 1);
  }

  lemma CrowdedPlans(own: Allocation, forecast: seq<Resource>, now: ZoneClock)
    ensures var l := CrowdedLedger(own, forecast);
            var plans := PassPlans(FourGpuNode(), l, now);
            && |plans| == 2
            && plans[0].allocation == ExpandOne(l, l.workloads[0]) && Accepted(plans[0]) && plans[0].granted == Gpus(4)
            && plans[1].allocation == ExpandOne(l, l.workloads[1]) && !Accepted(plans[1])
                 && plans[1].granted == Gpus(0) && plans[1].action == Evict
  {
    var l := CrowdedLedger(own, forecast);
    NamedRanks();
    AskingAsks(l, "a", "high", [], 4, 4, None);
    AskingAsks(l, "b", "low", [], 1, 1, Some(EVICTABLE));
    TwoListed(l);
    TwoOnFour(Listed(l), "high", 4, 4, "low", 1, now);
  }

  lemma ReleaseHasLastWord(plans: seq<Plan>, world: World)
    requires |plans| == 2 && LastWord(plans[1], world) == Some("Released")
    ensures ReleasesLast(plans, world, 1)
  {
  }

  /**
    An eviction's release hides a workload that is applied and stays planned
    up to then: once `b` is migrated away, no later pass plans `a` again.
  */
  lemma ReleaseHidesAppliedWorkload(own: Allocation, forecast: seq<Resource>, now: ZoneClock, later: ZoneClock,
                                    world: World)
    requires Smooth(world) && world.migrate("b") == Finished
    ensures var l := CrowdedLedger(own, forecast);
            var after := WithStatus(l, PassIn(FourGpuNode(), l, now, world).store);
            && after.phase == "Released" && after.workloads == l.workloads
                 && PassPlans(FourGpuNode(), after, later) == []
  {
    var node, l := FourGpuNode(), CrowdedLedger(own, forecast);
    var plans := PassPlans(node, l, now);
    CrowdedStatuses(own, forecast);
    CrowdedPlans(own, forecast, now);
    assert OwnName(plans[1].allocation) == "b";
    ReleaseHasLastWord(plans, world);
    LedgerHiddenExactly(node, l, now, world);
    PlanCount(node, [], later);
  }

  // ---- A workload that is never brought up to date -------------------------

  /** Both are recorded with one GPU; `y` has since come to require two. */
  function StaleLedger(own: Allocation, forecast: seq<Resource>): NodeLedger {
    LedgerWith(own, [Asking("x", "high", [], 1, 1, None), Asking("y", "low", [], 2, 2, None)], "Applied",
               [WorkloadStatus("x", "Applied", Some(Gpus(1)), Some(forecast)),
                   WorkloadStatus("y", "Applied", Some(Gpus(1)), Some(forecast))])
  }

  lemma StalePosition(own: Allocation, forecast: seq<Resource>)
    ensures var s := StaleLedger(own, forecast).statuses; !OwnUpdates(s, "y") && Lookup(s, "y") == Some(s[1])
  {
    var s := StaleLedger(own, forecast).statuses;
    assert "x" != "y" by { assert "x"[0] != "y"[0]; }
    IndexIs(s, "y", 1);
  }

  /** Every pass grants `y` two GPUs; the ledger goes on saying one, whatever happens in however many passes. */
  lemma StaleWorkloadStaysStale(own: Allocation, forecast: seq<Resource>, now: ZoneClock, ticks: seq<Tick>)
    ensures var plans := PassPlans(FourGpuNode(), StaleLedger(own, forecast), now);
            |plans| == 2 && OwnName(plans[1].allocation) == "y" && Accepted(plans[1]) && plans[1].granted == Gpus(2)
    ensures Lookup(AfterPasses(StaleLedger(own, forecast), ticks).statuses, "y") ==
            Some(WorkloadStatus("y", "Applied", Some(Gpus(1)), Some(forecast)))
  {
    var l := StaleLedger(own, forecast);
    NamedRanks();
    AskingAsks(l, "x", "high", [], 1, 1, None);
    AskingAsks(l, "y", "low", [], 2, 2, None);
    TwoListed(l);
    TwoOnFour(Listed(l), "high", 1, 1, "low", 2, now);
    StalePosition(own, forecast);
    NeverBroughtUpToDate(l, ticks, "y");
  }

  // ---- A resident the status leaves out ------------------------------------

  /** `a` takes all four GPUs during one hour and one otherwise; `b` wants three. */
  function RivalLedger(own: Allocation, hour: nat): NodeLedger
    requires hour < HOURS
  {
    LedgerWith(own, [Asking("a", "high", [HourWindow(hour)], 1, 4, None), Asking("b", "medium", [], 3, 3, None)], "",
        [])
  }

  lemma ActiveInItsHour(a: Allocation, hour: nat, now: ZoneClock, other: nat)
    requires hour < HOURS && other < HOURS && a.windows == [HourWindow(hour)] && now("") == other * 60
    ensures IsActive(a, now) <==> other == hour
    ensures WithinHour(a, now, other)
  {
    HourWindowContains(hour, other);
    assert HourWindow(hour).name[0] == 'p';
    var minute: Minute := other * 60;
    assert ClockShows(a.windows, now, minute) && minute / 60 == other;
    ActiveIsMembership(a.windows, now, minute);
  }

  lemma RivalFacts(l: NodeLedger, own: Allocation, hour: nat)
    requires hour < HOURS && l == RivalLedger(own, hour).(statuses := l.statuses, phase := l.phase)
             && l.phase != "Released"
    ensures |l.workloads| == 2 && Serving(l) && DistinctSpecs(l.workloads) && |Listed(l)| == 2
    ensures var s := Listed(l);
            && s == [ExpandOne(l, l.workloads[0]), ExpandOne(l, l.workloads[1])]
            && Asks(s[0], "high", 1, 4) && s[0].windows == [HourWindow(hour)] && OwnName(s[0]) == "a"
            && Asks(s[1], "medium", 3, 3) && s[1].windows == [] && s[1].actions == None && OwnName(s[1]) == "b"
  {
    assert "a" != "b" by { assert "a"[0] != "b"[0]; }
    AskingAsks(l, "a", "high", [HourWindow(hour)], 1, 4, None);
    AskingAsks(l, "b", "medium", [], 3, 3, None);
    TwoListed(l);
  }

  /** In its hour `a` is granted everything and `b` is turned away; at any other hour they share the node. */
  lemma RivalPlans(s: seq<Allocation>, hour: nat, now: ZoneClock, other: nat)
    requires hour < HOURS && other < HOURS && |s| == 2 && Asks(s[0], "high", 1, 4) && s[0].windows == [HourWindow(hour)]
    requires Asks(s[1], "medium", 3, 3) && s[1].windows == [] && s[1].actions == None && now("") == other * 60
    ensures var plans := Plans(FourGpuNode(), s, now);
            && |plans| == 2 && plans[0].allocation == s[0] && plans[1].allocation == s[1] && Accepted(plans[0])
            && plans[0].granted == Gpus(if other == hour then 4 else 1)
            && (Accepted(plans[1]) <==> other != hour) && plans[1].granted == Gpus(if other == hour then 0 else 3)
            && plans[1].action == Apply
  {
    NamedRanks();
    ActiveInItsHour(s[0], hour, now, other);
    assert !IsActive(s[1], now);
    TwoOnFour(s, "high", 1, 4, "medium", 3, now);
  }

  lemma {:induction false} TwoEntries(plans: seq<Plan>)
    requires |plans| == 2 && Accepted(plans[0]) && !Accepted(plans[1]) && plans[1].action == Apply
    requires OwnName(plans[0].allocation) == "a" && OwnName(plans[1].allocation) == "b"
    ensures var s := Entries(plans);
            && Lookup(s, "a") == Some(EntryOf(plans[0], "Applied"))
                 && Lookup(s, "b") == Some(EntryOf(plans[1], "Failed"))
  {
    var s := Entries(plans);
    EntryAt(plans, 0);
    EntryAt(plans, 1);
    assert "a" != "b" by { assert "a"[0] != "b"[0]; }
    IndexIs(s, "a", 0);
    IndexIs(s, "b", 1);
  }

  lemma AppliedOfTwo(x: Allocation, y: Allocation)
    requires x.status.phase == "Applied" && y.status.phase != "Applied"
    ensures AppliedOnly([x, y]) == [x]
  {
    assert [x, y][..1] == [x] && [x][..0] == [];
    assert AppliedOnly([x]) == [x];
  }

  /** The pass in `a`'s hour, and what the status shows after it: `a` alone. */
  lemma RivalPass(own: Allocation, hour: nat, now: ZoneClock) returns (m: NodeLedger)
    requires hour < HOURS && now("") == hour * 60
    ensures var l := RivalLedger(own, hour);
            && m == AfterPass(FourGpuNode(), l, now) && m == l.(statuses := m.statuses, phase := m.phase)
                 && m.phase != "Released"
    ensures |Listed(m)| == 2 && Refreshed(FourGpuNode(), RivalLedger(own, hour), now) == [Listed(m)[0]]
            && Recorded(Listed(m)[0])
  {
    var node, l := FourGpuNode(), RivalLedger(own, hour);
    m := AfterPass(node, l, now);
    RivalFacts(l, own, hour);
    RivalPlans(Listed(l), hour, now, hour);
    var plans := PassPlans(node, l, now);
    FreshPassEntries(node, l, now);
    TwoEntries(plans);
    RivalPhase(l, plans);
    RivalFacts(m, own, hour);
    RecordedFrom(l, m, l.workloads[0], plans[0]);
    assert "Failed"[0] != "Applied"[0];
    AppliedOfTwo(Listed(m)[0], Listed(m)[1]);
  }

  lemma RivalPhase(l: NodeLedger, plans: seq<Plan>)
    requires l.statuses == [] && |plans| == 2 && !Accepted(plans[1]) && plans[1].action == Apply
    requires plans[1].allocation.status == BLANK || plans[1].allocation.status.phase != "Applied"
    ensures ApplyPlans(Opening(l), l.statuses, plans).phase == "Failed" && "Failed" != "Released"
  {
    assert plans[..1] + [plans[1]] == plans;
    assert "Failed"[0] != "Released"[0];
  }

  lemma RivalTaken(s: seq<Allocation>, hour: nat, now: ZoneClock, other: nat)
    requires hour < HOURS && other < HOURS && other != hour && |s| == 2 && Asks(s[0], "high", 1, 4)
             && s[0].windows == [HourWindow(hour)]
    requires Asks(s[1], "medium", 3, 3) && s[1].windows == [] && s[1].actions == None && now("") == other * 60
    ensures Taken(FourGpuNode(), s, now) == Gpus(4) && Forecasted([s[0]], other) == Gpus(1)
  {
    RivalPlans(s, hour, now, other);
    TotalOfTwo(Plans(FourGpuNode(), s, now), 1, 3);
    ActiveInItsHour(s[0], hour, now, other);
    MandatoryIsBucket(s[0], now, other);
    AskedGrant(s[0], "high", 1, 4, now, 4);
    LoneForecast(s[0], other);
  }

  lemma TotalOfTwo(plans: seq<Plan>, a: int, b: int)
    requires |plans| == 2 && Accepted(plans[0]) && Accepted(plans[1]) && plans[0].granted == Gpus(a)
             && plans[1].granted == Gpus(b)
    requires InInt32(a + b)
    ensures AcceptedTotal(plans) == Gpus(a + b)
  {
    assert plans == [plans[0]] + [plans[1]];
    LoneTotal(plans[0]);
    AcceptedTotalSnoc([plans[0]], plans[1]);
    GpusAdd(a, b);
  }

  lemma RivalForecast(a: Allocation, hour: nat, other: nat)
    requires hour < HOURS && other < HOURS && Asks(a, "high", 1, 4) && a.windows == [HourWindow(hour)]
    ensures Forecasted([a], other) == Gpus(if other == hour then 4 else 1)
  {
    HourWindowContains(hour, other);
    LoneForecast(a, other);
    GpusFit(4, 4);
  }

  lemma RivalForecastFits(a: Allocation, hour: nat, node: Node)
    requires hour < HOURS && Asks(a, "high", 1, 4) && a.windows == [HourWindow(hour)] && node == FourGpuNode()
    ensures ForecastFits(node, [a])
  {
    forall other | 0 <= other < HOURS ensures Fits(Forecasted([a], other), Gpus(4)) {
      RivalForecast(a, hour, other);
      GpusFit(1, 4);
      GpusFit(4, 4);
    }
  }

  /**
    The contract broken by the refreshed status, which shows applied residents
    only. In `a`'s hour `b` is turned away and recorded as failed, so the status
    left by that pass shows `a` alone. At any other hour both fit and take the
    whole node, while the status forecasts one GPU: a workload for the other
    three is admitted, and rejected by the planner.
  */
  lemma UnappliedResidentBreaksContract(own: Allocation, status: NodeStatus, world: World, first: ZoneClock,
                                        next: ZoneClock, hour: nat, other: nat)
    requires hour < HOURS && other < HOURS && other != hour && first("") == hour * 60 && next("") == other * 60
             && Calm(world)
    requires var shown := PassIn(FourGpuNode(), RivalLedger(own, hour), first, world).store.shown;
             shown.Some? && Publishes(status, FourGpuNode(), shown.value)
    ensures var l := RivalLedger(own, hour);
            var m := WithStatus(l, PassIn(FourGpuNode(), l, first, world).store);
            var p, newcomer := ProbeProfile(other, Gpus(3)), Probe(other, Gpus(3));
            && EnvelopeApplies(p, status) && Admits(p, status) && |Listed(m)| == 2
            && var plans := Plans(FourGpuNode(), Listed(m) + [newcomer], next);
               |plans| == 3 && plans[2].tier == RejectedTier
  {
    RivalIsCalm(own, hour, first, world);
    var m := RivalPass(own, hour, first);
    RivalFacts(m, own, hour);
    RivalRejects(status, Listed(m), hour, next, other);
  }

  /** The two residents of the rival ledger. */
  predicate Rivals(s: seq<Allocation>, hour: nat)
    requires hour < HOURS
  {
    && |s| == 2
    && Asks(s[0], "high", 1, 4) && s[0].windows == [HourWindow(hour)]
    && Asks(s[1], "medium", 3, 3) && s[1].windows == [] && s[1].actions == None
  }

  lemma RivalRejects(status: NodeStatus, s: seq<Allocation>, hour: nat, next: ZoneClock, other: nat)
    requires hour < HOURS && other < HOURS && other != hour && next("") == other * 60
    requires Rivals(s, hour) && Recorded(s[0]) && Publishes(status, FourGpuNode(), [s[0]])
    ensures var p, newcomer := ProbeProfile(other, Gpus(3)), Probe(other, Gpus(3));
            && EnvelopeApplies(p, status) && Admits(p, status)
            && var plans := Plans(FourGpuNode(), s + [newcomer], next);
               |plans| == 3 && plans[2].tier == RejectedTier
  {
    RivalTaken(s, hour, next, other);
    RivalForecastFits(s[0], hour, FourGpuNode());
    RivalResidents(s);
    FourGpuFacts();
    LoneRecorded(s[0]);
    GpusFit(4, 1);
    RejectsRest(status, FourGpuNode(), [s[0]], s, next, other, 4, 1);
  }

  lemma RanksFrom(a: Allocation, priority: string, required: int, maximum: int, k: int)
    requires Asks(a, priority, required, maximum) && 0 <= required <= INT32_MAX && 0 <= maximum <= INT32_MAX
    requires PriorityRank(priority) >= k
    ensures WellFormed(a) && Rank(a) >= k && RankAgrees(a)
  {
    AsksWell(a, priority, required, maximum);
  }

  lemma ResidentLists(s: seq<Allocation>, k: int)
    requires |s| == 2 && WellFormed(s[0]) && WellFormed(s[1]) && Rank(s[0]) >= k && Rank(s[1]) >= k && RankAgrees(s[0])
    ensures AllWellFormed(s) && RanksAtLeast(s, k) && AllWellFormed([s[0]]) && ResidentsFrom([s[0]], k)
  {
  }

  lemma RivalResidents(s: seq<Allocation>)
    requires |s| == 2 && Asks(s[0], "high", 1, 4) && Asks(s[1], "medium", 3, 3)
    ensures AllWellFormed(s) && RanksAtLeast(s, 1) && AllWellFormed([s[0]]) && ResidentsFrom([s[0]], 1)
  {
    NamedRanks();
    RanksFrom(s[0], "high", 1, 4, 1);
    RanksFrom(s[1], "medium", 3, 3, 1);
    ResidentLists(s, 1);
  }

  lemma RivalIsCalm(own: Allocation, hour: nat, now: ZoneClock, world: World)
    requires hour < HOURS && now("") == hour * 60 && Calm(world)
    ensures var node, l := FourGpuNode(), RivalLedger(own, hour);
            && PassIn(node, l, now, world).store.shown == Some(Refreshed(node, l, now))
            && WithStatus(l, PassIn(node, l, now, world).store) == AfterPass(node, l, now)
  {
    var node, l := FourGpuNode(), RivalLedger(own, hour);
    RivalFacts(l, own, hour);
    RivalPlans(Listed(l), hour, now, hour);
    var plans := PassPlans(node, l, now);
    forall i | 0 <= i < |plans| ensures NoRelease(plans[i], world) { assert i == 0 || i == 1; }
    CalmPass(node, l, now, world);
  }
}
