/** Convergence of the agent's passes, and what the recorded totals say about the planner's books. */
module ReconcileProofs {
  import opened Text
  import opened Resources
  import opened Windows
  import opened Allocations
  import opened Ordering
  import opened Observation
  import opened Planner
  import opened PlannerProofs
  import opened Forecast
  import opened StatusLedger
  import opened Reconcile

  // ---- Planning does not look at the status --------------------------------

  function Strip(a: Allocation): Allocation { a.(status := BLANK) }

  function StripAll(s: seq<Allocation>): (r: seq<Allocation>)
    ensures |r| == |s|
  {
    if s == [] then [] else StripAll(s[..|s| - 1]) + [Strip(s[|s| - 1])]
  }

  lemma StripSnoc(s: seq<Allocation>, x: Allocation)
    ensures StripAll(s + [x]) == StripAll(s) + [Strip(x)]
  {
    assert (s + [x])[..|s|] == s;
  }

  lemma StripLast(s: seq<Allocation>)
    requires s != []
    ensures StripAll(s)[|s| - 1] == Strip(s[|s| - 1]) && StripAll(s)[..|s| - 1] == StripAll(s[..|s| - 1])
  {
  }

  lemma BeforeIgnoresStatus(a: Allocation, b: Allocation, now: ZoneClock)
    ensures Before(Strip(a), Strip(b), now) == Before(a, b, now)
  {
  }

  lemma {:induction false} InsertStrips(s: seq<Allocation>, x: Allocation, now: ZoneClock)
    ensures Insert(StripAll(s), Strip(x), now) == StripAll(Insert(s, x, now))
  {
    if s == [] {
      StripSnoc(s, x);
    } else {
      var front, last := s[..|s| - 1], s[|s| - 1];
      StripLast(s);
      BeforeIgnoresStatus(x, last, now);
      if Before(x, last, now) {
        InsertStrips(front, x, now);
        StripSnoc(Insert(front, x, now), last);
      } else {
        StripSnoc(s, x);
      }
    }
  }

  lemma {:induction false} OrderStrips(s: seq<Allocation>, now: ZoneClock)
    ensures Order(StripAll(s), now) == StripAll(Order(s, now))
  {
    if s != [] {
      OrderStrips(s[..|s| - 1], now);
      StripLast(s);
      InsertStrips(Order(s[..|s| - 1], now), s[|s| - 1], now);
    }
  }

  function StripGroups(g: seq<Group>): (r: seq<Group>)
    ensures |r| == |g|
  {
    if g == [] then [] else StripGroups(g[..|g| - 1]) + [StripAll(g[|g| - 1])]
  }

  lemma StripGroupsSnoc(g: seq<Group>, x: Group)
    ensures StripGroups(g + [x]) == StripGroups(g) + [StripAll(x)]
  {
    assert (g + [x])[..|g|] == g;
  }

  lemma ExtendStrips(g: seq<Group>, x: Allocation, join: bool)
    ensures Extend(StripGroups(g), Strip(x), join) == StripGroups(Extend(g, x, join))
  {
    if join && g != [] {
      var front, last := g[..|g| - 1], g[|g| - 1];
      assert StripGroups(g)[..|g| - 1] == StripGroups(front);
      StripSnoc(last, x);
      StripGroupsSnoc(front, last + [x]);
    } else {
      assert StripAll([x]) == [Strip(x)] by { assert [x][..0] == []; }
      StripGroupsSnoc(g, [x]);
    }
  }

  lemma {:induction false} GroupsStrip(s: seq<Allocation>)
    ensures Groups(StripAll(s)) == StripGroups(Groups(s))
  {
    if s != [] {
      var front, x := s[..|s| - 1], s[|s| - 1];
      GroupsStrip(front);
      StripLast(s);
      if front != [] { StripLast(front); }
      assert Joins(StripAll(front), Strip(x)) == Joins(front, x);
      ExtendStrips(Groups(front), x, Joins(front, x));
    }
  }

  function StripItems(s: seq<Item>): (r: seq<Item>)
    ensures |r| == |s|
  {
    if s == [] then [] else StripItems(s[..|s| - 1]) + [Item(Strip(s[|s| - 1].allocation), s[|s| - 1].groupActive)]
  }

  lemma {:induction false} StripItemsConcat(a: seq<Item>, b: seq<Item>)
    ensures StripItems(a + b) == StripItems(a) + StripItems(b)
  {
    if b == [] {
      assert a + b == a;
    } else {
      assert (a + b)[..|a + b| - 1] == a + b[..|b| - 1];
      StripItemsConcat(a, b[..|b| - 1]);
    }
  }

  lemma {:induction false} TagGroupStrips(g: Group, active: bool)
    ensures TagGroup(StripAll(g), active) == StripItems(TagGroup(g, active))
  {
    if g != [] {
      var front, x := g[..|g| - 1], g[|g| - 1];
      TagGroupStrips(front, active);
      StripLast(g);
      assert (TagGroup(front, active) + [Item(x, active)])[..|front|] == TagGroup(front, active);
    }
  }

  lemma {:induction false} StripAt(s: seq<Allocation>, i: nat)
    requires i < |s|
    ensures StripAll(s)[i] == Strip(s[i])
  {
    if i < |s| - 1 { StripAt(s[..|s| - 1], i); }
  }

  lemma AnyActiveStrips(g: Group, now: ZoneClock)
    ensures AnyActive(StripAll(g), now) == AnyActive(g, now)
  {
    forall i | 0 <= i < |g| ensures IsActive(StripAll(g)[i], now) == IsActive(g[i], now) { StripAt(g, i); }
    if AnyActive(g, now) {
      var i :| 0 <= i < |g| && IsActive(g[i], now);
      assert IsActive(StripAll(g)[i], now);
    }
  }

  lemma {:induction false} TagStrips(g: seq<Group>, now: ZoneClock)
    ensures Tag(StripGroups(g), now) == StripItems(Tag(g, now))
  {
    if g != [] {
      var front, last := g[..|g| - 1], g[|g| - 1];
      TagStrips(front, now);
      TagSnoc(StripGroups(front), StripAll(last), now);
      AnyActiveStrips(last, now);
      TagGroupStrips(last, AnyActive(last, now));
      StripItemsConcat(Tag(front, now), TagGroup(last, AnyActive(last, now)));
    }
  }

  function StripPlan(p: Plan): Plan { p.(allocation := Strip(p.allocation)) }

  function StripPlans(s: seq<Plan>): (r: seq<Plan>)
    ensures |r| == |s|
  {
    if s == [] then [] else StripPlans(s[..|s| - 1]) + [StripPlan(s[|s| - 1])]
  }

  lemma StepStrips(node: Node, state: NodeState, b: Books, a: Allocation, now: ZoneClock, groupActive: bool)
    ensures var (books, plan) := PlanStep(node, state, b, a, now, groupActive);
            PlanStep(node, state, b, Strip(a), now, groupActive) == (books, StripPlan(plan))
  {
    assert DemandOf(Strip(a), now, groupActive) == DemandOf(a, now, groupActive);
    assert AllocationKey(Strip(a)) == AllocationKey(a);
    assert FallbackFor(Strip(a)) == FallbackFor(a);
  }

  lemma StripPlansSnoc(s: seq<Plan>, p: Plan)
    ensures StripPlans(s + [p]) == StripPlans(s) + [StripPlan(p)]
  {
    assert (s + [p])[..|s|] == s;
  }

  lemma AdvanceStrips(node: Node, state: NodeState, o: Outcome, item: Item, now: ZoneClock)
    ensures var after := Advance(node, state, o, item, now);
            Advance(node, state, Outcome(o.books, StripPlans(o.plans)), Item(Strip(item.allocation), item.groupActive),
                now) ==
            Outcome(after.books, StripPlans(after.plans))
  {
    StepStrips(node, state, o.books, item.allocation, now, item.groupActive);
    StripPlansSnoc(o.plans, PlanStep(node, state, o.books, item.allocation, now, item.groupActive).1);
  }

  lemma {:induction false} RunStrips(node: Node, state: NodeState, b: Books, items: seq<Item>, now: ZoneClock)
    ensures var o := Run(node, state, b, items, now);
            Run(node, state, b, StripItems(items), now) == Outcome(o.books, StripPlans(o.plans))
  {
    if items != [] {
      var front, item := items[..|items| - 1], items[|items| - 1];
      RunStrips(node, state, b, front, now);
      RunSnoc(node, state, b, StripItems(front), Item(Strip(item.allocation), item.groupActive), now);
      AdvanceStrips(node, state, Run(node, state, b, front, now), item, now);
    }
  }

  /** The plans for stripped allocations are the stripped plans. */
  lemma PlansStrip(node: Node, s: seq<Allocation>, now: ZoneClock)
    ensures Plans(node, StripAll(s), now) == StripPlans(Plans(node, s, now))
  {
    OrderStrips(s, now);
    GroupsStrip(Order(s, now));
    TagStrips(Groups(Order(s, now)), now);
    var x, y := Observe(node, Order(s, now)), Observe(node, Order(StripAll(s), now));
    ObservedCapacityIgnoresAllocations(node, Order(s, now), Order(StripAll(s), now));
    var start := Opened(CapacityOf(x));
    RunStrips(node, x, start, Items(s, now), now);
    RunReadsOnlyCapacities(node, x, y, start, Items(StripAll(s), now), now);
  }

  lemma {:induction false} StripPlanAt(s: seq<Plan>, i: nat)
    requires i < |s|
    ensures StripPlans(s)[i] == StripPlan(s[i])
  {
    if i < |s| - 1 { StripPlanAt(s[..|s| - 1], i); }
  }

  /** Lists that differ only in status get the same plans, position by position, up to that status. */
  lemma PlansIgnoreStatus(node: Node, s: seq<Allocation>, t: seq<Allocation>, now: ZoneClock)
    requires StripAll(s) == StripAll(t)
    ensures |Plans(node, s, now)| == |Plans(node, t, now)|
    ensures forall i :: 0 <= i < |Plans(node, s, now)| ==>
            StripPlan(Plans(node, s, now)[i]) == StripPlan(Plans(node, t, now)[i])
  {
    PlansStrip(node, s, now);
    PlansStrip(node, t, now);
    forall i | 0 <= i < |Plans(node, s,
        now)| ensures StripPlan(Plans(node, s, now)[i]) == StripPlan(Plans(node, t, now)[i]) {
      StripPlanAt(Plans(node, s, now), i);
      StripPlanAt(Plans(node, t, now), i);
    }
  }

  lemma {:induction false} ExpansionStrips(l: NodeLedger, m: NodeLedger, workloads: seq<WorkloadSpec>)
    requires m == l.(statuses := m.statuses, phase := m.phase)
    ensures StripAll(ExpandPart(l, workloads)) == StripAll(ExpandPart(m, workloads))
  {
    if workloads != [] {
      var front, w := workloads[..|workloads| - 1], workloads[|workloads| - 1];
      ExpansionStrips(l, m, front);
      StripSnoc(ExpandPart(l, front), ExpandOne(l, w));
      StripSnoc(ExpandPart(m, front), ExpandOne(m, w));
    }
  }

  // ---- Who is planned ------------------------------------------------------

  lemma PlanAllocation(node: Node, s: seq<Allocation>, now: ZoneClock, i: nat)
    requires i < |s|
    ensures |Plans(node, s, now)| == |s| && Plans(node, s, now)[i].allocation == Order(s, now)[i]
  {
    var state := Observe(node, Order(s, now));
    ItemAllocations(s, now, i);
    PlanAt(node, state, Opened(CapacityOf(state)), Items(s, now), i, now);
  }

  predicate DistinctSpecs(workloads: seq<WorkloadSpec>) {
    forall i, j :: 0 <= i < j < |workloads| ==> workloads[i].name != workloads[j].name
  }

  lemma {:induction false} CountOfDistinct<T>(s: seq<T>, x: T)
    requires forall i, j :: 0 <= i < j < |s| ==> s[i] != s[j]
    ensures multiset(s)[x] <= 1
  {
    if s != [] {
      var front, last := s[..|s| - 1], s[|s| - 1];
      CountOfDistinct(front, x);
      MultisetOfSnoc(s);
      assert last !in front;
    }
  }

  lemma CountOfRepeated<T>(s: seq<T>, i: nat, j: nat)
    requires i < j < |s| && s[i] == s[j]
    ensures multiset(s)[s[i]] >= 2
  {
    assert s == s[..j] + s[j..];
    assert s[..j][i] in multiset(s[..j]) && s[j..][0] in multiset(s[j..]);
  }

  lemma PermutedDistinct<T>(s: seq<T>, t: seq<T>, i: nat, j: nat)
    requires multiset(s) == multiset(t) && i < j < |t|
    requires forall i, j :: 0 <= i < j < |s| ==> s[i] != s[j]
    ensures t[i] != t[j]
  {
    CountOfDistinct(s, t[i]);
    if t[i] == t[j] { CountOfRepeated(t, i, j); }
  }

  /** Plan `i` is for one of the specified workloads, with its status as listed. */
  lemma PlannedWorkload(node: Node, l: NodeLedger, now: ZoneClock, i: nat) returns (k: nat)
    requires Serving(l) && i < |l.workloads|
    ensures k < |l.workloads| && |PassPlans(node, l, now)| == |l.workloads|
    ensures PassPlans(node, l, now)[i].allocation == ExpandOne(l, l.workloads[k])
  {
    var s := Listed(l);
    PlanAllocation(node, s, now, i);
    k := OrderMember(s, now, i);
    ExpandedAt(l, l.workloads, k);
  }

  lemma PlanStatus(node: Node, l: NodeLedger, now: ZoneClock, i: nat)
    requires Serving(l) && i < |PassPlans(node, l, now)|
    ensures var a := PassPlans(node, l, now)[i].allocation; a.status == StatusFor(l.statuses, OwnName(a))
  {
    PlanCount(node, Listed(l), now);
    var k := PlannedWorkload(node, l, now, i);
  }

  predicate DistinctPlans(plans: seq<Plan>) {
    forall i, j :: 0 <= i < j < |plans| ==> OwnName(plans[i].allocation) != OwnName(plans[j].allocation)
  }

  lemma SameNameSameWorkload(l: NodeLedger, j: nat, k: nat)
    requires DistinctSpecs(l.workloads) && j < |l.workloads| && k < |l.workloads|
    ensures OwnName(ExpandOne(l, l.workloads[j])) == OwnName(ExpandOne(l, l.workloads[k])) ==> j == k
  {
  }

  /** Every workload is planned once. */
  lemma PlansAreDistinct(node: Node, l: NodeLedger, now: ZoneClock)
    requires Serving(l) && DistinctSpecs(l.workloads)
    ensures DistinctPlans(PassPlans(node, l, now))
  {
    var s, plans := Listed(l), PassPlans(node, l, now);
    PlanCount(node, Listed(l), now);
    OrderIsPermutation(s, now);
    forall i, j | 0 <= i < j < |s| ensures s[i] != s[j] {
      ExpandedAt(l, l.workloads, i);
      ExpandedAt(l, l.workloads, j);
      SameNameSameWorkload(l, i, j);
    }
    forall i, j | 0 <= i < j < |plans| ensures OwnName(plans[i].allocation) != OwnName(plans[j].allocation) {
      PlanAllocation(node, s, now, i);
      PlanAllocation(node, s, now, j);
      PermutedDistinct(s, Order(s, now), i, j);
      var x := PlannedWorkload(node, l, now, i);
      var y := PlannedWorkload(node, l, now, j);
      SameNameSameWorkload(l, x, y);
    }
  }

  // ---- One pass ------------------------------------------------------------

  predicate AllAccepted(plans: seq<Plan>) { forall i :: 0 <= i < |plans| ==> Accepted(plans[i]) }

  predicate IsSettled(p: Plan) { Settled(p.allocation.status, p.granted) }

  function Unsettled(plans: seq<Plan>): nat {
    if plans == [] then 0 else Unsettled(plans[..|plans| - 1]) + (if IsSettled(plans[|plans| - 1]) then 0 else 1)
  }

  /** Every unsettled plan costs one backend call and three writes; settled ones cost nothing. */
  lemma {:induction false} PassCost(store: Store, listed: seq<WorkloadStatus>, plans: seq<Plan>)
    requires AllAccepted(plans)
    ensures var after := ApplyPlans(store, listed, plans);
            && |after.applied| == |store.applied| + Unsettled(plans)
            && after.writes == store.writes + 3 * Unsettled(plans)
            && (Unsettled(plans) == 0 ==> after == store)
            && after.phase == if Unsettled(plans) == 0 then store.phase else "Applied"
  {
    if plans != [] { PassCost(store, listed, plans[..|plans| - 1]); }
  }

  lemma {:induction false} NoneUnsettled(plans: seq<Plan>)
    ensures Unsettled(plans) == 0 <==> forall i :: 0 <= i < |plans| ==> IsSettled(plans[i])
  {
    if plans != [] { NoneUnsettled(plans[..|plans| - 1]); }
  }

  /** Settled already, or its updates reach the ledger. */
  predicate Quiet(listed: seq<WorkloadStatus>, p: Plan) { IsSettled(p) || OwnUpdates(listed, OwnName(p.allocation)) }

  predicate AllQuiet(listed: seq<WorkloadStatus>, plans: seq<Plan>) {
    forall i :: 0 <= i < |plans| ==> Quiet(listed, plans[i])
  }

  lemma {:induction false} OthersLeaveEntry(store: Store, listed: seq<WorkloadStatus>, plans: seq<Plan>, name: string)
    requires AllAccepted(plans) && AllQuiet(listed, plans)
    requires forall i :: 0 <= i < |plans| ==> OwnName(plans[i].allocation) != name
    ensures Lookup(ApplyPlans(store, listed, plans).statuses, name) == Lookup(store.statuses, name)
  {
    if plans != [] {
      var front, p := plans[..|plans| - 1], plans[|plans| - 1];
      OthersLeaveEntry(store, listed, front, name);
      PlanLookup(ApplyPlans(store, listed, front), listed, p, name);
    }
  }

  /** After a pass in which every update reaches the ledger, every plan is recorded as applied. */
  lemma {:induction false} PassRecords(store: Store, listed: seq<WorkloadStatus>, plans: seq<Plan>, i: nat)
    requires AllAccepted(plans) && AllQuiet(listed, plans) && DistinctPlans(plans) && i < |plans|
    ensures Lookup(ApplyPlans(store, listed, plans).statuses, OwnName(plans[i].allocation)) ==
            if IsSettled(plans[i]) then Lookup(store.statuses, OwnName(plans[i].allocation))
                else Some(EntryOf(plans[i], "Applied"))
  {
    var front, p, name := plans[..|plans| - 1], plans[|plans| - 1], OwnName(plans[i].allocation);
    if i == |plans| - 1 { OthersLeaveEntry(store, listed, front, name); } else { PassRecords(store, listed, front, i); }
    PlanLookup(ApplyPlans(store, listed, front), listed, p, name);
  }

  /** A recorded workload that is not first keeps its entry through any pass. */
  lemma {:induction false} PassLeavesStuck(store: Store, listed: seq<WorkloadStatus>, plans: seq<Plan>, name: string)
    requires AllAccepted(plans) && !OwnUpdates(listed, name)
    ensures Lookup(ApplyPlans(store, listed, plans).statuses, name) == Lookup(store.statuses, name)
  {
    if plans != [] {
      var front, p := plans[..|plans| - 1], plans[|plans| - 1];
      PassLeavesStuck(store, listed, front, name);
      PlanLookup(ApplyPlans(store, listed, front), listed, p, name);
    }
  }

  // ---- Two passes ----------------------------------------------------------

  function AfterPass(node: Node, l: NodeLedger, now: ZoneClock): NodeLedger { WithStatus(l, Pass(node, l, now)) }

  /** The second pass plans the same grants for the same workloads. */
  lemma SecondPassPlans(node: Node, l: NodeLedger, now: ZoneClock)
    requires Serving(l) && AllAccepted(PassPlans(node, l, now))
    ensures var plans, again := PassPlans(node, l, now), PassPlans(node, AfterPass(node, l, now), now);
            && Serving(AfterPass(node, l, now))
            && |plans| == |again| && AllAccepted(again)
            && forall i :: 0 <= i < |plans| ==> StripPlan(plans[i]) == StripPlan(again[i])
  {
    var m := AfterPass(node, l, now);
    PassCost(Opening(l), l.statuses, PassPlans(node, l, now));
    assert m.phase == l.phase || m.phase == "Applied";
    ExpansionStrips(l, m, l.workloads);
    PlansIgnoreStatus(node, Listed(l), Listed(m), now);
    var plans, again := PassPlans(node, l, now), PassPlans(node, m, now);
    forall i | 0 <= i < |again| ensures Accepted(again[i]) {
      assert StripPlan(plans[i]) == StripPlan(again[i]) && Accepted(plans[i]);
    }
  }

  /** Whether the second pass finds plan `i` settled. */
  lemma SettledNext(node: Node, l: NodeLedger, now: ZoneClock, i: nat)
    requires Serving(l) && AllAccepted(PassPlans(node, l, now)) && i < |PassPlans(node, l, now)|
    ensures i < |PassPlans(node, AfterPass(node, l, now), now)|
    ensures var p := PassPlans(node, l, now)[i];
            IsSettled(PassPlans(node, AfterPass(node, l, now), now)[i]) <==>
            Settled(StatusFor(AfterPass(node, l, now).statuses, OwnName(p.allocation)), p.granted)
  {
    SecondPassPlans(node, l, now);
    PlanStatus(node, AfterPass(node, l, now), now, i);
    assert StripPlan(PassPlans(node, l, now)[i]) == StripPlan(PassPlans(node, AfterPass(node, l, now), now)[i]);
  }

  lemma QuietSettles(node: Node, l: NodeLedger, now: ZoneClock, i: nat)
    requires Serving(l) && DistinctSpecs(l.workloads) && i < |PassPlans(node, l, now)|
    requires AllAccepted(PassPlans(node, l, now)) && AllQuiet(l.statuses, PassPlans(node, l, now))
    ensures var p := PassPlans(node, l, now)[i];
            Settled(StatusFor(AfterPass(node, l, now).statuses, OwnName(p.allocation)), p.granted)
  {
    PlansAreDistinct(node, l, now);
    PassRecords(Opening(l), l.statuses, PassPlans(node, l, now), i);
    PlanStatus(node, l, now, i);
  }

  lemma StuckStaysUnsettled(node: Node, l: NodeLedger, now: ZoneClock, i: nat)
    requires Serving(l) && AllAccepted(PassPlans(node, l, now)) && i < |PassPlans(node, l, now)|
    requires !Quiet(l.statuses, PassPlans(node, l, now)[i])
    ensures var p := PassPlans(node, l, now)[i];
            !Settled(StatusFor(AfterPass(node, l, now).statuses, OwnName(p.allocation)), p.granted)
  {
    PlanStatus(node, l, now, i);
    PassLeavesStuck(Opening(l), l.statuses, PassPlans(node, l, now), OwnName(PassPlans(node, l, now)[i].allocation));
  }

  /**
    With every plan accepted, the second pass applies and writes nothing
    exactly when each workload was already settled, not yet recorded, or
    recorded first.
  */
  lemma SecondPassIdleExactly(node: Node, l: NodeLedger, now: ZoneClock)
    requires Serving(l) && DistinctSpecs(l.workloads) && AllAccepted(PassPlans(node, l, now))
    ensures var second := Pass(node, AfterPass(node, l, now), now);
            second.applied == [] && second.writes == 0 <==> AllQuiet(l.statuses, PassPlans(node, l, now))
  {
    var m, plans := AfterPass(node, l, now), PassPlans(node, l, now);
    var again := PassPlans(node, m, now);
    SecondPassPlans(node, l, now);
    PassCost(Opening(m), m.statuses, again);
    NoneUnsettled(again);
    if AllQuiet(l.statuses, plans) {
      forall i | 0 <= i < |again| ensures IsSettled(again[i]) {
        QuietSettles(node, l, now, i);
        SettledNext(node, l, now, i);
      }
    } else {
      var i :| 0 <= i < |plans| && !Quiet(l.statuses, plans[i]);
      StuckStaysUnsettled(node, l, now, i);
      SettledNext(node, l, now, i);
    }
  }

  lemma AcceptedMeansNoRelease(plans: seq<Plan>, world: World)
    requires AllAccepted(plans)
    ensures forall i :: 0 <= i < |plans| ==> NoRelease(plans[i], world)
  {
  }

  /**
    Convergence: with every plan accepted and no call failing, the following
    pass applies nothing and writes nothing to the ledger exactly when each
    workload was already settled, not yet recorded, or recorded first. All it
    does then is take two snapshots and write the node's status twice, as any
    pass does. A workload recorded further back whose budget changed is never
    brought up to date.
  */
  lemma ReconcileConvergesExactly(node: Node, l: NodeLedger, now: ZoneClock, world: World)
    requires Serving(l) && DistinctSpecs(l.workloads) && AllAccepted(PassPlans(node, l, now)) && Calm(world)
    ensures var first := PassIn(node, l, now, world);
            var second := PassIn(node, WithStatus(l, first.store), now, world);
            && first.ok && second.ok && second.store.snapshots == 2 && second.store.nodeWrites == 2
            && (second.store.applied == [] && second.store.writes == 0 <==>
                 AllQuiet(l.statuses, PassPlans(node, l, now)))
  {
    var m := AfterPass(node, l, now);
    AcceptedMeansNoRelease(PassPlans(node, l, now), world);
    CalmPass(node, l, now, world);
    assert WithStatus(l, PassIn(node, l, now, world).store) == m;
    SecondPassPlans(node, l, now);
    AcceptedMeansNoRelease(PassPlans(node, m, now), world);
    CalmPass(node, m, now, world);
    SecondPassIdleExactly(node, l, now);
  }

  // ---- Recorded totals -----------------------------------------------------

  /** The phase a plan ends up recorded with when its workload starts unrecorded. */
  function FinalPhase(p: Plan): string {
    if Accepted(p) then "Applied" else if p.action == Evict then "Migrating" else "Failed"
  }

  function Entries(plans: seq<Plan>): (r: seq<WorkloadStatus>)
    ensures |r| == |plans|
  {
    if plans == [] then []
    else Entries(plans[..|plans| - 1]) + [EntryOf(plans[|plans| - 1], FinalPhase(plans[|plans| - 1]))]
  }

  lemma {:induction false} EntryAt(plans: seq<Plan>, i: nat)
    requires i < |plans|
    ensures Entries(plans)[i] == EntryOf(plans[i], FinalPhase(plans[i]))
  {
    if i < |plans| - 1 { EntryAt(plans[..|plans| - 1], i); }
  }

  lemma MergeAppends(s: seq<WorkloadStatus>, x: WorkloadStatus, e: WorkloadStatus)
    requires (forall i :: 0 <= i < |s| ==> s[i].name != e.name) && x.name == e.name
    ensures Merge(s, e) == s + [e] && Merge(s + [x], e) == s + [e]
  {
    IndexIs(s, e.name, |s|);
    IndexIs(s + [x], e.name, |s|);
  }

  lemma NewPlanAppends(store: Store, p: Plan)
    requires p.allocation.status == BLANK
    requires forall i :: 0 <= i < |store.statuses| ==> store.statuses[i].name != OwnName(p.allocation)
    ensures ApplyPlan(store, [], p).statuses == store.statuses + [EntryOf(p, FinalPhase(p))]
  {
    var pending, applying, done := EntryOf(p, "PendingApply"), EntryOf(p, "Applying"), EntryOf(p, FinalPhase(p));
    var s := store.statuses;
    MergeAppends([], pending, pending);
    MergeAppends([], pending, applying);
    MergeAppends([], applying, done);
    MergeAppends(s, pending, pending);
    MergeAppends(s, pending, applying);
    MergeAppends(s, applying, done);
    assert [] + [pending] == [pending] && [] + [applying] == [applying] && [] + [done] == [done];
  }

  lemma {:induction false} FreshPassRecords(store: Store, plans: seq<Plan>)
    requires store.statuses == [] && DistinctPlans(plans)
    requires forall i :: 0 <= i < |plans| ==> plans[i].allocation.status == BLANK
    ensures ApplyPlans(store, [], plans).statuses == Entries(plans)
  {
    if plans != [] {
      var front, p := plans[..|plans| - 1], plans[|plans| - 1];
      FreshPassRecords(store, front);
      forall i | 0 <= i < |front| ensures Entries(front)[i].name != OwnName(p.allocation) { EntryAt(front, i); }
      NewPlanAppends(ApplyPlans(store, [], front), p);
    }
  }

  function Granted(plans: seq<Plan>): (r: seq<Resource>)
    ensures |r| == |plans|
  {
    if plans == [] then [] else Granted(plans[..|plans| - 1]) + [plans[|plans| - 1].granted]
  }

  lemma CountedEntry(p: Plan)
    ensures Counted(EntryOf(p, FinalPhase(p))) == Some(p.granted)
  {
    assert |ToLower(FinalPhase(p))| != |"released"|;
  }

  lemma {:induction false} EntriesSum(plans: seq<Plan>)
    ensures Summary(Entries(plans)) == WrappedTotal(Granted(plans))
  {
    if plans != [] {
      var front, p := plans[..|plans| - 1], plans[|plans| - 1];
      EntriesSum(front);
      SummarySnoc(Entries(front), EntryOf(p, FinalPhase(p)));
      CountedEntry(p);
      assert Granted(plans)[..|front|] == Granted(front);
    }
  }

  function FailedPart(p: Plan): Resource { if Accepted(p) then ZERO else p.granted }

  /** What failed plans were granted before the planner took it back. */
  function FailedTotal(plans: seq<Plan>): Resource {
    if plans == [] then ZERO
    else Plus(FailedTotal(plans[..|plans| - 1]), FailedPart(plans[|plans| - 1]))
  }

  lemma PlusAdvances(a: Resource, f: Resource, x: Resource)
    ensures Plus(Plus(a, f), x) == Plus(Plus(a, x), Plus(f, ZERO)) == Plus(Plus(a, ZERO), Plus(f, x))
  {
  }

  lemma {:induction false} GrantedSplits(plans: seq<Plan>)
    ensures Total(Granted(plans)) == Plus(AcceptedTotal(plans), FailedTotal(plans))
  {
    if plans != [] {
      var front, p := plans[..|plans| - 1], plans[|plans| - 1];
      GrantedSplits(front);
      assert Granted(plans)[..|front|] == Granted(front);
      PlusAdvances(AcceptedTotal(front), FailedTotal(front), p.granted);
    }
  }

  lemma {:induction false} GrantedAt(plans: seq<Plan>, i: nat)
    requires i < |plans|
    ensures Granted(plans)[i] == plans[i].granted
  {
    if i < |plans| - 1 { GrantedAt(plans[..|plans| - 1], i); }
  }

  lemma GrantsAreNonNegative(node: Node, s: seq<Allocation>, now: ZoneClock)
    requires Int32Node(node) && AllWellFormed(s)
    ensures AllNonNegative(Granted(Plans(node, s, now)))
  {
    var plans := Plans(node, s, now);
    PlanCount(node, s, now);
    forall i | 0 <= i < |plans| ensures NonNegative(Granted(plans)[i]) {
      PlanTiers(node, s, now, i);
      GrantedAt(plans, i);
      var j := OrderMember(s, now, i);
      GrantFits(Order(s, now)[i], now, Items(s, now)[i].groupActive, Left(node, plans, i));
    }
  }

  lemma FreshStatusIsBlank(node: Node, l: NodeLedger, now: ZoneClock, i: nat)
    requires Serving(l) && l.statuses == [] && i < |PassPlans(node, l, now)|
    ensures PassPlans(node, l, now)[i].allocation.status == BLANK
  {
    PlanStatus(node, l, now, i);
  }

  lemma FreshPassEntries(node: Node, l: NodeLedger, now: ZoneClock)
    requires Serving(l) && l.statuses == [] && DistinctSpecs(l.workloads)
    ensures Pass(node, l, now).statuses == Entries(PassPlans(node, l, now))
  {
    PlansAreDistinct(node, l, now);
    forall i | 0 <= i < |PassPlans(node, l, now)| ensures PassPlans(node, l, now)[i].allocation.status == BLANK {
      FreshStatusIsBlank(node, l, now, i);
    }
    FreshPassRecords(Opening(l), PassPlans(node, l, now));
  }

  /**
    What the first pass records, workload by workload and in total: each gets
    exactly its grant, and the node total is the sum of the accepted budgets
    plus the budgets of degraded plans, which the planner has taken back.
  */
  lemma RecordedTotal(node: Node, l: NodeLedger, now: ZoneClock)
    requires Serving(l) && l.statuses == [] && DistinctSpecs(l.workloads)
    requires Int32Node(node) && AllWellFormed(Listed(l))
    requires var plans := PassPlans(node, l, now); IsInt32(Plus(AcceptedTotal(plans), FailedTotal(plans)))
    ensures var plans, after := PassPlans(node, l, now), Pass(node, l, now).statuses;
            && |after| == |plans|
            && (forall i :: 0 <= i < |plans| ==> after[i] == EntryOf(plans[i], FinalPhase(plans[i])))
            && Summary(after) == Plus(AcceptedTotal(plans), FailedTotal(plans))
  {
    var plans := PassPlans(node, l, now);
    FreshPassEntries(node, l, now);
    forall i | 0 <= i < |plans| ensures Entries(plans)[i] == EntryOf(plans[i], FinalPhase(plans[i])) {
      EntryAt(plans, i);
    }
    EntriesSum(plans);
    GrantedSplits(plans);
    GrantsAreNonNegative(node, Listed(l), now);
    WrappedTotalIsExact(Granted(plans));
  }

  lemma PlusZeroExactly(a: Resource, f: Resource)
    ensures Plus(a, f) == a <==> f == ZERO
  {
  }

  lemma SumIsZero(a: Resource, b: Resource)
    requires NonNegative(a) && NonNegative(b)
    ensures NonNegative(Plus(a, b)) && (Plus(a, b) == ZERO <==> a == ZERO && b == ZERO)
  {
  }

  predicate NoneHeld(plans: seq<Plan>) { forall i :: 0 <= i < |plans| ==> FailedPart(plans[i]) == ZERO }

  lemma NoneHeldSnoc(plans: seq<Plan>)
    requires plans != []
    ensures NoneHeld(plans) <==> NoneHeld(plans[..|plans| - 1]) && FailedPart(plans[|plans| - 1]) == ZERO
  {
    var front := plans[..|plans| - 1];
    if NoneHeld(plans) {
      forall i | 0 <= i < |front| ensures FailedPart(front[i]) == ZERO { assert front[i] == plans[i]; }
    }
    if NoneHeld(front) && FailedPart(plans[|plans| - 1]) == ZERO {
      forall i | 0 <= i < |plans| ensures FailedPart(plans[i]) == ZERO { assert i < |front| ==> front[i] == plans[i]; }
    }
  }

  lemma {:induction false} FailedTotalIsZero(plans: seq<Plan>)
    requires AllNonNegative(Granted(plans))
    ensures NonNegative(FailedTotal(plans)) && (FailedTotal(plans) == ZERO <==> NoneHeld(plans))
  {
    if plans != [] {
      var front, p := plans[..|plans| - 1], plans[|plans| - 1];
      GrantedPrefix(plans);
      FailedTotalIsZero(front);
      SumIsZero(FailedTotal(front), FailedPart(p));
      NoneHeldSnoc(plans);
    }
  }

  lemma {:induction false} GrantedPrefix(plans: seq<Plan>)
    requires plans != [] && AllNonNegative(Granted(plans))
    ensures AllNonNegative(Granted(plans[..|plans| - 1])) && NonNegative(FailedPart(plans[|plans| - 1]))
  {
    var front := plans[..|plans| - 1];
    forall i | 0 <= i < |front| ensures NonNegative(Granted(front)[i]) {
      assert Granted(plans)[i] == Granted(front)[i];
    }
    assert Granted(plans)[|front|] == plans[|front|].granted;
  }

  /** The plan is granted tokens on a node without GPU capacity. */
  predicate TokensWithoutGpu(node: Node, p: Plan) {
    p.tier != RejectedTier && NeedsTokens(p.granted) && GpuCapacity(node).gpuCount == 0
  }

  lemma FailedPartExactly(node: Node, s: seq<Allocation>, now: ZoneClock, i: nat)
    requires Int32Node(node) && AllWellFormed(s) && ObservedNonNegative(Observe(node, [])) && i < |s|
    ensures |Plans(node, s, now)| == |s|
    ensures FailedPart(Plans(node, s, now)[i]) == ZERO <==> !TokensWithoutGpu(node, Plans(node, s, now)[i])
  {
    PlanTiers(node, s, now, i);
    DegradedOnlyWithoutGpu(node, s, now, i);
  }

  /**
    When the recorded total matches the planner's books after a first pass:
    exactly when the node has GPU capacity, or nobody is granted tokens.
  */
  lemma RecordedMatchesBooksExactly(node: Node, l: NodeLedger, now: ZoneClock)
    requires Serving(l) && l.statuses == [] && DistinctSpecs(l.workloads)
    requires Int32Node(node) && AllWellFormed(Listed(l)) && ObservedNonNegative(Observe(node, []))
    requires var plans := PassPlans(node, l, now); IsInt32(Plus(AcceptedTotal(plans), FailedTotal(plans)))
    ensures var plans := PassPlans(node, l, now);
            Summary(Pass(node, l, now).statuses) == AcceptedTotal(plans) <==>
            forall i :: 0 <= i < |plans| ==> !TokensWithoutGpu(node, plans[i])
  {
    var plans := PassPlans(node, l, now);
    PlanCount(node, Listed(l), now);
    RecordedTotal(node, l, now);
    PlusZeroExactly(AcceptedTotal(plans), FailedTotal(plans));
    GrantsAreNonNegative(node, Listed(l), now);
    FailedTotalIsZero(plans);
    forall i | 0 <= i < |plans| ensures FailedPart(plans[i]) == ZERO <==> !TokensWithoutGpu(node, plans[i]) {
      FailedPartExactly(node, Listed(l), now, i);
    }
  }

  /** What a lone workload asks of a node without GPUs: its mandatory budget fits, and its grant includes tokens. */
  predicate AsksTokensWithoutGpu(node: Node, a: Allocation, now: ZoneClock) {
    && GpuCapacity(node).gpuCount == 0 && Fits(Mandatory(a, now), NodeCapacity(node))
    && NeedsTokens(Grant(a, now, IsActive(a, now), NodeCapacity(node)))
  }

  lemma LoneListed(l: NodeLedger)
    requires Serving(l) && |l.workloads| == 1
    ensures Listed(l) == [ExpandOne(l, l.workloads[0])]
  {
    ExpandedAt(l, l.workloads, 0);
  }

  lemma PartsAddUp(p: Plan)
    ensures Plus(AcceptedPart(p), FailedPart(p)) == p.granted
  {
  }

  lemma LoneTotals(p: Plan)
    ensures Plus(AcceptedTotal([p]), FailedTotal([p])) == p.granted && AcceptedTotal([p]) == AcceptedPart(p)
  {
    LoneTotal(p);
    LoneFailed(p);
    PartsAddUp(p);
  }

  lemma LoneFailed(p: Plan)
    ensures FailedTotal([p]) == FailedPart(p)
  {
    assert [p][..0] == [];
    PlusZeroLeft(FailedPart(p));
  }

  lemma GrantIsInt32(a: Allocation, now: ZoneClock, groupActive: bool, capacity: Resource)
    requires WellFormed(a)
    ensures IsInt32(Grant(a, now, groupActive, capacity)) && IsInt32(ZERO)
  {
  }

  /** The one plan of a pass over a lone workload. */
  lemma LonePassPlan(node: Node, l: NodeLedger, a: Allocation, now: ZoneClock) returns (p: Plan)
    requires Serving(l) && |l.workloads| == 1 && a == ExpandOne(l, l.workloads[0]) && WellFormed(a) && Int32Node(node)
    ensures Listed(l) == [a] && PassPlans(node, l, now) == [p] && PlannedFrom(node, a, now, NodeCapacity(node), p)
  {
    LoneListed(l);
    p := LonePlan(node, a, now);
  }

  lemma LoneIsInt32(node: Node, a: Allocation, now: ZoneClock, p: Plan)
    requires WellFormed(a) && PlannedFrom(node, a, now, NodeCapacity(node), p)
    ensures IsInt32(Plus(AcceptedTotal([p]), FailedTotal([p])))
  {
    LoneTotals(p);
    GrantIsInt32(a, now, IsActive(a, now), NodeCapacity(node));
  }

  lemma LoneTokens(node: Node, a: Allocation, now: ZoneClock, p: Plan)
    requires PlannedFrom(node, a, now, NodeCapacity(node), p)
    ensures (forall i :: 0 <= i < |[p]| ==> !TokensWithoutGpu(node, [p][i])) <==> !AsksTokensWithoutGpu(node, a, now)
  {
    assert [p][0] == p;
  }

  /** For a ledger with one workload the condition is on its spec and the node alone. */
  lemma LoneRecordMatchesExactly(node: Node, l: NodeLedger, a: Allocation, now: ZoneClock)
    requires Serving(l) && l.statuses == [] && |l.workloads| == 1 && a == ExpandOne(l, l.workloads[0]) && WellFormed(a)
    requires Int32Node(node) && ObservedNonNegative(Observe(node, []))
    ensures Summary(Pass(node, l, now).statuses) == AcceptedTotal(PassPlans(node, l, now)) <==>
            !AsksTokensWithoutGpu(node, a, now)
  {
    var p := LonePassPlan(node, l, a, now);
    LoneIsInt32(node, a, now, p);
    LoneTokens(node, a, now, p);
    RecordedMatchesBooksExactly(node, l, now);
  }

  /** What a lone workload leaves in the ledger if it cannot be applied. */
  lemma LoneRecords(node: Node, l: NodeLedger, a: Allocation, now: ZoneClock, budget: Resource)
    requires Serving(l) && l.statuses == [] && |l.workloads| == 1 && a == ExpandOne(l, l.workloads[0]) && WellFormed(a)
    requires Int32Node(node) && Fits(Mandatory(a, now), NodeCapacity(node))
    requires Grant(a, now, IsActive(a, now), NodeCapacity(node)) == budget && !Grantable(node, budget)
    ensures Summary(Pass(node, l, now).statuses) == budget && AcceptedTotal(PassPlans(node, l, now)) == ZERO
  {
    var p := LonePassPlan(node, l, a, now);
    LoneIsInt32(node, a, now, p);
    RecordedSum(node, l, now, [p]);
    LoneTotals(p);
    assert p.granted == budget && AcceptedPart(p) == ZERO;
  }

  lemma RecordedSum(node: Node, l: NodeLedger, now: ZoneClock, plans: seq<Plan>)
    requires Serving(l) && l.statuses == [] && DistinctSpecs(l.workloads) && plans == PassPlans(node, l, now)
    requires Int32Node(node) && AllWellFormed(Listed(l)) && IsInt32(Plus(AcceptedTotal(plans), FailedTotal(plans)))
    ensures Summary(Pass(node, l, now).statuses) == Plus(AcceptedTotal(plans), FailedTotal(plans))
  {
    RecordedTotal(node, l, now);
  }

  // An instance: a node that decodes without GPUs, and a workload that asks for all of it.

  function Decoding(n: int): Resource { Resource(0, 0, 0, 0, n, 0) }

  function DecodingNode(n: int): Node { Node(Some(Decoding(n)), [], None, None) }

  function DecodingSpec(n: int): WorkloadSpec {
    WorkloadSpec("w", "online", "low", [], Some(Request(Some(Decoding(n)), None, None)), None, None, None)
  }

  function DecodingLedger(n: int, own: Allocation): NodeLedger {
    NodeLedger(own, "", "ledger", None, "", [DecodingSpec(n)], "", [])
  }

  lemma DecodingFacts(n: int, own: Allocation, now: ZoneClock)
    requires 1 <= n <= INT32_MAX
    ensures var node, a := DecodingNode(n), ExpandOne(DecodingLedger(n, own), DecodingSpec(n));
            && Int32Node(node) && ObservedNonNegative(Observe(node, [])) && NodeCapacity(node) == Decoding(n)
                 && GpuCapacity(node).gpuCount == 0
            && WellFormed(a) && Mandatory(a, now) == Decoding(n)
                 && Grant(a, now, IsActive(a, now), NodeCapacity(node)) == Decoding(n)
            && !Grantable(node, Decoding(n))
  {
  }

  /**
    There the agent records `n` tokens per second as applied although the
    planner has accepted nothing.
  */
  lemma RecordedExceedsBooks(n: int, own: Allocation, now: ZoneClock)
    requires 1 <= n <= INT32_MAX
    ensures var node, l := DecodingNode(n), DecodingLedger(n, own);
            && Summary(Pass(node, l, now).statuses) == Decoding(n)
            && AcceptedTotal(PassPlans(node, l, now)) == ZERO
  {
    var node, l := DecodingNode(n), DecodingLedger(n, own);
    var a := ExpandOne(l, DecodingSpec(n));
    DecodingFacts(n, own, now);
    LoneRecords(node, l, a, now, Decoding(n));
  }

  lemma PlusZero(a: Resource)
    ensures Plus(a, ZERO) == a
  {
  }

  lemma {:induction false} NoneFailed(plans: seq<Plan>)
    requires AllAccepted(plans)
    ensures FailedTotal(plans) == ZERO
  {
    if plans != [] {
      var front, p := plans[..|plans| - 1], plans[|plans| - 1];
      NoneFailed(front);
      assert FailedPart(p) == ZERO;
      PlusZero(FailedTotal(front));
    }
  }

  lemma AcceptedWithinCapacity(node: Node, s: seq<Allocation>, now: ZoneClock)
    requires Int32Node(node) && AllWellFormed(s)
    ensures IsInt32(AcceptedTotal(Plans(node, s, now))) && Fits(AcceptedTotal(Plans(node, s, now)), NodeCapacity(node))
  {
    PlannerConserves(node, s, now, |s|);
    PlannerConserves(node, s, now, 0);
    var plans := Plans(node, s, now);
    assert plans[..|plans|] == plans && plans[..0] == [];
    OpenedIsSound(node, []);
    assert IsBudget(BooksAfter(node, s, now, |s|).remaining);
  }

  /**
    From fresh statuses with every plan accepted: one pass records each grant
    as applied, and the recorded total stays within the node's capacity.
  */
  lemma FreshPassApplies(node: Node, l: NodeLedger, now: ZoneClock)
    requires Serving(l) && l.statuses == [] && DistinctSpecs(l.workloads)
    requires Int32Node(node) && AllWellFormed(Listed(l)) && AllAccepted(PassPlans(node, l, now))
    ensures var plans, after := PassPlans(node, l, now), Pass(node, l, now).statuses;
            && |after| == |plans|
            && (forall i :: 0 <= i < |plans| ==> after[i] == EntryOf(plans[i], "Applied"))
            && Summary(after) == AcceptedTotal(plans) && Fits(Summary(after), NodeCapacity(node))
  {
    var plans := PassPlans(node, l, now);
    NoneFailed(plans);
    PlusZero(AcceptedTotal(plans));
    AcceptedWithinCapacity(node, Listed(l), now);
    RecordedTotal(node, l, now);
  }

  /** And the pass after that applies nothing and writes nothing to the ledger. */
  lemma FreshLedgerConverges(node: Node, l: NodeLedger, now: ZoneClock, world: World)
    requires Serving(l) && l.statuses == [] && DistinctSpecs(l.workloads) && AllAccepted(PassPlans(node, l, now))
             && Calm(world)
    ensures var second := PassIn(node, WithStatus(l, PassIn(node, l, now, world).store), now, world);
            second.ok && second.store.applied == [] && second.store.writes == 0
  {
    ReconcileConvergesExactly(node, l, now, world);
  }

  // ---- Closing the loop to the central scheduler ---------------------------

  /** Every specified workload has a plan. */
  lemma PlanFor(node: Node, l: NodeLedger, now: ZoneClock, k: nat) returns (i: nat)
    requires Serving(l) && k < |l.workloads|
    ensures i < |PassPlans(node, l, now)| && PassPlans(node, l, now)[i].allocation == ExpandOne(l, l.workloads[k])
  {
    var s := Listed(l);
    OrderIsPermutation(s, now);
    ExpandedAt(l, l.workloads, k);
    i := IndexIn(s, k, Order(s, now));
    PlanAllocation(node, s, now, i);
  }

  lemma FreshEntry(node: Node, l: NodeLedger, now: ZoneClock, i: nat)
    requires Serving(l) && l.statuses == [] && DistinctSpecs(l.workloads)
    requires AllAccepted(PassPlans(node, l, now)) && i < |PassPlans(node, l, now)|
    ensures var p := PassPlans(node, l, now)[i];
            Lookup(Pass(node, l, now).statuses, OwnName(p.allocation)) == Some(EntryOf(p, "Applied"))
  {
    PlansAreDistinct(node, l, now);
    FreshStatusIsBlank(node, l, now, i);
    PassRecords(Opening(l), l.statuses, PassPlans(node, l, now), i);
  }

  lemma RecordedFrom(l: NodeLedger, m: NodeLedger, w: WorkloadSpec, p: Plan)
    requires m == l.(statuses := m.statuses, phase := m.phase) && p.allocation == ExpandOne(l, w)
    requires Lookup(m.statuses, w.name) == Some(EntryOf(p, "Applied"))
    ensures Recorded(ExpandOne(m, w)) && ExpandOne(m, w).status.phase == "Applied"
  {
    ForecastIgnoresStatus(ExpandOne(l, w), ExpandOne(m, w).status, HOURS);
    assert |ToLower("Applied")| != |"released"|;
  }

  /**
    The agent's first pass establishes what admission relies on: afterwards
    every workload is listed as applied, with the forecast built from its
    spec, so the refreshed status shows them all.
  */
  lemma PassEstablishesRecorded(node: Node, l: NodeLedger, now: ZoneClock)
    requires Serving(l) && l.statuses == [] && DistinctSpecs(l.workloads) && AllAccepted(PassPlans(node, l, now))
    ensures |Listed(AfterPass(node, l, now))| == |l.workloads| && AllRecorded(Listed(AfterPass(node, l, now)))
    ensures Refreshed(node, l, now) == Listed(AfterPass(node, l, now))
  {
    var m := AfterPass(node, l, now);
    SecondPassPlans(node, l, now);
    forall k | 0 <= k < |l.workloads| ensures Recorded(Listed(m)[k]) && Listed(m)[k].status.phase == "Applied" {
      ExpandedAt(m, l.workloads, k);
      var i := PlanFor(node, l, now, k);
      FreshEntry(node, l, now, i);
      RecordedFrom(l, m, l.workloads[k], PassPlans(node, l, now)[i]);
    }
    AllAppliedStay(Listed(m));
  }

  lemma AppliedSnoc(s: seq<Allocation>, a: Allocation)
    ensures AppliedOnly(s + [a]) == AppliedOnly(s) + (if a.status.phase == "Applied" then [a] else [])
  {
    assert (s + [a])[..|s|] == s;
  }

  predicate AllApplied(s: seq<Allocation>) { forall i :: 0 <= i < |s| ==> s[i].status.phase == "Applied" }

  lemma {:induction false} AllAppliedStay(s: seq<Allocation>)
    requires AllApplied(s)
    ensures AppliedOnly(s) == s
  {
    if s != [] {
      var front, a := s[..|s| - 1], s[|s| - 1];
      AllAppliedStay(front);
      AppliedSnoc(front, a);
      assert s == front + [a];
    }
  }
}
