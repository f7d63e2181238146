/** What the node-local planner guarantees over whole runs. */
module PlannerProofs {
  import opened Text
  import opened Resources
  import opened Windows
  import opened Allocations
  import opened Ordering
  import opened Observation
  import opened Planner

  // ---- One step ------------------------------------------------------------

  /** Remaining is a budget and never exceeds the capacity, which is representable. */
  predicate Sound(b: Books) { IsBudget(b.remaining) && IsInt32(b.capacity) && Fits(b.remaining, b.capacity) }

  /** Releasing a reservation under the same key restores the remaining budget exactly, duplicate keys or not. */
  lemma ReleaseUndoesReserve(b: Books, key: string, x: Resource)
    requires Sound(b) && NonNegative(x) && Fits(x, b.remaining)
    ensures AfterReserve(b, key, x).remaining == Minus(b.remaining, x)
    ensures AfterRelease(AfterReserve(b, key, x), key).remaining == b.remaining
    ensures key !in AfterRelease(AfterReserve(b, key, x), key).reserved
  {
    SubtractIsExact(b.remaining, x);
    AddIsExact(Minus(b.remaining, x), x);
  }

  lemma {:induction false} ChoiceFits(candidates: seq<Candidate>, mandatory: Resource, remaining: Resource)
    requires NonNegative(mandatory) && Fits(mandatory, remaining)
    requires forall i :: 0 <= i < |candidates| ==> NonNegative(candidates[i].resources)
    ensures var c := Choose(candidates, mandatory, remaining); NonNegative(c.resources) && Fits(c.resources, remaining)
  {
    if candidates != [] { ChoiceFits(candidates[1..], mandatory, remaining); }
  }

  lemma DemandIsNonNegative(a: Allocation, now: ZoneClock, groupActive: bool)
    requires WellFormed(a)
    ensures var d := DemandOf(a, now, groupActive);
            NonNegative(d.mandatory) && forall i :: 0 <= i < |d.candidates| ==> NonNegative(d.candidates[i].resources)
  {
  }

  predicate Accepted(p: Plan) { p.phase == PendingApply }

  function AcceptedPart(p: Plan): Resource { if Accepted(p) then p.granted else ZERO }

  /** A step takes from the remaining budget exactly what its plan is granted, and nothing if the plan fails. */
  lemma StepConserves(node: Node, state: NodeState, b: Books, a: Allocation, now: ZoneClock, groupActive: bool)
    requires Sound(b) && WellFormed(a)
    ensures var (after, plan) := PlanStep(node, state, b, a, now, groupActive);
            && Sound(after) && after.capacity == b.capacity
            && after.remaining == Minus(b.remaining, AcceptedPart(plan))
            && NonNegative(AcceptedPart(plan))
            && plan.allocation == a
  {
    var demand := DemandOf(a, now, groupActive);
    if Fits(demand.mandatory, b.remaining) {
      DemandIsNonNegative(a, now, groupActive);
      ChoiceFits(demand.candidates, demand.mandatory, b.remaining);
      var x := Choose(demand.candidates, demand.mandatory, b.remaining).resources;
      ReleaseUndoesReserve(b, AllocationKey(a), x);
    }
  }

  /**
    For arbitrary int32 values, one reservation moves exactly the granted
    amount if and only if the difference is representable; a negative budget
    can break that.
  */
  lemma ReserveExactlyWhenRepresentable(b: Books, key: string, x: Resource)
    requires IsBudget(b.remaining) && IsInt32(x) && Fits(x, b.remaining)
    ensures AfterReserve(b, key, x).remaining == Minus(b.remaining, x) <==> IsInt32(Minus(b.remaining, x))
  {
  }

  // ---- Conservation over runs ----------------------------------------------

  function AcceptedTotal(plans: seq<Plan>): Resource {
    if plans == [] then ZERO else Plus(AcceptedTotal(plans[..|plans| - 1]), AcceptedPart(plans[|plans| - 1]))
  }

  predicate ItemsWellFormed(items: seq<Item>) { forall i :: 0 <= i < |items| ==> WellFormed(items[i].allocation) }

  lemma AcceptedTotalSnoc(plans: seq<Plan>, p: Plan)
    ensures AcceptedTotal(plans + [p]) == Plus(AcceptedTotal(plans), AcceptedPart(p))
  {
    assert (plans + [p])[..|plans|] == plans;
  }

  lemma MinusTwice(a: Resource, x: Resource, y: Resource)
    ensures Minus(Minus(a, x), y) == Minus(a, Plus(x, y))
  {
  }

  lemma AdvanceConserves(node: Node, state: NodeState, o: Outcome, item: Item, now: ZoneClock, start: Resource)
    requires Sound(o.books) && WellFormed(item.allocation) && o.books.remaining == Minus(start, AcceptedTotal(o.plans))
    ensures var after := Advance(node, state, o, item, now);
            && Sound(after.books) && after.books.capacity == o.books.capacity
            && after.books.remaining == Minus(start, AcceptedTotal(after.plans))
  {
    StepConserves(node, state, o.books, item.allocation, now, item.groupActive);
    var plan := PlanStep(node, state, o.books, item.allocation, now, item.groupActive).1;
    AcceptedTotalSnoc(o.plans, plan);
    MinusTwice(start, AcceptedTotal(o.plans), AcceptedPart(plan));
  }

  lemma {:induction false} RunConserves(node: Node, state: NodeState, b: Books, items: seq<Item>, now: ZoneClock)
    requires Sound(b) && ItemsWellFormed(items)
    ensures var o := Run(node, state, b, items, now);
            && Sound(o.books) && o.books.capacity == b.capacity
            && o.books.remaining == Minus(b.remaining, AcceptedTotal(o.plans))
  {
    if items != [] {
      var front := items[..|items| - 1];
      RunConserves(node, state, b, front, now);
      AdvanceConserves(node, state, Run(node, state, b, front, now), items[|items| - 1], now, b.remaining);
    }
  }

  /** Planning a longer list only appends plans. */
  lemma {:induction false} RunPrefix(node: Node, state: NodeState, b: Books, items: seq<Item>, i: nat, now: ZoneClock)
    requires i <= |items|
    ensures Run(node, state, b, items[..i], now).plans == Run(node, state, b, items, now).plans[..i]
  {
    if i == |items| {
      assert items[..i] == items;
    } else {
      var front := items[..|items| - 1];
      RunPrefix(node, state, b, front, i, now);
      assert front[..i] == items[..i];
    }
  }

  lemma AdvanceAppends(node: Node, state: NodeState, o: Outcome, item: Item, now: ZoneClock)
    ensures var after := Advance(node, state, o, item, now);
            && |after.plans| == |o.plans| + 1
            && after.plans[|o.plans|] == PlanStep(node, state, o.books, item.allocation, now, item.groupActive).1
  {
  }

  lemma EarlierPlansStay(node: Node, state: NodeState, b: Books, items: seq<Item>, i: nat, now: ZoneClock)
    requires i < |items| - 1
    ensures Run(node, state, b, items, now).plans[i] == Run(node, state, b, items[..|items| - 1], now).plans[i]
  {
  }

  /** The plan at position `i` is the step taken from the ledger the first `i` plans left. */
  lemma {:induction false} PlanAt(node: Node, state: NodeState, b: Books, items: seq<Item>, i: nat, now: ZoneClock)
    requires i < |items|
    ensures Run(node, state, b, items, now).plans[i] ==
            PlanStep(node, state, Run(node, state, b, items[..i], now).books, items[i].allocation, now,
                items[i].groupActive).1
  {
    var front := items[..|items| - 1];
    if i == |front| {
      AdvanceAppends(node, state, Run(node, state, b, front, now), items[i], now);
    } else {
      EarlierPlansStay(node, state, b, items, i, now);
      PlanAt(node, state, b, front, i, now);
      assert front[..i] == items[..i] && front[i] == items[i];
    }
  }

  // ---- Conservation without assuming signs ---------------------------------

  predicate Int32Budgets(a: Allocation) {
    IsInt32(RequiredBudget(a)) && IsInt32(PreferredBudget(a)) && IsInt32(MaxBudget(a))
  }

  lemma TakeAndGiveBack(r: int, x: int)
    requires 0 <= r <= INT32_MAX && InInt32(x) && x <= r
    ensures Wrap32(ClampNonNegative(Wrap32(r - x)) + x) == r <==> InInt32(r - x)
  {
  }

  /** Reserving and releasing restores the remaining budget exactly when the difference is representable. */
  lemma ReserveReleaseExactly(r: Resource, x: Resource)
    requires IsBudget(r) && IsInt32(x) && Fits(x, r)
    ensures Add(Subtract(r, x), x) == r <==> IsInt32(Minus(r, x))
  {
    TakeAndGiveBack(r.gpuCount, x.gpuCount);
    TakeAndGiveBack(r.gpuMemoryGiB, x.gpuMemoryGiB);
    TakeAndGiveBack(r.kvCacheGiB, x.kvCacheGiB);
    TakeAndGiveBack(r.prefillTps, x.prefillTps);
    TakeAndGiveBack(r.decodeTps, x.decodeTps);
    TakeAndGiveBack(r.totalTps, x.totalTps);
  }

  lemma {:induction false} ChoiceIsInt32(candidates: seq<Candidate>, mandatory: Resource, remaining: Resource)
    requires IsInt32(mandatory) && Fits(mandatory, remaining)
    requires forall i :: 0 <= i < |candidates| ==> IsInt32(candidates[i].resources)
    ensures var c := Choose(candidates, mandatory, remaining); IsInt32(c.resources) && Fits(c.resources, remaining)
  {
    if candidates != [] { ChoiceIsInt32(candidates[1..], mandatory, remaining); }
  }

  lemma DemandIsInt32(a: Allocation, now: ZoneClock, groupActive: bool)
    requires Int32Budgets(a)
    ensures var d := DemandOf(a, now, groupActive);
            IsInt32(d.mandatory) && forall i :: 0 <= i < |d.candidates| ==> IsInt32(d.candidates[i].resources)
  {
  }

  /** The plan is rejected, or what it reserves leaves a representable rest. */
  predicate LeavesRepresentable(remaining: Resource, p: Plan) {
    p.tier == RejectedTier || IsInt32(Minus(remaining, p.granted))
  }

  lemma ChoiceTier(candidates: seq<Candidate>, mandatory: Resource, remaining: Resource)
    requires forall i :: 0 <= i < |candidates| ==> candidates[i].tier != RejectedTier
    ensures Choose(candidates, mandatory, remaining).tier != RejectedTier
  {
    if candidates != [] { ChoiceTier(candidates[1..], mandatory, remaining); }
  }

  lemma MinusNothing(r: Resource)
    ensures Minus(r, ZERO) == r
  {
  }

  /** The shape of a step that reserves `x`. */
  lemma ReservingStep(node: Node, state: NodeState, b: Books, a: Allocation, now: ZoneClock, groupActive: bool,
                      x: Resource)
    requires var d := DemandOf(a, now, groupActive);
             Fits(d.mandatory, b.remaining) && x == Choose(d.candidates, d.mandatory, b.remaining).resources
    ensures var (after, plan) := PlanStep(node, state, b, a, now, groupActive);
            && plan.tier != RejectedTier && plan.granted == x
            && (Accepted(plan) ==> after.remaining == Subtract(b.remaining, x))
            && (!Accepted(plan) ==> after.remaining == Add(Subtract(b.remaining, x), x))
  {
    var d := DemandOf(a, now, groupActive);
    ChoiceTier(d.candidates, d.mandatory, b.remaining);
  }

  lemma ReservationExactly(r: Resource, x: Resource)
    requires IsBudget(r) && IsInt32(x) && Fits(x, r)
    ensures Subtract(r, x) == Minus(r, x) <==> IsInt32(Minus(r, x))
    ensures Add(Subtract(r, x), x) == r <==> IsInt32(Minus(r, x))
    ensures IsInt32(Minus(r, x)) ==> IsBudget(Minus(r, x))
  {
    ReserveExactlyWhenRepresentable(Opened(r), "", x);
    ReserveReleaseExactly(r, x);
    RestIsBudget(r, x);
  }

  /** One step conserves exactly when its reservation is representable, whatever the signs. */
  lemma StepConservesExactly(node: Node, state: NodeState, b: Books, a: Allocation, now: ZoneClock, groupActive: bool)
    requires IsBudget(b.remaining) && Int32Budgets(a)
    ensures var (after, plan) := PlanStep(node, state, b, a, now, groupActive);
            && (after.remaining == Minus(b.remaining, AcceptedPart(plan)) <==> LeavesRepresentable(b.remaining, plan))
            && (LeavesRepresentable(b.remaining, plan) ==> IsBudget(after.remaining))
  {
    var demand := DemandOf(a, now, groupActive);
    MinusNothing(b.remaining);
    if Fits(demand.mandatory, b.remaining) {
      DemandIsInt32(a, now, groupActive);
      ChoiceIsInt32(demand.candidates, demand.mandatory, b.remaining);
      var x := Choose(demand.candidates, demand.mandatory, b.remaining).resources;
      ReservingStep(node, state, b, a, now, groupActive, x);
      ReservationExactly(b.remaining, x);
    }
  }

  lemma RestIsBudget(r: Resource, x: Resource)
    requires Fits(x, r)
    ensures IsInt32(Minus(r, x)) ==> IsBudget(Minus(r, x))
  {
  }

  /** After every step of the run, what is left is what there was less the accepted budgets. */
  predicate ConservesThroughout(node: Node, state: NodeState, b: Books, items: seq<Item>, now: ZoneClock) {
    items == [] ||
    (&& ConservesThroughout(node, state, b, items[..|items| - 1], now)
     && var o := Run(node, state, b, items, now); o.books.remaining == Minus(b.remaining, AcceptedTotal(o.plans)))
  }

  /** Every reservation of the run leaves a representable rest. */
  predicate ReservesRepresentably(node: Node, state: NodeState, b: Books, items: seq<Item>, now: ZoneClock) {
    items == [] ||
    (&& ReservesRepresentably(node, state, b, items[..|items| - 1], now)
     && var o, item := Run(node, state, b, items[..|items| - 1], now), items[|items| - 1];
        LeavesRepresentable(o.books.remaining,
            PlanStep(node, state, o.books, item.allocation, now, item.groupActive).1))
  }

  lemma AdvanceConservesExactly(node: Node, state: NodeState, o: Outcome, item: Item, now: ZoneClock, start: Resource)
    requires IsBudget(o.books.remaining) && Int32Budgets(item.allocation)
    requires o.books.remaining == Minus(start, AcceptedTotal(o.plans))
    ensures var after := Advance(node, state, o, item, now);
            var plan := PlanStep(node, state, o.books, item.allocation, now, item.groupActive).1;
            && (after.books.remaining == Minus(start, AcceptedTotal(after.plans)) <==>
                 LeavesRepresentable(o.books.remaining, plan))
            && (LeavesRepresentable(o.books.remaining, plan) ==> IsBudget(after.books.remaining))
  {
    StepConservesExactly(node, state, o.books, item.allocation, now, item.groupActive);
    var plan := PlanStep(node, state, o.books, item.allocation, now, item.groupActive).1;
    AcceptedTotalSnoc(o.plans, plan);
    MinusTwice(start, AcceptedTotal(o.plans), AcceptedPart(plan));
  }

  /**
    Conservation needs no signs: for arbitrary int32 budgets a run conserves
    the budget after every step if and only if every reservation it makes
    leaves a representable rest.
  */
  lemma {:induction false} RunConservesExactly(node: Node, state: NodeState, b: Books, items: seq<Item>, now: ZoneClock)
    requires IsBudget(b.remaining) && forall i :: 0 <= i < |items| ==> Int32Budgets(items[i].allocation)
    ensures ConservesThroughout(node, state, b, items, now) <==> ReservesRepresentably(node, state, b, items, now)
    ensures ConservesThroughout(node, state, b, items, now) ==>
            var o := Run(node, state, b, items, now);
            IsBudget(o.books.remaining) && o.books.remaining == Minus(b.remaining, AcceptedTotal(o.plans))
  {
    if items == [] {
      MinusNothing(b.remaining);
    } else {
      var front := items[..|items| - 1];
      RunConservesExactly(node, state, b, front, now);
      if ConservesThroughout(node, state, b, front, now) {
        AdvanceConservesExactly(node, state, Run(node, state, b, front, now), items[|items| - 1], now, b.remaining);
      }
    }
  }

  // ---- From lists to items -------------------------------------------------

  lemma {:induction false} TagGroupAllocations(g: Group, active: bool, i: nat)
    requires i < |g|
    ensures TagGroup(g, active)[i] == Item(g[i], active)
  {
    if i < |g| - 1 { TagGroupAllocations(g[..|g| - 1], active, i); }
  }

  lemma {:induction false} TagLength(groups: seq<Group>, now: ZoneClock)
    ensures |Tag(groups, now)| == |Flatten(groups)|
  {
    if groups != [] { TagLength(groups[..|groups| - 1], now); }
  }

  lemma {:induction false} TagAllocations(groups: seq<Group>, now: ZoneClock, i: nat)
    requires i < |Flatten(groups)|
    ensures i < |Tag(groups, now)| && Tag(groups, now)[i].allocation == Flatten(groups)[i]
  {
    var front, last := groups[..|groups| - 1], groups[|groups| - 1];
    TagLength(front, now);
    if i < |Flatten(front)| {
      TagAllocations(front, now, i);
    } else {
      TagGroupAllocations(last, AnyActive(last, now), i - |Flatten(front)|);
    }
  }

  /** Item `i` carries the `i`-th allocation of the order. */
  lemma ItemAllocations(s: seq<Allocation>, now: ZoneClock, i: nat)
    requires i < |s|
    ensures |Items(s, now)| == |s| && Items(s, now)[i].allocation == Order(s, now)[i]
  {
    GroupsFlatten(Order(s, now));
    TagLength(Groups(Order(s, now)), now);
    TagAllocations(Groups(Order(s, now)), now, i);
  }

  lemma ItemCount(s: seq<Allocation>, now: ZoneClock)
    ensures |Items(s, now)| == |s|
  {
    GroupsFlatten(Order(s, now));
    TagLength(Groups(Order(s, now)), now);
  }

  lemma OrderMember(s: seq<Allocation>, now: ZoneClock, i: nat) returns (j: nat)
    requires i < |s|
    ensures j < |s| && s[j] == Order(s, now)[i]
  {
    OrderIsPermutation(s, now);
    var x := Order(s, now)[i];
    assert x in multiset(Order(s, now));
    assert x in multiset(s);
    j :| 0 <= j < |s| && s[j] == x;
  }

  lemma ItemsAreWellFormed(s: seq<Allocation>, now: ZoneClock)
    requires AllWellFormed(s)
    ensures ItemsWellFormed(Items(s, now))
  {
    ItemCount(s, now);
    forall i | 0 <= i < |s| ensures WellFormed(Items(s, now)[i].allocation) {
      ItemAllocations(s, now, i);
      var j := OrderMember(s, now, i);
    }
  }

  // ---- Main results --------------------------------------------------------

  predicate Int32Node(node: Node) {
    && (node.allocatable.Some? ==> IsInt32(node.allocatable.value))
    && (forall i :: 0 <= i < |node.gpuMemory| ==> InInt32(node.gpuMemory[i]))
    && InInt32(|node.gpuMemory|)
    && (node.runtime.Some? ==> InInt32(node.runtime.value.kvCacheGiB))
    && (node.runtime.Some? && node.runtime.value.tokens.Some? ==>
          var t := node.runtime.value.tokens.value;
          InInt32(t.prefillTps) && InInt32(t.decodeTps) && InInt32(t.totalTps))
  }

  lemma {:induction false} WrappedSumIsInt32(s: seq<int>)
    requires forall i :: 0 <= i < |s| ==> InInt32(s[i])
    ensures InInt32(WrappedSum(s))
  {
    if s != [] { WrappedSumIsInt32(s[..|s| - 1]); }
  }

  lemma MaxIsBudget(a: Resource, b: Resource)
    requires IsBudget(a) && IsInt32(b)
    ensures IsBudget(Max(a, b))
  {
  }

  lemma CapacitiesAreInt32(node: Node)
    requires Int32Node(node)
    ensures IsInt32(GpuCapacity(node)) && IsInt32(KvCapacity(node)) && IsInt32(TokenCapacity(node))
  {
    WrappedSumIsInt32(node.gpuMemory);
  }

  lemma OpenedIsSound(node: Node, s: seq<Allocation>)
    requires Int32Node(node)
    ensures Sound(Opened(CapacityOf(Observe(node, s))))
  {
    CapacitiesAreInt32(node);
    MaxIsBudget(ZERO, GpuCapacity(node));
    MaxIsBudget(Max(ZERO, GpuCapacity(node)), KvCapacity(node));
    MaxIsBudget(Max(Max(ZERO, GpuCapacity(node)), KvCapacity(node)), TokenCapacity(node));
  }

  /** The capacity the planner works with. */
  function NodeCapacity(node: Node): Resource { CapacityOf(Observe(node, [])) }

  /** The plans for `s`, in planning order. */
  function Plans(node: Node, s: seq<Allocation>, now: ZoneClock): seq<Plan> { PlanAll(node, s, now).plans }

  /** What is left after the first `i` plans, computed from the plans alone. */
  function Left(node: Node, plans: seq<Plan>, i: nat): Resource
    requires i <= |plans|
  {
    Minus(NodeCapacity(node), AcceptedTotal(plans[..i]))
  }

  lemma PlanCount(node: Node, s: seq<Allocation>, now: ZoneClock)
    ensures |Plans(node, s, now)| == |s|
  {
    ItemCount(s, now);
  }

  /** The ledger after `i` steps. */
  function BooksAfter(node: Node, s: seq<Allocation>, now: ZoneClock, i: nat): Books
    requires i <= |Items(s, now)|
  {
    var state := Observe(node, Order(s, now));
    Run(node, state, Opened(CapacityOf(state)), Items(s, now)[..i], now).books
  }

  /**
    Conservation after every step: what the ledger has left is the capacity
    minus the budgets of the plans accepted so far, exactly. So neither the
    clamp nor the wrap ever fires, and no prefix of accepted plans exceeds the
    capacity in any dimension.
  */
  lemma PlannerConserves(node: Node, s: seq<Allocation>, now: ZoneClock, i: nat)
    requires Int32Node(node) && AllWellFormed(s) && i <= |s|
    ensures |Items(s, now)| == |Plans(node, s, now)| == |s|
    ensures BooksAfter(node, s, now, i).remaining == Left(node, Plans(node, s, now), i)
    ensures Fits(AcceptedTotal(Plans(node, s, now)[..i]), NodeCapacity(node))
    ensures Sound(BooksAfter(node, s, now, i))
  {
    var state := Observe(node, Order(s, now));
    ItemCount(s, now);
    ItemsAreWellFormed(s, now);
    OpenedIsSound(node, Order(s, now));
    ObservedCapacityIgnoresAllocations(node, Order(s, now), []);
    RunConserves(node, state, Opened(CapacityOf(state)), Items(s, now)[..i], now);
    RunPrefix(node, state, Opened(CapacityOf(state)), Items(s, now), i, now);
  }

  /** The budget that must fit for an allocation not to be rejected. */
  function Mandatory(a: Allocation, now: ZoneClock): Resource {
    if IsActive(a, now) && !IsZero(MaxBudget(a)) then MaxBudget(a) else RequiredBudget(a)
  }

  /** The budget an allocation that is not rejected is granted. */
  function Grant(a: Allocation, now: ZoneClock, groupActive: bool, left: Resource): Resource {
    if IsActive(a, now) && !IsZero(MaxBudget(a)) then MaxBudget(a)
    else if !groupActive && !IsZero(PreferredBudget(a)) && Fits(PreferredBudget(a), left) then PreferredBudget(a)
    else RequiredBudget(a)
  }

  lemma ChooseFromOne(c: Candidate, mandatory: Resource, remaining: Resource)
    ensures Choose([], mandatory, remaining) == Candidate(RequiredTier, mandatory)
    ensures Choose([c], mandatory, remaining) ==
            if !IsZero(c.resources) && Fits(c.resources, remaining) then c else Candidate(RequiredTier, mandatory)
  {
    assert [c][1..] == [];
  }

  lemma StepTier(node: Node, state: NodeState, b: Books, a: Allocation, now: ZoneClock, groupActive: bool)
    requires WellFormed(a)
    ensures var plan := PlanStep(node, state, b, a, now, groupActive).1;
            && (plan.tier == RejectedTier <==> !Fits(Mandatory(a, now), b.remaining))
            && (plan.tier != RejectedTier ==> plan.granted == Grant(a, now, groupActive, b.remaining))
            && (plan.tier == DegradedTier <==> plan.tier != RejectedTier && !Applicable(node, state, plan.granted))
            && (Accepted(plan) <==> plan.tier != RejectedTier && plan.tier != DegradedTier)
            && (plan.tier == RejectedTier ==> plan.granted == ZERO)
            && plan.allocation == a
  {
    var d := DemandOf(a, now, groupActive);
    ChooseFromOne(Candidate(MaxTier, MaxBudget(a)), d.mandatory, b.remaining);
    ChooseFromOne(Candidate(PreferredTier, PreferredBudget(a)), d.mandatory, b.remaining);
  }

  /** The tier an accepted plan reports. */
  lemma StepTierNames(node: Node, state: NodeState, b: Books, a: Allocation, now: ZoneClock, groupActive: bool)
    requires WellFormed(a) && Accepted(PlanStep(node, state, b, a, now, groupActive).1)
    ensures var tier := PlanStep(node, state, b, a, now, groupActive).1.tier;
            && (tier == MaxTier <==> TakesMax(a, now))
            && (tier == PreferredTier <==> TakesPreferred(a, now, groupActive, b.remaining))
            && (tier == MaxTier || tier == PreferredTier || tier == RequiredTier)
  {
    var d := DemandOf(a, now, groupActive);
    ChooseFromOne(Candidate(MaxTier, MaxBudget(a)), d.mandatory, b.remaining);
    ChooseFromOne(Candidate(PreferredTier, PreferredBudget(a)), d.mandatory, b.remaining);
  }

  /** Inside an active window, with a non-zero max. */
  predicate TakesMax(a: Allocation, now: ZoneClock) { IsActive(a, now) && !IsZero(MaxBudget(a)) }

  /** Not so, without an active peer, and with a non-zero preferred budget that fits. */
  predicate TakesPreferred(a: Allocation, now: ZoneClock, groupActive: bool, left: Resource) {
    !TakesMax(a, now) && !groupActive && !IsZero(PreferredBudget(a)) && Fits(PreferredBudget(a), left)
  }

  /** What a plan says was asked for: the mandatory budget if rejected, otherwise the budget aimed at. */
  function Requested(a: Allocation, now: ZoneClock, groupActive: bool, rejected: bool): Resource {
    if TakesMax(a, now) then MaxBudget(a)
    else if rejected || groupActive || IsZero(PreferredBudget(a)) then RequiredBudget(a)
    else PreferredBudget(a)
  }

  lemma StepReports(node: Node, state: NodeState, b: Books, a: Allocation, now: ZoneClock, groupActive: bool)
    ensures var p := PlanStep(node, state, b, a, now, groupActive).1;
            && p.requested == Requested(a, now, groupActive, p.tier == RejectedTier)
            && p.activeWindow == ActiveWindow(a.windows, now)
            && p.action == (if Accepted(p) then Apply else FallbackFor(a))
  {
    var d := DemandOf(a, now, groupActive);
    ChoiceTier(d.candidates, d.mandatory, b.remaining);
  }

  /** The managers and constraints of the node accept this budget. */
  predicate Grantable(node: Node, budget: Resource) { Applicable(node, Observe(node, []), budget) }

  lemma ApplicableReadsOnlyCapacities(node: Node, s: seq<Allocation>, budget: Resource)
    ensures Applicable(node, Observe(node, s), budget) <==> Grantable(node, budget)
  {
    ObservedCapacityIgnoresAllocations(node, s, []);
  }

  lemma PlanTierNames(node: Node, s: seq<Allocation>, now: ZoneClock, i: nat)
    requires Int32Node(node) && AllWellFormed(s) && i < |s|
    ensures |Items(s, now)| == |Plans(node, s, now)| == |s|
    ensures var plans := Plans(node, s, now);
            var a, peers, left := Order(s, now)[i], Items(s, now)[i].groupActive, Left(node, plans, i);
            Accepted(plans[i]) ==>
            && (plans[i].tier == MaxTier <==> TakesMax(a, now))
            && (plans[i].tier == PreferredTier <==> TakesPreferred(a, now, peers, left))
            && (plans[i].tier == MaxTier || plans[i].tier == PreferredTier || plans[i].tier == RequiredTier)
  {
    PlannerConserves(node, s, now, i);
    var state := Observe(node, Order(s, now));
    PlanAt(node, state, Opened(CapacityOf(state)), Items(s, now), i, now);
    ItemsAreWellFormed(s, now);
    ItemAllocations(s, now, i);
    var a, peers := Items(s, now)[i].allocation, Items(s, now)[i].groupActive;
    if Accepted(Plans(node, s, now)[i]) { StepTierNames(node, state, BooksAfter(node, s, now, i), a, now, peers); }
  }

  /**
    What a plan reports beside its tier, on any list: the budget it asked for,
    the name of the first window that is open, and the action to take, which
    for a plan that fails is the first of throttling, pausing and evicting that
    the allocation permits.
  */
  lemma PlanReports(node: Node, s: seq<Allocation>, now: ZoneClock, i: nat)
    requires i < |s|
    ensures |Items(s, now)| == |Plans(node, s, now)| == |s|
    ensures var p, a := Plans(node, s, now)[i], Order(s, now)[i];
            && p.requested == Requested(a, now, Items(s, now)[i].groupActive, p.tier == RejectedTier)
            && (forall k: nat :: FirstOpen(a.windows, now, k) ==> p.activeWindow == a.windows[k].name)
            && ((forall k: nat :: !FirstOpen(a.windows, now, k)) ==> p.activeWindow == "")
            && (Accepted(p) ==> p.action == Apply)
            && (!Accepted(p) ==> FailsWith(a.actions, p.action))
  {
    var state := Observe(node, Order(s, now));
    ItemAllocations(s, now, i);
    PlanAt(node, state, Opened(CapacityOf(state)), Items(s, now), i, now);
    var b, item := BooksAfter(node, s, now, i), Items(s, now)[i];
    StepReports(node, state, b, item.allocation, now, item.groupActive);
    ActiveWindowIsFirstOpen(item.allocation.windows, now);
  }

  /** The action of a plan that fails: throttling before pausing before evicting, as far as permitted. */
  predicate FailsWith(actions: Option<Actions>, action: Action) {
    && (action == Throttle <==> actions.Some? && actions.value.throttleable)
    && (action == Pause <==> actions.Some? && !actions.value.throttleable && actions.value.pauseable)
    && (action == Evict <==>
        actions.Some? && !actions.value.throttleable && !actions.value.pauseable && actions.value.evictable)
  }

  /**
    The greedy tiers, in terms of the plans alone: plan `i` is rejected exactly
    when its mandatory budget does not fit what the plans before it left;
    otherwise it is granted all of a non-zero max inside an active window,
    exactly required next to an active peer, and elsewhere preferred if that is
    non-zero and fits, or else required, and reports that tier. A plan that is
    granted something the managers or constraints refuse is degraded.
  */
  lemma PlanTiers(node: Node, s: seq<Allocation>, now: ZoneClock, i: nat)
    requires Int32Node(node) && AllWellFormed(s) && i < |s|
    ensures |Items(s, now)| == |Plans(node, s, now)| == |s|
    ensures var plans := Plans(node, s, now);
            var a, left := Order(s, now)[i], Left(node, plans, i);
            && plans[i].allocation == a
            && (plans[i].tier == RejectedTier <==> !Fits(Mandatory(a, now), left))
            && (plans[i].tier == RejectedTier ==> plans[i].granted == ZERO)
            && (plans[i].tier != RejectedTier ==> plans[i].granted == Grant(a, now, Items(s, now)[i].groupActive, left))
            && (plans[i].tier == DegradedTier <==> plans[i].tier != RejectedTier && !Grantable(node, plans[i].granted))
            && (Accepted(plans[i]) <==> plans[i].tier != RejectedTier && plans[i].tier != DegradedTier)
    ensures var plans := Plans(node, s, now);
            var a, peers, left := Order(s, now)[i], Items(s, now)[i].groupActive, Left(node, plans, i);
            Accepted(plans[i]) ==>
            && (plans[i].tier == MaxTier <==> TakesMax(a, now))
            && (plans[i].tier == PreferredTier <==> TakesPreferred(a, now, peers, left))
            && (plans[i].tier == RequiredTier <==> !TakesMax(a, now) && !TakesPreferred(a, now, peers, left))
  {
    PlannerConserves(node, s, now, i);
    var state := Observe(node, Order(s, now));
    if Accepted(Plans(node, s, now)[i]) { PlanTierNames(node, s, now, i); }
    ApplicableReadsOnlyCapacities(node, Order(s, now), Plans(node, s, now)[i].granted);
    PlanAt(node, state, Opened(CapacityOf(state)), Items(s, now), i, now);
    ItemsAreWellFormed(s, now);
    ItemAllocations(s, now, i);
    StepTier(node, state, BooksAfter(node, s, now, i), Items(s, now)[i].allocation, now, Items(s, now)[i].groupActive);
  }

  /** Everything PlanTiers says of one plan, with `left` left and `peers` telling of an active peer. */
  predicate PlannedAs(node: Node, a: Allocation, now: ZoneClock, peers: bool, left: Resource, p: Plan) {
    && p.allocation == a
    && (p.tier == RejectedTier <==> !Fits(Mandatory(a, now), left))
    && (p.tier != RejectedTier ==> p.granted == Grant(a, now, peers, left))
    && (Accepted(p) <==> p.tier != RejectedTier && Grantable(node, p.granted))
    && (Accepted(p) && TakesMax(a, now) ==> p.tier == MaxTier)
  }

  lemma PlanIs(node: Node, s: seq<Allocation>, now: ZoneClock, i: nat) returns (peers: bool)
    requires Int32Node(node) && AllWellFormed(s) && i < |s|
    ensures |Plans(node, s, now)| == |s|
    ensures PlannedAs(node, Order(s, now)[i], now, peers, Left(node, Plans(node, s, now), i), Plans(node, s, now)[i])
  {
    PlanTiers(node, s, now, i);
    peers := Items(s, now)[i].groupActive;
  }

  lemma GrantCoversRequired(a: Allocation, now: ZoneClock, groupActive: bool, left: Resource)
    requires Fits(RequiredBudget(a), PreferredBudget(a)) && Fits(PreferredBudget(a), MaxBudget(a))
    ensures Fits(RequiredBudget(a), Grant(a, now, groupActive, left))
  {
  }

  /** With required <= preferred <= max, every accepted plan covers required. */
  lemma AcceptedCoversRequired(node: Node, s: seq<Allocation>, now: ZoneClock, i: nat)
    requires Int32Node(node) && AllWellFormed(s) && i < |s|
    requires var a := Order(s, now)[i];
             Fits(RequiredBudget(a), PreferredBudget(a)) && Fits(PreferredBudget(a), MaxBudget(a))
    ensures |Plans(node, s, now)| == |s|
    ensures var p := Plans(node, s, now)[i]; Accepted(p) ==> Fits(RequiredBudget(p.allocation), p.granted)
  {
    PlanTiers(node, s, now, i);
    GrantCoversRequired(Order(s, now)[i], now, Items(s, now)[i].groupActive, Left(node, Plans(node, s, now), i));
  }

  lemma StepDegraded(node: Node, s: seq<Allocation>, b: Books, a: Allocation, now: ZoneClock, groupActive: bool)
    requires WellFormed(a) && Sound(b) && b.capacity == CapacityOf(Observe(node, s))
    requires ObservedNonNegative(Observe(node, []))
    ensures var p := PlanStep(node, Observe(node, s), b, a, now, groupActive).1;
            p.tier == DegradedTier <==>
            p.tier != RejectedTier && NeedsTokens(p.granted) && GpuCapacity(node).gpuCount == 0
  {
    var state := Observe(node, s);
    StepTier(node, state, b, a, now, groupActive);
    GrantFits(a, now, groupActive, b.remaining);
    GrantedIsValidated(node, s, PlanStep(node, state, b, a, now, groupActive).1.granted, b);
  }

  /**
    A degraded plan has one cause: with no negative capacity observed, it
    arises exactly when tokens are granted on a node without GPU capacity.
  */
  lemma DegradedOnlyWithoutGpu(node: Node, s: seq<Allocation>, now: ZoneClock, i: nat)
    requires Int32Node(node) && AllWellFormed(s) && i < |s|
    requires ObservedNonNegative(Observe(node, []))
    ensures |Plans(node, s, now)| == |s|
    ensures var p := Plans(node, s, now)[i];
            p.tier == DegradedTier <==>
            && p.tier != RejectedTier && GpuCapacity(node).gpuCount == 0
            && (p.granted.prefillTps > 0 || p.granted.decodeTps > 0 || p.granted.totalTps > 0)
  {
    PlannerConserves(node, s, now, i);
    ItemsAreWellFormed(s, now);
    var ordered := Order(s, now);
    var start := Opened(CapacityOf(Observe(node, ordered)));
    PlanAt(node, Observe(node, ordered), start, Items(s, now), i, now);
    OpenedIsSound(node, ordered);
    RunConserves(node, Observe(node, ordered), start, Items(s, now)[..i], now);
    StepDegraded(node, ordered, BooksAfter(node, s, now, i), Items(s, now)[i].allocation, now,
        Items(s, now)[i].groupActive);
  }

  lemma GrantFits(a: Allocation, now: ZoneClock, groupActive: bool, left: Resource)
    requires WellFormed(a)
    ensures NonNegative(Grant(a, now, groupActive, left))
    ensures Fits(Mandatory(a, now), left) ==> Fits(Grant(a, now, groupActive, left), left)
  {
  }

  lemma GrantedIsValidated(node: Node, s: seq<Allocation>, granted: Resource, b: Books)
    requires ObservedNonNegative(Observe(node, [])) && Sound(b) && b.capacity == CapacityOf(Observe(node, s))
    ensures NonNegative(granted) && Fits(granted, b.remaining) ==> Validated(Observe(node, s), granted)
    ensures ConstraintsHold(node, Observe(node, s), granted, Apply) <==>
            (NeedsTokens(granted) ==> GpuCapacity(node).gpuCount != 0)
  {
    ObservedCapacityIgnoresAllocations(node, s, []);
    ObserveOwnDimensions(node, s);
    if NonNegative(granted) && Fits(granted, b.remaining) {
      ValidationRedundantExactly(Observe(node, s));
    }
  }

  // ---- Priority non-interference -------------------------------------------

  predicate SameCapacities(x: NodeState, y: NodeState) {
    x.gpu.capacity == y.gpu.capacity && x.kvCache.capacity == y.kvCache.capacity
        && x.tokens.capacity == y.tokens.capacity
  }

  lemma ApplicableReadsCapacities(node: Node, x: NodeState, y: NodeState, budget: Resource)
    requires SameCapacities(x, y)
    ensures Applicable(node, x, budget) <==> Applicable(node, y, budget)
  {
  }

  lemma StepReadsOnlyCapacities(node: Node, x: NodeState, y: NodeState, b: Books, a: Allocation, now: ZoneClock,
                                groupActive: bool)
    requires SameCapacities(x, y)
    ensures PlanStep(node, x, b, a, now, groupActive) == PlanStep(node, y, b, a, now, groupActive)
  {
    var demand := DemandOf(a, now, groupActive);
    var choice := Choose(demand.candidates, demand.mandatory, b.remaining);
    ApplicableReadsCapacities(node, x, y, choice.resources);
  }

  lemma AdvanceReadsOnlyCapacities(node: Node, x: NodeState, y: NodeState, o: Outcome, item: Item, now: ZoneClock)
    requires SameCapacities(x, y)
    ensures Advance(node, x, o, item, now) == Advance(node, y, o, item, now)
  {
    StepReadsOnlyCapacities(node, x, y, o.books, item.allocation, now, item.groupActive);
  }

  lemma {:induction false} RunReadsOnlyCapacities(node: Node, x: NodeState, y: NodeState, b: Books, items: seq<Item>,
                                                  now: ZoneClock)
    requires SameCapacities(x, y)
    ensures Run(node, x, b, items, now) == Run(node, y, b, items, now)
  {
    if items != [] {
      RunReadsOnlyCapacities(node, x, y, b, items[..|items| - 1], now);
      AdvanceReadsOnlyCapacities(node, x, y, Run(node, x, b, items[..|items| - 1], now), items[|items| - 1], now);
    }
  }

  lemma {:induction false} TagConcat(a: seq<Group>, b: seq<Group>, now: ZoneClock)
    ensures Tag(a + b, now) == Tag(a, now) + Tag(b, now)
  {
    if b == [] {
      assert a + b == a;
    } else {
      assert a + b == (a + b[..|b| - 1]) + [b[|b| - 1]];
      TagConcat(a, b[..|b| - 1], now);
      TagSnoc(a + b[..|b| - 1], b[|b| - 1], now);
    }
  }

  /** The items of the high part come first and do not see the low part. */
  lemma ItemsSplitByRank(s: seq<Allocation>, k: int, now: ZoneClock)
    ensures Items(s, now) == Items(High(s, k), now) + Items(Low(s, k), now)
  {
    var h, l := Order(High(s, k), now), Order(Low(s, k), now);
    OrderSplitsByRank(s, k, now);
    if h != [] && l != [] { assert Rank(h[|h| - 1]) >= k > Rank(l[0]); }
    GroupsSplit(h, l);
    TagConcat(Groups(h), Groups(l), now);
  }

  /** Planning the high part alone gives the first plans of planning everything. */
  lemma HighPartIsPrefix(node: Node, s: seq<Allocation>, k: int, now: ZoneClock)
    ensures |Plans(node, High(s, k), now)| == |High(s, k)| <= |Plans(node, s, now)|
    ensures Plans(node, s, now)[..|High(s, k)|] == Plans(node, High(s, k), now)
  {
    ItemsSplitByRank(s, k, now);
    ItemCount(High(s, k), now);
    var x, y := Observe(node, Order(s, now)), Observe(node, Order(High(s, k), now));
    ObservedCapacityIgnoresAllocations(node, Order(s, now), Order(High(s, k), now));
    var start := Opened(CapacityOf(x));
    RunReadsOnlyCapacities(node, x, y, start, Items(High(s, k), now), now);
    RunPrefix(node, x, start, Items(s, now), |High(s, k)|, now);
    assert Items(s, now)[..|High(s, k)|] == Items(High(s, k), now);
  }

  /**
    Priority non-interference: two lists that agree on the allocations of rank
    `k` and above get the same plans for them, whatever the lower ranks hold.
  */
  lemma PriorityNonInterference(node: Node, s: seq<Allocation>, t: seq<Allocation>, k: int, now: ZoneClock)
    requires High(s, k) == High(t, k)
    ensures |High(s, k)| <= |Plans(node, s, now)| && |High(s, k)| <= |Plans(node, t, now)|
    ensures Plans(node, s, now)[..|High(s, k)|] == Plans(node, t, now)[..|High(s, k)|]
  {
    HighPartIsPrefix(node, s, k, now);
    HighPartIsPrefix(node, t, k, now);
  }

  // ---- Groups seen from the input list -------------------------------------

  ghost predicate ActivePeer(s: seq<Allocation>, priority: string, now: ZoneClock) {
    exists j :: 0 <= j < |s| && PriorityOf(s[j]) == priority && IsActive(s[j], now)
  }

  lemma {:induction false} TagIndex(groups: seq<Group>, now: ZoneClock, i: nat) returns (k: nat, m: nat)
    requires i < |Tag(groups, now)|
    ensures k < |groups| && m < |groups[k]| && Tag(groups, now)[i] == Item(groups[k][m], AnyActive(groups[k], now))
  {
    var front, last := groups[..|groups| - 1], groups[|groups| - 1];
    if i < |Tag(front, now)| {
      k, m := TagIndex(front, now, i);
    } else {
      k, m := |groups| - 1, i - |Tag(front, now)|;
      TagGroupAllocations(last, AnyActive(last, now), m);
    }
  }

  lemma GroupActivityOf(groups: seq<Group>, k: nat, m: nat, now: ZoneClock)
    requires Homogeneous(groups) && DistinctGroups(groups) && k < |groups| && m < |groups[k]|
    ensures AnyActive(groups[k], now) <==> ActivePeer(Flatten(groups), PriorityOf(groups[k][m]), now)
  {
    var flat, p := Flatten(groups), PriorityOf(groups[k][m]);
    if AnyActive(groups[k], now) {
      var i :| 0 <= i < |groups[k]| && IsActive(groups[k][i], now);
      FlattenMember(groups, k, i);
      var j :| 0 <= j < |flat| && flat[j] == groups[k][i];
      assert PriorityOf(flat[j]) == p && IsActive(flat[j], now);
    }
    if ActivePeer(flat, p, now) {
      var j :| 0 <= j < |flat| && PriorityOf(flat[j]) == p && IsActive(flat[j], now);
      var k', i := FlattenIndex(groups, j);
      assert PriorityOf(groups[k'][0]) == p == PriorityOf(groups[k][0]);
      assert k' == k;
    }
  }

  lemma OrderedDescends(s: seq<Allocation>, now: ZoneClock)
    requires Ordered(s, now)
    ensures RanksDescend(s)
  {
    forall i, j | 0 <= i < j < |s| ensures Rank(s[i]) >= Rank(s[j]) { assert !Before(s[j], s[i], now); }
  }

  lemma PermutedCanonical(s: seq<Allocation>, t: seq<Allocation>)
    requires multiset(s) == multiset(t) && Canonical(s)
    ensures Canonical(t)
  {
    forall i, j | 0 <= i < |t| && 0 <= j < |t| && Rank(t[i]) == Rank(t[j])
      ensures PriorityOf(t[i]) == PriorityOf(t[j])
    {
      assert t[i] in multiset(t) && t[j] in multiset(t);
      assert t[i] in s && t[j] in s;
    }
  }

  lemma PermutedPeer(s: seq<Allocation>, t: seq<Allocation>, priority: string, now: ZoneClock)
    requires multiset(s) == multiset(t) && ActivePeer(s, priority, now)
    ensures ActivePeer(t, priority, now)
  {
    var j :| 0 <= j < |s| && PriorityOf(s[j]) == priority && IsActive(s[j], now);
    assert s[j] in multiset(t);
    assert s[j] in t;
  }

  /** With canonical priorities, an item's group is active exactly when some allocation of that priority is. */
  lemma GroupActiveMeansActivePeer(s: seq<Allocation>, now: ZoneClock, i: nat)
    requires Canonical(s) && i < |s|
    ensures |Items(s, now)| == |s|
    ensures Items(s, now)[i].groupActive <==> ActivePeer(s, PriorityOf(Items(s, now)[i].allocation), now)
  {
    var o := Order(s, now);
    ItemCount(s, now);
    OrderIsPermutation(s, now);
    OrderIsOrdered(s, now);
    OrderedDescends(o, now);
    PermutedCanonical(s, o);
    OneGroupPerPriority(o);
    GroupsHomogeneous(o);
    GroupsFlatten(o);
    var k, m := TagIndex(Groups(o), now, i);
    GroupActivityOf(Groups(o), k, m, now);
    var p := PriorityOf(Groups(o)[k][m]);
    if ActivePeer(s, p, now) { PermutedPeer(s, o, p, now); }
    if ActivePeer(o, p, now) { PermutedPeer(o, s, p, now); }
  }

  // ---- A node with one allocation ------------------------------------------

  lemma LoneOrder(a: Allocation, now: ZoneClock)
    ensures Order([a], now) == [a]
  {
    assert [a][..0] == [];
    assert Order([], now) == [];
  }

  lemma LoneGroup(a: Allocation, now: ZoneClock)
    ensures |Items([a], now)| == 1 && Items([a], now)[0] == Item(a, IsActive(a, now))
  {
    var s := [a];
    LoneOrder(a, now);
    GroupActiveMeansActivePeer(s, now, 0);
    ItemAllocations(s, now, 0);
    assert s[0] == a;
  }

  lemma LonePlan(node: Node, a: Allocation, now: ZoneClock) returns (p: Plan)
    requires Int32Node(node) && WellFormed(a)
    ensures Plans(node, [a], now) == [p] && PlannedFrom(node, a, now, NodeCapacity(node), p)
  {
    LoneOrder(a, now);
    LoneGroup(a, now);
    PlanTiers(node, [a], now, 0);
    PlanActions(node, [a], now, 0);
    var plans := Plans(node, [a], now);
    LeftOfAll(node, plans);
    p := plans[0];
  }

  /** What a lone allocation ends up holding. */
  function LoneGrant(node: Node, a: Allocation, now: ZoneClock): Resource {
    var grant := Grant(a, now, IsActive(a, now), NodeCapacity(node));
    if Fits(Mandatory(a, now), NodeCapacity(node)) && Grantable(node, grant) then grant else ZERO
  }

  lemma LoneAccepted(node: Node, a: Allocation, now: ZoneClock)
    requires Int32Node(node) && WellFormed(a)
    ensures AcceptedTotal(Plans(node, [a], now)) == LoneGrant(node, a, now)
  {
    var p := LonePlan(node, a, now);
    LoneTotal(p);
  }

  lemma LoneTotal(p: Plan)
    ensures AcceptedTotal([p]) == AcceptedPart(p)
  {
    assert [] + [p] == [p];
    AcceptedTotalSnoc([], p);
    PlusZeroLeft(AcceptedPart(p));
  }

  lemma PlusZeroLeft(x: Resource)
    ensures Plus(ZERO, x) == x
  {
  }

  /** What `a` is planned as when `left` is left and only its own activity counts. */
  predicate PlannedFrom(node: Node, a: Allocation, now: ZoneClock, left: Resource, p: Plan) {
    var grant := Grant(a, now, IsActive(a, now), left);
    && p.allocation == a
    && (p.tier == RejectedTier <==> !Fits(Mandatory(a, now), left))
    && p.granted == (if p.tier == RejectedTier then ZERO else grant)
    && (Accepted(p) <==> p.tier != RejectedTier && Grantable(node, grant))
    && p.action == (if Accepted(p) then Apply else FallbackFor(a))
  }

  lemma PairItem(s: seq<Allocation>, now: ZoneClock, i: nat)
    requires |s| == 2 && Rank(s[0]) > Rank(s[1]) && i < 2
    ensures |Items(s, now)| == 2 && Items(s, now)[i] == Item(s[i], IsActive(s[i], now))
  {
    FallingOrder(s, now);
    ItemAllocations(s, now, i);
    assert Canonical(s);
    GroupActiveMeansActivePeer(s, now, i);
    assert PriorityOf(s[0]) != PriorityOf(s[1]);
  }

  lemma PairTier(node: Node, s: seq<Allocation>, now: ZoneClock, i: nat)
    requires Int32Node(node) && AllWellFormed(s) && |s| == 2 && Rank(s[0]) > Rank(s[1]) && i < 2
    ensures |Plans(node, s, now)| == 2
    ensures PlannedFrom(node, s[i], now, Left(node, Plans(node, s, now), i), Plans(node, s, now)[i])
  {
    FallingOrder(s, now);
    PairItem(s, now, i);
    PlanTiers(node, s, now, i);
    PlanActions(node, s, now, i);
  }

  lemma PlanActions(node: Node, s: seq<Allocation>, now: ZoneClock, i: nat)
    requires i < |s|
    ensures |Plans(node, s, now)| == |s|
    ensures var p := Plans(node, s, now)[i]; p.action == (if Accepted(p) then Apply else FallbackFor(Order(s, now)[i]))
  {
    var state := Observe(node, Order(s, now));
    ItemAllocations(s, now, i);
    PlanAt(node, state, Opened(CapacityOf(state)), Items(s, now), i, now);
    var item := Items(s, now)[i];
    StepReports(node, state, BooksAfter(node, s, now, i), item.allocation, now, item.groupActive);
  }

  /** The plans `plans` of two allocations of which the second gets what the first leaves. */
  predicate PlannedInTurn(node: Node, s: seq<Allocation>, now: ZoneClock, plans: seq<Plan>) {
    && |s| == 2 && |plans| == 2
    && PlannedFrom(node, s[0], now, NodeCapacity(node), plans[0])
    && PlannedFrom(node, s[1], now, Minus(NodeCapacity(node), AcceptedPart(plans[0])), plans[1])
  }

  lemma InTurn(node: Node, s: seq<Allocation>, now: ZoneClock, plans: seq<Plan>)
    requires |s| == 2 && |plans| == 2
    requires PlannedFrom(node, s[0], now, Left(node, plans, 0), plans[0])
    requires PlannedFrom(node, s[1], now, Left(node, plans, 1), plans[1])
    ensures PlannedInTurn(node, s, now, plans)
  {
    LeftOfTwo(node, plans);
  }

  /** The plans of two allocations of different rank. */
  lemma PairPlans(node: Node, s: seq<Allocation>, now: ZoneClock)
    requires Int32Node(node) && AllWellFormed(s) && |s| == 2 && Rank(s[0]) > Rank(s[1])
    ensures PlannedInTurn(node, s, now, Plans(node, s, now))
  {
    PairTier(node, s, now, 0);
    PairTier(node, s, now, 1);
    InTurn(node, s, now, Plans(node, s, now));
  }

  lemma LeftOfTwo(node: Node, plans: seq<Plan>)
    requires |plans| == 2
    ensures Left(node, plans, 0) == NodeCapacity(node)
    ensures Left(node, plans, 1) == Minus(NodeCapacity(node), AcceptedPart(plans[0]))
  {
    LeftOfAll(node, plans);
    assert plans[..1] == [plans[0]];
    LoneTotal(plans[0]);
  }

  lemma LeftOfAll(node: Node, plans: seq<Plan>)
    ensures Left(node, plans, 0) == NodeCapacity(node)
  {
    assert plans[..0] == [];
  }

  // ---- When accepted plans cover the required budget -----------------------

  /**
    The order among an allocation's budgets that matters now: inside its
    windows a non-zero max must cover required, outside them a non-zero
    preferred must.
  */
  predicate BudgetsOrdered(a: Allocation, now: ZoneClock) {
    if IsActive(a, now) then IsZero(MaxBudget(a)) || Fits(RequiredBudget(a), MaxBudget(a))
    else IsZero(PreferredBudget(a)) || Fits(RequiredBudget(a), PreferredBudget(a))
  }

  /** Whatever the node and the other allocations, an accepted plan for `a` covers its required budget. */
  ghost predicate AlwaysCovered(a: Allocation, now: ZoneClock) {
    forall node, s, i: nat ::
      Int32Node(node) && AllWellFormed(s) && PlannedAt(node, s, now, i, a) && Accepted(Plans(node, s, now)[i]) ==>
      Fits(RequiredBudget(a), Plans(node, s, now)[i].granted)
  }

  /** `a` is the `i`-th allocation planned. */
  predicate PlannedAt(node: Node, s: seq<Allocation>, now: ZoneClock, i: nat, a: Allocation) {
    i < |s| && i < |Plans(node, s, now)| && Order(s, now)[i] == a
  }

  lemma ActiveItemHasActiveGroup(s: seq<Allocation>, now: ZoneClock, i: nat)
    requires i < |Items(s, now)| && IsActive(Items(s, now)[i].allocation, now)
    ensures Items(s, now)[i].groupActive
  {
    var k, m := TagIndex(Groups(Order(s, now)), now, i);
    assert IsActive(Groups(Order(s, now))[k][m], now);
  }

  lemma OrderedGrantCovers(a: Allocation, now: ZoneClock, groupActive: bool, left: Resource)
    requires BudgetsOrdered(a, now) && (IsActive(a, now) ==> groupActive)
    ensures Fits(RequiredBudget(a), Grant(a, now, groupActive, left))
  {
  }

  lemma OrderedIsCovered(a: Allocation, now: ZoneClock, node: Node, s: seq<Allocation>, i: nat)
    requires BudgetsOrdered(a, now) && Int32Node(node) && AllWellFormed(s)
    requires PlannedAt(node, s, now, i, a) && Accepted(Plans(node, s, now)[i])
    ensures Fits(RequiredBudget(a), Plans(node, s, now)[i].granted)
  {
    PlanTiers(node, s, now, i);
    ItemAllocations(s, now, i);
    if IsActive(a, now) { ActiveItemHasActiveGroup(s, now, i); }
    OrderedGrantCovers(a, now, Items(s, now)[i].groupActive, Left(node, Plans(node, s, now), i));
  }

  /** A node with a GPU that offers exactly `room`. */
  function RoomyNode(room: Resource): Node { Node(Some(room), [], None, None) }

  lemma RoomyNodeGrants(room: Resource, budget: Resource)
    requires IsBudget(room) && room.gpuCount >= 1 && Fits(budget, room)
    ensures Int32Node(RoomyNode(room)) && NodeCapacity(RoomyNode(room)) == room && Grantable(RoomyNode(room), budget)
  {
  }

  lemma BudgetMax(a: Resource, b: Resource)
    requires IsBudget(a) && IsBudget(b)
    ensures IsBudget(Max(a, b))
  {
  }

  function RoomFor(a: Allocation): Resource {
    Max(Max(Max(RequiredBudget(a), PreferredBudget(a)), MaxBudget(a)), Gpus(1))
  }

  lemma RoomForFits(a: Allocation)
    requires WellFormed(a)
    ensures var room := RoomFor(a);
            && IsBudget(room) && room.gpuCount >= 1
            && Fits(RequiredBudget(a), room) && Fits(PreferredBudget(a), room) && Fits(MaxBudget(a), room)
  {
    BudgetMax(RequiredBudget(a), PreferredBudget(a));
    BudgetMax(Max(RequiredBudget(a), PreferredBudget(a)), MaxBudget(a));
    BudgetMax(Max(Max(RequiredBudget(a), PreferredBudget(a)), MaxBudget(a)), Gpus(1));
  }

  lemma UnorderedGrantUndercuts(a: Allocation, now: ZoneClock, left: Resource)
    requires !BudgetsOrdered(a, now) && Fits(PreferredBudget(a), left) && Fits(MaxBudget(a), left)
             && Fits(RequiredBudget(a), left)
    ensures !Fits(RequiredBudget(a), Grant(a, now, IsActive(a, now), left))
    ensures Fits(Mandatory(a, now), left) && Fits(Grant(a, now, IsActive(a, now), left), left)
  {
  }

  /** An allocation whose budgets are out of order is undercut on a node that has room for it alone. */
  lemma UnorderedIsUndercut(a: Allocation, now: ZoneClock)
    requires WellFormed(a) && !BudgetsOrdered(a, now)
    ensures var node := RoomyNode(RoomFor(a));
            && Int32Node(node) && PlannedAt(node, [a], now, 0, a) && Accepted(Plans(node, [a], now)[0])
            && !Fits(RequiredBudget(a), Plans(node, [a], now)[0].granted)
  {
    var room := RoomFor(a);
    RoomForFits(a);
    UnorderedGrantUndercuts(a, now, room);
    RoomyNodeGrants(room, Grant(a, now, IsActive(a, now), room));
    var p := LonePlan(RoomyNode(room), a, now);
    LoneOrder(a, now);
  }

  /** Every accepted plan covers required, on every node and in every company, exactly when the budgets are in order. */
  lemma CoversRequiredExactly(a: Allocation, now: ZoneClock)
    requires WellFormed(a)
    ensures AlwaysCovered(a, now) <==> BudgetsOrdered(a, now)
  {
    if BudgetsOrdered(a, now) {
      forall node, s, i: nat | Int32Node(node) && AllWellFormed(s) && PlannedAt(node, s, now, i, a)
          && Accepted(Plans(node, s, now)[i])
        ensures Fits(RequiredBudget(a), Plans(node, s, now)[i].granted)
      {
        OrderedIsCovered(a, now, node, s, i);
      }
    } else {
      UnorderedIsUndercut(a, now);
      var s := [a];
      assert AllWellFormed(s);
    }
  }

  // ---- Where the unstated assumptions bite ---------------------------------

  function BareAllocation(name: string, priority: string, request: Request): Allocation {
    Allocation("", name, None, "", [], "online", priority, [], Some(request), None, None, Status("", None, None, None))
  }

  /** Without required <= preferred, a plan is accepted with less than required: one GPU where two are required. */
  lemma PreferredMayUndercutRequired(now: ZoneClock)
    ensures var a := BareAllocation("a", "low", Request(Some(Gpus(2)), Some(Gpus(1)), None));
            var plans := Plans(RoomyNode(Gpus(4)), [a], now);
            |plans| == 1 && Accepted(plans[0]) && plans[0].granted == Gpus(1) && RequiredBudget(a) == Gpus(2)
  {
    var a := BareAllocation("a", "low", Request(Some(Gpus(2)), Some(Gpus(1)), None));
    GpusFit(1, 4);
    GpusFit(2, 4);
    RoomyNodeGrants(Gpus(4), Gpus(1));
    var p := LonePlan(RoomyNode(Gpus(4)), a, now);
  }

  predicate RanksFall(s: seq<Allocation>) { forall i, j :: 0 <= i < j < |s| ==> Rank(s[i]) > Rank(s[j]) }

  predicate Windowless(s: seq<Allocation>) { forall i :: 0 <= i < |s| ==> s[i].windows == [] }

  lemma LowerRankNotBefore(x: Allocation, y: Allocation, now: ZoneClock)
    requires Rank(x) < Rank(y)
    ensures !Before(x, y, now)
  {
  }

  /** What is already in falling rank is in order. */
  lemma FallingOrder(s: seq<Allocation>, now: ZoneClock)
    requires RanksFall(s)
    ensures Order(s, now) == s
  {
    forall i, j | 0 <= i < j < |s| ensures !Before(s[j], s[i], now) { LowerRankNotBefore(s[j], s[i], now); }
    OrderIsTheStableSort(s, s, now);
  }

  /** Without windows, allocations given in falling rank are planned in that order, none beside an active peer. */
  lemma FallingItems(s: seq<Allocation>, now: ZoneClock, i: nat)
    requires RanksFall(s) && Windowless(s) && i < |s|
    ensures |Items(s, now)| == |s| && Items(s, now)[i] == Item(s[i], false)
  {
    FallingOrder(s, now);
    ItemAllocations(s, now, i);
    GroupsFlatten(s);
    var k, m := TagIndex(Groups(s), now, i);
    if AnyActive(Groups(s)[k], now) {
      var j :| 0 <= j < |Groups(s)[k]| && IsActive(Groups(s)[k][j], now);
      FlattenMember(Groups(s), k, j);
    }
  }

  lemma RunOfThree(node: Node, state: NodeState, b: Books, x: Item, y: Item, z: Item, now: ZoneClock)
    ensures var o := Advance(node, state, Advance(node, state, Outcome(b, []), x, now), y, now);
            Run(node, state, b, [x, y, z], now) == Advance(node, state, o, z, now)
  {
    RunSnoc(node, state, b, [], x, now);
    RunSnoc(node, state, b, [x], y, now);
    RunSnoc(node, state, b, [x, y], z, now);
    assert [] + [x] == [x] && [x] + [y] == [x, y] && [x, y] + [z] == [x, y, z];
  }

  /** One step for a flat request of `n` GPUs when `m` are left. */
  lemma FlatAdvance(node: Node, state: NodeState, o: Outcome, a: Allocation, now: ZoneClock, n: int, m: int)
    requires a.windows == [] && RequiredBudget(a) == Gpus(n) && PreferredBudget(a) == Gpus(n) && n != 0
    requires o.books.remaining == Gpus(m) && n <= m && InInt32(m - n) && Applicable(node, state, Gpus(n))
    ensures var after := Advance(node, state, o, Item(a, false), now);
            && after.books.remaining == Gpus(m - n) && |after.plans| == |o.plans| + 1
                 && after.plans[..|o.plans|] == o.plans
            && Accepted(after.plans[|o.plans|]) && after.plans[|o.plans|].granted == Gpus(n)
  {
    GpusFit(n, m);
    GpusFit(n, n);
    ChooseFromOne(Candidate(PreferredTier, Gpus(n)), Gpus(n), Gpus(m));
    GpusSubtract(m, n);
  }

  lemma GpuNodeGrants(s: seq<Allocation>, c: int, n: int)
    requires n <= c && 1 <= c <= INT32_MAX
    ensures CapacityOf(Observe(RoomyNode(Gpus(c)), s)) == Gpus(c)
    ensures Applicable(RoomyNode(Gpus(c)), Observe(RoomyNode(Gpus(c)), s), Gpus(n))
  {
  }

  function FlatAllocation(name: string, priority: string, gpus: int): Allocation {
    BareAllocation(name, priority, Request(Some(Gpus(gpus)), None, None))
  }

  /** A windowless allocation whose required and preferred budgets are `n` GPUs. */
  predicate AsksFlat(a: Allocation, n: int) {
    a.windows == [] && RequiredBudget(a) == Gpus(n) && PreferredBudget(a) == Gpus(n) && n != 0
  }

  lemma ThreeFlatSteps(node: Node, state: NodeState, books: Books, x: Allocation, y: Allocation, z: Allocation, a: int,
                       b: int, c: int, room: int, now: ZoneClock)
    requires AsksFlat(x, a) && AsksFlat(y, b) && AsksFlat(z, c) && books.remaining == Gpus(room)
    requires a <= room && b <= room - a && c <= room - a - b && InInt32(room - a) && InInt32(room - a - b)
             && InInt32(room - a - b - c)
    requires Applicable(node, state, Gpus(a)) && Applicable(node, state, Gpus(b)) && Applicable(node, state, Gpus(c))
    ensures var plans := Run(node, state, books, [Item(x, false), Item(y, false), Item(z, false)], now).plans;
            && |plans| == 3 && (forall i :: 0 <= i < 3 ==> Accepted(plans[i]))
            && plans[0].granted == Gpus(a) && plans[1].granted == Gpus(b) && plans[2].granted == Gpus(c)
  {
    var start := Outcome(books, []);
    RunOfThree(node, state, books, Item(x, false), Item(y, false), Item(z, false), now);
    FlatAdvance(node, state, start, x, now, a, room);
    var one := Advance(node, state, start, Item(x, false), now);
    FlatAdvance(node, state, one, y, now, b, room - a);
    var two := Advance(node, state, one, Item(y, false), now);
    FlatAdvance(node, state, two, z, now, c, room - a - b);
    var three := Advance(node, state, two, Item(z, false), now);
    assert three.plans[0] == three.plans[..2][0] && three.plans[1] == three.plans[..2][1]
        && two.plans[0] == two.plans[..1][0];
  }

  lemma FallingPlans(node: Node, s: seq<Allocation>, items: seq<Item>, now: ZoneClock)
    requires RanksFall(s) && Windowless(s) && |items| == |s| && forall i :: 0 <= i < |s| ==>
             items[i] == Item(s[i], false)
    ensures Plans(node, s, now) == Run(node, Observe(node, s), Opened(CapacityOf(Observe(node, s))), items, now).plans
  {
    FallingOrder(s, now);
    ItemCount(s, now);
    forall i | 0 <= i < |s| ensures Items(s, now)[i] == items[i] { FallingItems(s, now, i); }
    assert Items(s, now) == items;
  }

  /** Three flat requests in falling rank: each is granted in full if it fits what the ones before left. */
  lemma ThreeFlatPlans(s: seq<Allocation>, a: int, b: int, c: int, room: int, now: ZoneClock)
    requires |s| == 3 && RanksFall(s) && AsksFlat(s[0], a) && AsksFlat(s[1], b) && AsksFlat(s[2], c)
             && 1 <= room <= INT32_MAX
    requires a <= room && b <= room && c <= room && b <= room - a && c <= room - a - b
    requires InInt32(room - a) && InInt32(room - a - b) && InInt32(room - a - b - c)
    ensures var plans := Plans(RoomyNode(Gpus(room)), s, now);
            && |plans| == 3 && (forall i :: 0 <= i < 3 ==> Accepted(plans[i]))
            && plans[0].granted == Gpus(a) && plans[1].granted == Gpus(b) && plans[2].granted == Gpus(c)
  {
    var node := RoomyNode(Gpus(room));
    GpuNodeGrants(s, room, a);
    GpuNodeGrants(s, room, b);
    GpuNodeGrants(s, room, c);
    FallingPlans(node, s, [Item(s[0], false), Item(s[1], false), Item(s[2], false)], now);
    ThreeFlatSteps(node, Observe(node, s), Opened(Gpus(room)), s[0], s[1], s[2], a, b, c, room, now);
  }

  /**
    With a negative budget in play, the other accepted plans together exceed
    the capacity: behind minus `d` GPUs, a full node's worth and `d` more are
    both accepted. (A single budget above the capacity would be refused by the
    managers.)
  */
  lemma NegativeBudgetInflatesLedger(s: seq<Allocation>, d: int, room: int, now: ZoneClock)
    requires 1 <= d <= room && InInt32(room + d)
    requires |s| == 3 && RanksFall(s) && AsksFlat(s[0], -d) && AsksFlat(s[1], room) && AsksFlat(s[2], d)
    ensures var node := RoomyNode(Gpus(room));
            var plans := Plans(node, s, now);
            && |plans| == 3 && (forall i :: 0 <= i < 3 ==> Accepted(plans[i]))
            && NodeCapacity(node) == Gpus(room) && Plus(plans[1].granted, plans[2].granted) == Gpus(room + d)
            && !Fits(Plus(plans[1].granted, plans[2].granted), NodeCapacity(node))
  {
    ThreeFlatPlans(s, -d, room, d, room, now);
    GpuNodeGrants([], room, room);
    GpusAdd(room, d);
    GpusFit(room + d, room);
  }

  lemma FlatFacts(name: string, priority: string, n: int)
    requires priority != "" && n != 0
    ensures AsksFlat(FlatAllocation(name, priority, n), n)
    ensures Rank(FlatAllocation(name, priority, n)) == PriorityRank(priority)
  {
    GpusFit(n, n);
  }

  lemma ThreeRanksFall(s: seq<Allocation>)
    requires |s| == 3 && Rank(s[0]) > Rank(s[1]) > Rank(s[2])
    ensures RanksFall(s)
  {
  }

  /** Such lists exist. */
  lemma NegativeList(d: int, room: int) returns (s: seq<Allocation>)
    requires 1 <= d <= room
    ensures |s| == 3 && RanksFall(s) && AsksFlat(s[0], -d) && AsksFlat(s[1], room) && AsksFlat(s[2], d)
  {
    NamedRanks();
    FlatFacts("x", "high", -d);
    FlatFacts("y", "medium", room);
    FlatFacts("z", "low", d);
    var x, y, z := FlatAllocation("x", "high", -d), FlatAllocation("y", "medium", room), FlatAllocation("z", "low", d);
    s := [x, y, z];
    ThreeRanksFall(s);
  }
}
