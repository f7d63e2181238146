/** The node-local planner: a mutable budget ledger and a greedy pass over ordered groups. */
module Planner {
  import opened Text
  import opened Resources
  import opened Windows
  import opened Allocations
  import opened Ordering
  import opened Observation

  datatype Tier = RequiredTier | PreferredTier | MaxTier | DegradedTier | RejectedTier

  datatype TargetPhase = PendingApply | Failed

  datatype Plan = Plan(
    allocation: Allocation,
    action: Action,
    phase: TargetPhase,
    tier: Tier,
    requested: Resource,
    granted: Resource,
    activeWindow: string)

  datatype Candidate = Candidate(tier: Tier, resources: Resource)

  function FallbackFor(a: Allocation): Action {
    if a.actions.None? then Apply
    else if a.actions.value.throttleable then Throttle
    else if a.actions.value.pauseable then Pause
    else if a.actions.value.evictable then Evict
    else Apply
  }

  function AllocationKey(a: Allocation): string {
    if |a.workloadNames| == 1 && a.workloadNames[0] != "" then a.workloadNames[0]
    else if a.namespace == "" then a.name
    else a.namespace + "/" + a.name
  }

  /** What an allocation asks the ledger for: a mandatory budget, and candidates that may replace it. */
  datatype Demand = Demand(target: Resource, mandatory: Resource, candidates: seq<Candidate>)

  /** The source's two branches for an active peer differ only in the reason they give, so they are one here. */
  function DemandOf(a: Allocation, now: ZoneClock, groupActive: bool): Demand {
    if IsActive(a, now) && !IsZero(MaxBudget(a)) then
      Demand(MaxBudget(a), MaxBudget(a), [Candidate(MaxTier, MaxBudget(a))])
    else if groupActive then
      Demand(RequiredBudget(a), RequiredBudget(a), [])
    else if IsZero(PreferredBudget(a)) then
      Demand(RequiredBudget(a), RequiredBudget(a), [])
    else
      Demand(PreferredBudget(a), RequiredBudget(a), [Candidate(PreferredTier, PreferredBudget(a))])
  }

  // ---- The ledger ----------------------------------------------------------

  /** The ledger's contents as a value. */
  datatype Books = Books(capacity: Resource, remaining: Resource, reserved: map<string, Resource>)

  function Opened(capacity: Resource): Books { Books(capacity, capacity, map[]) }

  /** The first non-zero candidate that fits, or else the mandatory budget. */
  function Choose(candidates: seq<Candidate>, mandatory: Resource, remaining: Resource): Candidate {
    if candidates == [] then Candidate(RequiredTier, mandatory)
    else if !IsZero(candidates[0].resources) && Fits(candidates[0].resources, remaining) then candidates[0]
    else Choose(candidates[1..], mandatory, remaining)
  }

  function AfterReserve(b: Books, key: string, granted: Resource): Books {
    b.(remaining := Subtract(b.remaining, granted), reserved := b.reserved[key := granted])
  }

  function AfterRelease(b: Books, key: string): Books {
    if key in b.reserved
    then b.(remaining := Add(b.remaining, b.reserved[key]), reserved := b.reserved - {key})
    else b
  }

  class Ledger {
    const capacity: Resource
    var remaining: Resource
    var reserved: map<string, Resource>

    constructor (capacity: Resource)
      ensures Contents() == Opened(capacity)
    {
      this.capacity := capacity;
      remaining := capacity;
      reserved := map[];
    }

    ghost function Contents(): Books
      reads this
    {
      Books(capacity, remaining, reserved)
    }

    method Reserve(key: string, required: Resource, candidates: seq<Candidate>) returns (choice: Option<Candidate>)
      modifies this
      ensures choice.Some? <==> Fits(required, old(remaining))
      ensures choice.Some? ==> choice.value == Choose(candidates, required, old(remaining))
      ensures Contents() == if choice.Some? then AfterReserve(old(Contents()), key, choice.value.resources)
              else old(Contents())
    {
      if !Fits(required, remaining) { return None; }
      var granted := Candidate(RequiredTier, required);
      for i := 0 to |candidates|
        invariant Contents() == old(Contents()) && granted == Candidate(RequiredTier, required)
        invariant Choose(candidates, required, remaining) == Choose(candidates[i..], required, remaining)
      {
        if IsZero(candidates[i].resources) { continue; }
        if Fits(candidates[i].resources, remaining) {
          granted := candidates[i];
          break;
        }
      }
      remaining := Subtract(remaining, granted.resources);
      reserved := reserved[key := granted.resources];
      choice := Some(granted);
    }

    method Release(key: string)
      modifies this
      ensures Contents() == AfterRelease(old(Contents()), key)
    {
      if key !in reserved { return; }
      remaining := Add(remaining, reserved[key]);
      reserved := reserved - {key};
    }
  }

  // ---- One allocation ------------------------------------------------------

  function RejectedPlan(a: Allocation, demand: Demand, now: ZoneClock): Plan {
    Plan(a, FallbackFor(a), Failed, RejectedTier, demand.mandatory, ZERO, ActiveWindow(a.windows, now))
  }

  function DegradedPlan(a: Allocation, demand: Demand, granted: Resource, now: ZoneClock): Plan {
    Plan(a, FallbackFor(a), Failed, DegradedTier, demand.target, granted, ActiveWindow(a.windows, now))
  }

  function AcceptedPlan(a: Allocation, demand: Demand, choice: Candidate, now: ZoneClock): Plan {
    Plan(a, Apply, PendingApply, choice.tier, demand.target, choice.resources, ActiveWindow(a.windows, now))
  }

  /** The checks that run after a reservation. */
  predicate Applicable(node: Node, state: NodeState, budget: Resource) {
    Validated(state, budget) && ConstraintsHold(node, state, budget, Apply)
  }

  /** One step of the plan, as a function of the ledger's contents. */
  function PlanStep(node: Node, state: NodeState, b: Books, a: Allocation, now: ZoneClock, groupActive: bool): (Books,
                    Plan) {
    var demand := DemandOf(a, now, groupActive);
    if !Fits(demand.mandatory, b.remaining) then (b, RejectedPlan(a, demand, now))
    else
      var choice := Choose(demand.candidates, demand.mandatory, b.remaining);
      var taken := AfterReserve(b, AllocationKey(a), choice.resources);
      if !Applicable(node, state, choice.resources)
      then (AfterRelease(taken, AllocationKey(a)), DegradedPlan(a, demand, choice.resources, now))
      else (taken, AcceptedPlan(a, demand, choice, now))
  }

  /** buildPlanForAllocation. */
  method BuildPlanForAllocation(node: Node, state: NodeState, ledger: Ledger, a: Allocation, now: ZoneClock,
                                groupActive: bool)
    returns (plan: Plan)
    modifies ledger
    ensures (ledger.Contents(), plan) == PlanStep(node, state, old(ledger.Contents()), a, now, groupActive)
  {
    var demand := DemandOf(a, now, groupActive);
    var choice := ledger.Reserve(AllocationKey(a), demand.mandatory, demand.candidates);
    if choice.None? { return RejectedPlan(a, demand, now); }
    var granted := choice.value.resources;
    if !Validated(state, granted) {
      ledger.Release(AllocationKey(a));
      return DegradedPlan(a, demand, granted, now);
    }
    if !ConstraintsHold(node, state, granted, Apply) {
      ledger.Release(AllocationKey(a));
      return DegradedPlan(a, demand, granted, now);
    }
    return AcceptedPlan(a, demand, choice.value, now);
  }

  // ---- The whole pass ------------------------------------------------------

  /** An allocation together with whether its group has an active member. */
  datatype Item = Item(allocation: Allocation, groupActive: bool)

  predicate AnyActive(g: Group, now: ZoneClock) { exists i :: 0 <= i < |g| && IsActive(g[i], now) }

  function TagGroup(g: Group, active: bool): (r: seq<Item>)
    ensures |r| == |g|
  {
    if g == [] then [] else TagGroup(g[..|g| - 1], active) + [Item(g[|g| - 1], active)]
  }

  function Tag(groups: seq<Group>, now: ZoneClock): seq<Item> {
    if groups == [] then []
    else Tag(groups[..|groups| - 1], now) + TagGroup(groups[|groups| - 1], AnyActive(groups[|groups| - 1], now))
  }

  datatype Outcome = Outcome(books: Books, plans: seq<Plan>)

  /** Plans one more allocation. */
  function Advance(node: Node, state: NodeState, o: Outcome, item: Item, now: ZoneClock): Outcome {
    var (books, plan) := PlanStep(node, state, o.books, item.allocation, now, item.groupActive);
    Outcome(books, o.plans + [plan])
  }

  /** The greedy pass over tagged allocations. */
  function Run(node: Node, state: NodeState, b: Books, items: seq<Item>, now: ZoneClock): (o: Outcome)
    ensures |o.plans| == |items|
  {
    if items == [] then Outcome(b, [])
    else Advance(node, state, Run(node, state, b, items[..|items| - 1], now), items[|items| - 1], now)
  }

  function Items(allocations: seq<Allocation>, now: ZoneClock): seq<Item> {
    Tag(Groups(Order(allocations, now)), now)
  }

  /** The ledger and the plans that planning `allocations` on `node` ends with. */
  function PlanAll(node: Node, allocations: seq<Allocation>, now: ZoneClock): Outcome {
    var state := Observe(node, Order(allocations, now));
    Run(node, state, Opened(CapacityOf(state)), Items(allocations, now), now)
  }

  lemma RunSnoc(node: Node, state: NodeState, b: Books, items: seq<Item>, item: Item, now: ZoneClock)
    ensures Run(node, state, b, items + [item], now) == Advance(node, state, Run(node, state, b, items, now), item, now)
  {
    assert (items + [item])[..|items|] == items;
  }

  lemma TagGroupSnoc(g: Group, a: Allocation, active: bool)
    ensures TagGroup(g + [a], active) == TagGroup(g, active) + [Item(a, active)]
  {
    assert (g + [a])[..|g|] == g;
  }

  lemma TagSnoc(groups: seq<Group>, g: Group, now: ZoneClock)
    ensures Tag(groups + [g], now) == Tag(groups, now) + TagGroup(g, AnyActive(g, now))
  {
    assert (groups + [g])[..|groups|] == groups;
  }

  method HasAnyActiveTimeWindow(g: Group, now: ZoneClock) returns (active: bool)
    ensures active == AnyActive(g, now)
  {
    for i := 0 to |g|
      invariant forall k :: 0 <= k < i ==> !IsActive(g[k], now)
    {
      if IsActive(g[i], now) { return true; }
    }
    return false;
  }

  lemma TagNext(before: seq<Item>, g: Group, i: nat, active: bool)
    requires i < |g|
    ensures before + TagGroup(g[..i + 1], active) == before + TagGroup(g[..i], active) + [Item(g[i], active)]
  {
    assert g[..i + 1] == g[..i] + [g[i]];
    TagGroupSnoc(g[..i], g[i], active);
  }

  /** The inner loop of the pass: one group. */
  method PlanGroup(node: Node, state: NodeState, ledger: Ledger, g: Group, now: ZoneClock, ghost before: seq<Item>,
                   plans: seq<Plan>)
    returns (all: seq<Plan>)
    requires Outcome(ledger.Contents(), plans) == Run(node, state, Opened(ledger.capacity), before, now)
    modifies ledger
    ensures Outcome(ledger.Contents(), all) ==
            Run(node, state, Opened(ledger.capacity), before + TagGroup(g, AnyActive(g, now)), now)
  {
    all := plans;
    var active := HasAnyActiveTimeWindow(g, now);
    ghost var start := Opened(ledger.capacity);
    ghost var done := before;
    assert before + TagGroup(g[..0], active) == before;
    for i := 0 to |g|
      invariant done == before + TagGroup(g[..i], active)
      invariant Outcome(ledger.Contents(), all) == Run(node, state, start, done, now)
    {
      RunSnoc(node, state, start, done, Item(g[i], active), now);
      TagNext(before, g, i, active);
      done := done + [Item(g[i], active)];
      var plan := BuildPlanForAllocation(node, state, ledger, g[i], now, active);
      all := all + [plan];
    }
    assert g[..|g|] == g;
  }

  /** The outer loop of the pass: a fresh ledger and every group in turn. */
  method PlanGroups(node: Node, state: NodeState, capacity: Resource, groups: seq<Group>,
                    now: ZoneClock) returns (plans: seq<Plan>)
    ensures plans == Run(node, state, Opened(capacity), Tag(groups, now), now).plans
  {
    var ledger := new Ledger(capacity);
    plans := [];
    ghost var start := Opened(capacity);
    ghost var done: seq<Item> := [];
    for k := 0 to |groups|
      invariant ledger.capacity == capacity
      invariant done == Tag(groups[..k], now)
      invariant Outcome(ledger.Contents(), plans) == Run(node, state, start, done, now)
    {
      assert groups[..k + 1] == groups[..k] + [groups[k]];
      TagSnoc(groups[..k], groups[k], now);
      plans := PlanGroup(node, state, ledger, groups[k], now, done, plans);
      done := done + TagGroup(groups[k], AnyActive(groups[k], now));
    }
    assert groups[..|groups|] == groups;
  }

  /** BuildPlansAt. */
  method BuildPlansAt(node: Node, allocations: seq<Allocation>, now: ZoneClock) returns (plans: seq<Plan>)
    ensures plans == PlanAll(node, allocations, now).plans
  {
    var ordered := Order(allocations, now);
    var state := Observe(node, ordered);
    var groups := GroupAllocationsByPriority(ordered);
    plans := PlanGroups(node, state, CapacityOf(state), groups, now);
  }
}
