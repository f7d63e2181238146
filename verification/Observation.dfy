/** What the three resource managers observe of a node, and the checks they and the constraints run. */
module Observation {
  import opened Text
  import opened Resources
  import opened Allocations

  datatype Tokens = Tokens(prefillTps: int, decodeTps: int, totalTps: int)

  datatype RuntimeCapacity = RuntimeCapacity(kvCacheGiB: int, tokens: Option<Tokens>)

  datatype Capabilities = Capabilities(throttling: bool, pauseResume: bool, eviction: bool)

  /** A node profile; `gpuMemory` lists the memory of each GPU in the spec. A missing profile is the empty one. */
  datatype Node = Node(
    allocatable: Option<Resource>,
    gpuMemory: seq<int>,
    runtime: Option<RuntimeCapacity>,
    capabilities: Option<Capabilities>)

  datatype Snapshot = Snapshot(capacity: Resource, inUse: Resource)

  datatype NodeState = NodeState(gpu: Snapshot, kvCache: Snapshot, tokens: Snapshot)

  function OrElse(value: int, fallback: int): int { if value == 0 then fallback else value }

  function WrappedSum(s: seq<int>): int {
    if s == [] then 0 else Wrap32(WrappedSum(s[..|s| - 1]) + s[|s| - 1])
  }

  function AllocatableOr0(node: Node): Resource {
    if node.allocatable.Some? then node.allocatable.value else ZERO
  }

  /** Budgets named in the specs, as the managers add them up. */
  function SpecBudgets(s: seq<Allocation>): seq<Resource> {
    if s == [] then []
    else SpecBudgets(s[..|s| - 1]) + (if s[|s| - 1].resources.Some? then [s[|s| - 1].resources.value] else [])
  }

  function GpuCapacity(node: Node): Resource {
    var known := AllocatableOr0(node);
    Resource(OrElse(known.gpuCount, Wrap32(|node.gpuMemory|)), OrElse(known.gpuMemoryGiB, WrappedSum(node.gpuMemory)),
        0, 0, 0, 0)
  }

  function KvCapacity(node: Node): Resource {
    var spec := if node.runtime.Some? then node.runtime.value.kvCacheGiB else 0;
    Resource(0, 0, OrElse(AllocatableOr0(node).kvCacheGiB, spec), 0, 0, 0)
  }

  function TokenCapacity(node: Node): Resource {
    var known := AllocatableOr0(node);
    var spec :=
      if node.runtime.Some? && node.runtime.value.tokens.Some? then node.runtime.value.tokens.value
          else Tokens(0, 0, 0);
    Resource(0, 0, 0, OrElse(known.prefillTps, spec.prefillTps), OrElse(known.decodeTps, spec.decodeTps),
        OrElse(known.totalTps, spec.totalTps))
  }

  function Observe(node: Node, allocations: seq<Allocation>): NodeState {
    var sum := WrappedTotal(SpecBudgets(allocations));
    NodeState(
      Snapshot(GpuCapacity(node), Resource(sum.gpuCount, sum.gpuMemoryGiB, 0, 0, 0, 0)),
      Snapshot(KvCapacity(node), Resource(0, 0, sum.kvCacheGiB, 0, 0, 0)),
      Snapshot(TokenCapacity(node), Resource(0, 0, 0, sum.prefillTps, sum.decodeTps, sum.totalTps)))
  }

  /** The GPU manager's capacity, with its summing fallback loop. */
  method ObserveGpuCapacity(node: Node) returns (capacity: Resource)
    ensures capacity == GpuCapacity(node)
  {
    capacity := ZERO;
    if node.allocatable.Some? {
      capacity := capacity.(gpuCount := node.allocatable.value.gpuCount,
          gpuMemoryGiB := node.allocatable.value.gpuMemoryGiB);
    }
    if capacity.gpuCount == 0 { capacity := capacity.(gpuCount := Wrap32(|node.gpuMemory|)); }
    if capacity.gpuMemoryGiB == 0 {
      var memory := 0;
      for i := 0 to |node.gpuMemory|
        invariant memory == WrappedSum(node.gpuMemory[..i])
      {
        assert node.gpuMemory[..i + 1][..i] == node.gpuMemory[..i];
        memory := Wrap32(memory + node.gpuMemory[i]);
      }
      assert node.gpuMemory[..|node.gpuMemory|] == node.gpuMemory;
      capacity := capacity.(gpuMemoryGiB := memory);
    }
  }

  /** capacityFromState: the field-wise maximum over the snapshots, starting from zero. */
  function CapacityOf(state: NodeState): Resource {
    Max(Max(Max(ZERO, state.gpu.capacity), state.kvCache.capacity), state.tokens.capacity)
  }

  /** Observed capacities never depend on the allocations. */
  lemma ObservedCapacityIgnoresAllocations(node: Node, s: seq<Allocation>, t: seq<Allocation>)
    ensures Observe(node, s).gpu.capacity == Observe(node, t).gpu.capacity
    ensures Observe(node, s).kvCache.capacity == Observe(node, t).kvCache.capacity
    ensures Observe(node, s).tokens.capacity == Observe(node, t).tokens.capacity
    ensures CapacityOf(Observe(node, s)) == CapacityOf(Observe(node, t))
  {
  }

  /** The planner's capacity is never below what the node reports as allocatable. */
  lemma CapacityCoversAllocatable(node: Node, s: seq<Allocation>)
    requires node.allocatable.Some?
    ensures Fits(node.allocatable.value, CapacityOf(Observe(node, s)))
  {
  }

  /** A dimension's capacity: what is reported, or `fallback` where nothing is, and never less than zero. */
  predicate ReportedOr(reported: int, fallback: int, capacity: int) {
    && (reported != 0 ==> capacity == ClampNonNegative(reported))
    && (reported == 0 ==> capacity == ClampNonNegative(fallback))
  }

  /**
    The planner's capacity, dimension by dimension: what is allocatable, or
    else the listed GPUs, their memory, and the KV cache and the three token
    rates of the runtime's spec.
  */
  lemma CapacityByDimension(node: Node, s: seq<Allocation>, reported: Resource, kv: int, tokens: Tokens)
    requires node.allocatable == Some(reported) || (node.allocatable.None? && IsZero(reported))
    requires node.runtime == Some(RuntimeCapacity(kv, Some(tokens)))
    ensures var c := CapacityOf(Observe(node, s));
            && ReportedOr(reported.gpuCount, Wrap32(|node.gpuMemory|), c.gpuCount)
            && ReportedOr(reported.gpuMemoryGiB, WrappedSum(node.gpuMemory), c.gpuMemoryGiB)
            && ReportedOr(reported.kvCacheGiB, kv, c.kvCacheGiB)
            && ReportedOr(reported.prefillTps, tokens.prefillTps, c.prefillTps)
            && ReportedOr(reported.decodeTps, tokens.decodeTps, c.decodeTps)
            && ReportedOr(reported.totalTps, tokens.totalTps, c.totalTps)
  {
  }

  /** Where the runtime's spec is missing too, the capacity is zero. */
  lemma CapacityWithoutSpec(node: Node, s: seq<Allocation>)
    requires node.allocatable.None? && node.gpuMemory == []
    ensures node.runtime.None? ==> CapacityOf(Observe(node, s)) == ZERO
    ensures node.runtime.Some? && node.runtime.value.tokens.None? ==>
            CapacityOf(Observe(node, s)) == ZERO.(kvCacheGiB := ClampNonNegative(node.runtime.value.kvCacheGiB))
  {
  }

  /** One more allocation adds its specified budget to what is in use, each manager's own dimensions apart. */
  lemma InUseOneMore(node: Node, s: seq<Allocation>, a: Allocation)
    ensures var was, now := Observe(node, s), Observe(node, s + [a]);
            var b := if a.resources.Some? then a.resources.value else ZERO;
            && (a.resources.None? ==> now == was)
            && (a.resources.Some? ==>
                  && now.gpu.inUse == Add(was.gpu.inUse, Resource(b.gpuCount, b.gpuMemoryGiB, 0, 0, 0, 0))
                  && now.kvCache.inUse == Add(was.kvCache.inUse, Resource(0, 0, b.kvCacheGiB, 0, 0, 0))
                  && now.tokens.inUse ==
                     Add(was.tokens.inUse, Resource(0, 0, 0, b.prefillTps, b.decodeTps, b.totalTps)))
    ensures var none := Observe(node, []); none.gpu.inUse == none.kvCache.inUse == none.tokens.inUse == ZERO
  {
    assert (s + [a])[..|s|] == s;
    var front := SpecBudgets(s);
    if a.resources.Some? {
      assert SpecBudgets(s + [a]) == front + [a.resources.value];
      assert (front + [a.resources.value])[..|front|] == front;
    } else {
      assert SpecBudgets(s + [a]) == front;
    }
  }

  // ---- Manager validation --------------------------------------------------

  /** All three managers accept `budget` against their observed capacity. */
  predicate Validated(state: NodeState, budget: Resource) {
    && budget.gpuCount <= state.gpu.capacity.gpuCount
    && budget.gpuMemoryGiB <= state.gpu.capacity.gpuMemoryGiB
    && budget.kvCacheGiB <= state.kvCache.capacity.kvCacheGiB
    && budget.prefillTps <= state.tokens.capacity.prefillTps
    && budget.decodeTps <= state.tokens.capacity.decodeTps
    && budget.totalTps <= state.tokens.capacity.totalTps
  }

  predicate ObservedNonNegative(state: NodeState) {
    && NonNegative(state.gpu.capacity) && NonNegative(state.kvCache.capacity) && NonNegative(state.tokens.capacity)
  }

  /** Each manager fills only its own dimensions. */
  predicate OwnDimensionsOnly(state: NodeState) {
    var g, k, t := state.gpu.capacity, state.kvCache.capacity, state.tokens.capacity;
    && g == Resource(g.gpuCount, g.gpuMemoryGiB, 0, 0, 0, 0)
    && k == Resource(0, 0, k.kvCacheGiB, 0, 0, 0)
    && t == Resource(0, 0, 0, t.prefillTps, t.decodeTps, t.totalTps)
  }

  lemma ObserveOwnDimensions(node: Node, s: seq<Allocation>)
    ensures OwnDimensionsOnly(Observe(node, s))
  {
  }

  /**
    Validating a budget the ledger granted is redundant exactly when no
    observed capacity is negative: the ledger clamps a negative one to zero,
    the managers do not.
  */
  lemma ValidationRedundantExactly(state: NodeState)
    requires OwnDimensionsOnly(state)
    ensures (forall b :: NonNegative(b) && Fits(b, CapacityOf(state)) ==> Validated(state, b))
       <==> ObservedNonNegative(state)
  {
    if forall b :: NonNegative(b) && Fits(b, CapacityOf(state)) ==> Validated(state, b) {
      assert NonNegative(ZERO) && Fits(ZERO, CapacityOf(state));
      assert Validated(state, ZERO);
    }
  }

  // ---- Constraints ---------------------------------------------------------

  datatype Action = Apply | Throttle | Pause | Evict

  predicate NeedsTokens(budget: Resource) { budget.prefillTps > 0 || budget.decodeTps > 0 || budget.totalTps > 0 }

  predicate TokenThroughputBacked(state: NodeState, budget: Resource) {
    NeedsTokens(budget) ==> state.gpu.capacity.gpuCount > 0
  }

  predicate ActionSupported(node: Node, action: Action) {
    node.capabilities.None? ||
    match action
    case Apply => true
    case Throttle => node.capabilities.value.throttling
    case Pause => node.capabilities.value.pauseResume
    case Evict => node.capabilities.value.eviction
  }

  predicate ConstraintsHold(node: Node, state: NodeState, budget: Resource, action: Action) {
    TokenThroughputBacked(state, budget) && ActionSupported(node, action)
  }

  /** Applying is always supported; each other action unless the node is known not to have its capability. */
  lemma SupportedExactly(node: Node)
    ensures ActionSupported(node, Apply)
    ensures node.capabilities.None? ==> forall action :: ActionSupported(node, action)
    ensures node.capabilities.Some? ==>
              && (ActionSupported(node, Throttle) <==> node.capabilities.value.throttling)
              && (ActionSupported(node, Pause) <==> node.capabilities.value.pauseResume)
              && (ActionSupported(node, Evict) <==> node.capabilities.value.eviction)
  {
  }
}
