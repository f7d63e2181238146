/** The workload statuses kept in a node ledger: merging, lookup, expansion into allocations, and the aggregates. */
module StatusLedger {
  import opened Text
  import opened Resources
  import opened Windows
  import opened Allocations
  import opened Forecast

  /** One entry of status.workloads. */
  datatype WorkloadStatus = WorkloadStatus(name: string, phase: string, applied: Option<Resource>,
                                           forecast: Option<seq<Resource>>)

  // ---- Merging and lookup --------------------------------------------------

  /** Position of the first entry with this name, or the length of the list. */
  function Position(s: seq<WorkloadStatus>, name: string): (k: nat)
    ensures k <= |s|
    ensures k < |s| ==> s[k].name == name
  {
    if s == [] then 0 else if s[0].name == name then 0 else 1 + Position(s[1..], name)
  }

  function Merge(s: seq<WorkloadStatus>, e: WorkloadStatus): (r: seq<WorkloadStatus>)
    ensures r != []
  {
    if Position(s, e.name) < |s| then s[Position(s, e.name) := e] else s + [e]
  }

  function Lookup(s: seq<WorkloadStatus>, name: string): Option<WorkloadStatus> {
    if Position(s, name) < |s| then Some(s[Position(s, name)]) else None
  }

  lemma {:induction false} IndexIs(s: seq<WorkloadStatus>, name: string, k: nat)
    requires k <= |s| && (forall i :: 0 <= i < k ==> s[i].name != name) && (k < |s| ==> s[k].name == name)
    ensures Position(s, name) == k
  {
    if k > 0 { IndexIs(s[1..], name, k - 1); }
  }

  lemma {:induction false} IndexIsFirst(s: seq<WorkloadStatus>, name: string)
    ensures forall i :: 0 <= i < Position(s, name) ==> s[i].name != name
  {
    if s != [] && s[0].name != name { IndexIsFirst(s[1..], name); }
  }

  /** mergeWorkloadStatus. */
  method MergeWorkloadStatus(statuses: seq<WorkloadStatus>, e: WorkloadStatus) returns (merged: seq<WorkloadStatus>)
    ensures merged == Merge(statuses, e)
  {
    merged := statuses;
    for i := 0 to |statuses|
      invariant merged == statuses && forall k :: 0 <= k < i ==> statuses[k].name != e.name
    {
      if merged[i].name == e.name {
        IndexIs(statuses, e.name, i);
        merged := merged[i := e];
        return;
      }
    }
    IndexIs(statuses, e.name, |statuses|);
    merged := merged + [e];
  }

  /** A merge is seen under its own name and nowhere else. */
  lemma MergeLookup(s: seq<WorkloadStatus>, e: WorkloadStatus, name: string)
    ensures Lookup(Merge(s, e), name) == if name == e.name then Some(e) else Lookup(s, name)
  {
    IndexIsFirst(s, e.name);
    IndexIsFirst(s, name);
    var r := Merge(s, e);
    if name == e.name {
      IndexIs(r, name, Position(s, name));
    } else if Position(s, name) < |s| {
      IndexIs(r, name, Position(s, name));
    } else {
      IndexIs(r, name, |r|);
    }
  }

  /** Merging never moves an entry that is there. */
  lemma MergeKeepsPosition(s: seq<WorkloadStatus>, e: WorkloadStatus, name: string)
    requires Position(s, name) < |s|
    ensures Position(Merge(s, e), name) == Position(s, name) && |Merge(s, e)| >= |s|
  {
    IndexIsFirst(s, name);
    IndexIsFirst(s, e.name);
    IndexIs(Merge(s, e), name, Position(s, name));
  }

  predicate Unique(s: seq<WorkloadStatus>) { forall i, j :: 0 <= i < j < |s| ==> s[i].name != s[j].name }

  /** Names stay unique. */
  lemma MergeKeepsUnique(s: seq<WorkloadStatus>, e: WorkloadStatus)
    requires Unique(s)
    ensures Unique(Merge(s, e))
  {
    IndexIsFirst(s, e.name);
  }

  lemma UniqueLookup(s: seq<WorkloadStatus>, i: nat)
    requires Unique(s) && i < |s|
    ensures Lookup(s, s[i].name) == Some(s[i])
  {
    IndexIs(s, s[i].name, i);
  }

  // ---- Sums that wrap ------------------------------------------------------

  function Sum(s: seq<Option<Resource>>): Resource {
    if s == [] then ZERO else AddOption(Sum(s[..|s| - 1]), s[|s| - 1])
  }

  predicate AllInt32(s: seq<Option<Resource>>) { forall i :: 0 <= i < |s| && s[i].Some? ==> IsInt32(s[i].value) }

  lemma WrapSwaps(t: int, a: int, b: int)
    requires InInt32(t) && InInt32(a) && InInt32(b)
    ensures Wrap32(Wrap32(t + a) + b) == Wrap32(Wrap32(t + b) + a)
  {
  }

  lemma AddSwapsGpus(t: Resource, a: Resource, b: Resource)
    requires IsInt32(t) && IsInt32(a) && IsInt32(b)
    ensures Add(Add(t, a), b).gpuCount == Add(Add(t, b), a).gpuCount
    ensures Add(Add(t, a), b).gpuMemoryGiB == Add(Add(t, b), a).gpuMemoryGiB
    ensures Add(Add(t, a), b).kvCacheGiB == Add(Add(t, b), a).kvCacheGiB
  {
    WrapSwaps(t.gpuCount, a.gpuCount, b.gpuCount);
    WrapSwaps(t.gpuMemoryGiB, a.gpuMemoryGiB, b.gpuMemoryGiB);
    WrapSwaps(t.kvCacheGiB, a.kvCacheGiB, b.kvCacheGiB);
  }

  lemma AddSwapsTokens(t: Resource, a: Resource, b: Resource)
    requires IsInt32(t) && IsInt32(a) && IsInt32(b)
    ensures Add(Add(t, a), b).prefillTps == Add(Add(t, b), a).prefillTps
    ensures Add(Add(t, a), b).decodeTps == Add(Add(t, b), a).decodeTps
    ensures Add(Add(t, a), b).totalTps == Add(Add(t, b), a).totalTps
  {
    WrapSwaps(t.prefillTps, a.prefillTps, b.prefillTps);
    WrapSwaps(t.decodeTps, a.decodeTps, b.decodeTps);
    WrapSwaps(t.totalTps, a.totalTps, b.totalTps);
  }

  lemma SameFields(x: Resource, y: Resource)
    requires x.gpuCount == y.gpuCount && x.gpuMemoryGiB == y.gpuMemoryGiB && x.kvCacheGiB == y.kvCacheGiB
    requires x.prefillTps == y.prefillTps && x.decodeTps == y.decodeTps && x.totalTps == y.totalTps
    ensures x == y
  {
  }

  lemma AddSwaps(t: Resource, a: Resource, b: Resource)
    requires IsInt32(t) && IsInt32(a) && IsInt32(b)
    ensures Add(Add(t, a), b) == Add(Add(t, b), a)
  {
    AddSwapsGpus(t, a, b);
    AddSwapsTokens(t, a, b);
    SameFields(Add(Add(t, a), b), Add(Add(t, b), a));
  }

  lemma AddIsInt32(t: Resource, a: Resource)
    requires IsInt32(t) && IsInt32(a)
    ensures IsInt32(Add(t, a))
  {
  }

  lemma AddOptionSwaps(t: Resource, a: Option<Resource>, b: Option<Resource>)
    requires IsInt32(t) && (a.Some? ==> IsInt32(a.value)) && (b.Some? ==> IsInt32(b.value))
    ensures AddOption(AddOption(t, a), b) == AddOption(AddOption(t, b), a)
  {
    if a.Some? && b.Some? { AddSwaps(t, a.value, b.value); }
  }

  lemma {:induction false} SumIsInt32(s: seq<Option<Resource>>)
    requires AllInt32(s)
    ensures IsInt32(Sum(s))
  {
    if s != [] {
      SumIsInt32(s[..|s| - 1]);
      if s[|s| - 1].Some? { AddIsInt32(Sum(s[..|s| - 1]), s[|s| - 1].value); }
    }
  }

  lemma SumSnoc(s: seq<Option<Resource>>, x: Option<Resource>)
    ensures Sum(s + [x]) == AddOption(Sum(s), x)
  {
    assert (s + [x])[..|s|] == s;
  }

  /** Wrap-around does not depend on the order: a summand can be moved to the end. */
  lemma {:induction false} SumRemove(before: seq<Option<Resource>>, x: Option<Resource>, after: seq<Option<Resource>>)
    requires AllInt32(before) && AllInt32(after) && (x.Some? ==> IsInt32(x.value))
    ensures Sum(before + [x] + after) == AddOption(Sum(before + after), x)
    decreases |after|
  {
    if after == [] {
      assert before + [x] + after == before + [x] && before + after == before;
      SumSnoc(before, x);
    } else {
      var front, y := after[..|after| - 1], after[|after| - 1];
      assert before + [x] + after == (before + [x] + front) + [y] && before + after == (before + front) + [y];
      SumRemove(before, x, front);
      SumSnoc(before + [x] + front, y);
      SumSnoc(before + front, y);
      SumIsInt32(before + front);
      AddOptionSwaps(Sum(before + front), x, y);
    }
  }

  // ---- The applied budget of a ledger --------------------------------------

  /** What an entry adds to the ledger's total. */
  function Counted(e: WorkloadStatus): Option<Resource> { if IsReleased(e.phase) then None else e.applied }

  function CountedAll(s: seq<WorkloadStatus>): (r: seq<Option<Resource>>)
    ensures |r| == |s|
  {
    if s == [] then [] else CountedAll(s[..|s| - 1]) + [Counted(s[|s| - 1])]
  }

  function Summary(s: seq<WorkloadStatus>): Resource { Sum(CountedAll(s)) }

  lemma SummarySnoc(s: seq<WorkloadStatus>, e: WorkloadStatus)
    ensures Summary(s + [e]) == AddOption(Summary(s), Counted(e))
  {
    assert (s + [e])[..|s|] == s;
    SumSnoc(CountedAll(s), Counted(e));
  }

  /** allocationLedgerSummary. */
  method AllocationLedgerSummary(statuses: seq<WorkloadStatus>) returns (total: Resource)
    ensures total == Summary(statuses)
  {
    total := ZERO;
    for i := 0 to |statuses|
      invariant total == Summary(statuses[..i])
    {
      assert statuses[..i + 1] == statuses[..i] + [statuses[i]];
      SummarySnoc(statuses[..i], statuses[i]);
      if statuses[i].applied.None? || IsReleased(statuses[i].phase) { continue; }
      total := Add(total, statuses[i].applied.value);
    }
    assert statuses[..|statuses|] == statuses;
  }

  lemma {:induction false} CountedConcat(a: seq<WorkloadStatus>, b: seq<WorkloadStatus>)
    ensures CountedAll(a + b) == CountedAll(a) + CountedAll(b)
  {
    if b == [] {
      assert a + b == a;
    } else {
      assert (a + b)[..|a + b| - 1] == a + b[..|b| - 1];
      CountedConcat(a, b[..|b| - 1]);
    }
  }

  predicate EntriesInt32(s: seq<WorkloadStatus>) {
    forall i :: 0 <= i < |s| && s[i].applied.Some? ==> IsInt32(s[i].applied.value)
  }

  lemma {:induction false} CountedInt32(s: seq<WorkloadStatus>)
    requires EntriesInt32(s)
    ensures AllInt32(CountedAll(s))
  {
    if s != [] { CountedInt32(s[..|s| - 1]); }
  }

  lemma SummaryRemove(before: seq<WorkloadStatus>, e: WorkloadStatus, after: seq<WorkloadStatus>)
    requires EntriesInt32(before) && EntriesInt32(after) && (e.applied.Some? ==> IsInt32(e.applied.value))
    ensures Summary(before + [e] + after) == AddOption(Summary(before + after), Counted(e))
  {
    CountedConcat(before + [e], after);
    CountedConcat(before, [e]);
    CountedConcat(before, after);
    assert CountedAll([e]) == [Counted(e)] by { assert [e][..0] == []; }
    CountedInt32(before);
    CountedInt32(after);
    SumRemove(CountedAll(before), Counted(e), CountedAll(after));
  }

  function CountedAt(s: seq<WorkloadStatus>, name: string): Option<Resource> {
    if Lookup(s, name).Some? then Counted(Lookup(s, name).value) else None
  }

  lemma ReplaceBalances(before: seq<WorkloadStatus>, was: WorkloadStatus, e: WorkloadStatus, after: seq<WorkloadStatus>)
    requires EntriesInt32(before) && EntriesInt32(after)
    requires (e.applied.Some? ==> IsInt32(e.applied.value)) && (was.applied.Some? ==> IsInt32(was.applied.value))
    ensures AddOption(Summary(before + [e] + after), Counted(was)) == AddOption(Summary(before + [was] + after),
            Counted(e))
  {
    SummaryRemove(before, e, after);
    SummaryRemove(before, was, after);
    CountedConcat(before, after);
    CountedInt32(before);
    CountedInt32(after);
    SumIsInt32(CountedAll(before + after));
    AddOptionSwaps(Summary(before + after), Counted(was), Counted(e));
  }

  /**
    Conservation: a merge changes the node total by exactly the new unreleased
    budget minus the one it replaces, wrap-around included. The two sides of
    the balance are total plus old and total plus new.
  */
  lemma MergeBalancesSummary(s: seq<WorkloadStatus>, e: WorkloadStatus)
    requires EntriesInt32(s) && (e.applied.Some? ==> IsInt32(e.applied.value))
    ensures AddOption(Summary(Merge(s, e)), CountedAt(s, e.name)) == AddOption(Summary(s), Counted(e))
  {
    var k := Position(s, e.name);
    if k < |s| {
      assert s == s[..k] + [s[k]] + s[k + 1..];
      assert Merge(s, e) == s[..k] + [e] + s[k + 1..];
      ReplaceBalances(s[..k], s[k], e, s[k + 1..]);
    } else {
      assert s + [e] == s + [e] + [] && s == s + [];
      SummaryRemove(s, e, []);
    }
  }

  // ---- The hourly forecast of a ledger -------------------------------------

  /** What an entry adds to the ledger's forecast at `hour`. */
  function Offered(e: WorkloadStatus, hour: nat): Option<Resource> {
    if IsReleased(e.phase) || e.forecast.None? || hour >= |e.forecast.value| then None else Some(e.forecast.value[hour])
  }

  function StatusBucket(s: seq<WorkloadStatus>, hour: nat): Resource {
    if s == [] then ZERO else AddOption(StatusBucket(s[..|s| - 1], hour), Offered(s[|s| - 1], hour))
  }

  predicate HoldsForecast(buckets: seq<Resource>, s: seq<WorkloadStatus>) {
    |buckets| == HOURS && forall h :: 0 <= h < HOURS ==> buckets[h] == StatusBucket(s, h)
  }

  method AddStatusToBuckets(buckets: array<Resource>, e: WorkloadStatus)
    requires buckets.Length == HOURS
    modifies buckets
    ensures forall h :: 0 <= h < HOURS ==> buckets[h] == AddOption(old(buckets[h]), Offered(e, h))
  {
    if IsReleased(e.phase) || e.forecast.None? { return; }
    var hour := 0;
    while hour < HOURS && hour < |e.forecast.value|
      invariant 0 <= hour <= HOURS
      invariant forall h :: 0 <= h < hour ==> buckets[h] == AddOption(old(buckets[h]), Offered(e, h))
      invariant forall h :: hour <= h < HOURS ==> buckets[h] == old(buckets[h])
    {
      buckets[hour] := Add(buckets[hour], e.forecast.value[hour]);
      hour := hour + 1;
    }
  }

  lemma StatusBucketSnoc(s: seq<WorkloadStatus>, e: WorkloadStatus, hour: nat)
    ensures StatusBucket(s + [e], hour) == AddOption(StatusBucket(s, hour), Offered(e, hour))
  {
    assert (s + [e])[..|s|] == s;
  }

  /** aggregateHourlyForecastFromStatuses. */
  method AggregateHourlyForecast(statuses: seq<WorkloadStatus>) returns (buckets: array<Resource>)
    ensures fresh(buckets) && HoldsForecast(buckets[..], statuses)
  {
    buckets := new Resource[HOURS](_ => ZERO);
    for i := 0 to |statuses|
      invariant HoldsForecast(buckets[..], statuses[..i])
    {
      ghost var before := buckets[..];
      AddStatusToBuckets(buckets, statuses[i]);
      assert statuses[..i + 1] == statuses[..i] + [statuses[i]];
      forall h | 0 <= h < HOURS ensures buckets[..][h] == StatusBucket(statuses[..i + 1], h) {
        StatusBucketSnoc(statuses[..i], statuses[i], h);
        assert before[h] == StatusBucket(statuses[..i], h);
      }
    }
    assert statuses[..|statuses|] == statuses;
  }

  // ---- Expansion -----------------------------------------------------------

  /** One entry of spec.workloads, as the agent reads it. */
  datatype WorkloadSpec = WorkloadSpec(
    name: string,
    workloadType: string,
    priority: string,
    windows: seq<TimeWindow>,
    request: Option<Request>,
    desired: Option<Resource>,
    resources: Option<Resource>,
    actions: Option<Actions>)

  /** A node ledger object; `own` is the ledger read as one allocation, which is what it is without spec.workloads. */
  datatype NodeLedger = NodeLedger(
    own: Allocation,
    namespace: string,
    name: string,
    created: Option<int>,
    labelPriority: string,
    workloads: seq<WorkloadSpec>,
    phase: string,
    statuses: seq<WorkloadStatus>)

  const BLANK := Status("", None, None, None)

  function StatusFor(s: seq<WorkloadStatus>, name: string): Status {
    var found := Lookup(s, name);
    if found.None? then BLANK else Status(found.value.phase, found.value.applied, found.value.applied,
        found.value.forecast)
  }

  function ExpandOne(l: NodeLedger, w: WorkloadSpec): Allocation {
    Allocation(l.namespace, l.name, l.created, l.labelPriority, [w.name], w.workloadType, w.priority, w.windows,
        w.request,
               if w.desired.Some? then w.desired else w.resources, w.actions, StatusFor(l.statuses, w.name))
  }

  function ExpandPart(l: NodeLedger, workloads: seq<WorkloadSpec>): (r: seq<Allocation>)
    ensures |r| == |workloads|
  {
    if workloads == [] then []
    else ExpandPart(l, workloads[..|workloads| - 1]) + [ExpandOne(l, workloads[|workloads| - 1])]
  }

  function Expand(l: NodeLedger): seq<Allocation> { if l.workloads == [] then [l.own] else ExpandPart(l, l.workloads) }

  lemma {:induction false} ExpandedAt(l: NodeLedger, workloads: seq<WorkloadSpec>, i: nat)
    requires i < |workloads|
    ensures ExpandPart(l, workloads)[i] == ExpandOne(l, workloads[i])
  {
    if i < |workloads| - 1 { ExpandedAt(l, workloads[..|workloads| - 1], i); }
  }

  /** expandNodeAllocationLedgers, for one ledger: itself if it lists no workloads, else one allocation for each. */
  method ExpandLedger(l: NodeLedger) returns (expanded: seq<Allocation>)
    ensures l.workloads == [] ==> expanded == [l.own]
    ensures l.workloads != [] ==> |expanded| == |l.workloads| && forall i :: 0 <= i < |expanded| ==>
            expanded[i] == ExpandOne(l, l.workloads[i])
    ensures expanded == Expand(l)
  {
    if |l.workloads| == 0 { return [l.own]; }
    expanded := [];
    for i := 0 to |l.workloads|
      invariant expanded == ExpandPart(l, l.workloads[..i])
    {
      assert l.workloads[..i + 1][..i] == l.workloads[..i];
      expanded := expanded + [ExpandOne(l, l.workloads[i])];
    }
    assert l.workloads[..|l.workloads|] == l.workloads;
    forall i | 0 <= i < |expanded| ensures expanded[i] == ExpandOne(l, l.workloads[i]) {
      ExpandedAt(l, l.workloads, i);
    }
  }

  /** The first of three budgets that is present, or nothing. */
  predicate FirstOf(a: Option<Resource>, b: Option<Resource>, c: Option<Resource>, budget: Resource) {
    && (a.Some? ==> budget == a.value)
    && (a.None? && b.Some? ==> budget == b.value)
    && (a.None? && b.None? && c.Some? ==> budget == c.value)
    && (a.None? && b.None? && c.None? ==> budget == ZERO)
  }

  /**
    What the planner makes of a listed workload: what its request says, else
    what is desired for it, else the resources it was assigned; all three
    budgets fall back on the one below.
  */
  lemma ExpandedBudgets(l: NodeLedger, w: WorkloadSpec)
    ensures var a := ExpandOne(l, w);
            && FirstOf(if w.request.Some? then w.request.value.required else None, w.desired, w.resources,
                       RequiredBudget(a))
            && FirstOf(if w.request.Some? then w.request.value.preferred else None, Some(RequiredBudget(a)), None,
                       PreferredBudget(a))
            && FirstOf(if w.request.Some? then w.request.value.maximum else None, Some(PreferredBudget(a)), None,
                       MaxBudget(a))
  {
  }

  /**
    What the published forecast takes from a listed workload: nothing once it is
    released; a recorded forecast's bucket; else what is recorded as applied,
    and for a workload that is not recorded what is desired for it or assigned.
  */
  lemma ExpandedShown(l: NodeLedger, w: WorkloadSpec, hour: nat)
    ensures var found, shown := Lookup(l.statuses, w.name), Contribution(ExpandOne(l, w), hour);
            && (found.None? ==> shown == if w.desired.Some? then w.desired else w.resources)
            && (found.Some? ==>
                  var e := found.value;
                  && (FoldsTo(e.phase, "released") ==> shown == None)
                  && (!FoldsTo(e.phase, "released") && e.forecast.Some? && hour < |e.forecast.value| ==>
                        shown == Some(e.forecast.value[hour]))
                  && (!FoldsTo(e.phase, "released") && e.forecast.None? && e.applied.Some? ==> shown == e.applied))
  {
    assert |ToLower("")| != |"released"|;
  }

  /**
    A released entry, or one that records nothing, adds nothing to the node's
    total; any other adds what it records.
  */
  lemma SummaryOfOneMore(s: seq<WorkloadStatus>, e: WorkloadStatus)
    ensures FoldsTo(e.phase, "released") || e.applied.None? ==> Summary(s + [e]) == Summary(s)
    ensures !FoldsTo(e.phase, "released") && e.applied.Some? ==> Summary(s + [e]) == Add(Summary(s), e.applied.value)
    ensures Summary([]) == ZERO
  {
    SummarySnoc(s, e);
  }

  // ---- Both sides publish the same forecast --------------------------------

  function SpecNames(workloads: seq<WorkloadSpec>): (r: seq<string>)
    ensures |r| == |workloads|
  {
    if workloads == [] then [] else SpecNames(workloads[..|workloads| - 1]) + [workloads[|workloads| - 1].name]
  }

  function StatusNames(s: seq<WorkloadStatus>): (r: seq<string>)
    ensures |r| == |s|
  {
    if s == [] then [] else StatusNames(s[..|s| - 1]) + [s[|s| - 1].name]
  }

  function OfferedAt(s: seq<WorkloadStatus>, name: string, hour: nat): Option<Resource> {
    var found := Lookup(s, name);
    if found.None? then None else Offered(found.value, hour)
  }

  function OffersOf(s: seq<WorkloadStatus>, names: seq<string>, hour: nat): (r: seq<Option<Resource>>)
    ensures |r| == |names|
  {
    if names == [] then [] else OffersOf(s, names[..|names| - 1], hour) + [OfferedAt(s, names[|names| - 1], hour)]
  }

  /** Every unreleased entry carries a forecast. */
  predicate CarryForecasts(s: seq<WorkloadStatus>) {
    forall i :: 0 <= i < |s| ==> IsReleased(s[i].phase) || s[i].forecast.Some?
  }

  lemma ExpandedContribution(l: NodeLedger, w: WorkloadSpec, hour: nat)
    requires CarryForecasts(l.statuses) && Lookup(l.statuses, w.name).Some?
    ensures Contribution(ExpandOne(l, w), hour) == OfferedAt(l.statuses, w.name, hour)
  {
  }

  lemma {:induction false} BackendSide(l: NodeLedger, workloads: seq<WorkloadSpec>, hour: nat)
    requires CarryForecasts(l.statuses) && forall i :: 0 <= i < |workloads| ==>
             Lookup(l.statuses, workloads[i].name).Some?
    ensures PublishedBucket(ExpandPart(l, workloads), hour) == Sum(OffersOf(l.statuses, SpecNames(workloads), hour))
  {
    if workloads != [] {
      var front, w := workloads[..|workloads| - 1], workloads[|workloads| - 1];
      BackendSide(l, front, hour);
      ExpandedContribution(l, w, hour);
      PublishedSnoc(ExpandPart(l, front), ExpandOne(l, w), hour);
      OffersSnoc(l.statuses, SpecNames(front), w.name, hour);
    }
  }

  lemma OffersSnoc(s: seq<WorkloadStatus>, names: seq<string>, name: string, hour: nat)
    ensures OffersOf(s, names + [name], hour) == OffersOf(s, names, hour) + [OfferedAt(s, name, hour)]
    ensures Sum(OffersOf(s, names + [name], hour)) == AddOption(Sum(OffersOf(s, names, hour)), OfferedAt(s, name, hour))
  {
    assert (names + [name])[..|names|] == names;
    SumSnoc(OffersOf(s, names, hour), OfferedAt(s, name, hour));
  }

  lemma {:induction false} StatusSide(s: seq<WorkloadStatus>, part: seq<WorkloadStatus>, hour: nat)
    requires forall i :: 0 <= i < |part| ==> Lookup(s, part[i].name) == Some(part[i])
    ensures StatusBucket(part, hour) == Sum(OffersOf(s, StatusNames(part), hour))
  {
    if part != [] {
      var front, e := part[..|part| - 1], part[|part| - 1];
      StatusSide(s, front, hour);
      OffersSnoc(s, StatusNames(front), e.name, hour);
    }
  }

  predicate ForecastsInt32(s: seq<WorkloadStatus>) {
    forall i, h :: 0 <= i < |s| && s[i].forecast.Some? && 0 <= h < |s[i].forecast.value| ==>
        IsInt32(s[i].forecast.value[h])
  }

  lemma {:induction false} OffersInt32(s: seq<WorkloadStatus>, names: seq<string>, hour: nat)
    requires ForecastsInt32(s)
    ensures AllInt32(OffersOf(s, names, hour))
  {
    if names != [] { OffersInt32(s, names[..|names| - 1], hour); }
  }

  lemma {:induction false} OffersConcat(s: seq<WorkloadStatus>, a: seq<string>, b: seq<string>, hour: nat)
    ensures OffersOf(s, a + b, hour) == OffersOf(s, a, hour) + OffersOf(s, b, hour)
  {
    if b == [] {
      assert a + b == a;
    } else {
      assert (a + b)[..|a + b| - 1] == a + b[..|b| - 1];
      OffersConcat(s, a, b[..|b| - 1], hour);
    }
  }

  lemma OffersRemove(s: seq<WorkloadStatus>, before: seq<string>, x: string, after: seq<string>, hour: nat)
    requires ForecastsInt32(s)
    ensures Sum(OffersOf(s, before + [x] + after, hour)) == AddOption(Sum(OffersOf(s, before + after, hour)),
            OfferedAt(s, x, hour))
  {
    OffersConcat(s, before + [x], after, hour);
    OffersConcat(s, before, [x], hour);
    OffersConcat(s, before, after, hour);
    assert OffersOf(s, [x], hour) == [OfferedAt(s, x, hour)] by { assert [x][..0] == []; }
    OffersInt32(s, before, hour);
    OffersInt32(s, after, hour);
    OffersInt32(s, [x], hour);
    assert OffersOf(s, [x], hour)[0] == OfferedAt(s, x, hour);
    SumRemove(OffersOf(s, before, hour), OfferedAt(s, x, hour), OffersOf(s, after, hour));
  }

  lemma {:induction false} OffersPermute(s: seq<WorkloadStatus>, a: seq<string>, b: seq<string>, hour: nat)
    requires ForecastsInt32(s) && multiset(a) == multiset(b)
    ensures Sum(OffersOf(s, a, hour)) == Sum(OffersOf(s, b, hour))
    decreases |a|
  {
    if a == [] {
      assert |multiset(b)| == 0;
    } else {
      var n := |a| - 1;
      var i := IndexIn(a, n, b);
      var before, after := b[..i], b[i + 1..];
      DropEqual(a, b, i);
      assert b == before + [a[n]] + after && a == a[..n] + [a[n]];
      OffersPermute(s, a[..n], before + after, hour);
      OffersRemove(s, before, a[n], after, hour);
      OffersSnoc(s, a[..n], a[n], hour);
    }
  }

  lemma {:induction false} NamedHere(s: seq<WorkloadStatus>, i: nat)
    requires i < |s|
    ensures StatusNames(s)[i] == s[i].name
  {
    if i < |s| - 1 { NamedHere(s[..|s| - 1], i); }
  }

  lemma {:induction false} SpecNamedHere(s: seq<WorkloadSpec>, i: nat)
    requires i < |s|
    ensures SpecNames(s)[i] == s[i].name
  {
    if i < |s| - 1 { SpecNamedHere(s[..|s| - 1], i); }
  }

  lemma NameIsRecorded(s: seq<WorkloadStatus>, name: string)
    requires Unique(s) && name in StatusNames(s)
    ensures Lookup(s, name).Some?
  {
    var i :| 0 <= i < |s| && StatusNames(s)[i] == name;
    NamedHere(s, i);
    UniqueLookup(s, i);
  }

  /**
    The forecast the agent stores in the ledger and the one the backend
    publishes for the node agree at every hour, when every specified workload
    has one status entry and every unreleased entry carries a forecast.
  */
  lemma ForecastsAgree(l: NodeLedger, hour: nat)
    requires Unique(l.statuses) && CarryForecasts(l.statuses) && ForecastsInt32(l.statuses)
    requires multiset(SpecNames(l.workloads)) == multiset(StatusNames(l.statuses))
    ensures PublishedBucket(ExpandPart(l, l.workloads), hour) == StatusBucket(l.statuses, hour)
  {
    forall i | 0 <= i < |l.workloads| ensures Lookup(l.statuses, l.workloads[i].name).Some? {
      SpecNamedHere(l.workloads, i);
      assert SpecNames(l.workloads)[i] in multiset(StatusNames(l.statuses));
      NameIsRecorded(l.statuses, l.workloads[i].name);
    }
    BackendSide(l, l.workloads, hour);
    forall i | 0 <= i < |l.statuses| ensures Lookup(l.statuses, l.statuses[i].name) == Some(l.statuses[i]) {
      UniqueLookup(l.statuses, i);
    }
    StatusSide(l.statuses, l.statuses, hour);
    OffersPermute(l.statuses, SpecNames(l.workloads), StatusNames(l.statuses), hour);
  }
}
