/** One pass of the node agent over a ledger: plan, apply, record; and when the next pass has nothing left to do. */
module Reconcile {
  import opened Text
  import opened Resources
  import opened Windows
  import opened Allocations
  import opened Observation
  import opened Planner
  import opened PlannerProofs
  import opened Forecast
  import opened StatusLedger

  // ---- Recording one plan --------------------------------------------------

  /** The name a status entry is kept under. */
  function OwnName(a: Allocation): string { if |a.workloadNames| == 1 then a.workloadNames[0] else "" }

  function EntryOf(p: Plan, phase: string): WorkloadStatus {
    WorkloadStatus(OwnName(p.allocation), phase, Some(p.granted), Some(HourlyForecast(p.allocation)))
  }

  /** A released workload holds nothing, now and at every hour. */
  function ReleasedEntry(p: Plan): WorkloadStatus {
    WorkloadStatus(OwnName(p.allocation), "Released", Some(ZERO), Some(seq(HOURS, _ => ZERO)))
  }

  /**
    The stored ledger status and the calls made so far: workloads handed to
    the backend, workloads whose migration was seen to its end, ledger
    updates, snapshots, node status writes, and what the last of those shows.
  */
  datatype Store = Store(
    statuses: seq<WorkloadStatus>,
    phase: string,
    applied: seq<string>,
    migrated: seq<string>,
    writes: nat,
    snapshots: nat,
    nodeWrites: nat,
    shown: Option<seq<Allocation>>)

  function Opening(l: NodeLedger): Store { Store(l.statuses, l.phase, [], [], 0, 0, 0, None) }

  /** The agent's copy of the status list: the whole list if the workload is recorded, nothing otherwise. */
  function CopyFor(listed: seq<WorkloadStatus>, name: string): seq<WorkloadStatus> {
    if Lookup(listed, name).Some? then listed else []
  }

  /** The entry an update sends: the first of the agent's copy, whichever workload that is. */
  function Sent(copy: seq<WorkloadStatus>, e: WorkloadStatus): WorkloadStatus { Merge(copy, e)[0] }

  function Update(store: Store, copy: seq<WorkloadStatus>, e: WorkloadStatus): Store {
    store.(statuses := Merge(store.statuses, Sent(copy, e)), phase := e.phase, writes := store.writes + 1)
  }

  /** Already applied as planned. */
  predicate Settled(status: Status, granted: Resource) {
    status.phase == "Applied" && status.observed == Some(granted) && status.current.Some? && status.forecast.Some?
  }

  // ---- The pass in an arbitrary world --------------------------------------

  /** A ledger update is written, finds no ledger (which counts as done), or fails after its retries. */
  datatype Answer = Written | Missing | Refused

  /**
    How far a migration gets in this pass: the replacement is not running yet, the
    source is released, or a call fails.
  */
  datatype Progress = Waiting | Finished | Broken

  datatype NodeSync = Synced | SnapshotFails | WriteFails

  /** Everything outside the agent's control, by workload and phase where it depends on them. */
  datatype World = World(
    update: (string, string) -> Answer,
    apply: string -> bool,
    migrate: string -> Progress,
    sync: NodeSync,
    refresh: NodeSync)

  /** The store after a step, and whether the pass may go on. */
  datatype Attempt = Attempt(store: Store, ok: bool)

  function UpdateIn(store: Store, copy: seq<WorkloadStatus>, e: WorkloadStatus, world: World): Attempt {
    match world.update(e.name, e.phase)
    case Written => Attempt(Update(store, copy, e), true)
    case Missing => Attempt(store, true)
    case Refused => Attempt(store, false)
  }

  /**
    markPendingApply, markApplying, the backend call and markApplied; or
    markFailed and an error if the backend refuses.
  */
  function ApplyAcceptedIn(store: Store, copy: seq<WorkloadStatus>, p: Plan, world: World): Attempt {
    var pending, applying := EntryOf(p, "PendingApply"), EntryOf(p, "Applying");
    var one := UpdateIn(store, copy, pending, world);
    if !one.ok then one
    else
      var two := UpdateIn(one.store, Merge(copy, pending), applying, world);
      if !two.ok then two
      else
        var called := two.store.(applied := two.store.applied + [OwnName(p.allocation)]);
        var mine := Merge(Merge(copy, pending), applying);
        if world.apply(OwnName(p.allocation)) then UpdateIn(called, mine, EntryOf(p, "Applied"), world)
        else Attempt(UpdateIn(called, mine, EntryOf(p, "Failed"), world).store, false)
  }

  /** handleMigrationPlan: markMigrating unless recorded already, the migration itself, and markReleased at its end. */
  function MigrateIn(store: Store, copy: seq<WorkloadStatus>, p: Plan, world: World): Attempt {
    var recorded := p.allocation.status.phase == "Migrating";
    var one := if recorded then Attempt(store, true) else UpdateIn(store, copy, EntryOf(p, "Migrating"), world);
    var mine := if recorded then copy else Merge(copy, EntryOf(p, "Migrating"));
    if !one.ok then one
    else
      match world.migrate(OwnName(p.allocation))
      case Waiting => one
      case Broken => Attempt(one.store, false)
      case Finished =>
        UpdateIn(one.store.(migrated := one.store.migrated + [OwnName(p.allocation)]), mine, ReleasedEntry(p), world)
  }

  /** applyPlan. */
  function ApplyPlanIn(store: Store, listed: seq<WorkloadStatus>, p: Plan, world: World): Attempt {
    var copy := CopyFor(listed, OwnName(p.allocation));
    if Settled(p.allocation.status, p.granted) then Attempt(store, true)
    else if Accepted(p) then ApplyAcceptedIn(store, copy, p, world)
    else if p.action == Evict then MigrateIn(store, copy, p, world)
    else UpdateIn(store, copy, EntryOf(p, "Failed"), world)
  }

  /** The loop over the plans; an error ends it. */
  function ApplyPlansIn(store: Store, listed: seq<WorkloadStatus>, plans: seq<Plan>, world: World): Attempt {
    if plans == [] then Attempt(store, true)
    else
      var before := ApplyPlansIn(store, listed, plans[..|plans| - 1], world);
      if before.ok then ApplyPlanIn(before.store, listed, plans[|plans| - 1], world) else before
  }

  /** A snapshot of `residents` and a write of it to the node's status. */
  function SyncIn(store: Store, sync: NodeSync, residents: seq<Allocation>): Attempt {
    var taken := store.(snapshots := store.snapshots + 1);
    match sync
    case Synced => Attempt(taken.(nodeWrites := taken.nodeWrites + 1, shown := Some(residents)), true)
    case SnapshotFails => Attempt(taken, false)
    case WriteFails => Attempt(taken, false)
  }

  /** What the refreshed status shows: allocations that are not applied are left out. */
  function AppliedOnly(s: seq<Allocation>): seq<Allocation> {
    if s == [] then []
    else AppliedOnly(s[..|s| - 1]) + (if s[|s| - 1].status.phase == "Applied" then [s[|s| - 1]] else [])
  }

  /** Released ledgers are not listed. */
  function Listed(l: NodeLedger): seq<Allocation> { if l.phase == "Released" then [] else Expand(l) }

  function PassPlans(node: Node, l: NodeLedger, now: ZoneClock): seq<Plan> { Plans(node, Listed(l), now) }

  /** reconcileNode for one ledger: syncNodeStatus shows every resident, refreshNodeStatus the applied ones. */
  function PassIn(node: Node, l: NodeLedger, now: ZoneClock, world: World): Attempt {
    var synced := SyncIn(Opening(l), world.sync, Listed(l));
    if !synced.ok then synced
    else
      var done := ApplyPlansIn(synced.store, l.statuses, PassPlans(node, l, now), world);
      if done.ok then SyncIn(done.store, world.refresh, AppliedOnly(Listed(WithStatus(l, done.store)))) else done
  }

  function WithStatus(l: NodeLedger, store: Store): NodeLedger { l.(statuses := store.statuses, phase := store.phase) }

  /** The agent and the ledger status it writes. */
  class Agent {
    const world: World
    var statuses: seq<WorkloadStatus>
    var phase: string
    var applied: seq<string>
    var migrated: seq<string>
    var writes: nat
    var snapshots: nat
    var nodeWrites: nat
    var shown: Option<seq<Allocation>>

    constructor (l: NodeLedger, world: World)
      ensures Contents() == Opening(l) && this.world == world
    {
      this.world := world;
      statuses, phase := l.statuses, l.phase;
      applied, migrated, shown := [], [], None;
      writes, snapshots, nodeWrites := 0, 0, 0;
    }

    ghost function Contents(): Store
      reads this
    {
      Store(statuses, phase, applied, migrated, writes, snapshots, nodeWrites, shown)
    }

    /** setWorkloadStatus followed by updateAllocationStatus; returns the agent's new copy. */
    method UpdateAllocationStatus(copy: seq<WorkloadStatus>, e: WorkloadStatus) returns (merged: seq<WorkloadStatus>,
                                  ok: bool)
      modifies this
      ensures merged == Merge(copy, e)
      ensures Attempt(Contents(), ok) == UpdateIn(old(Contents()), copy, e, world)
    {
      merged := MergeWorkloadStatus(copy, e);
      match world.update(e.name, e.phase)
      case Missing => ok := true;
      case Refused => ok := false;
      case Written =>
        ok := true;
        statuses := MergeWorkloadStatus(statuses, merged[0]);
        phase := e.phase;
        writes := writes + 1;
    }

    method ApplyAccepted(copy: seq<WorkloadStatus>, p: Plan) returns (ok: bool)
      modifies this
      ensures Attempt(Contents(), ok) == ApplyAcceptedIn(old(Contents()), copy, p, world)
    {
      var mine;
      mine, ok := UpdateAllocationStatus(copy, EntryOf(p, "PendingApply"));
      if !ok { return; }
      mine, ok := UpdateAllocationStatus(mine, EntryOf(p, "Applying"));
      if !ok { return; }
      applied := applied + [OwnName(p.allocation)];
      if !world.apply(OwnName(p.allocation)) {
        mine, ok := UpdateAllocationStatus(mine, EntryOf(p, "Failed"));
        return false;
      }
      mine, ok := UpdateAllocationStatus(mine, EntryOf(p, "Applied"));
    }

    method HandleMigrationPlan(copy: seq<WorkloadStatus>, p: Plan) returns (ok: bool)
      modifies this
      ensures Attempt(Contents(), ok) == MigrateIn(old(Contents()), copy, p, world)
    {
      var mine := copy;
      ok := true;
      if p.allocation.status.phase != "Migrating" {
        mine, ok := UpdateAllocationStatus(mine, EntryOf(p, "Migrating"));
        if !ok { return; }
      }
      match world.migrate(OwnName(p.allocation))
      case Waiting =>
      case Broken => ok := false;
      case Finished =>
        migrated := migrated + [OwnName(p.allocation)];
        mine, ok := UpdateAllocationStatus(mine, ReleasedEntry(p));
    }

    method ApplyOne(listed: seq<WorkloadStatus>, p: Plan) returns (ok: bool)
      modifies this
      ensures Attempt(Contents(), ok) == ApplyPlanIn(old(Contents()), listed, p, world)
    {
      if Settled(p.allocation.status, p.granted) { return true; }
      var copy := CopyFor(listed, OwnName(p.allocation));
      if Accepted(p) {
        ok := ApplyAccepted(copy, p);
      } else if p.action == Evict {
        ok := HandleMigrationPlan(copy, p);
      } else {
        copy, ok := UpdateAllocationStatus(copy, EntryOf(p, "Failed"));
      }
    }

    method ApplyAll(listed: seq<WorkloadStatus>, plans: seq<Plan>) returns (ok: bool)
      modifies this
      ensures Attempt(Contents(), ok) == ApplyPlansIn(old(Contents()), listed, plans, world)
    {
      ghost var start := Contents();
      ok := true;
      for i := 0 to |plans|
        invariant ok && Attempt(Contents(), true) == ApplyPlansIn(start, listed, plans[..i], world)
      {
        assert plans[..i + 1][..i] == plans[..i];
        ok := ApplyOne(listed, plans[i]);
        if !ok {
          StoppedStays(start, listed, plans, world, i + 1);
          return;
        }
      }
      assert plans[..|plans|] == plans;
    }

    method SyncNode(sync: NodeSync, residents: seq<Allocation>) returns (ok: bool)
      modifies this
      ensures Attempt(Contents(), ok) == SyncIn(old(Contents()), sync, residents)
    {
      snapshots := snapshots + 1;
      if sync != Synced { return false; }
      nodeWrites := nodeWrites + 1;
      shown := Some(residents);
      return true;
    }

    /** refreshNodeStatus: lists again and shows what is applied. */
    method RefreshNode(l: NodeLedger) returns (ok: bool)
      modifies this
      ensures Attempt(Contents(), ok) ==
              SyncIn(old(Contents()), world.refresh, AppliedOnly(Listed(WithStatus(l, old(Contents())))))
    {
      var again := l.(statuses := statuses, phase := phase);
      var listed: seq<Allocation> := [];
      if again.phase != "Released" { listed := ExpandLedger(again); }
      var residents: seq<Allocation> := [];
      for i := 0 to |listed|
        invariant Contents() == old(Contents())
        invariant residents == AppliedOnly(listed[..i])
      {
        assert listed[..i + 1][..i] == listed[..i];
        if listed[i].status.phase == "Applied" { residents := residents + [listed[i]]; }
      }
      assert listed[..|listed|] == listed;
      ok := SyncNode(world.refresh, residents);
    }

    /** reconcileNode, for the ledger `l` as listed. */
    method ReconcileNode(node: Node, l: NodeLedger, now: ZoneClock) returns (ok: bool)
      requires Contents() == Opening(l)
      modifies this
      ensures Attempt(Contents(), ok) == PassIn(node, l, now, world)
    {
      var allocations: seq<Allocation> := [];
      if l.phase != "Released" { allocations := ExpandLedger(l); }
      ok := SyncNode(world.sync, allocations);
      if !ok { return; }
      var plans := BuildPlansAt(node, allocations, now);
      ok := ApplyAll(l.statuses, plans);
      if !ok { return; }
      ok := RefreshNode(l);
    }
  }

  /** Once stopped, the remaining plans change nothing. */
  lemma {:induction false} StoppedStays(store: Store, listed: seq<WorkloadStatus>, plans: seq<Plan>, world: World,
                                        i: nat)
    requires i <= |plans| && !ApplyPlansIn(store, listed, plans[..i], world).ok
    ensures ApplyPlansIn(store, listed, plans, world) == ApplyPlansIn(store, listed, plans[..i], world)
  {
    if i == |plans| {
      assert plans[..i] == plans;
    } else {
      var front := plans[..|plans| - 1];
      assert front[..i] == plans[..i];
      StoppedStays(store, listed, front, world, i);
    }
  }

  /** The ledger is listed, and lists workloads. */
  predicate Serving(l: NodeLedger) { l.phase != "Released" && l.workloads != [] }

  // ---- The pass when nothing fails -----------------------------------------

  /** No call fails. */
  ghost predicate Calm(world: World) {
    && world.sync == Synced && world.refresh == Synced
    && (forall name, phase :: world.update(name, phase) == Written)
    && (forall name :: world.apply(name))
  }

  /** The plan is no eviction, or its migration is waiting for the replacement. */
  predicate NoRelease(p: Plan, world: World) {
    Accepted(p) || p.action != Evict || world.migrate(OwnName(p.allocation)) == Waiting
  }

  function ApplyAccepted(store: Store, copy: seq<WorkloadStatus>, p: Plan): Store {
    var pending, applying := EntryOf(p, "PendingApply"), EntryOf(p, "Applying");
    var second := Update(Update(store, copy, pending), Merge(copy, pending), applying);
    var called := second.(applied := second.applied + [OwnName(p.allocation)]);
    Update(called, Merge(Merge(copy, pending), applying), EntryOf(p, "Applied"))
  }

  function ApplyPlan(store: Store, listed: seq<WorkloadStatus>, p: Plan): Store {
    var copy := CopyFor(listed, OwnName(p.allocation));
    if Settled(p.allocation.status, p.granted) then store
    else if !Accepted(p) then
      if p.action == Evict
      then (if p.allocation.status.phase == "Migrating" then store else Update(store, copy, EntryOf(p, "Migrating")))
      else Update(store, copy, EntryOf(p, "Failed"))
    else ApplyAccepted(store, copy, p)
  }

  function ApplyPlans(store: Store, listed: seq<WorkloadStatus>, plans: seq<Plan>): Store {
    if plans == [] then store else ApplyPlan(ApplyPlans(store, listed, plans[..|plans| - 1]), listed,
        plans[|plans| - 1])
  }

  /** The ledger's status after one such pass. */
  function Pass(node: Node, l: NodeLedger, now: ZoneClock): Store {
    ApplyPlans(Opening(l), l.statuses, PassPlans(node, l, now))
  }

  lemma CalmPlan(store: Store, listed: seq<WorkloadStatus>, p: Plan, world: World)
    requires Calm(world) && NoRelease(p, world)
    ensures ApplyPlanIn(store, listed, p, world) == Attempt(ApplyPlan(store, listed, p), true)
  {
  }

  lemma {:induction false} CalmPlans(store: Store, listed: seq<WorkloadStatus>, plans: seq<Plan>, world: World)
    requires Calm(world) && forall i :: 0 <= i < |plans| ==> NoRelease(plans[i], world)
    ensures ApplyPlansIn(store, listed, plans, world) == Attempt(ApplyPlans(store, listed, plans), true)
  {
    if plans != [] {
      CalmPlans(store, listed, plans[..|plans| - 1], world);
      CalmPlan(ApplyPlans(store, listed, plans[..|plans| - 1]), listed, plans[|plans| - 1], world);
    }
  }

  function Counting(store: Store, snapshots: nat, nodeWrites: nat, shown: Option<seq<Allocation>>): Store {
    store.(snapshots := snapshots, nodeWrites := nodeWrites, shown := shown)
  }

  lemma PlanIgnoresCounts(store: Store, listed: seq<WorkloadStatus>, p: Plan, a: nat, b: nat,
                          c: Option<seq<Allocation>>)
    ensures ApplyPlan(Counting(store, a, b, c), listed, p) == Counting(ApplyPlan(store, listed, p), a, b, c)
  {
  }

  lemma {:induction false} PlansIgnoreCounts(store: Store, listed: seq<WorkloadStatus>, plans: seq<Plan>, a: nat,
                                             b: nat, c: Option<seq<Allocation>>)
    ensures ApplyPlans(Counting(store, a, b, c), listed, plans) == Counting(ApplyPlans(store, listed, plans), a, b, c)
  {
    if plans != [] {
      PlansIgnoreCounts(store, listed, plans[..|plans| - 1], a, b, c);
      PlanIgnoresCounts(ApplyPlans(store, listed, plans[..|plans| - 1]), listed, plans[|plans| - 1], a, b, c);
    }
  }

  /** What the node's status shows after a calm pass: the residents then applied. */
  function Refreshed(node: Node, l: NodeLedger, now: ZoneClock): seq<Allocation> {
    AppliedOnly(Listed(WithStatus(l, Pass(node, l, now))))
  }

  /**
    A calm pass goes through, takes two snapshots, writes the node's status twice
    and leaves it showing what is applied.
  */
  lemma CalmPass(node: Node, l: NodeLedger, now: ZoneClock, world: World)
    requires Calm(world)
    requires forall i :: 0 <= i < |PassPlans(node, l, now)| ==> NoRelease(PassPlans(node, l, now)[i], world)
    ensures PassIn(node, l, now, world) == Attempt(Counting(Pass(node, l, now), 2, 2, Some(Refreshed(node, l, now))),
            true)
  {
    var plans, shown := PassPlans(node, l, now), Some(Listed(l));
    CalmPlans(Counting(Opening(l), 1, 1, shown), l.statuses, plans, world);
    PlansIgnoreCounts(Opening(l), l.statuses, plans, 1, 1, shown);
  }

  // ---- Which update reaches the ledger -------------------------------------

  lemma SentIsOwn(copy: seq<WorkloadStatus>, e: WorkloadStatus)
    ensures copy == [] || copy[0].name == e.name ==> Sent(copy, e) == e
    ensures copy != [] && copy[0].name != e.name ==> Sent(copy, e) == copy[0]
  {
  }

  /**
    An update is seen under the workload's own name exactly when the
    workload is unrecorded in the agent's copy or first in it; otherwise the
    stored entry stays what it was.
  */
  lemma UpdateReachesExactly(store: Store, copy: seq<WorkloadStatus>, e: WorkloadStatus)
    ensures Lookup(Update(store, copy, e).statuses, e.name) ==
            if copy == [] || copy[0].name == e.name then Some(e) else Lookup(store.statuses, e.name)
  {
    SentIsOwn(copy, e);
    MergeLookup(store.statuses, Sent(copy, e), e.name);
  }

  /** Worse, such an update puts an old copy of the first entry back. */
  lemma UpdateRevertsFirst(store: Store, copy: seq<WorkloadStatus>, e: WorkloadStatus)
    requires copy != [] && copy[0].name != e.name
    ensures Lookup(Update(store, copy, e).statuses, copy[0].name) == Some(copy[0])
  {
    SentIsOwn(copy, e);
    MergeLookup(store.statuses, copy[0], copy[0].name);
  }

  /** What an update does to any name. */
  lemma UpdateLookup(store: Store, copy: seq<WorkloadStatus>, e: WorkloadStatus, name: string)
    ensures Lookup(Update(store, copy, e).statuses, name) ==
            if name == Sent(copy, e).name then Some(Sent(copy, e)) else Lookup(store.statuses, name)
  {
    MergeLookup(store.statuses, Sent(copy, e), name);
  }

  /** The agent's updates for this workload carry its own entry. */
  predicate OwnUpdates(listed: seq<WorkloadStatus>, name: string) {
    Position(listed, name) == 0 || Position(listed, name) == |listed|
  }

  lemma CopyHead(listed: seq<WorkloadStatus>, name: string)
    ensures var copy := CopyFor(listed, name);
            if OwnUpdates(listed, name) then copy == [] || copy[0].name == name
            else copy == listed && copy != [] && copy[0].name != name
  {
    IndexIsFirst(listed, name);
  }

  lemma MergeKeepsHead(copy: seq<WorkloadStatus>, e: WorkloadStatus)
    ensures copy == [] || copy[0].name == e.name ==> Merge(copy, e)[0] == e
    ensures copy != [] && copy[0].name != e.name ==> Merge(copy, e)[0] == copy[0]
  {
  }

  /** The three updates of an accepted plan, for a workload whose updates are its own. */
  lemma AppliedOwn(store: Store, copy: seq<WorkloadStatus>, p: Plan, name: string)
    requires copy == [] || copy[0].name == OwnName(p.allocation)
    ensures Lookup(ApplyAccepted(store, copy, p).statuses, name) ==
            if name == OwnName(p.allocation) then Some(EntryOf(p, "Applied")) else Lookup(store.statuses, name)
  {
    var pending, applying, done := EntryOf(p, "PendingApply"), EntryOf(p, "Applying"), EntryOf(p, "Applied");
    var c2 := Merge(copy, pending);
    var c3 := Merge(c2, applying);
    MergeKeepsHead(copy, pending);
    MergeKeepsHead(c2, applying);
    MergeKeepsHead(c3, done);
    var s1 := Update(store, copy, pending);
    var s2 := Update(s1, c2, applying);
    UpdateLookup(store, copy, pending, name);
    UpdateLookup(s1, c2, applying, name);
    UpdateLookup(s2.(applied := s2.applied + [OwnName(p.allocation)]), c3, done, name);
  }

  /** The same for a workload that is recorded but not first: only the first entry is written. */
  lemma AppliedForeign(store: Store, copy: seq<WorkloadStatus>, p: Plan, name: string)
    requires copy != [] && copy[0].name != OwnName(p.allocation)
    ensures Lookup(ApplyAccepted(store, copy, p).statuses, name) ==
            if name == copy[0].name then Some(copy[0]) else Lookup(store.statuses, name)
  {
    var pending, applying, done := EntryOf(p, "PendingApply"), EntryOf(p, "Applying"), EntryOf(p, "Applied");
    var c2 := Merge(copy, pending);
    var c3 := Merge(c2, applying);
    MergeKeepsHead(copy, pending);
    MergeKeepsHead(c2, applying);
    MergeKeepsHead(c3, done);
    var s1 := Update(store, copy, pending);
    var s2 := Update(s1, c2, applying);
    UpdateLookup(store, copy, pending, name);
    UpdateLookup(s1, c2, applying, name);
    UpdateLookup(s2.(applied := s2.applied + [OwnName(p.allocation)]), c3, done, name);
  }

  /** What one accepted plan does to the stored entry of any workload. */
  lemma PlanLookup(store: Store, listed: seq<WorkloadStatus>, p: Plan, name: string)
    requires Accepted(p)
    ensures var after, own := Lookup(ApplyPlan(store, listed, p).statuses, name), OwnName(p.allocation);
            && (Settled(p.allocation.status, p.granted) ==> after == Lookup(store.statuses, name))
            && (!Settled(p.allocation.status, p.granted) && OwnUpdates(listed, own) ==>
                  after == if name == own then Some(EntryOf(p, "Applied")) else Lookup(store.statuses, name))
            && (!OwnUpdates(listed, own) && !OwnUpdates(listed, name) ==> after == Lookup(store.statuses, name))
  {
    var own := OwnName(p.allocation);
    var copy := CopyFor(listed, own);
    CopyHead(listed, own);
    CopyHead(listed, name);
    if !Settled(p.allocation.status, p.granted) {
      if OwnUpdates(listed, own) { AppliedOwn(store, copy, p, name); } else { AppliedForeign(store, copy, p, name); }
    }
  }

  // ---- What is recorded was earned, in any world ---------------------------

  /**
    An entry from before the pass, or one its phase was earned for: the
    workload was handed to the backend, which took it, or its migration was
    run to the end.
  */
  predicate Earned(e: WorkloadStatus, listed: seq<WorkloadStatus>, applied: seq<string>, migrated: seq<string>,
                   world: World) {
    e in listed ||
    (&& (e.phase == "Applied" ==> e.name in applied && world.apply(e.name))
     && (e.phase == "Released" ==> e.name in migrated && world.migrate(e.name) == Finished))
  }

  predicate AllEarned(s: seq<WorkloadStatus>, listed: seq<WorkloadStatus>, applied: seq<string>, migrated: seq<string>,
                      world: World) {
    forall e :: e in s ==> Earned(e, listed, applied, migrated, world)
  }

  /** The stored entries are earned by the calls recorded so far. */
  predicate StoreEarned(store: Store, listed: seq<WorkloadStatus>, world: World) {
    AllEarned(store.statuses, listed, store.applied, store.migrated, world)
  }

  /** More calls earn no less. */
  lemma EarnedGrows(s: seq<WorkloadStatus>, listed: seq<WorkloadStatus>, x: seq<string>, y: seq<string>, name: string,
                    world: World)
    requires AllEarned(s, listed, x, y, world)
    ensures AllEarned(s, listed, x + [name], y, world) && AllEarned(s, listed, x, y + [name], world)
  {
    forall e | e in s ensures Earned(e, listed, x + [name], y, world) && Earned(e, listed, x, y + [name], world) {
      assert Earned(e, listed, x, y, world);
    }
  }

  lemma MergeElements(s: seq<WorkloadStatus>, e: WorkloadStatus, x: WorkloadStatus)
    requires x in Merge(s, e)
    ensures x == e || x in s
  {
  }

  lemma MergeEarned(s: seq<WorkloadStatus>, e: WorkloadStatus, listed: seq<WorkloadStatus>, x: seq<string>,
                    y: seq<string>, world: World)
    requires AllEarned(s, listed, x, y, world) && Earned(e, listed, x, y, world)
    ensures AllEarned(Merge(s, e), listed, x, y, world)
  {
    forall z | z in Merge(s, e) ensures Earned(z, listed, x, y, world) { MergeElements(s, e, z); }
  }

  /** The agent's copy holds earned entries, like the store. */
  predicate BothEarned(store: Store, copy: seq<WorkloadStatus>, listed: seq<WorkloadStatus>, world: World) {
    StoreEarned(store, listed, world) && AllEarned(copy, listed, store.applied, store.migrated, world)
  }

  lemma UpdateEarned(store: Store, copy: seq<WorkloadStatus>, e: WorkloadStatus, listed: seq<WorkloadStatus>,
                     world: World)
    requires BothEarned(store, copy, listed, world) && Earned(e, listed, store.applied, store.migrated, world)
    ensures BothEarned(UpdateIn(store, copy, e, world).store, Merge(copy, e), listed, world)
  {
    MergeEarned(copy, e, listed, store.applied, store.migrated, world);
    assert Sent(copy, e) in Merge(copy, e);
    MergeEarned(store.statuses, Sent(copy, e), listed, store.applied, store.migrated, world);
  }

  lemma AcceptedEarned(store: Store, copy: seq<WorkloadStatus>, p: Plan, listed: seq<WorkloadStatus>, world: World)
    requires BothEarned(store, copy, listed, world)
    ensures StoreEarned(ApplyAcceptedIn(store, copy, p, world).store, listed, world)
  {
    var name := OwnName(p.allocation);
    var pending, applying := EntryOf(p, "PendingApply"), EntryOf(p, "Applying");
    UpdateEarned(store, copy, pending, listed, world);
    var one, c2 := UpdateIn(store, copy, pending, world), Merge(copy, pending);
    if one.ok {
      UpdateEarned(one.store, c2, applying, listed, world);
      var two, c3 := UpdateIn(one.store, c2, applying, world), Merge(c2, applying);
      var called := two.store.(applied := two.store.applied + [name]);
      EarnedGrows(two.store.statuses, listed, two.store.applied, two.store.migrated, name, world);
      EarnedGrows(c3, listed, two.store.applied, two.store.migrated, name, world);
      UpdateEarned(called, c3, EntryOf(p, if world.apply(name) then "Applied" else "Failed"), listed, world);
    }
  }

  lemma MigrationEarned(store: Store, copy: seq<WorkloadStatus>, p: Plan, listed: seq<WorkloadStatus>, world: World)
    requires BothEarned(store, copy, listed, world)
    ensures StoreEarned(MigrateIn(store, copy, p, world).store, listed, world)
  {
    var name, e := OwnName(p.allocation), EntryOf(p, "Migrating");
    var recorded := p.allocation.status.phase == "Migrating";
    UpdateEarned(store, copy, e, listed, world);
    var one := if recorded then Attempt(store, true) else UpdateIn(store, copy, e, world);
    var mine := if recorded then copy else Merge(copy, e);
    if one.ok && world.migrate(name) == Finished {
      EarnedGrows(one.store.statuses, listed, one.store.applied, one.store.migrated, name, world);
      EarnedGrows(mine, listed, one.store.applied, one.store.migrated, name, world);
      UpdateEarned(one.store.(migrated := one.store.migrated + [name]), mine, ReleasedEntry(p), listed, world);
    }
  }

  lemma PlanEarned(store: Store, listed: seq<WorkloadStatus>, p: Plan, world: World)
    requires StoreEarned(store, listed, world)
    ensures StoreEarned(ApplyPlanIn(store, listed, p, world).store, listed, world)
  {
    var copy := CopyFor(listed, OwnName(p.allocation));
    AcceptedEarned(store, copy, p, listed, world);
    MigrationEarned(store, copy, p, listed, world);
    UpdateEarned(store, copy, EntryOf(p, "Failed"), listed, world);
  }

  lemma {:induction false} PlansEarned(store: Store, listed: seq<WorkloadStatus>, plans: seq<Plan>, world: World)
    requires StoreEarned(store, listed, world)
    ensures StoreEarned(ApplyPlansIn(store, listed, plans, world).store, listed, world)
  {
    if plans != [] {
      var front := plans[..|plans| - 1];
      PlansEarned(store, listed, front, world);
      PlanEarned(ApplyPlansIn(store, listed, front, world).store, listed, plans[|plans| - 1], world);
    }
  }

  /**
    Whatever fails during a pass, it records Applied only for workloads it
    handed to the backend and the backend took, and Released only for those
    whose migration it saw to the end, unless the very entry was there before.
  */
  lemma RecordsAreEarned(node: Node, l: NodeLedger, now: ZoneClock, world: World, e: WorkloadStatus)
    requires e in PassIn(node, l, now, world).store.statuses
    ensures var store := PassIn(node, l, now, world).store; Earned(e, l.statuses, store.applied, store.migrated, world)
  {
    PlansEarned(SyncIn(Opening(l), world.sync, Listed(l)).store, l.statuses, PassPlans(node, l, now), world);
  }

  // ---- When a pass hides the ledger ----------------------------------------

  /** Calls succeed and migrations do not break; they may finish. */
  ghost predicate Smooth(world: World) { Calm(world) && forall name :: world.migrate(name) != Broken }

  /** The phase a plan's last update writes, if it makes any. */
  function LastWord(p: Plan, world: World): Option<string> {
    if Settled(p.allocation.status, p.granted) then None
    else if Accepted(p) then Some("Applied")
    else if p.action != Evict then Some("Failed")
    else if world.migrate(OwnName(p.allocation)) == Finished then Some("Released")
    else if p.allocation.status.phase == "Migrating" then None
    else Some("Migrating")
  }

  lemma PlanPhase(store: Store, listed: seq<WorkloadStatus>, p: Plan, world: World)
    requires Smooth(world)
    ensures var after, word := ApplyPlanIn(store, listed, p, world), LastWord(p, world);
            after.ok && after.store.phase == if word.Some? then word.value else store.phase
  {
  }

  /** Plan `i` has the last word, and it is a release. */
  predicate ReleasesLast(plans: seq<Plan>, world: World, i: nat) {
    i < |plans| && LastWord(plans[i], world) == Some("Released") && forall j :: i < j < |plans| ==>
        LastWord(plans[j], world) == None
  }

  lemma ReleasesLastSnoc(front: seq<Plan>, p: Plan, world: World)
    ensures (exists i: nat :: ReleasesLast(front + [p], world, i)) <==>
            LastWord(p, world) == Some("Released")
                || (LastWord(p, world) == None && exists i: nat :: ReleasesLast(front, world, i))
  {
    var plans := front + [p];
    if LastWord(p, world) == Some("Released") { assert ReleasesLast(plans, world, |front|); }
    if i: nat :| ReleasesLast(front, world, i) && LastWord(p, world) == None {
      assert ReleasesLast(plans, world, i);
    }
    if i: nat :| ReleasesLast(plans, world, i) {
      if i < |front| {
        assert plans[|front|] == p;
        forall j | i < j < |front| ensures LastWord(front[j], world) == None { assert plans[j] == front[j]; }
        assert ReleasesLast(front, world, i);
      }
    }
  }

  lemma {:induction false} PlansPhase(store: Store, listed: seq<WorkloadStatus>, plans: seq<Plan>, world: World)
    requires Smooth(world) && store.phase != "Released"
    ensures var after := ApplyPlansIn(store, listed, plans, world);
            after.ok && (after.store.phase == "Released" <==> exists i: nat :: ReleasesLast(plans, world, i))
  {
    if plans != [] {
      var front, p := plans[..|plans| - 1], plans[|plans| - 1];
      PlansPhase(store, listed, front, world);
      PlanPhase(ApplyPlansIn(store, listed, front, world).store, listed, p, world);
      ReleasesLastSnoc(front, p, world);
      assert plans == front + [p];
    }
  }

  /**
    When a pass hides a ledger: exactly when, of the plans that write
    anything, the last one finishes a migration. Then no workload of the
    ledger is planned any more, released or not.
  */
  lemma LedgerHiddenExactly(node: Node, l: NodeLedger, now: ZoneClock, world: World)
    requires Smooth(world) && l.phase != "Released"
    ensures var after := WithStatus(l, PassIn(node, l, now, world).store);
            && (after.phase == "Released" <==> exists i: nat :: ReleasesLast(PassPlans(node, l, now), world, i))
            && (after.phase == "Released" ==> PassPlans(node, after, now) == [])
  {
    var plans := PassPlans(node, l, now);
    PlansPhase(SyncIn(Opening(l), world.sync, Listed(l)).store, l.statuses, plans, world);
    PlanCount(node, [], now);
  }

  // ---- Workloads that are never brought up to date -------------------------

  /** No update of the workload `own` made from this copy touches the entry of `name`. */
  predicate Harmless(copy: seq<WorkloadStatus>, own: string, name: string) {
    && (own == name ==> copy != [])
    && (copy != [] ==> copy[0].name != name)
  }

  /** The entry of `name` is the same in both, and still behind another one. */
  predicate SameEntry(s: seq<WorkloadStatus>, r: seq<WorkloadStatus>, name: string) {
    Lookup(r, name) == Lookup(s, name) && !OwnUpdates(r, name)
  }

  lemma HarmlessUpdate(store: Store, copy: seq<WorkloadStatus>, e: WorkloadStatus, name: string, world: World)
    requires !OwnUpdates(store.statuses, name) && Harmless(copy, e.name, name)
    ensures SameEntry(store.statuses, UpdateIn(store, copy, e, world).store.statuses, name)
    ensures Harmless(Merge(copy, e), e.name, name)
  {
    MergeKeepsHead(copy, e);
    MergeLookup(store.statuses, Sent(copy, e), name);
    MergeKeepsPosition(store.statuses, Sent(copy, e), name);
  }

  lemma AcceptedHarmless(store: Store, copy: seq<WorkloadStatus>, p: Plan, name: string, world: World)
    requires !OwnUpdates(store.statuses, name) && Harmless(copy, OwnName(p.allocation), name)
    ensures SameEntry(store.statuses, ApplyAcceptedIn(store, copy, p, world).store.statuses, name)
  {
    var own := OwnName(p.allocation);
    var pending, applying := EntryOf(p, "PendingApply"), EntryOf(p, "Applying");
    HarmlessUpdate(store, copy, pending, name, world);
    var one, c2 := UpdateIn(store, copy, pending, world), Merge(copy, pending);
    if one.ok {
      HarmlessUpdate(one.store, c2, applying, name, world);
      var two := UpdateIn(one.store, c2, applying, world);
      var called := two.store.(applied := two.store.applied + [own]);
      HarmlessUpdate(called, Merge(c2, applying), EntryOf(p, if world.apply(own) then "Applied" else "Failed"), name,
          world);
    }
  }

  lemma MigrationHarmless(store: Store, copy: seq<WorkloadStatus>, p: Plan, name: string, world: World)
    requires !OwnUpdates(store.statuses, name) && Harmless(copy, OwnName(p.allocation), name)
    ensures SameEntry(store.statuses, MigrateIn(store, copy, p, world).store.statuses, name)
  {
    var own, e := OwnName(p.allocation), EntryOf(p, "Migrating");
    var recorded := p.allocation.status.phase == "Migrating";
    HarmlessUpdate(store, copy, e, name, world);
    var one := if recorded then Attempt(store, true) else UpdateIn(store, copy, e, world);
    if one.ok && world.migrate(own) == Finished {
      var mine := if recorded then copy else Merge(copy, e);
      HarmlessUpdate(one.store.(migrated := one.store.migrated + [own]), mine, ReleasedEntry(p), name, world);
    }
  }

  /** No plan, in any world, changes the entry of a workload that is listed behind another one. */
  lemma PlanHarmless(store: Store, listed: seq<WorkloadStatus>, p: Plan, name: string, world: World)
    requires !OwnUpdates(listed, name) && !OwnUpdates(store.statuses, name)
    ensures SameEntry(store.statuses, ApplyPlanIn(store, listed, p, world).store.statuses, name)
  {
    var own := OwnName(p.allocation);
    var copy := CopyFor(listed, own);
    CopyHead(listed, name);
    AcceptedHarmless(store, copy, p, name, world);
    MigrationHarmless(store, copy, p, name, world);
    HarmlessUpdate(store, copy, EntryOf(p, "Failed"), name, world);
  }

  lemma {:induction false} PlansHarmless(store: Store, listed: seq<WorkloadStatus>, plans: seq<Plan>, name: string,
                                         world: World)
    requires !OwnUpdates(listed, name) && !OwnUpdates(store.statuses, name)
    ensures SameEntry(store.statuses, ApplyPlansIn(store, listed, plans, world).store.statuses, name)
  {
    if plans != [] {
      var front := plans[..|plans| - 1];
      PlansHarmless(store, listed, front, name, world);
      PlanHarmless(ApplyPlansIn(store, listed, front, world).store, listed, plans[|plans| - 1], name, world);
    }
  }

  /** One pass: the node, the clock and the world as they are then, and the workloads the ledger then specifies. */
  datatype Tick = Tick(node: Node, workloads: seq<WorkloadSpec>, now: ZoneClock, world: World)

  /** The ledger after a number of passes; the schedulers may change its spec in between. */
  function AfterPasses(l: NodeLedger, ticks: seq<Tick>): NodeLedger {
    if ticks == [] then l
    else
      var tick := ticks[|ticks| - 1];
      var seen := AfterPasses(l, ticks[..|ticks| - 1]).(workloads := tick.workloads);
      WithStatus(seen, PassIn(tick.node, seen, tick.now, tick.world).store)
  }

  /**
    A workload recorded behind another one is never brought up to date: over
    any number of passes, at any clocks, on any plans, with any failures and
    any changes to the specs, its entry stays what it was.
  */
  lemma {:induction false} NeverBroughtUpToDate(l: NodeLedger, ticks: seq<Tick>, name: string)
    requires !OwnUpdates(l.statuses, name)
    ensures SameEntry(l.statuses, AfterPasses(l, ticks).statuses, name)
  {
    if ticks != [] {
      var tick := ticks[|ticks| - 1];
      NeverBroughtUpToDate(l, ticks[..|ticks| - 1], name);
      var seen := AfterPasses(l, ticks[..|ticks| - 1]).(workloads := tick.workloads);
      PlansHarmless(SyncIn(Opening(seen), tick.world.sync, Listed(seen)).store, seen.statuses,
                    PassPlans(tick.node, seen, tick.now), name, tick.world);
    }
  }
}
