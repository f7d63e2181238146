/** Where a pass stops when something fails, and what it leaves behind. */
module PassFailures {
  import opened Text
  import opened Resources
  import opened Windows
  import opened Allocations
  import opened Observation
  import opened Planner
  import opened PlannerProofs
  import opened Forecast
  import opened StatusLedger
  import opened Reconcile

  // ---- What the world makes of one plan ------------------------------------

  /** Recorded as applied, with what is granted now, its usage and its forecast. */
  predicate UpToDate(p: Plan) {
    var s := p.allocation.status;
    s.current.Some? && s.forecast.Some? && s == Status("Applied", Some(p.granted), s.current, s.forecast)
  }

  predicate IsRefused(p: Plan, phase: string, world: World) {
    world.update(OwnName(p.allocation), phase) == Refused
  }

  predicate IsWritten(p: Plan, phase: string, world: World) {
    world.update(OwnName(p.allocation), phase) == Written
  }

  /** The workload reaches the backend: neither update before the call is refused. */
  predicate HandedOver(p: Plan, world: World) {
    !UpToDate(p) && Accepted(p) && !IsRefused(p, "PendingApply", world) && !IsRefused(p, "Applying", world)
  }

  predicate Evicted(p: Plan) { !UpToDate(p) && !Accepted(p) && p.action == Evict }

  /** Migrating needs no recording, or its recording is not refused. */
  predicate MigrationStarts(p: Plan, world: World) {
    Evicted(p) && (p.allocation.status.phase == "Migrating" || !IsRefused(p, "Migrating", world))
  }

  /** The migration is seen to its end. */
  predicate SeenThrough(p: Plan, world: World) {
    MigrationStarts(p, world) && world.migrate(OwnName(p.allocation)) == Finished
  }

  /** The plan ends the pass with an error. */
  predicate PlanFails(p: Plan, world: World) {
    && !UpToDate(p)
    && if Accepted(p) then
         || !HandedOver(p, world)
         || !world.apply(OwnName(p.allocation))
         || IsRefused(p, "Applied", world)
       else if p.action == Evict then
         || !MigrationStarts(p, world)
         || world.migrate(OwnName(p.allocation)) == Broken
         || (SeenThrough(p, world) && IsRefused(p, "Released", world))
       else
         IsRefused(p, "Failed", world)
  }

  function PhaseIf(written: bool, phase: string, earlier: Option<string>): Option<string> {
    if written then Some(phase) else earlier
  }

  /** The phase of the plan's last update that is written, if one is. */
  function LastWritten(p: Plan, world: World): Option<string> {
    if UpToDate(p) then None
    else if Accepted(p) then
      var pending := PhaseIf(IsWritten(p, "PendingApply", world), "PendingApply", None);
      var applying := if IsRefused(p, "PendingApply", world) then None
                      else PhaseIf(IsWritten(p, "Applying", world), "Applying", pending);
      var outcome := if world.apply(OwnName(p.allocation)) then "Applied" else "Failed";
      if HandedOver(p, world) then PhaseIf(IsWritten(p, outcome, world), outcome, applying) else applying
    else if p.action == Evict then
      var migrating := PhaseIf(p.allocation.status.phase != "Migrating" && IsWritten(p, "Migrating", world),
                               "Migrating", None);
      PhaseIf(SeenThrough(p, world) && IsWritten(p, "Released", world), "Released", migrating)
    else PhaseIf(IsWritten(p, "Failed", world), "Failed", None)
  }

  /** The entry written with a phase: the grant and its forecast, or nothing at any hour once released. */
  predicate IsEntry(e: WorkloadStatus, p: Plan, phase: string) {
    && e.name == OwnName(p.allocation) && e.phase == phase
    && if phase == "Released"
       then e.applied == Some(ZERO) && e.forecast.Some? && |e.forecast.value| == HOURS
            && forall h :: 0 <= h < HOURS ==> e.forecast.value[h] == ZERO
       else e.applied == Some(p.granted) && e.forecast == Some(HourlyForecast(p.allocation))
  }

  // ---- One plan ------------------------------------------------------------

  /** Three updates of one workload with the backend call before the last; `taken` says whether the backend takes it. */
  function Stages(store: Store, copy: seq<WorkloadStatus>, a: WorkloadStatus, b: WorkloadStatus, c: WorkloadStatus,
                  taken: bool, world: World): Attempt {
    var one := UpdateIn(store, copy, a, world);
    if !one.ok then one
    else
      var two := UpdateIn(one.store, Merge(copy, a), b, world);
      if !two.ok then two
      else
        var called := two.store.(applied := two.store.applied + [a.name]);
        var three := UpdateIn(called, Merge(Merge(copy, a), b), c, world);
        Attempt(three.store, taken && three.ok)
  }

  lemma AcceptedInStages(store: Store, copy: seq<WorkloadStatus>, p: Plan, world: World)
    ensures var taken := world.apply(OwnName(p.allocation));
            ApplyAcceptedIn(store, copy, p, world) ==
            Stages(store, copy, EntryOf(p, "PendingApply"), EntryOf(p, "Applying"),
                   EntryOf(p, if taken then "Applied" else "Failed"), taken, world)
  {
  }

  predicate Refuses(e: WorkloadStatus, world: World) { world.update(e.name, e.phase) == Refused }

  /** An update fails exactly if it is refused, and makes no other call. */
  lemma UpdateCalls(store: Store, copy: seq<WorkloadStatus>, e: WorkloadStatus, world: World)
    ensures var after := UpdateIn(store, copy, e, world);
            && (after.ok <==> !Refuses(e, world))
            && after.store.applied == store.applied && after.store.migrated == store.migrated
            && SameCounts(store, after.store)
  {
  }

  lemma StagesCalls(store: Store, copy: seq<WorkloadStatus>, a: WorkloadStatus, b: WorkloadStatus, c: WorkloadStatus,
                    taken: bool, world: World)
    ensures var after, reached := Stages(store, copy, a, b, c, taken, world), !Refuses(a, world) && !Refuses(b, world);
            && (after.ok <==> reached && taken && !Refuses(c, world))
            && after.store.applied == (if reached then store.applied + [a.name] else store.applied)
            && after.store.migrated == store.migrated && SameCounts(store, after.store)
  {
    UpdateCalls(store, copy, a, world);
    var one := UpdateIn(store, copy, a, world);
    if one.ok {
      UpdateCalls(one.store, Merge(copy, a), b, world);
      var two := UpdateIn(one.store, Merge(copy, a), b, world);
      var called := two.store.(applied := two.store.applied + [a.name]);
      UpdateCalls(called, Merge(Merge(copy, a), b), c, world);
    }
  }

  lemma MigrationCalls(store: Store, copy: seq<WorkloadStatus>, p: Plan, world: World)
    requires Evicted(p)
    ensures var after, name := MigrateIn(store, copy, p, world), OwnName(p.allocation);
            && (after.ok <==> !PlanFails(p, world))
            && after.store.migrated == (if SeenThrough(p, world) then store.migrated + [name] else store.migrated)
            && after.store.applied == store.applied && SameCounts(store, after.store)
  {
  }

  lemma AcceptedCalls(store: Store, copy: seq<WorkloadStatus>, p: Plan, world: World)
    requires !UpToDate(p) && Accepted(p)
    ensures var after, name := ApplyAcceptedIn(store, copy, p, world), OwnName(p.allocation);
            && (after.ok <==> !PlanFails(p, world))
            && after.store.applied == (if HandedOver(p, world) then store.applied + [name] else store.applied)
            && after.store.migrated == store.migrated && SameCounts(store, after.store)
  {
    var taken := world.apply(OwnName(p.allocation));
    AcceptedInStages(store, copy, p, world);
    StagesCalls(store, copy, EntryOf(p, "PendingApply"), EntryOf(p, "Applying"),
                EntryOf(p, if taken then "Applied" else "Failed"), taken, world);
  }

  /** The calls one plan makes, and whether the pass goes on after it. */
  lemma PlanCalls(store: Store, listed: seq<WorkloadStatus>, p: Plan, world: World)
    ensures var after := ApplyPlanIn(store, listed, p, world);
            && (after.ok <==> !PlanFails(p, world))
            && CallsMade(store, after.store, p, world)
            && (UpToDate(p) ==> after.store == store)
  {
    var copy := CopyFor(listed, OwnName(p.allocation));
    SettledIsUpToDate(p);
    if !UpToDate(p) {
      if Accepted(p) {
        AcceptedCalls(store, copy, p, world);
      } else if p.action == Evict {
        MigrationCalls(store, copy, p, world);
      }
    }
  }

  lemma SettledIsUpToDate(p: Plan)
    ensures Settled(p.allocation.status, p.granted) <==> UpToDate(p)
  {
  }

  /** Between the two stores the plan made the calls that are due, and no others. */
  predicate CallsMade(before: Store, after: Store, p: Plan, world: World) {
    var name := [OwnName(p.allocation)];
    && after.applied == before.applied + (if HandedOver(p, world) then name else [])
    && after.migrated == before.migrated + (if SeenThrough(p, world) then name else [])
    && SameCounts(before, after)
  }

  predicate SameCounts(s: Store, r: Store) {
    r.snapshots == s.snapshots && r.nodeWrites == s.nodeWrites && r.shown == s.shown
  }

  lemma OwnStep(store: Store, copy: seq<WorkloadStatus>, e: WorkloadStatus, world: World)
    requires copy == [] || copy[0].name == e.name
    ensures var after, written := UpdateIn(store, copy, e, world).store, world.update(e.name, e.phase) == Written;
            && Lookup(after.statuses, e.name) == (if written then Some(e) else Lookup(store.statuses, e.name))
            && after.phase == if written then e.phase else store.phase
    ensures Merge(copy, e) != [] && Merge(copy, e)[0].name == e.name
  {
    UpdateReachesExactly(store, copy, e);
    MergeKeepsHead(copy, e);
  }

  /** The entry of the plan's workload and the ledger's phase are those of the last update written, if one was. */
  predicate RecordedAs(before: Store, after: Store, p: Plan, word: Option<string>) {
    var name := OwnName(p.allocation);
    if word.None? then Lookup(after.statuses, name) == Lookup(before.statuses, name) && after.phase == before.phase
    else
      && after.phase == word.value && Lookup(after.statuses, name).Some?
      && IsEntry(Lookup(after.statuses, name).value, p, word.value)
  }

  /** The last of three updates that is written, if the earlier ones let it be attempted. */
  function LastStage(a: WorkloadStatus, b: WorkloadStatus, c: WorkloadStatus, world: World): Option<WorkloadStatus> {
    if Refuses(a, world) then None
    else if !Refuses(b, world) && world.update(c.name, c.phase) == Written then Some(c)
    else if world.update(b.name, b.phase) == Written then Some(b)
    else if world.update(a.name, a.phase) == Written then Some(a)
    else None
  }

  lemma StagesRecord(store: Store, copy: seq<WorkloadStatus>, a: WorkloadStatus, b: WorkloadStatus, c: WorkloadStatus,
                     taken: bool, world: World)
    requires a.name == b.name == c.name && (copy == [] || copy[0].name == a.name)
    ensures var after, last := Stages(store, copy, a, b, c, taken, world).store, LastStage(a, b, c, world);
            && Lookup(after.statuses, a.name) == (if last.Some? then last else Lookup(store.statuses, a.name))
            && after.phase == if last.Some? then last.value.phase else store.phase
  {
    OwnStep(store, copy, a, world);
    var one, c2 := UpdateIn(store, copy, a, world), Merge(copy, a);
    if one.ok {
      OwnStep(one.store, c2, b, world);
      var two := UpdateIn(one.store, c2, b, world);
      OwnStep(two.store.(applied := two.store.applied + [a.name]), Merge(c2, b), c, world);
    }
  }

  lemma AcceptedRecords(store: Store, copy: seq<WorkloadStatus>, p: Plan, world: World)
    requires !UpToDate(p) && Accepted(p) && (copy == [] || copy[0].name == OwnName(p.allocation))
    ensures RecordedAs(store, ApplyAcceptedIn(store, copy, p, world).store, p, LastWritten(p, world))
  {
    var taken := world.apply(OwnName(p.allocation));
    var outcome := if taken then "Applied" else "Failed";
    AcceptedInStages(store, copy, p, world);
    StagesRecord(store, copy, EntryOf(p, "PendingApply"), EntryOf(p, "Applying"), EntryOf(p, outcome), taken, world);
    LastStageIsLastWritten(p, world, outcome);
  }

  lemma LastStageIsLastWritten(p: Plan, world: World, outcome: string)
    requires !UpToDate(p) && Accepted(p)
    requires outcome == if world.apply(OwnName(p.allocation)) then "Applied" else "Failed"
    ensures var last := LastStage(EntryOf(p, "PendingApply"), EntryOf(p, "Applying"), EntryOf(p, outcome), world);
            && last.Some? == LastWritten(p, world).Some?
            && (last.Some? ==> last.value.phase == LastWritten(p, world).value &&
                               IsEntry(last.value, p, last.value.phase))
  {
    assert |outcome| < |"Released"| && |"Applying"| == |"Released"| && "Applying"[0] != "Released"[0];
    assert |"PendingApply"| != |"Released"|;
  }

  lemma RecordedThen(a: Store, b: Store, c: Store, p: Plan, first: Option<string>, second: Option<string>)
    requires RecordedAs(a, b, p, first) && RecordedAs(b, c, p, second)
    ensures RecordedAs(a, c, p, if second.Some? then second else first)
  {
  }

  /** One update of an entry of this plan. */
  lemma StepRecords(store: Store, copy: seq<WorkloadStatus>, p: Plan, e: WorkloadStatus, phase: string, world: World)
    requires (copy == [] || copy[0].name == OwnName(p.allocation)) && IsEntry(e, p, phase)
    ensures RecordedAs(store, UpdateIn(store, copy, e, world).store, p,
                       PhaseIf(IsWritten(p, phase, world), phase, None))
    ensures Merge(copy, e) != [] && Merge(copy, e)[0].name == OwnName(p.allocation)
  {
    OwnStep(store, copy, e, world);
  }

  /** The migration itself, once Migrating is recorded or needs no recording. */
  function FinishIn(store: Store, copy: seq<WorkloadStatus>, p: Plan, world: World): Attempt {
    match world.migrate(OwnName(p.allocation))
    case Waiting => Attempt(store, true)
    case Broken => Attempt(store, false)
    case Finished =>
      UpdateIn(store.(migrated := store.migrated + [OwnName(p.allocation)]), copy, ReleasedEntry(p), world)
  }

  lemma FinishRecords(store: Store, copy: seq<WorkloadStatus>, p: Plan, world: World)
    requires copy == [] || copy[0].name == OwnName(p.allocation)
    ensures var released := world.migrate(OwnName(p.allocation)) == Finished && IsWritten(p, "Released", world);
            RecordedAs(store, FinishIn(store, copy, p, world).store, p, PhaseIf(released, "Released", None))
  {
    var name := OwnName(p.allocation);
    var seen := store.(migrated := store.migrated + [name]);
    StepRecords(seen, copy, p, ReleasedEntry(p), "Released", world);
  }

  lemma MigratesInTwo(store: Store, copy: seq<WorkloadStatus>, p: Plan, world: World)
    ensures var e := EntryOf(p, "Migrating");
            MigrateIn(store, copy, p, world) ==
            if p.allocation.status.phase == "Migrating" then FinishIn(store, copy, p, world)
            else if IsRefused(p, "Migrating", world) then Attempt(store, false)
            else FinishIn(UpdateIn(store, copy, e, world).store, Merge(copy, e), p, world)
  {
  }

  lemma MigrationRecords(store: Store, copy: seq<WorkloadStatus>, p: Plan, world: World)
    requires Evicted(p) && (copy == [] || copy[0].name == OwnName(p.allocation))
    ensures RecordedAs(store, MigrateIn(store, copy, p, world).store, p, LastWritten(p, world))
  {
    MigratesInTwo(store, copy, p, world);
    if p.allocation.status.phase == "Migrating" {
      FinishRecords(store, copy, p, world);
    } else if !IsRefused(p, "Migrating", world) {
      var e := EntryOf(p, "Migrating");
      assert IsEntry(e, p, "Migrating") by { assert |"Migrating"| != |"Released"|; }
      StepRecords(store, copy, p, e, "Migrating", world);
      var marked := UpdateIn(store, copy, e, world).store;
      FinishRecords(marked, Merge(copy, e), p, world);
      var released := world.migrate(OwnName(p.allocation)) == Finished && IsWritten(p, "Released", world);
      RecordedThen(store, marked, FinishIn(marked, Merge(copy, e), p, world).store, p,
                   PhaseIf(IsWritten(p, "Migrating", world), "Migrating", None), PhaseIf(released, "Released", None));
    }
  }

  /**
    What one plan records, in any world, for a workload that is unrecorded or
    first in the ledger: the entry of its last update that is written.
  */
  lemma PlanRecords(store: Store, listed: seq<WorkloadStatus>, p: Plan, world: World)
    requires OwnUpdates(listed, OwnName(p.allocation))
    ensures RecordedAs(store, ApplyPlanIn(store, listed, p, world).store, p, LastWritten(p, world))
  {
    var copy := CopyFor(listed, OwnName(p.allocation));
    CopyHead(listed, OwnName(p.allocation));
    SettledIsUpToDate(p);
    if !UpToDate(p) {
      if Accepted(p) {
        AcceptedRecords(store, copy, p, world);
      } else if p.action == Evict {
        MigrationRecords(store, copy, p, world);
      } else {
        OwnStep(store, copy, EntryOf(p, "Failed"), world);
      }
    }
  }

  // ---- What one plan leaves alone ------------------------------------------

  /** The copy starts with the entry of `own`, or still with the listed first entry. */
  predicate FromListed(copy: seq<WorkloadStatus>, listed: seq<WorkloadStatus>, own: string) {
    copy == [] || copy[0].name == own || (listed != [] && copy[0] == listed[0])
  }

  /** The stored entry of `name`, if any, is the listed one. */
  predicate AsListed(store: Store, listed: seq<WorkloadStatus>, name: string) {
    Lookup(store.statuses, name) == Lookup(listed, name)
  }

  lemma ForeignStep(store: Store, copy: seq<WorkloadStatus>, e: WorkloadStatus, listed: seq<WorkloadStatus>,
                    name: string, world: World)
    requires FromListed(copy, listed, e.name) && AsListed(store, listed, name) && name != e.name
    ensures AsListed(UpdateIn(store, copy, e, world).store, listed, name)
    ensures FromListed(Merge(copy, e), listed, e.name)
  {
    SentIsOwn(copy, e);
    MergeKeepsHead(copy, e);
    UpdateLookup(store, copy, e, name);
    if listed != [] { IndexIsFirst(listed, listed[0].name); }
  }

  lemma AcceptedLeaves(store: Store, copy: seq<WorkloadStatus>, p: Plan, listed: seq<WorkloadStatus>, name: string,
                       world: World)
    requires FromListed(copy, listed, OwnName(p.allocation)) && AsListed(store, listed, name)
    requires name != OwnName(p.allocation)
    ensures AsListed(ApplyAcceptedIn(store, copy, p, world).store, listed, name)
  {
    var own := OwnName(p.allocation);
    var pending, applying := EntryOf(p, "PendingApply"), EntryOf(p, "Applying");
    ForeignStep(store, copy, pending, listed, name, world);
    var one, c2 := UpdateIn(store, copy, pending, world), Merge(copy, pending);
    if one.ok {
      ForeignStep(one.store, c2, applying, listed, name, world);
      var two := UpdateIn(one.store, c2, applying, world);
      var called := two.store.(applied := two.store.applied + [own]);
      ForeignStep(called, Merge(c2, applying), EntryOf(p, if world.apply(own) then "Applied" else "Failed"), listed,
          name, world);
    }
  }

  lemma MigrationLeaves(store: Store, copy: seq<WorkloadStatus>, p: Plan, listed: seq<WorkloadStatus>, name: string,
                        world: World)
    requires FromListed(copy, listed, OwnName(p.allocation)) && AsListed(store, listed, name)
    requires name != OwnName(p.allocation)
    ensures AsListed(MigrateIn(store, copy, p, world).store, listed, name)
  {
    var own, e := OwnName(p.allocation), EntryOf(p, "Migrating");
    var recorded := p.allocation.status.phase == "Migrating";
    ForeignStep(store, copy, e, listed, name, world);
    var one := if recorded then Attempt(store, true) else UpdateIn(store, copy, e, world);
    var mine := if recorded then copy else Merge(copy, e);
    if one.ok && world.migrate(own) == Finished {
      ForeignStep(one.store.(migrated := one.store.migrated + [own]), mine, ReleasedEntry(p), listed, name, world);
    }
  }

  lemma PlanLeaves(store: Store, listed: seq<WorkloadStatus>, p: Plan, name: string, world: World)
    requires AsListed(store, listed, name) && name != OwnName(p.allocation)
    ensures AsListed(ApplyPlanIn(store, listed, p, world).store, listed, name)
  {
    var own := OwnName(p.allocation);
    var copy := CopyFor(listed, own);
    AcceptedLeaves(store, copy, p, listed, name, world);
    MigrationLeaves(store, copy, p, listed, name, world);
    ForeignStep(store, copy, EntryOf(p, "Failed"), listed, name, world);
  }

  // ---- The plans in turn ---------------------------------------------------

  /** The workloads of `plans` that reach the backend. */
  function HandedNames(plans: seq<Plan>, world: World): seq<string> {
    if plans == [] then []
    else
      var p := plans[|plans| - 1];
      HandedNames(plans[..|plans| - 1], world) + if HandedOver(p, world) then [OwnName(p.allocation)] else []
  }

  /** Those whose migration is seen to its end. */
  function SeenNames(plans: seq<Plan>, world: World): seq<string> {
    if plans == [] then []
    else
      var p := plans[|plans| - 1];
      SeenNames(plans[..|plans| - 1], world) + if SeenThrough(p, world) then [OwnName(p.allocation)] else []
  }

  predicate NoneFails(plans: seq<Plan>, world: World) { forall i :: 0 <= i < |plans| ==> !PlanFails(plans[i], world) }

  predicate Mentions(plans: seq<Plan>, name: string) {
    exists i :: 0 <= i < |plans| && OwnName(plans[i].allocation) == name
  }

  /** The plans made the calls that are due, and no others. */
  predicate CarriedOut(before: Store, after: Store, plans: seq<Plan>, world: World) {
    && after.applied == before.applied + HandedNames(plans, world)
    && after.migrated == before.migrated + SeenNames(plans, world)
    && SameCounts(before, after)
  }

  lemma OneMoreCarriedOut(before: Store, mid: Store, after: Store, plans: seq<Plan>, world: World)
    requires plans != [] && CarriedOut(before, mid, plans[..|plans| - 1], world)
    requires CallsMade(mid, after, plans[|plans| - 1], world)
    ensures CarriedOut(before, after, plans, world)
  {
  }

  /** Plans of which at most the last one fails are all carried out. */
  lemma {:induction false} PlansInTurn(store: Store, listed: seq<WorkloadStatus>, plans: seq<Plan>, world: World)
    requires plans != [] ==> NoneFails(plans[..|plans| - 1], world)
    ensures CarriedOut(store, ApplyPlansIn(store, listed, plans, world).store, plans, world)
  {
    if plans != [] {
      var front := plans[..|plans| - 1];
      PlansInTurn(store, listed, front, world);
      OkUnlessOneFails(store, listed, front, world);
      var mid := ApplyPlansIn(store, listed, front, world).store;
      PlanCalls(mid, listed, plans[|plans| - 1], world);
      OneMoreCarriedOut(store, mid, ApplyPlansIn(store, listed, plans, world).store, plans, world);
    }
  }

  /** No entry changes but those of the plans' own workloads. */
  lemma {:induction false} PlansLeave(store: Store, listed: seq<WorkloadStatus>, plans: seq<Plan>, name: string,
                                      world: World)
    requires store.statuses == listed && !Mentions(plans, name)
    ensures AsListed(ApplyPlansIn(store, listed, plans, world).store, listed, name)
  {
    if plans != [] {
      var front, p := plans[..|plans| - 1], plans[|plans| - 1];
      MentionsSplit(plans, name);
      PlansLeave(store, listed, front, name, world);
      PlanLeaves(ApplyPlansIn(store, listed, front, world).store, listed, p, name, world);
    }
  }

  lemma MentionsSplit(plans: seq<Plan>, name: string)
    requires plans != [] && !Mentions(plans, name)
    ensures !Mentions(plans[..|plans| - 1], name) && OwnName(plans[|plans| - 1].allocation) != name
  {
    forall i | 0 <= i < |plans| ensures OwnName(plans[i].allocation) != name {}
  }

  // ---- The whole pass ------------------------------------------------------

  /** A pass succeeds exactly if both status writes succeed and no plan fails. */
  lemma PassOkExactly(node: Node, l: NodeLedger, now: ZoneClock, world: World)
    ensures PassIn(node, l, now, world).ok <==>
            world.sync == Synced && world.refresh == Synced && NoneFails(PassPlans(node, l, now), world)
  {
    OkUnlessOneFails(SyncIn(Opening(l), world.sync, Listed(l)).store, l.statuses, PassPlans(node, l, now), world);
  }

  lemma {:induction false} OkUnlessOneFails(store: Store, listed: seq<WorkloadStatus>, plans: seq<Plan>, world: World)
    ensures ApplyPlansIn(store, listed, plans, world).ok <==> NoneFails(plans, world)
  {
    if plans != [] {
      var front, p := plans[..|plans| - 1], plans[|plans| - 1];
      OkUnlessOneFails(store, listed, front, world);
      PlanCalls(ApplyPlansIn(store, listed, front, world).store, listed, p, world);
      if NoneFails(front, world) && !PlanFails(p, world) {
        forall i | 0 <= i < |plans| ensures !PlanFails(plans[i],
            world) { if i < |front| { assert front[i] == plans[i]; } }
      }
      if NoneFails(plans, world) {
        forall i | 0 <= i < |front| ensures !PlanFails(front[i], world) { assert front[i] == plans[i]; }
      }
    }
  }

  /** Plan `k` is the first to fail. */
  predicate FailsFirst(plans: seq<Plan>, world: World, k: nat) {
    k < |plans| && PlanFails(plans[k], world) && NoneFails(plans[..k], world)
  }

  /** The workload is recorded with this phase. */
  predicate LeftAs(store: Store, p: Plan, phase: string) {
    var e := Lookup(store.statuses, OwnName(p.allocation));
    e.Some? && IsEntry(e.value, p, phase)
  }

  /** The loop ends with the first failure; the plans up to it are carried out and nothing else is touched. */
  lemma PlansStop(store: Store, listed: seq<WorkloadStatus>, plans: seq<Plan>, world: World, k: nat)
    requires store.statuses == listed && FailsFirst(plans, world, k)
    ensures var after := ApplyPlansIn(store, listed, plans, world);
            && !after.ok && CarriedOut(store, after.store, plans[..k + 1], world)
            && (forall name :: !Mentions(plans[..k + 1], name) ==> AsListed(after.store, listed, name))
            && (OwnUpdates(listed, OwnName(plans[k].allocation)) && LastWritten(plans[k], world).Some? ==>
                  LeftAs(after.store, plans[k], LastWritten(plans[k], world).value))
  {
    var first := plans[..k + 1];
    assert first[..k] == plans[..k] && first[k] == plans[k];
    PlansInTurn(store, listed, first, world);
    OkUnlessOneFails(store, listed, first[..k], world);
    var before := ApplyPlansIn(store, listed, first[..k], world);
    PlanCalls(before.store, listed, plans[k], world);
    StoppedStays(store, listed, plans, world, k + 1);
    forall name | !Mentions(first, name)
      ensures AsListed(ApplyPlansIn(store, listed, first, world).store, listed, name)
    {
      PlansLeave(store, listed, first, name, world);
    }
    if OwnUpdates(listed, OwnName(plans[k].allocation)) { PlanRecords(before.store, listed, plans[k], world); }
  }

  /** How a pass over `plans` ends that stops with an error at plan `k`. */
  ghost predicate StoppedAt(pass: Attempt, l: NodeLedger, plans: seq<Plan>, world: World, k: nat)
    requires k < |plans|
  {
    && !pass.ok
    && pass.store.applied == HandedNames(plans[..k + 1], world)
    && pass.store.migrated == SeenNames(plans[..k + 1], world)
    && pass.store.snapshots == 1 && pass.store.nodeWrites == 1 && pass.store.shown == Some(Listed(l))
    && (forall name :: !Mentions(plans[..k + 1], name) ==> AsListed(pass.store, l.statuses, name))
    && (OwnUpdates(l.statuses, OwnName(plans[k].allocation)) && LastWritten(plans[k], world).Some? ==>
          LeftAs(pass.store, plans[k], LastWritten(plans[k], world).value))
  }

  lemma StoppedFrom(store: Store, l: NodeLedger, plans: seq<Plan>, world: World, k: nat)
    requires store == Counting(Opening(l), 1, 1, Some(Listed(l))) && FailsFirst(plans, world, k)
    ensures StoppedAt(ApplyPlansIn(store, l.statuses, plans, world), l, plans, world, k)
  {
    PlansStop(store, l.statuses, plans, world, k);
  }

  /**
    The first failure ends the pass with an error. Everything up to it was
    carried out, nothing after it: no later workload is handed over or
    migrated, no entry of a workload that has not had its turn changes, and
    the node's status stays as it was written before the first plan.
  */
  lemma PassStopsAtFirstFailure(node: Node, l: NodeLedger, now: ZoneClock, world: World, k: nat)
    requires world.sync == Synced && FailsFirst(PassPlans(node, l, now), world, k)
    ensures StoppedAt(PassIn(node, l, now, world), l, PassPlans(node, l, now), world, k)
  {
    var plans, synced := PassPlans(node, l, now), SyncIn(Opening(l), world.sync, Listed(l));
    StoppedFrom(synced.store, l, plans, world, k);
  }

  /**
    What each kind of failure leaves of the workload the pass stopped at: a
    refusing backend leaves it Failed, a refused update leaves the phase
    before, and a broken migration leaves it Migrating, where those updates
    were written.
  */
  lemma FailedPlanLeftAs(pass: Attempt, l: NodeLedger, plans: seq<Plan>, world: World, k: nat)
    requires k < |plans| && PlanFails(plans[k], world) && StoppedAt(pass, l, plans, world, k)
    requires OwnUpdates(l.statuses, OwnName(plans[k].allocation))
    ensures var p, store := plans[k], pass.store;
            && (HandedOver(p, world) && !world.apply(OwnName(p.allocation)) && IsWritten(p, "Failed", world) ==>
                  LeftAs(store, p, "Failed"))
            && (HandedOver(p, world) && world.apply(OwnName(p.allocation)) && IsWritten(p, "Applying", world) ==>
                  LeftAs(store, p, "Applying"))
            && (Accepted(p) && IsRefused(p, "Applying", world) && IsWritten(p, "PendingApply", world) ==>
                  LeftAs(store, p, "PendingApply"))
            && (Evicted(p) && p.allocation.status.phase != "Migrating" && IsWritten(p, "Migrating", world) ==>
                  LeftAs(store, p, "Migrating"))
  {
    FailureWords(plans[k], world);
  }

  lemma FailureWords(p: Plan, world: World)
    requires PlanFails(p, world)
    ensures HandedOver(p, world) && !world.apply(OwnName(p.allocation)) && IsWritten(p, "Failed", world) ==>
            LastWritten(p, world) == Some("Failed")
    ensures HandedOver(p, world) && world.apply(OwnName(p.allocation)) && IsWritten(p, "Applying", world) ==>
            LastWritten(p, world) == Some("Applying")
    ensures Accepted(p) && IsRefused(p, "Applying", world) && IsWritten(p, "PendingApply", world) ==>
            LastWritten(p, world) == Some("PendingApply")
    ensures Evicted(p) && p.allocation.status.phase != "Migrating" && IsWritten(p, "Migrating", world) ==>
            LastWritten(p, world) == Some("Migrating")
  {
  }

  /** Without the first status write nothing is done: no call is made and nothing recorded. */
  lemma SyncFailureStopsPass(node: Node, l: NodeLedger, now: ZoneClock, world: World)
    requires world.sync != Synced
    ensures PassIn(node, l, now, world) == Attempt(Opening(l).(snapshots := 1), false)
  {
  }

  /** The refreshed status shows exactly the applied allocations, as often as they are listed. */
  lemma {:induction false} RefreshShowsApplied(s: seq<Allocation>, a: Allocation)
    ensures multiset(AppliedOnly(s))[a] == if a.status.phase == "Applied" then multiset(s)[a] else 0
  {
    if s != [] {
      RefreshShowsApplied(s[..|s| - 1], a);
      assert s == s[..|s| - 1] + [s[|s| - 1]];
    }
  }

  /** A pass in which no plan fails carries all of them out and takes a second snapshot. */
  lemma PassCompletes(node: Node, l: NodeLedger, now: ZoneClock, world: World)
    requires world.sync == Synced && NoneFails(PassPlans(node, l, now), world)
    ensures CompletedAs(PassIn(node, l, now, world).store, PassPlans(node, l, now), world)
  {
    var plans, store := PassPlans(node, l, now), SyncIn(Opening(l), world.sync, Listed(l)).store;
    OkUnlessOneFails(store, l.statuses, plans, world);
    CompletedFrom(store, l, plans, world);
  }

  predicate CompletedAs(store: Store, plans: seq<Plan>, world: World) {
    && store.applied == HandedNames(plans, world) && store.migrated == SeenNames(plans, world)
    && store.snapshots == 2 && store.nodeWrites == if world.refresh == Synced then 2 else 1
  }

  lemma CompletedFrom(store: Store, l: NodeLedger, plans: seq<Plan>, world: World)
    requires store == Counting(Opening(l), 1, 1, Some(Listed(l))) && NoneFails(plans, world)
    ensures forall residents ::
              CompletedAs(SyncIn(ApplyPlansIn(store, l.statuses, plans, world).store, world.refresh, residents).store,
                          plans, world)
  {
    PlansInTurn(store, l.statuses, plans, world);
  }
}
