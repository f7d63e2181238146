/**
  The whole loop between agent and scheduler: a pass, the status it leaves, an
  admission against that status, a reservation, and the next pass. And the
  agent's record of a release, traced back to the migration protocol.
*/
module Loop {
  import opened Text
  import opened Windows
  import opened Allocations
  import opened Ordering
  import opened Observation
  import opened Planner
  import opened PlannerProofs
  import opened Forecast
  import opened Envelope
  import opened Handover
  import opened StatusLedger
  import opened Reconcile
  import opened ReconcileProofs
  import Migration

  // ---- From one pass to the next -------------------------------------------

  /** The ledger once Reserve has added a workload of a new name. */
  function WithWorkload(l: NodeLedger, w: WorkloadSpec): NodeLedger { l.(workloads := l.workloads + [w]) }

  lemma {:induction false} ExpansionIgnoresOthers(l: NodeLedger, m: NodeLedger, workloads: seq<WorkloadSpec>)
    requires m == l.(workloads := m.workloads)
    ensures ExpandPart(l, workloads) == ExpandPart(m, workloads)
  {
    if workloads != [] { ExpansionIgnoresOthers(l, m, workloads[..|workloads| - 1]); }
  }

  /** A reservation adds one allocation to what the next pass lists, and changes nothing else. */
  lemma ReservationIsListed(m: NodeLedger, w: WorkloadSpec)
    requires Serving(m)
    ensures Listed(WithWorkload(m, w)) == Listed(m) + [ExpandOne(m, w)]
  {
    var l := WithWorkload(m, w);
    ExpansionIgnoresOthers(l, m, m.workloads);
    assert l.workloads[..|l.workloads| - 1] == m.workloads;
  }

  /** The entry Reserve writes: windows, request and priority are the profile's. */
  predicate SpecFor(w: WorkloadSpec, p: Profile) {
    w.windows == p.windows && w.request == p.request && w.priority == p.priority
  }

  /** What the two sides must agree on, apart from what the passes themselves establish. */
  ghost predicate Agreed(p: Profile, newcomer: Allocation, residents: seq<Allocation>, now: ZoneClock, hour: nat)
    requires hour < HOURS
  {
    var all := residents + [newcomer];
    && AllWellFormed(all) && Canonical(all) && AllWithinHour(all, now, hour)
    && (forall i :: 0 <= i < |all| ==> RankAgrees(all[i]))
    && newcomer.request.Some? && newcomer.request.value.required.Some? && ReadAlike(p.windows)
    && LoadRepresentable(p, residents, hour)
    && (forall i :: 0 <= i < |residents| ==> KeepsToBucket(all, newcomer, residents[i], now))
  }

  lemma AgreedSuffices(p: Profile, newcomer: Allocation, residents: seq<Allocation>, now: ZoneClock, hour: nat)
    requires hour < HOURS && Agreed(p, newcomer, residents, now, hour) && AllRecorded(residents)
             && EntryFor(newcomer, p)
    ensures HandoverSetting(p, newcomer, residents, residents, now, hour)
  {
    var all := residents + [newcomer];
    forall i | 0 <= i < |residents| ensures WellFormed(residents[i]) { assert all[i] == residents[i]; }
  }

  /** The ledger after a pass in `world`. */
  function Later(node: Node, l: NodeLedger, now: ZoneClock, world: World): NodeLedger {
    WithStatus(l, PassIn(node, l, now, world).store)
  }

  lemma FirstPass(node: Node, l: NodeLedger, now: ZoneClock, world: World)
    requires Serving(l) && l.statuses == [] && DistinctSpecs(l.workloads) && AllAccepted(PassPlans(node, l, now))
             && Calm(world)
    ensures var m := Later(node, l, now, world);
            && Serving(m) && AllRecorded(Listed(m)) && PassIn(node, l, now, world).store.shown == Some(Listed(m))
  {
    AcceptedMeansNoRelease(PassPlans(node, l, now), world);
    CalmPass(node, l, now, world);
    PassEstablishesRecorded(node, l, now);
    SecondPassPlans(node, l, now);
  }

  /**
    The loop closed: after a first pass that accepts everything, a workload
    that the envelope admits against the status this pass left, and that
    Reserve then adds to the ledger, is planned and not rejected by the next
    pass, at any whole hour, or at any minute for whole-hour windows.
  */
  lemma AdmittedAfterPassIsNotRejected(node: Node, l: NodeLedger, w: WorkloadSpec, p: Profile, status: NodeStatus,
                                       world: World,
                                       first: ZoneClock, next: ZoneClock, hour: nat, i: nat)
    requires Serving(l) && l.statuses == [] && DistinctSpecs(l.workloads) && AllAccepted(PassPlans(node, l, first))
             && Calm(world)
    requires hour < HOURS && Int32Node(node) && SpecFor(w, p)
    requires PassIn(node, l, first, world).store.shown.Some?
    requires Publishes(status, node, PassIn(node, l, first, world).store.shown.value)
    requires EnvelopeApplies(p, status) && Admits(p, status)
    requires var m := Later(node, l, first, world); Agreed(p, ExpandOne(m, w), Listed(m), next, hour)
    requires var l2 := WithWorkload(Later(node, l, first, world), w);
             i < |Listed(l2)| && Order(Listed(l2), next)[i] == ExpandOne(l2, w)
    ensures var l2 := WithWorkload(Later(node, l, first, world), w);
            && |PassPlans(node, l2, next)| == |l.workloads| + 1
            && PassPlans(node, l2, next)[i].allocation == ExpandOne(l2, w)
            && PassPlans(node, l2, next)[i].tier != RejectedTier
  {
    var m := Later(node, l, first, world);
    FirstPass(node, l, first, world);
    ReservationIsListed(m, w);
    AgreedSuffices(p, ExpandOne(m, w), Listed(m), next, hour);
    AdmittedIsNotRejected(p, status, node, Listed(m), Listed(m), ExpandOne(m, w), next, hour, i);
  }

  // ---- Recorded releases are warranted -------------------------------------

  /** The world reports a migration as finished only when its worker is about to record the release. */
  ghost predicate Follows(world: World, st: Migration.State, workerOf: string -> nat) {
    forall name :: world.migrate(name) == Finished ==>
      workerOf(name) < |st.workers| && st.workers[workerOf(name)].pc.Releasing?
  }

  /**
    A release that a pass records anew rests on the migration protocol, over
    all its runs: the source was found gone, or a running replacement was seen
    and the source deleted or found terminating, in the same pass of the
    protocol.
  */
  lemma ReleasesAreWarranted(node: Node, l: NodeLedger, now: ZoneClock, world: World, e: WorkloadStatus,
                             start: Migration.State, steps: seq<Migration.Step>, workerOf: string -> nat)
    requires e in PassIn(node, l, now, world).store.statuses && e.phase == "Released" && e !in l.statuses
    requires Migration.Fresh(start) && Follows(world, Migration.Run(start, steps), workerOf)
    ensures e.name in PassIn(node, l, now, world).store.migrated
    ensures var st, i := Migration.Run(start, steps), workerOf(e.name);
            && i < |st.workers| && st.workers[i].pc.Releasing?
            && Migration.Warranted(st.log, i, st.workers[i].pass, st.workers[i].pc.why)
  {
    RecordsAreEarned(node, l, now, world, e);
    Migration.FreshInv(start);
    Migration.RunKeepsInv(start, steps);
    var st, i := Migration.Run(start, steps), workerOf(e.name);
    assert Migration.Grounded(st.log, i, st.workers[i]);
  }
}
