/**
  The replacement-pod migration protocol of the node agent, as a state machine
  over its API calls: any number of migrations, interleaved with one another,
  with failing calls and with everything the rest of the cluster does to pods.
*/
module Migration {
  import opened Text
  import opened Names

  datatype PodPhase = Pending | Running | Succeeded | Failed

  datatype Pod = Pod(uid: nat, phase: PodPhase, deleting: bool)

  /** What is recorded in the allocation's status. */
  datatype Recorded = Planned | Migrating | Released

  /**
    Why a release is recorded: the source is gone, was already terminating, or was
    deleted (`hit` is the pod the delete met).
  */
  datatype Why =
    | SourceGone
    | AlreadyTerminating(source: nat, replacement: nat)
    | SourceDeleted(source: nat, replacement: nat, hit: Option<nat>)

  /** The agent's position inside one pass; pods are as it last read them. */
  datatype Pc =
    | Idle
    | Started
    | Marked
    | Looking(source: Pod)
    | Creating(source: Pod)
    | Rereading(source: Pod)
    | Inspecting(source: Pod, replacement: Pod)
    | Deleting(source: Pod, replacement: Pod)
    | Releasing(why: Why)

  datatype Worker = Worker(source: string, replacement: string, recorded: Recorded, pc: Pc, pass: nat)

  /** What happened, in order. Agent events carry the worker and its pass; they are never read by a step. */
  datatype Event =
    | FoundNoSource(worker: nat, pass: nat)
    | FoundSource(worker: nat, pass: nat, uid: nat, terminating: bool)
    | SawRunning(worker: nat, pass: nat, uid: nat)
    | DeletedSource(worker: nat, pass: nat, source: nat, replacement: nat, hit: Option<nat>)
    | RecordedRelease(worker: nat, pass: nat, why: Why)
    | AgentCreated(name: string)
    | OthersCreated(name: string)
    | PodRemoved(name: string)

  /** `names` maps every uid ever given out to the pod's name. */
  datatype State = State(pods: map<string, Pod>, names: seq<string>, workers: seq<Worker>, log: seq<Event>)

  /** An API call is answered, is refused, or takes effect while its answer is lost. */
  datatype Reply = Answered | Refused | AnswerLost

  datatype Step =
    | Begin(worker: nat)
    | Call(worker: nat, reply: Reply)
    | Replan(worker: nat)
    | CreateByOthers(name: string)
    | ChangePhase(name: string, phase: PodPhase)
    | DeleteByOthers(name: string)
    | RemovePod(name: string)

  // ---- Cluster operations --------------------------------------------------

  function NewPod(st: State, name: string, event: Event): State {
    st.(pods := st.pods[name := Pod(|st.names|, Pending, false)], names := st.names + [name], log := st.log + [event])
  }

  /** A delete only starts a graceful termination. */
  function MarkDeleted(st: State, name: string): State {
    if name in st.pods then st.(pods := st.pods[name := st.pods[name].(deleting := true)]) else st
  }

  function Logged(st: State, e: Event): State { st.(log := st.log + [e]) }

  function At(st: State, i: nat, pc: Pc): State
    requires i < |st.workers|
  {
    st.(workers := st.workers[i := st.workers[i].(pc := pc)])
  }

  function Record(st: State, i: nat, recorded: Recorded): State
    requires i < |st.workers|
  {
    st.(workers := st.workers[i := st.workers[i].(recorded := recorded)])
  }

  // ---- One pass of handleMigrationPlan -------------------------------------

  function MarkMigrating(st: State, i: nat): State
    requires i < |st.workers|
  {
    if st.workers[i].recorded == Migrating then st else Record(st, i, Migrating)
  }

  function GetSource(st: State, i: nat): State
    requires i < |st.workers|
  {
    var w := st.workers[i];
    if w.source !in st.pods then At(Logged(st, FoundNoSource(i, w.pass)), i, Releasing(SourceGone))
    else
      var pod := st.pods[w.source];
      At(Logged(st, FoundSource(i, w.pass, pod.uid, pod.deleting)), i, Looking(pod))
  }

  /** The read of the replacement; `absent` is where the pass goes when there is none. */
  function GetReplacement(st: State, i: nat, source: Pod, absent: Pc): State
    requires i < |st.workers|
  {
    var w := st.workers[i];
    if w.replacement !in st.pods then At(st, i, absent)
    else
      var pod := st.pods[w.replacement];
      At(if pod.phase == Running then Logged(st, SawRunning(i, w.pass, pod.uid)) else st, i, Inspecting(source, pod))
  }

  /** AlreadyExists counts as success. */
  function CreateReplacement(st: State, i: nat): State
    requires i < |st.workers|
  {
    var name := st.workers[i].replacement;
    if name in st.pods then st else NewPod(st, name, AgentCreated(name))
  }

  function Inspect(st: State, i: nat, source: Pod, replacement: Pod): State
    requires i < |st.workers|
  {
    if replacement.phase != Running then At(st, i, Idle)
    else if source.deleting then At(st, i, Releasing(AlreadyTerminating(source.uid, replacement.uid)))
    else At(st, i, Deleting(source, replacement))
  }

  /** The pod that a delete of the source's name meets now, if any. */
  function Hit(st: State, i: nat): Option<nat>
    requires i < |st.workers|
  {
    var name := st.workers[i].source;
    if name in st.pods then Some(st.pods[name].uid) else None
  }

  /** The delete goes by name, without a precondition; NotFound counts as success. */
  function DeleteSource(st: State, i: nat, source: Pod, replacement: Pod): State
    requires i < |st.workers|
  {
    var w := st.workers[i];
    Logged(MarkDeleted(st, w.source), DeletedSource(i, w.pass, source.uid, replacement.uid, Hit(st, i)))
  }

  function RecordRelease(st: State, i: nat, why: Why): State
    requires i < |st.workers|
  {
    Logged(Record(st, i, Released), RecordedRelease(i, st.workers[i].pass, why))
  }

  /** What the worker's next call does to the cluster and, if it is answered, to the worker. */
  function Effect(st: State, i: nat): State
    requires i < |st.workers|
  {
    match st.workers[i].pc
    case Idle => st
    case Started => At(MarkMigrating(st, i), i, Marked)
    case Marked => GetSource(st, i)
    case Looking(source) => GetReplacement(st, i, source, Creating(source))
    case Creating(source) => At(CreateReplacement(st, i), i, Rereading(source))
    case Rereading(source) => GetReplacement(st, i, source, Idle)
    case Inspecting(source, replacement) => Inspect(st, i, source, replacement)
    case Deleting(source, replacement) =>
      At(DeleteSource(st, i, source, replacement), i, Releasing(SourceDeleted(source.uid, replacement.uid, Hit(st, i))))
    case Releasing(why) => At(RecordRelease(st, i, why), i, Idle)
  }

  /** Any error ends the pass; the next one starts over. */
  function CallStep(st: State, i: nat, reply: Reply): State
    requires i < |st.workers|
  {
    match reply
    case Answered => Effect(st, i)
    case Refused => At(st, i, Idle)
    case AnswerLost => At(Effect(st, i), i, Idle)
  }

  /** A released ledger is no longer listed, so it gets no further pass. */
  function Next(st: State, step: Step): State {
    match step
    case Begin(i) =>
      if i < |st.workers| && st.workers[i].pc == Idle && st.workers[i].recorded != Released
      then st.(workers := st.workers[i := st.workers[i].(pc := Started, pass := st.workers[i].pass + 1)]) else st
    case Call(i, reply) => if i < |st.workers| && st.workers[i].pc != Idle then CallStep(st, i, reply) else st
    case Replan(i) =>
      if i < |st.workers| && st.workers[i].pc == Idle && st.workers[i].recorded != Released
      then Record(st, i, Planned) else st
    case CreateByOthers(name) => if name in st.pods then st else NewPod(st, name, OthersCreated(name))
    case ChangePhase(name, phase) =>
      if name in st.pods then st.(pods := st.pods[name := st.pods[name].(phase := phase)]) else st
    case DeleteByOthers(name) => MarkDeleted(st, name)
    case RemovePod(name) => if name in st.pods then Logged(st.(pods := st.pods - {name}), PodRemoved(name)) else st
  }

  function Run(st: State, steps: seq<Step>): State {
    if steps == [] then st else Next(Run(st, steps[..|steps| - 1]), steps[|steps| - 1])
  }

  /** Before anything happened: no pods, nobody inside a pass. */
  predicate Fresh(st: State) {
    st.pods == map[] && st.names == [] && st.log == [] && forall i :: 0 <= i < |st.workers| ==> st.workers[i].pc == Idle
  }

  // ---- Every event is justified by earlier ones ----------------------------

  /** What must have happened before a release of this kind. */
  predicate Warranted(before: seq<Event>, i: nat, pass: nat, why: Why) {
    match why
    case SourceGone => FoundNoSource(i, pass) in before
    case AlreadyTerminating(source, replacement) =>
      SawRunning(i, pass, replacement) in before && FoundSource(i, pass, source, true) in before
    case SourceDeleted(source, replacement, hit) =>
      SawRunning(i, pass, replacement) in before && DeletedSource(i, pass, source, replacement, hit) in before
  }

  predicate Justified(before: seq<Event>, e: Event) {
    match e
    case DeletedSource(i, pass, source, replacement, _) =>
      SawRunning(i, pass, replacement) in before && FoundSource(i, pass, source, false) in before
    case RecordedRelease(i, pass, why) => Warranted(before, i, pass, why)
    case _ => true
  }

  predicate AllJustified(log: seq<Event>) { forall k :: 0 <= k < |log| ==> Justified(log[..k], log[k]) }

  /** Where a worker stands, the log already holds what it relies on. */
  predicate Grounded(log: seq<Event>, i: nat, w: Worker) {
    match w.pc
    case Idle => true
    case Started => true
    case Marked => true
    case Looking(source) => FoundSource(i, w.pass, source.uid, source.deleting) in log
    case Creating(source) => FoundSource(i, w.pass, source.uid, source.deleting) in log
    case Rereading(source) => FoundSource(i, w.pass, source.uid, source.deleting) in log
    case Inspecting(source, replacement) =>
      FoundSource(i, w.pass, source.uid, source.deleting) in log
          && (replacement.phase == Running ==> SawRunning(i, w.pass, replacement.uid) in log)
    case Deleting(source, replacement) =>
      !source.deleting && FoundSource(i, w.pass, source.uid, false) in log
          && SawRunning(i, w.pass, replacement.uid) in log
    case Releasing(why) => Warranted(log, i, w.pass, why)
  }

  predicate AllGrounded(st: State) { forall i :: 0 <= i < |st.workers| ==> Grounded(st.log, i, st.workers[i]) }

  /** The uids in agent events belong to the pods the worker is about. */
  predicate Truthful(st: State, e: Event) {
    match e
    case FoundSource(i, _, uid, _) => i < |st.workers| && uid < |st.names| && st.names[uid] == st.workers[i].source
    case SawRunning(i, _, uid) => i < |st.workers| && uid < |st.names| && st.names[uid] == st.workers[i].replacement
    case DeletedSource(i, _, _, _, hit) =>
      i < |st.workers| && (hit.Some? ==> hit.value < |st.names| && st.names[hit.value] == st.workers[i].source)
    case _ => true
  }

  predicate AllTruthful(st: State) { forall k :: 0 <= k < |st.log| ==> Truthful(st, st.log[k]) }

  predicate UidsSound(st: State) {
    forall n :: n in st.pods ==> st.pods[n].uid < |st.names| && st.names[st.pods[n].uid] == n
  }

  predicate Inv(st: State) { AllJustified(st.log) && AllGrounded(st) && AllTruthful(st) && UidsSound(st) }

  /** The log only grows, by at most one event. */
  predicate Grows(log: seq<Event>, next: seq<Event>) {
    next == log || (|next| == |log| + 1 && next[..|log|] == log)
  }

  /** A step changes one worker at most, keeps names and extends the registry. */
  predicate Frame(st: State, next: State, i: nat) {
    && |next.workers| == |st.workers|
    && (forall j :: 0 <= j < |st.workers| && j != i ==> next.workers[j] == st.workers[j])
    && (forall j :: 0 <= j < |st.workers| ==>
          next.workers[j].source == st.workers[j].source && next.workers[j].replacement == st.workers[j].replacement)
    && |st.names| <= |next.names| && next.names[..|st.names|] == st.names
    && Grows(st.log, next.log)
  }

  function Mover(step: Step): nat {
    match step
    case Begin(i) => i
    case Call(i, _) => i
    case Replan(i) => i
    case _ => 0
  }

  /** A step of worker `i` that keeps the frame, whose event is justified and truthful, and that leaves `i` grounded. */
  predicate Sound(st: State, next: State, i: nat) {
    && Frame(st, next, i)
    && UidsSound(next)
    && (|next.log| > |st.log| ==> Justified(st.log, next.log[|st.log|]) && Truthful(next, next.log[|st.log|]))
    && (i < |next.workers| ==> Grounded(next.log, i, next.workers[i]))
  }

  predicate Ready(st: State, i: nat) { i < |st.workers| && UidsSound(st) && Grounded(st.log, i, st.workers[i]) }

  lemma MarkSound(st: State, i: nat)
    requires Ready(st, i)
    ensures Sound(st, At(MarkMigrating(st, i), i, Marked), i)
  {
  }

  lemma GetSourceSound(st: State, i: nat)
    requires Ready(st, i)
    ensures Sound(st, GetSource(st, i), i)
  {
  }

  lemma GetReplacementSound(st: State, i: nat, source: Pod, absent: Pc)
    requires Ready(st, i) && FoundSource(i, st.workers[i].pass, source.uid, source.deleting) in st.log
    requires absent == Idle || absent == Creating(source)
    ensures Sound(st, GetReplacement(st, i, source, absent), i)
  {
  }

  lemma CreateSound(st: State, i: nat, source: Pod)
    requires Ready(st, i) && FoundSource(i, st.workers[i].pass, source.uid, source.deleting) in st.log
    ensures Sound(st, At(CreateReplacement(st, i), i, Rereading(source)), i)
  {
    NewPodKeepsUids(st, st.workers[i].replacement, AgentCreated(st.workers[i].replacement));
  }

  lemma NewPodKeepsUids(st: State, name: string, e: Event)
    requires UidsSound(st)
    ensures UidsSound(NewPod(st, name, e))
  {
  }

  lemma InspectSound(st: State, i: nat, source: Pod, replacement: Pod)
    requires Ready(st, i) && st.workers[i].pc == Inspecting(source, replacement)
    ensures Sound(st, Inspect(st, i, source, replacement), i)
  {
  }

  lemma DeleteSound(st: State, i: nat, source: Pod, replacement: Pod)
    requires Ready(st, i) && st.workers[i].pc == Deleting(source, replacement)
    ensures Sound(st, At(DeleteSource(st, i, source, replacement), i,
            Releasing(SourceDeleted(source.uid, replacement.uid, Hit(st, i)))), i)
  {
    assert UidsSound(MarkDeleted(st, st.workers[i].source));
    var e := DeletedSource(i, st.workers[i].pass, source.uid, replacement.uid, Hit(st, i));
    assert e in st.log + [e];
    forall x | x in st.log ensures x in st.log + [e] {}
  }

  lemma ReleaseSound(st: State, i: nat, why: Why)
    requires Ready(st, i) && st.workers[i].pc == Releasing(why)
    ensures Sound(st, At(RecordRelease(st, i, why), i, Idle), i)
  {
  }

  lemma EffectSound(st: State, i: nat)
    requires Ready(st, i)
    ensures Sound(st, Effect(st, i), i)
  {
    match st.workers[i].pc
    case Idle =>
    case Started => MarkSound(st, i);
    case Marked => GetSourceSound(st, i);
    case Looking(source) => GetReplacementSound(st, i, source, Creating(source));
    case Creating(source) => CreateSound(st, i, source);
    case Rereading(source) => GetReplacementSound(st, i, source, Idle);
    case Inspecting(source, replacement) => InspectSound(st, i, source, replacement);
    case Deleting(source, replacement) => DeleteSound(st, i, source, replacement);
    case Releasing(why) => ReleaseSound(st, i, why);
  }

  /** Ending the pass early is always sound. */
  lemma AbortSound(st: State, next: State, i: nat)
    requires i < |st.workers| && Sound(st, next, i)
    ensures Sound(st, At(next, i, Idle), i)
  {
  }

  lemma OthersSound(st: State, step: Step)
    requires !step.Call? && (Mover(step) < |st.workers| ==> Ready(st, Mover(step))) && UidsSound(st)
    ensures Sound(st, Next(st, step), Mover(step))
  {
    var next := Next(st, step);
    if step.CreateByOthers? { NewPodKeepsUids(st, step.name, OthersCreated(step.name)); }
    if Mover(step) < |st.workers| { GroundedGrows(st.log, next.log, Mover(step), st.workers[Mover(step)]); }
  }

  lemma StepSound(st: State, step: Step)
    requires Inv(st)
    ensures Sound(st, Next(st, step), Mover(step))
  {
    var i := Mover(step);
    if step.Call? && i < |st.workers| && st.workers[i].pc != Idle {
      EffectSound(st, i);
      AbortSound(st, st, i);
      AbortSound(st, Effect(st, i), i);
    } else if !step.Call? {
      OthersSound(st, step);
    }
  }

  lemma GroundedGrows(log: seq<Event>, next: seq<Event>, i: nat, w: Worker)
    requires Grows(log, next) && Grounded(log, i, w)
    ensures Grounded(next, i, w)
  {
    forall e | e in log ensures e in next { assert e in next[..|log|]; }
  }

  lemma JustifiedGrows(log: seq<Event>, next: seq<Event>)
    requires AllJustified(log) && Grows(log, next) && (|next| > |log| ==> Justified(log, next[|log|]))
    ensures AllJustified(next)
  {
    if next != log {
      forall k | 0 <= k < |next| ensures Justified(next[..k], next[k]) {
        if k < |log| {
          assert next[..k] == log[..k] && next[k] == log[k];
        }
      }
    }
  }

  lemma TruthfulGrows(st: State, next: State, i: nat)
    requires AllTruthful(st) && Frame(st, next, i)
    requires |next.log| > |st.log| ==> Truthful(next, next.log[|st.log|])
    ensures AllTruthful(next)
  {
    forall k | 0 <= k < |next.log| ensures Truthful(next, next.log[k]) {
      if k < |st.log| {
        assert next.log[k] == st.log[k];
        assert Truthful(st, st.log[k]);
        assert forall u :: 0 <= u < |st.names| ==> next.names[u] == next.names[..|st.names|][u];
      }
    }
  }

  lemma StepKeepsInv(st: State, step: Step)
    requires Inv(st)
    ensures Inv(Next(st, step))
  {
    var next := Next(st, step);
    StepSound(st, step);
    JustifiedGrows(st.log, next.log);
    TruthfulGrows(st, next, Mover(step));
    forall j | 0 <= j < |next.workers| ensures Grounded(next.log, j, next.workers[j]) {
      if j != Mover(step) { GroundedGrows(st.log, next.log, j, st.workers[j]); }
    }
  }

  lemma {:induction false} RunKeepsInv(st: State, steps: seq<Step>)
    requires Inv(st)
    ensures Inv(Run(st, steps))
  {
    if steps != [] {
      RunKeepsInv(st, steps[..|steps| - 1]);
      StepKeepsInv(Run(st, steps[..|steps| - 1]), steps[|steps| - 1]);
    }
  }

  // ---- The log tells the truth ---------------------------------------------

  /** What an agent event says about the cluster at the moment of the call, before and after. */
  predicate TrueOf(st: State, next: State, i: nat, e: Event)
    requires i < |st.workers| && i < |next.workers|
  {
    var w := st.workers[i];
    match e
    case FoundNoSource(j, pass) => j == i && pass == w.pass && w.source !in st.pods
    case FoundSource(j, pass, uid, terminating) =>
      j == i && pass == w.pass && w.source in st.pods && st.pods[w.source].uid == uid
          && st.pods[w.source].deleting == terminating
    case SawRunning(j, pass, uid) =>
      j == i && pass == w.pass && w.replacement in st.pods && st.pods[w.replacement].uid == uid
          && st.pods[w.replacement].phase == Running
    case DeletedSource(j, pass, _, _, hit) =>
      && j == i && pass == w.pass && hit == Hit(st, i)
      && (hit.Some? ==> w.source in next.pods && next.pods[w.source].uid == hit.value && next.pods[w.source].deleting)
    case RecordedRelease(j, pass, _) => j == i && pass == w.pass && next.workers[i].recorded == Released
    case AgentCreated(name) => name == w.replacement && name !in st.pods && name in next.pods
    case _ => false
  }

  /**
    The call changes existing pods only by a logged deletion of its own source,
    and records Released only with a log entry.
  */
  predicate Accounted(st: State, next: State, i: nat, logged: seq<Event>)
    requires i < |st.workers| && i < |next.workers|
  {
    var w := st.workers[i];
    && (forall n :: n in st.pods ==> n in next.pods && (next.pods[n] != st.pods[n] ==>
          n == w.source && |logged| == 1 && logged[0].DeletedSource? && next.pods[n] == st.pods[n].(deleting := true)))
    && (next.workers[i].recorded == Released && w.recorded != Released ==> |logged| == 1 && logged[0].RecordedRelease?)
  }

  /** What the call appends to the log. */
  predicate Appends(st: State, next: State, logged: seq<Event>) { |logged| <= 1 && next.log == st.log + logged }

  ghost predicate Honest(st: State, next: State, i: nat) {
    && i < |st.workers| && i < |next.workers|
    && exists logged :: Appends(st, next, logged) && Accounted(st, next, i, logged)
         && (logged != [] ==> TrueOf(st, next, i, logged[0]))
  }

  lemma HonestBy(st: State, next: State, i: nat, logged: seq<Event>)
    requires i < |st.workers| && i < |next.workers| && Appends(st, next, logged)
    requires Accounted(st, next, i, logged) && (logged != [] ==> TrueOf(st, next, i, logged[0]))
    ensures Honest(st, next, i)
  {
  }

  lemma ReadsHonest(st: State, i: nat, source: Pod, absent: Pc)
    requires i < |st.workers|
    ensures Honest(st, GetSource(st, i), i) && Honest(st, GetReplacement(st, i, source, absent), i)
  {
    var w := st.workers[i];
    if w.source !in st.pods {
      HonestBy(st, GetSource(st, i), i, [FoundNoSource(i, w.pass)]);
    } else {
      HonestBy(st, GetSource(st, i), i, [FoundSource(i, w.pass, st.pods[w.source].uid, st.pods[w.source].deleting)]);
    }
    var next := GetReplacement(st, i, source, absent);
    if w.replacement in st.pods && st.pods[w.replacement].phase == Running {
      HonestBy(st, next, i, [SawRunning(i, w.pass, st.pods[w.replacement].uid)]);
    } else {
      assert next.log == st.log + [];
      HonestBy(st, next, i, []);
    }
  }

  lemma CreateHonest(st: State, i: nat, source: Pod)
    requires i < |st.workers|
    ensures Honest(st, At(CreateReplacement(st, i), i, Rereading(source)), i)
  {
    var next, name := At(CreateReplacement(st, i), i, Rereading(source)), st.workers[i].replacement;
    if name in st.pods {
      assert next.log == st.log + [];
      HonestBy(st, next, i, []);
    } else {
      HonestBy(st, next, i, [AgentCreated(name)]);
    }
  }

  lemma WritesHonest(st: State, i: nat, source: Pod, replacement: Pod, why: Why)
    requires i < |st.workers|
    ensures Honest(st, At(DeleteSource(st, i, source, replacement), i, Releasing(why)), i)
    ensures Honest(st, At(RecordRelease(st, i, why), i, Idle), i)
  {
    HonestBy(st, At(DeleteSource(st, i, source, replacement), i, Releasing(why)), i,
             [DeletedSource(i, st.workers[i].pass, source.uid, replacement.uid, Hit(st, i))]);
    HonestBy(st, At(RecordRelease(st, i, why), i, Idle), i, [RecordedRelease(i, st.workers[i].pass, why)]);
  }

  lemma QuietHonest(st: State, next: State, i: nat)
    requires i < |st.workers| == |next.workers| && next.pods == st.pods && next.log == st.log
    requires next.workers[i].recorded == Released ==> st.workers[i].recorded == Released
    ensures Honest(st, next, i)
  {
    assert next.log == st.log + [];
    HonestBy(st, next, i, []);
  }

  lemma EffectHonest(st: State, i: nat)
    requires i < |st.workers|
    ensures Honest(st, Effect(st, i), i)
  {
    match st.workers[i].pc
    case Idle => QuietHonest(st, Effect(st, i), i);
    case Started => QuietHonest(st, Effect(st, i), i);
    case Marked => ReadsHonest(st, i, Pod(0, Pending, false), Idle);
    case Looking(source) => ReadsHonest(st, i, source, Creating(source));
    case Creating(source) => CreateHonest(st, i, source);
    case Rereading(source) => ReadsHonest(st, i, source, Idle);
    case Inspecting(source, replacement) => QuietHonest(st, Effect(st, i), i);
    case Deleting(source, replacement) => WritesHonest(st, i, source, replacement,
        SourceDeleted(source.uid, replacement.uid, Hit(st, i)));
    case Releasing(why) => WritesHonest(st, i, Pod(0, Pending, false), Pod(0, Pending, false), why);
  }

  lemma AbortHonest(st: State, next: State, i: nat)
    requires Honest(st, next, i)
    ensures Honest(st, At(next, i, Idle), i)
  {
    var logged :| Appends(st, next, logged) && Accounted(st, next, i, logged)
        && (logged != [] ==> TrueOf(st, next, i, logged[0]));
    HonestBy(st, At(next, i, Idle), i, logged);
  }

  /**
    The log can be trusted: each event of a call says what was so when the
    call was made, and no call touches a pod or records a release without
    saying so, even when its answer is lost.
  */
  lemma CallsAreLoggedTruthfully(st: State, i: nat, reply: Reply)
    requires i < |st.workers|
    ensures Honest(st, CallStep(st, i, reply), i)
  {
    EffectHonest(st, i);
    AbortHonest(st, Effect(st, i), i);
    QuietHonest(st, At(st, i, Idle), i);
  }

  // ---- Safety over all runs ------------------------------------------------

  lemma FreshInv(st: State)
    requires Fresh(st)
    ensures Inv(st)
  {
  }

  /**
    The pods a deletion is about: the source as found and the replacement as
    seen, both in the same pass, and the pod it hits, which carries the
    source's name.
  */
  predicate RestsOn(st: State, k: nat, i: nat, pass: nat, source: nat, replacement: nat, hit: Option<nat>)
    requires k < |st.log|
  {
    && FoundSource(i, pass, source, false) in st.log[..k]
    && SawRunning(i, pass, replacement) in st.log[..k]
    && i < |st.workers| && source < |st.names| && replacement < |st.names|
    && st.names[source] == st.workers[i].source && st.names[replacement] == st.workers[i].replacement
    && (hit.Some? ==> hit.value < |st.names| && st.names[hit.value] == st.workers[i].source)
  }

  lemma TruthfulMember(st: State, k: nat, e: Event)
    requires AllTruthful(st) && k <= |st.log| && e in st.log[..k]
    ensures Truthful(st, e)
  {
    var j :| 0 <= j < k && st.log[j] == e;
  }

  /**
    Migration safety: in every run, a pod is deleted only if it carries the
    name of the worker's source and after the replacement was seen running in
    the same pass, and a release is recorded
    only after the source was found gone, or after a running replacement was
    seen and the source deleted or already found terminating.
  */
  lemma MigrationIsSafe(start: State, steps: seq<Step>, k: nat)
    requires Fresh(start) && k < |Run(start, steps).log|
    ensures var st := Run(start, steps);
            match st.log[k]
            case DeletedSource(i, pass, source, replacement, hit) => RestsOn(st, k, i, pass, source, replacement, hit)
            case RecordedRelease(i, pass, why) => Warranted(st.log[..k], i, pass, why)
            case _ => true
  {
    FreshInv(start);
    RunKeepsInv(start, steps);
    var st := Run(start, steps);
    assert Justified(st.log[..k], st.log[k]);
    match st.log[k]
    case DeletedSource(i, pass, source, replacement, hit) =>
      TruthfulMember(st, k, FoundSource(i, pass, source, false));
      TruthfulMember(st, k, SawRunning(i, pass, replacement));
    case _ =>
  }

  /** Two migrations with different replacement names never lean on the same replacement pod. */
  lemma DeletionsRestOnDistinctReplacements(start: State, steps: seq<Step>, k: nat, m: nat)
    requires Fresh(start) && k < |Run(start, steps).log| && m < |Run(start, steps).log|
    requires var st := Run(start, steps);
             && st.log[k].DeletedSource? && st.log[m].DeletedSource?
             && st.log[k].worker < |st.workers| && st.log[m].worker < |st.workers|
             && st.workers[st.log[k].worker].replacement != st.workers[st.log[m].worker].replacement
    ensures Run(start, steps).log[k].replacement != Run(start, steps).log[m].replacement
  {
    MigrationIsSafe(start, steps, k);
    MigrationIsSafe(start, steps, m);
  }

  // ---- Creations -----------------------------------------------------------

  /** Pods of one name: created ones are either still there or were removed. */
  predicate PodsBalance(st: State, name: string) {
    multiset(st.log)[AgentCreated(name)] + multiset(st.log)[OthersCreated(name)] ==
    multiset(st.log)[PodRemoved(name)] + (if name in st.pods then 1 else 0)
  }

  lemma LoggedCounts(log: seq<Event>, e: Event, x: Event)
    ensures multiset(log + [e])[x] == multiset(log)[x] + (if e == x then 1 else 0)
  {
    assert multiset(log + [e]) == multiset(log) + multiset{e};
  }

  lemma LoggedCountsAll(log: seq<Event>, e: Event, name: string)
    ensures multiset(log + [e])[AgentCreated(name)] == multiset(log)[AgentCreated(name)]
            + (if e == AgentCreated(name) then 1 else 0)
    ensures multiset(log + [e])[OthersCreated(name)] == multiset(log)[OthersCreated(name)]
            + (if e == OthersCreated(name) then 1 else 0)
    ensures multiset(log + [e])[PodRemoved(name)] == multiset(log)[PodRemoved(name)]
            + (if e == PodRemoved(name) then 1 else 0)
  {
    LoggedCounts(log, e, AgentCreated(name));
    LoggedCounts(log, e, OthersCreated(name));
    LoggedCounts(log, e, PodRemoved(name));
  }

  // The three things a step can do to the set of pods.

  /** Pods come and go not at all; an agent event may be logged, and it speaks of pods that are there. */
  ghost predicate KeepsPods(st: State, next: State) {
    && next.pods.Keys == st.pods.Keys && (forall n :: n in st.pods ==> next.pods[n].uid == st.pods[n].uid)
    && next.names == st.names
    && (next.log == st.log || exists e :: AboutAgent(e) && next.log == st.log + [e] && SightingHolds(st, e))
  }

  ghost predicate CreatesPod(st: State, next: State, n: string) {
    && n !in st.pods && next.pods == st.pods[n := Pod(|st.names|, Pending, false)] && next.names == st.names + [n]
    && (next.log == st.log + [AgentCreated(n)] || next.log == st.log + [OthersCreated(n)])
  }

  ghost predicate RemovesPod(st: State, next: State, n: string) {
    n in st.pods && next.pods == st.pods - {n} && next.names == st.names && next.log == st.log + [PodRemoved(n)]
  }

  ghost predicate PodChange(st: State, next: State) {
    KeepsPods(st, next) || (exists n :: CreatesPod(st, next, n)) || (exists n :: RemovesPod(st, next, n))
  }

  predicate AboutAgent(e: Event) { !e.AgentCreated? && !e.OthersCreated? && !e.PodRemoved? }

  /** The pod an event says it saw. */
  function Sighted(e: Event): Option<nat> {
    match e
    case FoundSource(_, _, uid, _) => Some(uid)
    case SawRunning(_, _, uid) => Some(uid)
    case _ => None
  }

  /** The pod with this uid exists. */
  predicate Present(st: State, uid: nat) {
    uid < |st.names| && st.names[uid] in st.pods && st.pods[st.names[uid]].uid == uid
  }

  predicate SightingHolds(st: State, e: Event) { Sighted(e).Some? ==> Present(st, Sighted(e).value) }

  lemma KeepsPodsWith(st: State, next: State, e: Event)
    requires next.pods.Keys == st.pods.Keys && (forall n :: n in st.pods ==> next.pods[n].uid == st.pods[n].uid)
    requires next.names == st.names && next.log == st.log + [e] && AboutAgent(e) && SightingHolds(st, e)
    ensures PodChange(st, next)
  {
  }

  lemma EffectPodChange(st: State, i: nat)
    requires i < |st.workers| && UidsSound(st)
    ensures PodChange(st, Effect(st, i))
  {
    var w, next := st.workers[i], Effect(st, i);
    match w.pc
    case Creating(source) => if w.replacement !in st.pods { assert CreatesPod(st, next, w.replacement); }
    case Deleting(source, replacement) =>
      KeepsPodsWith(st, next, DeletedSource(i, w.pass, source.uid, replacement.uid, Hit(st, i)));
    case Marked =>
      if w.source !in st.pods { KeepsPodsWith(st, next, FoundNoSource(i, w.pass)); }
      else { KeepsPodsWith(st, next, FoundSource(i, w.pass, st.pods[w.source].uid, st.pods[w.source].deleting)); }
    case Releasing(why) => KeepsPodsWith(st, next, RecordedRelease(i, w.pass, why));
    case Looking(source) => ReplacementPodChange(st, i, source, Creating(source));
    case Rereading(source) => ReplacementPodChange(st, i, source, Idle);
    case _ => assert KeepsPods(st, next);
  }

  lemma ReplacementPodChange(st: State, i: nat, source: Pod, absent: Pc)
    requires i < |st.workers| && UidsSound(st)
    ensures PodChange(st, GetReplacement(st, i, source, absent))
  {
    var w, next := st.workers[i], GetReplacement(st, i, source, absent);
    if w.replacement in st.pods && st.pods[w.replacement].phase == Running {
      KeepsPodsWith(st, next, SawRunning(i, w.pass, st.pods[w.replacement].uid));
    } else {
      assert KeepsPods(st, next);
    }
  }

  lemma AbortPodChange(st: State, next: State, i: nat)
    requires i < |next.workers| && PodChange(st, next)
    ensures PodChange(st, At(next, i, Idle))
  {
    if n :| CreatesPod(st, next, n) {
      assert CreatesPod(st, At(next, i, Idle), n);
    } else if n :| RemovesPod(st, next, n) {
      assert RemovesPod(st, At(next, i, Idle), n);
    } else {
      assert KeepsPods(st, At(next, i, Idle));
    }
  }

  lemma CallPodChange(st: State, i: nat, reply: Reply)
    requires i < |st.workers| && UidsSound(st)
    ensures PodChange(st, CallStep(st, i, reply))
  {
    EffectPodChange(st, i);
    AbortPodChange(st, Effect(st, i), i);
    assert KeepsPods(st, At(st, i, Idle));
  }

  lemma OthersPodChange(st: State, name: string, phase: PodPhase)
    ensures PodChange(st, Next(st, CreateByOthers(name))) && PodChange(st, Next(st, RemovePod(name)))
    ensures PodChange(st, Next(st, ChangePhase(name, phase))) && PodChange(st, Next(st, DeleteByOthers(name)))
  {
    if name in st.pods {
      assert KeepsPods(st, Next(st, CreateByOthers(name)));
      assert RemovesPod(st, Next(st, RemovePod(name)), name);
    } else {
      assert CreatesPod(st, Next(st, CreateByOthers(name)), name);
      assert KeepsPods(st, Next(st, RemovePod(name)));
    }
    assert KeepsPods(st, Next(st, ChangePhase(name, phase)));
    assert KeepsPods(st, Next(st, DeleteByOthers(name)));
  }

  lemma StepPodChange(st: State, step: Step)
    requires UidsSound(st)
    ensures PodChange(st, Next(st, step))
  {
    match step
    case Call(i, reply) => if i < |st.workers| { CallPodChange(st, i, reply); }
    case CreateByOthers(name) => OthersPodChange(st, name, Pending);
    case RemovePod(name) => OthersPodChange(st, name, Pending);
    case ChangePhase(name, phase) => OthersPodChange(st, name, phase);
    case DeleteByOthers(name) => OthersPodChange(st, name, Pending);
    case Begin(i) => assert KeepsPods(st, Next(st, step));
    case Replan(i) => assert KeepsPods(st, Next(st, step));
  }

  lemma EventBalance(st: State, next: State, e: Event, name: string)
    requires PodsBalance(st, name) && next.log == st.log + [e]
    requires name in next.pods <==>
             (name in st.pods && e != PodRemoved(name)) || e == AgentCreated(name) || e == OthersCreated(name)
    requires e == AgentCreated(name) || e == OthersCreated(name) ==> name !in st.pods
    requires e == PodRemoved(name) ==> name in st.pods
    ensures PodsBalance(next, name)
  {
    LoggedCountsAll(st.log, e, name);
  }

  lemma ChangeKeepsBalance(st: State, next: State, name: string)
    requires PodsBalance(st, name) && PodChange(st, next)
    ensures PodsBalance(next, name)
  {
    if n :| CreatesPod(st, next, n) {
      EventBalance(st, next, if next.log == st.log + [AgentCreated(n)] then AgentCreated(n)
          else OthersCreated(n), name);
    } else if n :| RemovesPod(st, next, n) {
      EventBalance(st, next, PodRemoved(n), name);
    } else {
      assert name in next.pods.Keys <==> name in st.pods.Keys;
      if next.log != st.log {
        var e :| AboutAgent(e) && next.log == st.log + [e];
        EventBalance(st, next, e, name);
      }
    }
  }

  lemma {:induction false} RunKeepsBalance(start: State, steps: seq<Step>, name: string)
    requires Fresh(start)
    ensures PodsBalance(Run(start, steps), name)
  {
    if steps != [] {
      var front := steps[..|steps| - 1];
      RunKeepsBalance(start, front, name);
      FreshInv(start);
      RunKeepsInv(start, front);
      StepPodChange(Run(start, front), steps[|steps| - 1]);
      ChangeKeepsBalance(Run(start, front), Run(start, steps), name);
    }
  }

  /**
    At most one replacement at a time: over any run, retry and lost answer
    included, the agent creates a name at most once more often than a pod of
    that name was removed.
  */
  lemma CreatesAtMostOnce(start: State, steps: seq<Step>, name: string)
    requires Fresh(start)
    ensures var log := Run(start, steps).log; multiset(log)[AgentCreated(name)] <= multiset(log)[PodRemoved(name)] + 1
  {
    RunKeepsBalance(start, steps, name);
  }

  // ---- Which pod a deletion hits -------------------------------------------

  /**
    A pod the agent saw at position `k` of the log is there until a pod of its
    name is removed, and never again after.
  */
  predicate Lifetime(st: State, k: nat)
    requires k < |st.log|
  {
    var seen := Sighted(st.log[k]);
    seen.Some? ==>
      && seen.value < |st.names|
      && (Present(st, seen.value) <==> PodRemoved(st.names[seen.value]) !in st.log[k..])
  }

  predicate Lifetimes(st: State) { forall k :: 0 <= k < |st.log| ==> Lifetime(st, k) }

  lemma SuffixSnoc(log: seq<Event>, e: Event, k: nat, x: Event)
    requires k <= |log|
    ensures x in (log + [e])[k..] <==> x in log[k..] || x == e
  {
    assert (log + [e])[k..] == log[k..] + [e];
  }

  lemma ChangeKeepsLifetime(st: State, next: State, k: nat)
    requires k < |st.log| && Lifetime(st, k) && PodChange(st, next)
    ensures k < |next.log| && Lifetime(next, k)
  {
    if next.log != st.log {
      var e := next.log[|st.log|];
      assert next.log == st.log + [e];
      assert next.log[k] == st.log[k];
      var seen := Sighted(st.log[k]);
      if seen.Some? { SuffixSnoc(st.log, e, k, PodRemoved(st.names[seen.value])); }
    }
  }

  lemma ChangeKeepsLifetimes(st: State, next: State)
    requires Lifetimes(st) && PodChange(st, next)
    ensures Lifetimes(next)
  {
    forall k | 0 <= k < |next.log| ensures Lifetime(next, k) {
      if k < |st.log| {
        ChangeKeepsLifetime(st, next, k);
      } else {
        assert next.log[k..] == [next.log[k]];
      }
    }
  }

  /** In every run, a pod the agent saw is still there exactly when no pod of its name was removed since. */
  lemma {:induction false} SightingsLast(start: State, steps: seq<Step>)
    requires Fresh(start)
    ensures Lifetimes(Run(start, steps))
  {
    if steps != [] {
      var front := steps[..|steps| - 1];
      SightingsLast(start, front);
      FreshInv(start);
      RunKeepsInv(start, front);
      StepPodChange(Run(start, front), steps[|steps| - 1]);
      ChangeKeepsLifetimes(Run(start, front), Run(start, steps));
    }
  }

  /** The deletion at `k` hits the pod found at `j` exactly when no pod of the source's name was removed in between. */
  predicate HitsAsFound(st: State, j: nat, k: nat)
    requires j < k < |st.log|
  {
    match st.log[k]
    case DeletedSource(i, pass, source, _, hit) =>
      i < |st.workers| && st.log[j] == FoundSource(i, pass, source, false) ==>
        (hit == Some(source) <==> PodRemoved(st.workers[i].source) !in st.log[j..k])
    case _ => true
  }

  predicate AllHitAsFound(st: State) { forall j, k :: 0 <= j < k < |st.log| ==> HitsAsFound(st, j, k) }

  lemma NewDeletionHits(st: State, step: Step)
    requires |Next(st, step).log| > |st.log| && Next(st, step).log[|st.log|].DeletedSource?
    ensures var e := Next(st, step).log[|st.log|]; e.worker < |st.workers| && e.hit == Hit(st, e.worker)
  {
    if step.Call? && step.worker < |st.workers| { CallsAreLoggedTruthfully(st, step.worker, step.reply); }
  }

  lemma NewDeletionHitsAsFound(st: State, step: Step, j: nat)
    requires Inv(st) && Lifetimes(st) && j < |st.log| < |Next(st, step).log|
    ensures HitsAsFound(Next(st, step), j, |st.log|)
  {
    var next, k := Next(st, step), |st.log|;
    StepSound(st, step);
    if next.log[k].DeletedSource? {
      var e := next.log[k];
      NewDeletionHits(st, step);
      assert next.log[..k] == st.log;
      assert next.log[j] == st.log[j] && next.log[j..k] == st.log[j..];
      if st.log[j] == FoundSource(e.worker, e.pass, e.source, false) {
        assert Truthful(st, st.log[j]) && Lifetime(st, j);
      }
    }
  }

  lemma StepKeepsHits(st: State, step: Step)
    requires Inv(st) && Lifetimes(st) && AllHitAsFound(st)
    ensures AllHitAsFound(Next(st, step))
  {
    var next := Next(st, step);
    StepSound(st, step);
    forall j, k | 0 <= j < k < |next.log| ensures HitsAsFound(next, j, k) {
      if k == |st.log| {
        NewDeletionHitsAsFound(st, step, j);
      } else {
        assert next.log[j] == st.log[j] && next.log[k] == st.log[k] && next.log[j..k] == st.log[j..k];
        assert HitsAsFound(st, j, k);
        if st.log[k].DeletedSource? { assert Truthful(st, st.log[k]); }
      }
    }
  }

  lemma {:induction false} RunHitsAsFound(start: State, steps: seq<Step>)
    requires Fresh(start)
    ensures AllHitAsFound(Run(start, steps))
  {
    if steps != [] {
      var front := steps[..|steps| - 1];
      RunHitsAsFound(start, front);
      FreshInv(start);
      RunKeepsInv(start, front);
      SightingsLast(start, front);
      StepKeepsHits(Run(start, front), steps[|steps| - 1]);
    }
  }

  /**
    Which pod a deletion hits, in every run: the pod that was found, exactly
    when no pod of the source's name was removed between the find and the
    delete. Otherwise it hits nothing, or a later pod of the same name.
  */
  lemma DeletionHitsFoundPodExactly(start: State, steps: seq<Step>, j: nat, k: nat)
    requires Fresh(start) && j < k < |Run(start, steps).log|
    requires var log := Run(start, steps).log;
             log[k].DeletedSource? && log[j] == FoundSource(log[k].worker, log[k].pass, log[k].source, false)
    ensures var st := Run(start, steps);
            var e := st.log[k];
            && e.worker < |st.workers|
            && (e.hit == Some(e.source) <==> PodRemoved(st.workers[e.worker].source) !in st.log[j..k])
            && (e.hit.Some? ==> e.hit.value < |st.names| && st.names[e.hit.value] == st.workers[e.worker].source)
  {
    MigrationIsSafe(start, steps, k);
    RunHitsAsFound(start, steps);
    assert HitsAsFound(Run(start, steps), j, k);
  }

  // ---- Where names collide -------------------------------------------------

  /** Some run leads from `start` to `st`. */
  ghost predicate Reaches(start: State, st: State) { exists steps :: Run(start, steps) == st }

  lemma ReachesItself(st: State)
    ensures Reaches(st, st)
  {
    assert Run(st, []) == st;
  }

  lemma Then(start: State, st: State, step: Step)
    requires Reaches(start, st)
    ensures Reaches(start, Next(st, step))
  {
    var steps :| Run(start, steps) == st;
    assert (steps + [step])[..|steps|] == steps;
    assert Run(start, steps + [step]) == Next(st, step);
  }

  /** Both pods of worker `i` are there, the source is not terminating and the replacement is running. */
  predicate ReadyToDelete(st: State, i: nat) {
    && i < |st.workers| && st.workers[i].pc == Idle && st.workers[i].recorded != Released
    && st.workers[i].source in st.pods && !st.pods[st.workers[i].source].deleting
    && st.workers[i].replacement in st.pods && st.pods[st.workers[i].replacement].phase == Running
  }

  lemma PassMarks(st: State, i: nat)
    requires ReadyToDelete(st, i)
    ensures var w := st.workers[i];
            Next(Next(st, Begin(i)), Call(i, Answered)) ==
            st.(workers := st.workers[i := Worker(w.source, w.replacement, Migrating, Marked, w.pass + 1)])
  {
  }

  lemma PassReads(st: State, i: nat)
    requires i < |st.workers| && st.workers[i].pc == Marked && st.workers[i].source in st.pods
    requires st.workers[i].replacement in st.pods && st.pods[st.workers[i].replacement].phase == Running
    ensures var w := st.workers[i];
            var s, r := st.pods[w.source], st.pods[w.replacement];
            Next(Next(st, Call(i, Answered)), Call(i, Answered)) ==
            State(st.pods, st.names, st.workers[i := w.(pc := Inspecting(s, r))],
                  st.log + [FoundSource(i, w.pass, s.uid, s.deleting)] + [SawRunning(i, w.pass, r.uid)])
  {
  }

  lemma PassActs(st: State, i: nat, s: Pod, r: Pod)
    requires i < |st.workers| && st.workers[i].pc == Inspecting(s, r) && r.phase == Running && !s.deleting
    ensures var w := st.workers[i];
            Next(Next(st, Call(i, Answered)), Call(i, Answered)) ==
            State(MarkDeleted(st, w.source).pods, st.names,
                st.workers[i := w.(pc := Releasing(SourceDeleted(s.uid, r.uid, Hit(st, i))))],
                  st.log + [DeletedSource(i, w.pass, s.uid, r.uid, Hit(st, i))])
  {
  }

  lemma ThenTwo(start: State, st: State, a: Step, b: Step)
    requires Reaches(start, st)
    ensures Reaches(start, Next(Next(st, a), b))
  {
    Then(start, st, a);
    Then(start, Next(st, a), b);
  }

  /** A pass that is answered throughout deletes the source, resting on the replacement it saw. */
  lemma PassDeletes(start: State, st: State, i: nat) returns (next: State)
    requires Reaches(start, st) && ReadyToDelete(st, i)
    ensures Reaches(start, next)
    ensures var w := st.workers[i];
            && next.pods == st.pods[w.source := st.pods[w.source].(deleting := true)]
            && |next.workers| == |st.workers|
                 && (forall j :: 0 <= j < |st.workers| && j != i ==> next.workers[j] == st.workers[j])
            && next.log == st.log + [FoundSource(i, w.pass + 1, st.pods[w.source].uid, false)] +
                           [SawRunning(i, w.pass + 1, st.pods[w.replacement].uid)] +
                           [DeletedSource(i, w.pass + 1, st.pods[w.source].uid, st.pods[w.replacement].uid,
                               Some(st.pods[w.source].uid))]
  {
    PassMarks(st, i);
    ThenTwo(start, st, Begin(i), Call(i, Answered));
    var marked := Next(Next(st, Begin(i)), Call(i, Answered));
    PassReads(marked, i);
    ThenTwo(start, marked, Call(i, Answered), Call(i, Answered));
    var inspecting := Next(Next(marked, Call(i, Answered)), Call(i, Answered));
    PassActs(inspecting, i, st.pods[st.workers[i].source], st.pods[st.workers[i].replacement]);
    ThenTwo(start, inspecting, Call(i, Answered), Call(i, Answered));
    next := Next(Next(inspecting, Call(i, Answered)), Call(i, Answered));
  }

  /** A running pod turns up. */
  lemma PodAppears(start: State, st: State, name: string) returns (next: State)
    requires Reaches(start, st) && name !in st.pods
    ensures Reaches(start, next)
    ensures next == State(st.pods[name := Pod(|st.names|, Running, false)], st.names + [name], st.workers, st.log
            + [OthersCreated(name)])
  {
    ThenTwo(start, st, CreateByOthers(name), ChangePhase(name, Running));
    next := Next(Next(st, CreateByOthers(name)), ChangePhase(name, Running));
    var pods := st.pods[name := Pod(|st.names|, Pending, false)];
    assert pods[name := Pod(|st.names|, Running, false)] == st.pods[name := Pod(|st.names|, Running, false)];
  }

  function Lone(source: string, replacement: string): State {
    State(map[], [], [Worker(source, replacement, Planned, Idle, 0)], [])
  }

  /** No deletion rests on the pod it was meant for, or on the pod it hits. */
  predicate NeverSelfReplaced(log: seq<Event>) {
    forall k :: 0 <= k < |log| && log[k].DeletedSource? ==>
      log[k].source != log[k].replacement && log[k].hit != Some(log[k].replacement)
  }

  lemma SelfReplacementRun(name: string) returns (st: State)
    ensures Reaches(Lone(name, name), st) && !NeverSelfReplaced(st.log)
  {
    var start := Lone(name, name);
    ReachesItself(start);
    st := PodAppears(start, start, name);
    st := PassDeletes(start, st, 0);
    assert st.log[|st.log| - 1].DeletedSource?;
  }

  lemma OtherNameNeverSelfReplaced(source: string, name: string, st: State)
    requires source != name && Reaches(Lone(source, name), st)
    ensures NeverSelfReplaced(st.log)
  {
    var start := Lone(source, name);
    var steps :| Run(start, steps) == st;
    FreshInv(start);
    RunKeepsWorkers(start, steps);
    forall k | 0 <= k < |st.log| && st.log[k].DeletedSource?
      ensures st.log[k].source != st.log[k].replacement && st.log[k].hit != Some(st.log[k].replacement)
    {
      MigrationIsSafe(start, steps, k);
    }
  }

  /**
    The agent never takes a pod for its own replacement, in any run, exactly
    when the pod is not a long-named one that the same ledger has already
    replaced once.
  */
  lemma SelfReplacementNeverHappensExactly(source: string, hash: string)
    requires HexHash(hash)
    ensures (forall st :: Reaches(Lone(source, ReplacementName(source, hash)), st) ==> NeverSelfReplaced(st.log))
       <==> !OwnReplacement(source, hash)
  {
    var name := ReplacementName(source, hash);
    SelfReplacementExactly(source, hash);
    if name == source {
      var st := SelfReplacementRun(source);
    } else {
      forall st | Reaches(Lone(source, name), st) ensures NeverSelfReplaced(st.log) {
        OtherNameNeverSelfReplaced(source, name, st);
      }
    }
  }

  /** The pod names a worker is about never change. */
  lemma {:induction false} RunKeepsWorkers(start: State, steps: seq<Step>)
    requires Inv(start)
    ensures var st := Run(start, steps);
            && |st.workers| == |start.workers|
            && forall j :: 0 <= j < |start.workers| ==>
                 st.workers[j].source == start.workers[j].source
                     && st.workers[j].replacement == start.workers[j].replacement
  {
    if steps != [] {
      RunKeepsWorkers(start, steps[..|steps| - 1]);
      RunKeepsInv(start, steps[..|steps| - 1]);
      StepSound(Run(start, steps[..|steps| - 1]), steps[|steps| - 1]);
    }
  }

  lemma ThenThree(start: State, st: State, a: Step, b: Step, c: Step)
    requires Reaches(start, st)
    ensures Reaches(start, Next(Next(Next(st, a), b), c))
  {
    ThenTwo(start, st, a, b);
    Then(start, Next(Next(st, a), b), c);
  }

  /** The source is removed and made anew between the agent's decision and its delete. */
  lemma SwappedSource(st: State, i: nat, s: Pod, r: Pod)
    requires i < |st.workers| && st.workers[i].pc == Inspecting(s, r) && r.phase == Running && !s.deleting
    requires st.workers[i].source in st.pods
    ensures var w, u := st.workers[i], |st.names|;
            var swapped := Next(Next(Next(st, Call(i, Answered)), RemovePod(w.source)), CreateByOthers(w.source));
            && swapped.workers == st.workers[i := w.(pc := Deleting(s, r))]
            && w.source in swapped.pods && swapped.pods[w.source] == Pod(u, Pending, false)
            && swapped.names == st.names + [w.source]
            && swapped.log == st.log + [PodRemoved(w.source)] + [OthersCreated(w.source)]
  {
  }

  /** The agent has found the source and seen the replacement running. */
  lemma InspectingRun(a: string, r: string) returns (st: State)
    requires a != r
    ensures Reaches(Lone(a, r), st)
    ensures st == State(map[a := Pod(0, Running, false), r := Pod(1, Running, false)], [a, r],
                        [Worker(a, r, Migrating, Inspecting(Pod(0, Running, false), Pod(1, Running, false)), 1)],
                        [OthersCreated(a), OthersCreated(r), FoundSource(0, 1, 0, false), SawRunning(0, 1, 1)])
  {
    var start := Lone(a, r);
    ReachesItself(start);
    st := PodAppears(start, start, a);
    st := PodAppears(start, st, r);
    PassMarks(st, 0);
    ThenTwo(start, st, Begin(0), Call(0, Answered));
    st := Next(Next(st, Begin(0)), Call(0, Answered));
    PassReads(st, 0);
    ThenTwo(start, st, Call(0, Answered), Call(0, Answered));
    st := Next(Next(st, Call(0, Answered)), Call(0, Answered));
  }

  /** The delete meets whatever carries the source's name now. */
  lemma DeletesByName(st: State, i: nat, s: Pod, r: Pod)
    requires i < |st.workers| && st.workers[i].pc == Deleting(s, r) && st.workers[i].source in st.pods
    ensures var w, next := st.workers[i], Next(st, Call(i, Answered));
            && w.source in next.pods && next.pods[w.source] == st.pods[w.source].(deleting := true)
            && next.log == st.log + [DeletedSource(i, w.pass, s.uid, r.uid, Some(st.pods[w.source].uid))]
  {
  }

  /**
    A delete by name can hit a pod the agent never looked at: if the source
    is removed and recreated after it was found, the new pod is deleted, and
    no event of the run mentions having found it.
  */
  lemma DeleteCanHitAnotherPod(a: string, r: string) returns (st: State)
    requires a != r
    ensures Reaches(Lone(a, r), st) && a in st.pods && st.pods[a].uid == 2 && st.pods[a].deleting
    ensures st.log != [] && st.log[|st.log| - 1] == DeletedSource(0, 1, 0, 1, Some(2))
    ensures forall k :: 0 <= k < |st.log| ==> Sighted(st.log[k]) != Some(2)
  {
    var start := Lone(a, r);
    st := InspectingRun(a, r);
    var s, p := Pod(0, Running, false), Pod(1, Running, false);
    SwappedSource(st, 0, s, p);
    ThenThree(start, st, Call(0, Answered), RemovePod(a), CreateByOthers(a));
    st := Next(Next(Next(st, Call(0, Answered)), RemovePod(a)), CreateByOthers(a));
    DeletesByName(st, 0, s, p);
    Then(start, st, Call(0, Answered));
    st := Next(st, Call(0, Answered));
  }

  function Pair(a: string, b: string, hash: string): State {
    State(map[], [], [Worker(a, ReplacementName(a, hash), Planned, Idle, 0),
        Worker(b, ReplacementName(b, hash), Planned, Idle, 0)], [])
  }

  /** Different migrations never rest on the same replacement pod. */
  predicate NeverShared(log: seq<Event>) {
    forall k, m ::
      && 0 <= k < |log| && 0 <= m < |log| && log[k].DeletedSource? && log[m].DeletedSource?
      && log[k].worker != log[m].worker ==>
      log[k].replacement != log[m].replacement
  }

  /** Worker `i` first, then worker `j`; only `i`'s source must not be the replacement itself. */
  lemma TwoPassesShare(start: State, st: State, i: nat, j: nat) returns (last: State)
    requires Reaches(start, st) && ReadyToDelete(st, i) && ReadyToDelete(st, j)
    requires st.workers[i].replacement == st.workers[j].replacement
    requires st.workers[i].source != st.workers[j].source && st.workers[i].source != st.workers[i].replacement
    ensures Reaches(start, last) && !NeverShared(last.log)
  {
    var mid := PassDeletes(start, st, i);
    last := PassDeletes(start, mid, j);
    var k, m := |mid.log| - 1, |last.log| - 1;
    assert last.log[k] == mid.log[k];
    assert last.log[k].DeletedSource? && last.log[m].DeletedSource?
        && last.log[k].replacement == last.log[m].replacement;
  }

  lemma SharedRun(start: State, a: string, b: string, r: string) returns (st: State)
    requires start.pods == map[] && start.names == [] && a != b
    requires start.workers == [Worker(a, r, Planned, Idle, 0), Worker(b, r, Planned, Idle, 0)]
    ensures Reaches(start, st) && !NeverShared(st.log)
  {
    ReachesItself(start);
    st := PodAppears(start, start, a);
    st := PodAppears(start, st, b);
    if r != a && r != b { st := PodAppears(start, st, r); }
    if r == a { st := TwoPassesShare(start, st, 1, 0); } else { st := TwoPassesShare(start, st, 0, 1); }
  }

  lemma DeletionSeen(start: State, st: State, k: nat)
    requires Fresh(start) && Reaches(start, st) && k < |st.log| && st.log[k].DeletedSource?
    ensures var e := st.log[k];
            && e.worker < |start.workers| && e.replacement < |st.names|
            && st.names[e.replacement] == start.workers[e.worker].replacement
  {
    var steps :| Run(start, steps) == st;
    FreshInv(start);
    MigrationIsSafe(start, steps, k);
    RunKeepsWorkers(start, steps);
  }

  lemma DistinctReplacementsNeverShared(start: State, st: State)
    requires Fresh(start) && |start.workers| == 2 && start.workers[0].replacement != start.workers[1].replacement
    requires Reaches(start, st)
    ensures NeverShared(st.log)
  {
    forall k, m | 0 <= k < |st.log| && 0 <= m < |st.log| && st.log[k].DeletedSource? && st.log[m].DeletedSource?
        && st.log[k].worker != st.log[m].worker
      ensures st.log[k].replacement != st.log[m].replacement
    {
      DeletionSeen(start, st, k);
      DeletionSeen(start, st, m);
    }
  }

  /**
    Two evictions on one node never lean on one replacement, in any run,
    exactly when the sources differ within the 48 characters that survive
    truncation. One of the sources may itself be the earlier replacement of
    the other.
  */
  lemma SharedReplacementNeverHappensExactly(a: string, b: string, hash: string)
    requires a != b
    ensures (forall st :: Reaches(Pair(a, b, hash), st) ==> NeverShared(st.log)) <==> Base(a) != Base(b)
  {
    ReplacementsCollideExactly(a, b, hash);
    var start := Pair(a, b, hash);
    if Base(a) == Base(b) {
      var st := SharedRun(start, a, b, ReplacementName(a, hash));
    } else {
      forall st | Reaches(start, st) ensures NeverShared(st.log) { DistinctReplacementsNeverShared(start, st); }
    }
  }
}
