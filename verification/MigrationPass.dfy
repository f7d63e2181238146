/** What one pass of the migration does when every call is answered and nothing else happens meanwhile. */
module MigrationPass {
  import opened Text
  import opened Migration

  /** `n` answered calls of worker `i`; once it is idle, further ones do nothing. */
  function Calls(st: State, i: nat, n: nat): State {
    if n == 0 then st else Next(Calls(st, i, n - 1), Call(i, Answered))
  }

  /** No pass makes more calls than this. */
  const LONGEST: nat := 6

  function FullPass(st: State, i: nat): State { Calls(Next(st, Begin(i)), i, LONGEST) }

  /** The worker is between passes and its ledger still listed. */
  predicate CanStart(st: State, i: nat) {
    i < |st.workers| && st.workers[i].pc == Idle && st.workers[i].recorded != Released
  }

  /** Only the worker's record changed, its pass is over and is the next one. */
  predicate PassOver(st: State, next: State, i: nat, recorded: Recorded)
    requires i < |st.workers|
  {
    next.workers == st.workers[i := st.workers[i].(recorded := recorded, pass := st.workers[i].pass + 1)]
  }

  /** What the pass leaves, in terms of the pods before it. */
  predicate PassOutcome(st: State, next: State, i: nat)
    requires i < |st.workers|
  {
    var w := st.workers[i];
    var pass := w.pass + 1;
    if w.source !in st.pods then
      && PassOver(st, next, i, Released) && next.pods == st.pods
      && next.log == st.log + [FoundNoSource(i, pass), RecordedRelease(i, pass, SourceGone)]
    else
      var s := st.pods[w.source];
      var found := FoundSource(i, pass, s.uid, s.deleting);
      if w.replacement !in st.pods then
        && PassOver(st, next, i, Migrating)
        && next.pods == st.pods[w.replacement := Pod(|st.names|, Pending, false)]
        && next.log == st.log + [found, AgentCreated(w.replacement)]
      else
        var r := st.pods[w.replacement];
        if r.phase != Running then
          PassOver(st, next, i, Migrating) && next.pods == st.pods && next.log == st.log + [found]
        else if s.deleting then
          && PassOver(st, next, i, Released) && next.pods == st.pods
          && next.log == st.log + [found, SawRunning(i, pass, r.uid),
                                   RecordedRelease(i, pass, AlreadyTerminating(s.uid, r.uid))]
        else
          && PassOver(st, next, i, Released)
          && next.pods == st.pods[w.source := s.(deleting := true)]
          && next.log == st.log + [found, SawRunning(i, pass, r.uid),
                                   DeletedSource(i, pass, s.uid, r.uid, Some(s.uid)),
                                   RecordedRelease(i, pass, SourceDeleted(s.uid, r.uid, Some(s.uid)))]
  }

  /**
    The worker is inside its next pass at `pc`, has recorded Migrating and has
    logged `logged`; nothing else changed.
  */
  predicate Inside(st: State, mid: State, i: nat, pc: Pc, logged: seq<Event>)
    requires i < |st.workers|
  {
    && mid.workers == st.workers[i := st.workers[i].(recorded := Migrating, pc := pc, pass := st.workers[i].pass + 1)]
    && mid.pods == st.pods && mid.names == st.names && mid.log == st.log + logged
  }

  /** Before it looks at any pod, the pass has recorded Migrating. */
  lemma MigratingIsRecordedFirst(st: State, i: nat)
    requires CanStart(st, i)
    ensures Inside(st, Calls(Next(st, Begin(i)), i, 1), i, Marked, [])
  {
    var begun := Next(st, Begin(i));
    assert Calls(begun, i, 0) == begun;
  }

  function Answer(st: State, i: nat): State { Next(st, Call(i, Answered)) }

  lemma ReadSource(st: State, mid: State, i: nat)
    requires CanStart(st, i) && Inside(st, mid, i, Marked, [])
    ensures var w, next := st.workers[i], Answer(mid, i);
            if w.source !in st.pods
            then Inside(st, next, i, Releasing(SourceGone), [FoundNoSource(i, w.pass + 1)])
            else var s := st.pods[w.source];
                 Inside(st, next, i, Looking(s), [FoundSource(i, w.pass + 1, s.uid, s.deleting)])
  {
  }

  lemma ReadReplacement(st: State, mid: State, i: nat, s: Pod, logged: seq<Event>)
    requires CanStart(st, i) && Inside(st, mid, i, Looking(s), logged)
    ensures var w, next := st.workers[i], Answer(mid, i);
            if w.replacement !in st.pods then Inside(st, next, i, Creating(s), logged)
            else
              var r := st.pods[w.replacement];
              Inside(st, next, i, Inspecting(s, r),
                     if r.phase == Running then logged + [SawRunning(i, w.pass + 1, r.uid)] else logged)
  {
  }

  lemma Creates(st: State, mid: State, i: nat, s: Pod, logged: seq<Event>)
    requires CanStart(st, i) && Inside(st, mid, i, Creating(s), logged) && st.workers[i].replacement !in st.pods
    ensures var name, next := st.workers[i].replacement, Answer(Answer(Answer(mid, i), i), i);
            && PassOver(st, next, i, Migrating) && next.pods == st.pods[name := Pod(|st.names|, Pending, false)]
            && next.log == st.log + logged + [AgentCreated(name)]
  {
    var name, pod := st.workers[i].replacement, Pod(|st.names|, Pending, false);
    var created := Answer(mid, i);
    assert created.pods == st.pods[name := pod] && created.workers[i].pc == Rereading(s);
    var reread := Answer(created, i);
    assert reread.pods == created.pods && reread.workers[i].pc == Inspecting(s, pod) && reread.log == created.log;
  }

  lemma Waits(st: State, mid: State, i: nat, s: Pod, r: Pod, logged: seq<Event>)
    requires CanStart(st, i) && Inside(st, mid, i, Inspecting(s, r), logged) && r.phase != Running
    ensures var next := Answer(mid, i);
            PassOver(st, next, i, Migrating) && next.pods == st.pods && next.log == st.log + logged
  {
  }

  lemma Releases(st: State, mid: State, i: nat, why: Why, logged: seq<Event>)
    requires CanStart(st, i) && Inside(st, mid, i, Releasing(why), logged)
    ensures var next := Answer(mid, i);
            && PassOver(st, next, i, Released) && next.pods == st.pods
            && next.log == st.log + logged + [RecordedRelease(i, st.workers[i].pass + 1, why)]
  {
  }

  lemma SkipsDelete(st: State, mid: State, i: nat, s: Pod, r: Pod, logged: seq<Event>)
    requires CanStart(st, i) && Inside(st, mid, i, Inspecting(s, r), logged) && r.phase == Running && s.deleting
    ensures Inside(st, Answer(mid, i), i, Releasing(AlreadyTerminating(s.uid, r.uid)), logged)
  {
  }

  lemma Deletes(st: State, mid: State, i: nat, s: Pod, r: Pod, logged: seq<Event>)
    requires CanStart(st, i) && Inside(st, mid, i, Inspecting(s, r), logged) && r.phase == Running && !s.deleting
    requires st.workers[i].source in st.pods && st.pods[st.workers[i].source] == s
    ensures var w, next := st.workers[i], Answer(Answer(Answer(mid, i), i), i);
            && PassOver(st, next, i, Released) && next.pods == st.pods[w.source := s.(deleting := true)]
            && next.log == st.log + logged + [DeletedSource(i, w.pass + 1, s.uid, r.uid, Some(s.uid))] +
                           [RecordedRelease(i, w.pass + 1, SourceDeleted(s.uid, r.uid, Some(s.uid)))]
  {
    var w := st.workers[i];
    var inspected := Answer(mid, i);
    assert Inside(st, inspected, i, Deleting(s, r), logged);
    var deleted := Answer(inspected, i);
    assert deleted.pods == st.pods[w.source := s.(deleting := true)]
        && deleted.workers[i].pc == Releasing(SourceDeleted(s.uid, r.uid, Some(s.uid)));
  }

  lemma IdleStays(st: State, i: nat)
    requires i < |st.workers| && st.workers[i].pc == Idle
    ensures Answer(st, i) == st
  {
  }

  lemma SixCalls(st: State, i: nat)
    ensures FullPass(st, i) == Answer(Answer(Answer(Answer(Answer(Calls(Next(st, Begin(i)), i, 1), i), i), i), i), i)
  {
    var begun := Next(st, Begin(i));
    assert Calls(begun, i, 2) == Answer(Calls(begun, i, 1), i);
    assert Calls(begun, i, 3) == Answer(Calls(begun, i, 2), i);
    assert Calls(begun, i, 4) == Answer(Calls(begun, i, 3), i);
    assert Calls(begun, i, 5) == Answer(Calls(begun, i, 4), i);
    assert Calls(begun, i, 6) == Answer(Calls(begun, i, 5), i);
  }

  /**
    One undisturbed pass, by the pods it finds. No source: released. No
    replacement: one is created, nothing is deleted or released. A replacement
    that is not running: the pass waits. A running one: the source is deleted
    unless it is already terminating, and released in either case.
  */
  lemma UndisturbedPass(st: State, i: nat)
    requires CanStart(st, i)
    ensures PassOutcome(st, FullPass(st, i), i)
  {
    var w, marked := st.workers[i], Calls(Next(st, Begin(i)), i, 1);
    SixCalls(st, i);
    MigratingIsRecordedFirst(st, i);
    ReadSource(st, marked, i);
    var looked := Answer(marked, i);
    if w.source in st.pods {
      PassFromSource(st, looked, i, st.pods[w.source]);
    } else {
      Releases(st, looked, i, SourceGone, [FoundNoSource(i, w.pass + 1)]);
      var done := Answer(looked, i);
      IdleStays(done, i);
    }
  }

  lemma PassFromSource(st: State, looked: State, i: nat, s: Pod)
    requires CanStart(st, i) && st.workers[i].source in st.pods && st.pods[st.workers[i].source] == s
    requires Inside(st, looked, i, Looking(s), [FoundSource(i, st.workers[i].pass + 1, s.uid, s.deleting)])
    ensures PassOutcome(st, Answer(Answer(Answer(Answer(looked, i), i), i), i), i)
  {
    var w := st.workers[i];
    var logged := [FoundSource(i, w.pass + 1, s.uid, s.deleting)];
    ReadReplacement(st, looked, i, s, logged);
    var read := Answer(looked, i);
    if w.replacement !in st.pods {
      Creates(st, read, i, s, logged);
      assert st.log + logged + [AgentCreated(w.replacement)] == st.log + [logged[0], AgentCreated(w.replacement)];
    } else {
      PassFromBoth(st, read, i, s, st.pods[w.replacement]);
    }
  }

  lemma PassFromBoth(st: State, read: State, i: nat, s: Pod, r: Pod)
    requires CanStart(st, i) && st.workers[i].source in st.pods && st.pods[st.workers[i].source] == s
    requires st.workers[i].replacement in st.pods && st.pods[st.workers[i].replacement] == r
    requires var found, saw := FoundSource(i, st.workers[i].pass + 1, s.uid, s.deleting),
                 SawRunning(i, st.workers[i].pass + 1, r.uid);
             Inside(st, read, i, Inspecting(s, r), if r.phase == Running then [found] + [saw] else [found])
    ensures PassOutcome(st, Answer(Answer(Answer(read, i), i), i), i)
  {
    var pass := st.workers[i].pass + 1;
    var found, saw := FoundSource(i, pass, s.uid, s.deleting), SawRunning(i, pass, r.uid);
    if r.phase != Running {
      Waits(st, read, i, s, r, [found]);
      IdleStays(Answer(read, i), i);
    } else if s.deleting {
      SkipsDelete(st, read, i, s, r, [found] + [saw]);
      Releases(st, Answer(read, i), i, AlreadyTerminating(s.uid, r.uid), [found] + [saw]);
      IdleStays(Answer(Answer(read, i), i), i);
    } else {
      Deletes(st, read, i, s, r, [found] + [saw]);
    }
  }

  /** A call that is refused ends the pass and changes nothing else; one whose answer is lost only ends the pass. */
  lemma FailedCallEndsPass(st: State, i: nat)
    requires i < |st.workers| && st.workers[i].pc != Idle
    ensures Next(st, Call(i, Refused)) == st.(workers := st.workers[i := st.workers[i].(pc := Idle)])
    ensures var answered, lost := Next(st, Call(i, Answered)), Next(st, Call(i, AnswerLost));
            && lost.pods == answered.pods && lost.names == answered.names && lost.log == answered.log
            && i < |answered.workers| && lost.workers == answered.workers[i := answered.workers[i].(pc := Idle)]
  {
  }

  /**
    A migration from start to end. The first pass creates the replacement;
    passes until it runs change nothing; once it runs, one more pass deletes
    the source and records the release, with the replacement still there.
  */
  lemma MigrationCompletes(st: State, i: nat)
    requires CanStart(st, i)
    requires st.workers[i].source in st.pods && !st.pods[st.workers[i].source].deleting
    requires st.workers[i].replacement !in st.pods
    ensures var w, created := st.workers[i], FullPass(st, i);
            var waited := FullPass(created, i);
            var running := Next(waited, ChangePhase(w.replacement, Running));
            var done := FullPass(running, i);
            && waited.pods == created.pods
            && done.pods == st.pods[w.replacement := Pod(|st.names|, Running, false)]
                                   [w.source := st.pods[w.source].(deleting := true)]
            && i < |done.workers| && done.workers[i].recorded == Released && done.workers[i].pc == Idle
  {
    var w := st.workers[i];
    UndisturbedPass(st, i);
    var created := FullPass(st, i);
    UndisturbedPass(created, i);
    var waited := FullPass(created, i);
    var running := Next(waited, ChangePhase(w.replacement, Running));
    assert running.pods == st.pods[w.replacement := Pod(|st.names|, Running, false)];
    UndisturbedPass(running, i);
  }

  /** A release is final: in no run does a released worker start another pass or get recorded anew. */
  lemma {:induction false} ReleaseIsFinal(st: State, steps: seq<Step>, i: nat)
    requires i < |st.workers| && st.workers[i].recorded == Released && st.workers[i].pc == Idle
    ensures var last := Run(st, steps); i < |last.workers| && last.workers[i] == st.workers[i]
  {
    if steps != [] {
      ReleaseIsFinal(st, steps[..|steps| - 1], i);
      ReleasedWorkerRests(Run(st, steps[..|steps| - 1]), steps[|steps| - 1], i);
    }
  }

  lemma ReleasedWorkerRests(st: State, step: Step, i: nat)
    requires i < |st.workers| && st.workers[i].recorded == Released && st.workers[i].pc == Idle
    ensures var next := Next(st, step); i < |next.workers| && next.workers[i] == st.workers[i]
  {
    if step.Call? && step.worker < |st.workers| && step.worker != i { EffectStaysWith(st, step.worker, i); }
  }

  lemma EffectStaysWith(st: State, j: nat, i: nat)
    requires i < |st.workers| && j < |st.workers| && i != j
    ensures var next := Effect(st, j); |next.workers| == |st.workers| && next.workers[i] == st.workers[i]
  {
  }
}
