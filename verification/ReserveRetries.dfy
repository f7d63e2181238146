/** What becomes of one Reserve or Unreserve call: what it stores, when it is retried and when it gives up. */
module ReserveRetries {
  import opened Text
  import opened ReserveProtocol

  // ---- What is stored ------------------------------------------------------

  predicate About(op: Op, name: string) {
    match op
    case Put(e) => e.name == name
    case Drop(dropped) => dropped == name
  }

  /** The operation at `k` puts `e`, and none after it is about that name. */
  predicate LastPut(log: seq<Op>, k: nat, e: Entry) {
    k < |log| && log[k] == Put(e) && forall j :: k < j < |log| ==> !About(log[j], e.name)
  }

  lemma {:induction false} UpsertHolds(s: seq<Entry>, e: Entry)
    requires UniqueNames(s)
    ensures forall x :: x in Upsert(s, e) <==> x == e || (x in s && x.name != e.name)
  {
    if s != [] {
      var rest := s[1..];
      assert s == [s[0]] + rest;
      if s[0].name == e.name {
        forall x | x in rest ensures x.name != e.name {
          var j :| 0 <= j < |rest| && rest[j] == x;
          assert s[j + 1] == x;
        }
      } else {
        UpsertHolds(rest, e);
      }
    }
  }

  lemma OpHolds(s: seq<Entry>, op: Op, e: Entry)
    requires UniqueNames(s)
    ensures e in ApplyOp(s, op) <==> op == Put(e) || (e in s && !About(op, e.name))
  {
    match op
    case Put(x) => UpsertHolds(s, x);
    case Drop(name) => RemoveNames(s, name);
  }

  lemma LastPutSnoc(front: seq<Op>, op: Op, e: Entry)
    ensures (exists k: nat :: LastPut(front + [op], k, e)) <==>
            op == Put(e) || (!About(op, e.name) && exists k: nat :: LastPut(front, k, e))
  {
    var log := front + [op];
    if op == Put(e) { assert LastPut(log, |front|, e); }
    if k: nat :| LastPut(front, k, e) && !About(op, e.name) { assert LastPut(log, k, e); }
    if k: nat :| LastPut(log, k, e) {
      if k < |front| {
        assert log[|front|] == op && !About(log[|front|], e.name);
        forall j | k < j < |front| ensures !About(front[j], e.name) { assert log[j] == front[j]; }
        assert LastPut(front, k, e);
      }
    }
  }

  /** The committed operations describe exactly the entries put and neither replaced nor dropped since. */
  lemma {:induction false} FoldHoldsExactly(log: seq<Op>, e: Entry)
    ensures e in Fold(log) <==> exists k: nat :: LastPut(log, k, e)
  {
    if log != [] {
      var front, op := log[..|log| - 1], log[|log| - 1];
      FoldHoldsExactly(front, e);
      FoldIsUnique(front);
      OpHolds(Fold(front), op, e);
      LastPutSnoc(front, op, e);
      assert log == front + [op];
    }
  }

  /** So, without stale deletes, that is what the ledger holds after any run. */
  lemma StoredExactly(ops: seq<Op>, steps: seq<Step>, e: Entry)
    requires NoStaleDelete(Initial(ops), steps)
    ensures var st := Run(Initial(ops), steps); e in Stored(st) <==> exists k: nat :: LastPut(st.log, k, e)
  {
    NoLostUpdates(ops, steps);
    FoldHoldsExactly(Run(Initial(ops), steps).log, e);
  }

  // ---- When a call is retried ----------------------------------------------

  /** What client `i` has read is out of date: a ledger has appeared, or its version has moved on. */
  predicate Conflicts(st: State, i: nat) {
    && i < |st.clients| && st.clients[i].pc.HasRead? && !Deletes(st.clients[i]) && st.ledger.Some?
    && match st.clients[i].pc.seen
       case None => true
       case Some(seen) => seen.version != st.ledger.value.version
  }

  /** The ledger has vanished since client `i` read it. */
  predicate Vanished(st: State, i: nat) {
    && i < |st.clients| && st.clients[i].pc.HasRead? && !Deletes(st.clients[i])
    && st.clients[i].pc.seen.Some? && st.ledger.None?
  }

  /**
    What a write comes to: it commits unless it conflicts or the ledger has
    vanished; a conflict sends the call back to its read, until the fifth one
    ends it, as a vanished ledger does at once.
  */
  lemma WriteComesTo(st: State, i: nat)
    requires i < |st.clients| && st.clients[i].pc.HasRead?
    ensures var was, next := st.clients[i], Next(st, Write(i));
            && |next.clients| == |st.clients|
            && var now := next.clients[i];
               && (now.pc == Committed <==> !Conflicts(st, i) && !Vanished(st, i))
               && (now.pc == Idle <==> Conflicts(st, i) && was.attempts + 1 < 5)
               && (now.pc == GaveUp <==> Vanished(st, i) || (Conflicts(st, i) && was.attempts + 1 >= 5))
               && now.attempts == if Conflicts(st, i) then was.attempts + 1 else was.attempts
  {
  }

  /** A read changes nothing but what the client has seen; Unreserve is done if there is no ledger. */
  lemma GetComesTo(st: State, i: nat)
    requires i < |st.clients| && st.clients[i].pc == Idle
    ensures var was, next := st.clients[i], Next(st, Get(i));
            && next.ledger == st.ledger
            && if was.op.Drop? && st.ledger.None?
               then next.clients == st.clients[i := was.(pc := Committed)] && next.log == st.log + [was.op]
               else next.clients == st.clients[i := was.(pc := HasRead(st.ledger))] && next.log == st.log
  {
  }

  /**
    What a write that commits leaves: no ledger if an Unreserve saw no other
    entry, and otherwise a ledger with a new version and the operation's result.
  */
  lemma CommitLeaves(st: State, i: nat)
    requires VersionsSound(st) && i < |st.clients| && st.clients[i].pc.HasRead?
    requires !Conflicts(st, i) && !Vanished(st, i)
    ensures var c, next := st.clients[i], Next(st, Write(i));
            && next.log == st.log + [c.op]
            && if c.op.Drop? && c.pc.seen.Some? && (forall e :: e in c.pc.seen.value.workloads ==> e.name == c.op.name)
               then next.ledger == None
               else next.ledger == Some(Object(st.nextVersion, ApplyOp(Stored(st), c.op)))
  {
    var c := st.clients[i];
    if c.op.Drop? && c.pc.seen.Some? {
      var seen := c.pc.seen.value.workloads;
      RemoveNames(seen, c.op.name);
      var left := Remove(seen, c.op.name);
      if left != [] { assert left[0] in left; }
    }
  }

  /** A client that is still trying has had fewer than five conflicts, and no client has had more than five. */
  predicate AttemptsBounded(st: State) {
    forall i :: 0 <= i < |st.clients| ==>
      && st.clients[i].attempts <= 5
      && (st.clients[i].pc == Idle || st.clients[i].pc.HasRead? ==> st.clients[i].attempts < 5)
  }

  lemma StepKeepsAttempts(st: State, step: Step)
    requires AttemptsBounded(st)
    ensures AttemptsBounded(Next(st, step))
  {
  }

  /** Over every run. */
  lemma {:induction false} RunKeepsAttempts(ops: seq<Op>, steps: seq<Step>)
    ensures AttemptsBounded(Run(Initial(ops), steps))
  {
    if steps != [] {
      RunKeepsAttempts(ops, steps[..|steps| - 1]);
      StepKeepsAttempts(Run(Initial(ops), steps[..|steps| - 1]), steps[|steps| - 1]);
    }
  }

  /** One attempt of client `i`, between whose read and write the agent writes the ledger's status. */
  function Disturbed(st: State, i: nat): State { Next(Next(Next(st, Get(i)), StatusUpdate), Write(i)) }

  function Undisturbed(st: State, i: nat): State { Next(Next(st, Get(i)), Write(i)) }

  function DisturbedTimes(st: State, i: nat, n: nat): State {
    if n == 0 then st else Disturbed(DisturbedTimes(st, i, n - 1), i)
  }

  /** A Reserve call that is about to read an existing ledger. */
  predicate Reserving(st: State, i: nat, e: Entry, attempts: nat) {
    && i < |st.clients| && st.clients[i] == Client(Put(e), Idle, attempts)
    && st.ledger.Some? && VersionsSound(st)
  }

  lemma DisturbedOnce(st: State, i: nat, e: Entry, attempts: nat)
    requires Reserving(st, i, e, attempts)
    ensures var next := Disturbed(st, i);
            && Stored(next) == Stored(st) && next.log == st.log && |next.clients| == |st.clients|
            && (attempts + 1 < 5 ==> Reserving(next, i, e, attempts + 1))
            && (attempts + 1 >= 5 ==> next.clients[i].pc == GaveUp)
  {
    StepKeepsVersions(st, Get(i));
    StepKeepsVersions(Next(st, Get(i)), StatusUpdate);
    StepKeepsVersions(Next(Next(st, Get(i)), StatusUpdate), Write(i));
  }

  lemma {:induction false} DisturbedOften(st: State, i: nat, e: Entry, n: nat)
    requires Reserving(st, i, e, 0) && n < 5
    ensures var next := DisturbedTimes(st, i, n);
            Reserving(next, i, e, n) && Stored(next) == Stored(st) && next.log == st.log
  {
    if n > 0 {
      DisturbedOften(st, i, e, n - 1);
      DisturbedOnce(DisturbedTimes(st, i, n - 1), i, e, n - 1);
    }
  }

  /**
    A reservation survives up to four conflicts with the agent's status
    updates: the next attempt, if left alone, commits and stores its entry.
    The fifth conflict ends it with nothing stored.
  */
  lemma SurvivesFourConflicts(st: State, i: nat, e: Entry, n: nat)
    requires Reserving(st, i, e, 0) && n < 5
    ensures var last := Undisturbed(DisturbedTimes(st, i, n), i);
            && i < |last.clients| && last.clients[i].pc == Committed
            && e in Stored(last) && last.log == st.log + [Put(e)]
    ensures var last := DisturbedTimes(st, i, 5);
            && i < |last.clients| && last.clients[i].pc == GaveUp && Stored(last) == Stored(st) && last.log == st.log
  {
    DisturbedOften(st, i, e, n);
    UpsertNames(Stored(st), e);
    DisturbedOften(st, i, e, 4);
    DisturbedOnce(DisturbedTimes(st, i, 4), i, e, 4);
  }
}
