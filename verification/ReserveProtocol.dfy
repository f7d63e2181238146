/**
  Reserve and Unreserve on one node ledger: read-modify-write with optimistic
  concurrency and bounded retries, under any interleaving.
*/
module ReserveProtocol {
  import opened Text
  import opened Resources
  import opened Envelope

  /** One entry of spec.workloads. */
  datatype Entry = Entry(name: string, sourcePod: string, profile: Profile, desired: Resource)

  // ---- The workload list ---------------------------------------------------

  function Upsert(s: seq<Entry>, e: Entry): seq<Entry> {
    if s == [] then [e]
    else if s[0].name == e.name then [e] + s[1..]
    else [s[0]] + Upsert(s[1..], e)
  }

  function Remove(s: seq<Entry>, name: string): seq<Entry> {
    if s == [] then []
    else Remove(s[..|s| - 1], name) + (if s[|s| - 1].name != name then [s[|s| - 1]] else [])
  }

  predicate UniqueNames(s: seq<Entry>) { forall i, j :: 0 <= i < j < |s| ==> s[i].name != s[j].name }

  lemma {:induction false} UpsertSplit(s: seq<Entry>, e: Entry, i: nat)
    requires i <= |s| && forall k :: 0 <= k < i ==> s[k].name != e.name
    ensures i < |s| && s[i].name == e.name ==> Upsert(s, e) == s[i := e]
    ensures i == |s| ==> Upsert(s, e) == s + [e]
  {
    if i > 0 {
      UpsertSplit(s[1..], e, i - 1);
      assert s == [s[0]] + s[1..];
    }
  }

  /** upsertAllocationWorkload: overwrite in place, or report that the entry must be appended. */
  method UpsertInPlace(a: array<Entry>, e: Entry) returns (found: bool)
    modifies a
    ensures found ==> a[..] == Upsert(old(a[..]), e)
    ensures !found ==> a[..] == old(a[..]) && a[..] + [e] == Upsert(old(a[..]), e)
  {
    for i := 0 to a.Length
      invariant a[..] == old(a[..])
      invariant forall k :: 0 <= k < i ==> a[k].name != e.name
    {
      if a[i].name == e.name {
        UpsertSplit(a[..], e, i);
        a[i] := e;
        return true;
      }
    }
    UpsertSplit(a[..], e, a.Length);
    return false;
  }

  lemma RemoveSnoc(s: seq<Entry>, e: Entry, name: string)
    ensures Remove(s + [e], name) == Remove(s, name) + (if e.name != name then [e] else [])
  {
    assert (s + [e])[..|s|] == s;
  }

  /** removeAllocationWorkload: compaction into the front of the same array. */
  method RemoveInPlace(a: array<Entry>, name: string) returns (kept: nat)
    modifies a
    ensures kept <= a.Length && a[..kept] == Remove(old(a[..]), name)
  {
    kept := 0;
    ghost var was := a[..];
    for i := 0 to a.Length
      invariant kept <= i
      invariant a[i..] == was[i..]
      invariant a[..kept] == Remove(was[..i], name)
    {
      var workload := a[i];
      assert workload == a[i..][0] == was[i];
      assert was[..i + 1] == was[..i] + [was[i]];
      RemoveSnoc(was[..i], was[i], name);
      assert a[i + 1..] == a[i..][1..] && was[i + 1..] == was[i..][1..];
      if workload.name != name {
        a[kept] := workload;
        kept := kept + 1;
        assert a[..kept] == a[..kept - 1] + [workload];
      }
    }
    assert was[..a.Length] == was;
  }

  lemma {:induction false} UpsertNames(s: seq<Entry>, e: Entry)
    ensures forall x :: x in Upsert(s, e) ==> x == e || x in s
    ensures e in Upsert(s, e)
  {
    if s != [] && s[0].name != e.name { UpsertNames(s[1..], e); }
  }

  lemma {:induction false} UpsertKeepsUnique(s: seq<Entry>, e: Entry)
    requires UniqueNames(s)
    ensures UniqueNames(Upsert(s, e))
  {
    if s != [] && s[0].name != e.name {
      UpsertKeepsUnique(s[1..], e);
      UpsertNames(s[1..], e);
      var r := Upsert(s[1..], e);
      forall j | 0 <= j < |r| ensures s[0].name != r[j].name { assert r[j] in r; }
    }
  }

  lemma {:induction false} RemoveNames(s: seq<Entry>, name: string)
    ensures forall x :: x in Remove(s, name) <==> x in s && x.name != name
  {
    if s != [] {
      RemoveNames(s[..|s| - 1], name);
      assert s == s[..|s| - 1] + [s[|s| - 1]];
    }
  }

  lemma {:induction false} RemoveKeepsUnique(s: seq<Entry>, name: string)
    requires UniqueNames(s)
    ensures UniqueNames(Remove(s, name))
  {
    if s != [] {
      var front, x := s[..|s| - 1], s[|s| - 1];
      RemoveKeepsUnique(front, name);
      RemoveNames(front, name);
      var r := Remove(front, name);
      forall j | 0 <= j < |r| ensures r[j].name != x.name { assert r[j] in r; }
    }
  }

  // ---- Clients and the API server ------------------------------------------

  /** Reserve puts an entry, Unreserve drops one. */
  datatype Op = Put(entry: Entry) | Drop(name: string)

  function ApplyOp(s: seq<Entry>, op: Op): seq<Entry> {
    match op
    case Put(e) => Upsert(s, e)
    case Drop(name) => Remove(s, name)
  }

  datatype Object = Object(version: nat, workloads: seq<Entry>)

  datatype Pc = Idle | HasRead(seen: Option<Object>) | Committed | GaveUp

  datatype Client = Client(op: Op, pc: Pc, attempts: nat)

  /** `log` records the committed operations in commit order; it is never read by a step. */
  datatype State = State(ledger: Option<Object>, nextVersion: nat, clients: seq<Client>, log: seq<Op>)

  /** A client reads, a client writes what it computed, or the agent updates the status of the same ledger. */
  datatype Step = Get(client: nat) | Write(client: nat) | StatusUpdate

  const MAX_ATTEMPTS := 5

  function Entries(ledger: Option<Object>): seq<Entry> { if ledger.Some? then ledger.value.workloads else [] }

  function Stored(st: State): seq<Entry> { Entries(st.ledger) }

  function WithPc(st: State, i: nat, pc: Pc): State
    requires i < |st.clients|
  {
    st.(clients := st.clients[i := st.clients[i].(pc := pc)])
  }

  function Commit(st: State, i: nat, ledger: Option<Object>): State
    requires i < |st.clients|
  {
    var next := WithPc(st, i, Committed);
    next.(ledger := ledger, nextVersion := st.nextVersion + 1, log := st.log + [st.clients[i].op])
  }

  /** A conflict consumes one attempt; the last one ends the loop with an error. */
  function Retry(st: State, i: nat): State
    requires i < |st.clients|
  {
    var c := st.clients[i];
    st.(clients := st.clients[i := c.(attempts := c.attempts + 1, pc := if c.attempts + 1 < MAX_ATTEMPTS then Idle
        else GaveUp)])
  }

  /** Unreserve that finds no ledger has nothing to do. */
  function GetStep(st: State, i: nat): State
    requires i < |st.clients| && st.clients[i].pc == Idle
  {
    if st.clients[i].op.Drop? && st.ledger.None? then Commit(st, i, None)
    else WithPc(st, i, HasRead(st.ledger))
  }

  /** Unreserve deletes the ledger, without a version precondition, when its entry was the last one it saw. */
  predicate Deletes(c: Client) {
    c.op.Drop? && c.pc.HasRead? && c.pc.seen.Some? && Remove(c.pc.seen.value.workloads, c.op.name) == []
  }

  function WriteStep(st: State, i: nat): State
    requires i < |st.clients| && st.clients[i].pc.HasRead?
  {
    var c := st.clients[i];
    if Deletes(c) then Commit(st, i, None)
    else if c.pc.seen.None? then
      (if st.ledger.None? then Commit(st, i, Some(Object(st.nextVersion, ApplyOp([], c.op)))) else Retry(st, i))
    else if st.ledger.None? then WithPc(st, i, GaveUp)
    else if st.ledger.value.version != c.pc.seen.value.version then Retry(st, i)
    else Commit(st, i, Some(Object(st.nextVersion, ApplyOp(c.pc.seen.value.workloads, c.op))))
  }

  /** One step; a step that is not enabled changes nothing. */
  function Next(st: State, step: Step): State {
    match step
    case Get(i) => if i < |st.clients| && st.clients[i].pc == Idle then GetStep(st, i) else st
    case Write(i) => if i < |st.clients| && st.clients[i].pc.HasRead? then WriteStep(st, i) else st
    case StatusUpdate =>
      if st.ledger.Some? then st.(ledger := Some(st.ledger.value.(version := st.nextVersion)),
          nextVersion := st.nextVersion + 1) else st
  }

  function Initial(ops: seq<Op>): State {
    State(None, 0, InitialClients(ops), [])
  }

  function InitialClients(ops: seq<Op>): (r: seq<Client>)
    ensures |r| == |ops|
    ensures forall i :: 0 <= i < |r| ==> r[i] == Client(ops[i], Idle, 0)
  {
    seq(|ops|, i requires 0 <= i < |ops| => Client(ops[i], Idle, 0))
  }

  function Run(st: State, steps: seq<Step>): State {
    if steps == [] then st else Next(Run(st, steps[..|steps| - 1]), steps[|steps| - 1])
  }

  // ---- Invariants ----------------------------------------------------------

  /** The ledger the committed operations describe. */
  function Fold(log: seq<Op>): seq<Entry> {
    if log == [] then [] else ApplyOp(Fold(log[..|log| - 1]), log[|log| - 1])
  }

  /** Versions are fresh, and a client that saw the current version saw the current ledger. */
  predicate VersionsSound(st: State) {
    && (st.ledger.Some? ==> st.ledger.value.version < st.nextVersion)
    && forall i :: 0 <= i < |st.clients| && st.clients[i].pc.HasRead? && st.clients[i].pc.seen.Some? ==>
         var seen := st.clients[i].pc.seen.value;
         && seen.version < st.nextVersion
         && (st.ledger.Some? && st.ledger.value.version == seen.version ==> st.ledger.value == seen)
  }

  /** The stored list is the fold of the committed operations, in commit order. */
  predicate NothingLost(st: State) { Stored(st) == Fold(st.log) }

  function CommittedOps(clients: seq<Client>): multiset<Op> {
    if clients == [] then multiset{}
    else CommittedOps(clients[..|clients| - 1]) +
         (if clients[|clients| - 1].pc == Committed then multiset{clients[|clients| - 1].op} else multiset{})
  }

  /** Every committed client is logged exactly once, and nobody else is. */
  predicate LoggedOnce(st: State) { multiset(st.log) == CommittedOps(st.clients) }

  /** A step that deletes a ledger which has gained other entries since it was read. */
  predicate StaleDelete(st: State, step: Step) {
    && step.Write? && step.client < |st.clients| && Deletes(st.clients[step.client])
    && Remove(Stored(st), st.clients[step.client].op.name) != []
  }

  lemma FoldSnoc(log: seq<Op>, op: Op)
    ensures Fold(log + [op]) == ApplyOp(Fold(log), op)
  {
    assert (log + [op])[..|log|] == log;
  }

  lemma StepKeepsVersions(st: State, step: Step)
    requires VersionsSound(st)
    ensures VersionsSound(Next(st, step))
  {
  }

  /** A commit keeps the log and the store together exactly when it stores the operation's result. */
  lemma CommitAgrees(st: State, i: nat, ledger: Option<Object>)
    requires i < |st.clients| && NothingLost(st)
    ensures NothingLost(Commit(st, i, ledger)) <==> Entries(ledger) == ApplyOp(Stored(st), st.clients[i].op)
  {
    FoldSnoc(st.log, st.clients[i].op);
  }

  lemma WriteAgrees(st: State, i: nat)
    requires VersionsSound(st) && NothingLost(st) && i < |st.clients| && st.clients[i].pc.HasRead?
    ensures NothingLost(WriteStep(st, i)) <==> !StaleDelete(st, Write(i))
  {
    var c := st.clients[i];
    if Deletes(c) {
      CommitAgrees(st, i, None);
    } else if c.pc.seen.None? {
      if st.ledger.None? { CommitAgrees(st, i, Some(Object(st.nextVersion, ApplyOp([], c.op)))); }
    } else if st.ledger.Some? && st.ledger.value.version == c.pc.seen.value.version {
      assert c.pc.seen.value == st.ledger.value;
      CommitAgrees(st, i, Some(Object(st.nextVersion, ApplyOp(c.pc.seen.value.workloads, c.op))));
    }
  }

  lemma GetAgrees(st: State, i: nat)
    requires NothingLost(st) && i < |st.clients| && st.clients[i].pc == Idle
    ensures NothingLost(GetStep(st, i))
  {
    if st.clients[i].op.Drop? && st.ledger.None? { CommitAgrees(st, i, None); }
  }

  /**
    Exactly the stale deletes lose something: any other step keeps the stored
    list equal to the fold of the committed operations.
  */
  lemma NothingLostExactly(st: State, step: Step)
    requires VersionsSound(st) && NothingLost(st)
    ensures NothingLost(Next(st, step)) <==> !StaleDelete(st, step)
  {
    match step
    case Get(i) => if i < |st.clients| && st.clients[i].pc == Idle { GetAgrees(st, i); }
    case Write(i) => if i < |st.clients| && st.clients[i].pc.HasRead? { WriteAgrees(st, i); }
    case StatusUpdate =>
  }

  lemma {:induction false} CommittedOpsUpdate(clients: seq<Client>, i: nat, c: Client)
    requires i < |clients| && clients[i].pc != Committed && c.op == clients[i].op
    ensures CommittedOps(clients[i := c]) == CommittedOps(clients)
            + (if c.pc == Committed then multiset{c.op} else multiset{})
  {
    var n := |clients| - 1;
    if i < n {
      CommittedOpsUpdate(clients[..n], i, c);
      assert clients[i := c][..n] == clients[..n][i := c];
    } else {
      assert clients[i := c][..n] == clients[..n];
    }
  }

  /** A step changes at most the client that takes it, and logs an operation exactly when that client commits. */
  lemma StepTouchesOneClient(st: State, step: Step)
    requires !step.StatusUpdate? && step.client < |st.clients|
    ensures var i, next := step.client, Next(st, step);
            && (st.clients[i].pc == Committed || st.clients[i].pc == GaveUp ==> next == st)
            && |next.clients| == |st.clients|
            && next.clients == st.clients[i := next.clients[i]] && next.clients[i].op == st.clients[i].op
            && (st.clients[i].pc != Committed ==>
                  next.log == if next.clients[i].pc == Committed then st.log + [st.clients[i].op] else st.log)
  {
  }

  lemma StepLogsOnce(st: State, step: Step)
    requires LoggedOnce(st)
    ensures LoggedOnce(Next(st, step))
  {
    if !step.StatusUpdate? && step.client < |st.clients| {
      var i, next := step.client, Next(st, step);
      StepTouchesOneClient(st, step);
      if st.clients[i].pc != Committed {
        CommittedOpsUpdate(st.clients, i, next.clients[i]);
        assert multiset(st.log + [st.clients[i].op]) == multiset(st.log) + multiset{st.clients[i].op};
      }
    }
  }

  lemma {:induction false} FoldIsUnique(log: seq<Op>)
    ensures UniqueNames(Fold(log))
  {
    if log != [] {
      FoldIsUnique(log[..|log| - 1]);
      match log[|log| - 1]
      case Put(e) => UpsertKeepsUnique(Fold(log[..|log| - 1]), e);
      case Drop(name) => RemoveKeepsUnique(Fold(log[..|log| - 1]), name);
    }
  }

  /** No step of the run is a stale delete. */
  predicate NoStaleDelete(st: State, steps: seq<Step>) {
    steps == [] ||
    (NoStaleDelete(st, steps[..|steps| - 1]) && !StaleDelete(Run(st, steps[..|steps| - 1]), steps[|steps| - 1]))
  }

  lemma {:induction false} InitialInvariant(ops: seq<Op>)
    ensures var st := Initial(ops); VersionsSound(st) && NothingLost(st) && LoggedOnce(st)
  {
    NoneCommitted(InitialClients(ops));
  }

  lemma {:induction false} NoneCommitted(clients: seq<Client>)
    requires forall i :: 0 <= i < |clients| ==> clients[i].pc != Committed
    ensures CommittedOps(clients) == multiset{}
  {
    if clients != [] { NoneCommitted(clients[..|clients| - 1]); }
  }

  lemma {:induction false} RunKeepsLog(ops: seq<Op>, steps: seq<Step>)
    ensures var st := Run(Initial(ops), steps); VersionsSound(st) && LoggedOnce(st)
  {
    if steps == [] {
      InitialInvariant(ops);
    } else {
      RunKeepsLog(ops, steps[..|steps| - 1]);
      var st := Run(Initial(ops), steps[..|steps| - 1]);
      StepKeepsVersions(st, steps[|steps| - 1]);
      StepLogsOnce(st, steps[|steps| - 1]);
    }
  }

  /**
    No lost updates, over every interleaving of any number of Reserve and
    Unreserve calls and agent status writes: the stored list is the fold, in
    commit order, of exactly the operations whose callers committed, and entry
    names stay unique.
  */
  lemma {:induction false} NoLostUpdates(ops: seq<Op>, steps: seq<Step>)
    requires NoStaleDelete(Initial(ops), steps)
    ensures var st := Run(Initial(ops), steps);
            NothingLost(st) && LoggedOnce(st) && UniqueNames(Stored(st))
  {
    RunKeepsLog(ops, steps);
    if steps == [] {
      InitialInvariant(ops);
    } else {
      var front := steps[..|steps| - 1];
      NoLostUpdates(ops, front);
      RunKeepsLog(ops, front);
      NothingLostExactly(Run(Initial(ops), front), steps[|steps| - 1]);
    }
    FoldIsUnique(Run(Initial(ops), steps).log);
  }

  /** A failed attempt leaves the ledger and the log as they were. */
  lemma ConflictChangesNothing(st: State, i: nat)
    requires i < |st.clients| && st.clients[i].pc.HasRead?
    requires WriteStep(st, i).clients[i].pc != Committed
    ensures WriteStep(st, i).ledger == st.ledger && WriteStep(st, i).log == st.log
  {
  }

  // ---- A run that loses a reservation --------------------------------------

  lemma RunSnoc(st: State, steps: seq<Step>, step: Step)
    ensures Run(st, steps + [step]) == Next(Run(st, steps), step)
  {
    assert (steps + [step])[..|steps|] == steps;
  }

  /** `a` is reserved, then Unreserve of `a` reads, and Reserve of `b` reads, both before either writes. */
  function RaceStart(a: Entry, b: Entry): State { Initial([Put(a), Put(b), Drop(a.name)]) }

  const RACE_READS: seq<Step> := [Get(0)] + [Write(0)] + [Get(2)] + [Get(1)]

  /** `b` is committed, and then the delete goes through. */
  const RACE: seq<Step> := RACE_READS + [Write(1)] + [Write(2)]

  /** The three clients at given positions. */
  function Racers(a: Entry, b: Entry, x: Pc, y: Pc, z: Pc): seq<Client> {
    [Client(Put(a), x, 0), Client(Put(b), y, 0), Client(Drop(a.name), z, 0)]
  }

  lemma RaceReads(a: Entry, b: Entry)
    ensures var seen := Some(Object(0, [a]));
            Run(RaceStart(a, b), RACE_READS) == State(seen, 1, Racers(a, b, Committed, HasRead(seen), HasRead(seen)),
                [Put(a)])
  {
    var start := RaceStart(a, b);
    var seen := Some(Object(0, [a]));
    assert start == State(None, 0, Racers(a, b, Idle, Idle, Idle), []);
    RunSnoc(start, [], Get(0));
    assert Next(start, Get(0)) == State(None, 0, Racers(a, b, HasRead(None), Idle, Idle), []);
    RunSnoc(start, [] + [Get(0)], Write(0));
    assert Run(start, [] + [Get(0)] + [Write(0)]) == State(seen, 1, Racers(a, b, Committed, Idle, Idle), [Put(a)]);
    RunSnoc(start, [] + [Get(0)] + [Write(0)], Get(2));
    RunSnoc(start, [] + [Get(0)] + [Write(0)] + [Get(2)], Get(1));
    assert [] + [Get(0)] == [Get(0)];
  }

  lemma RemoveOnly(a: Entry, b: Entry)
    requires a.name != b.name
    ensures Remove([a], a.name) == [] && Remove([a, b], a.name) == [b] && Upsert([a], b) == [a, b]
  {
    assert [a][..0] == [] && [a, b][..1] == [a] && [a][1..] == [];
  }

  /**
    The unconditional delete can lose a reservation, in this run of three
    callers: Reserve of `a` commits, Unreserve of `a` reads the ledger with
    `a` alone, Reserve of `b` commits, and the delete then drops both. `b` was
    committed and never removed, yet nothing is stored.
  */
  lemma StaleDeleteLosesReservation(a: Entry, b: Entry)
    requires a.name != b.name
    ensures var st := Run(RaceStart(a, b), RACE);
            && Stored(st) == [] && Fold(st.log) == [b] && !NothingLost(st)
            && st.clients == Racers(a, b, Committed, Committed, Committed) && st.log == [Put(a), Put(b), Drop(a.name)]
  {
    var start := RaceStart(a, b);
    var seen := Some(Object(0, [a]));
    RaceReads(a, b);
    RemoveOnly(a, b);
    RunSnoc(start, RACE_READS, Write(1));
    var both := State(Some(Object(1, [a, b])), 2, Racers(a, b, Committed, Committed, HasRead(seen)), [Put(a)]
        + [Put(b)]);
    assert Run(start, RACE_READS + [Write(1)]) == both;
    RunSnoc(start, RACE_READS + [Write(1)], Write(2));
    assert Next(both, Write(2)) == State(None, 3, Racers(a, b, Committed, Committed, Committed), [Put(a)] + [Put(b)]
        + [Drop(a.name)]);
    FoldSnoc([], Put(a));
    FoldSnoc([Put(a)], Put(b));
    FoldSnoc([Put(a)] + [Put(b)], Drop(a.name));
    assert [] + [Put(a)] == [Put(a)];
  }
}
