/** Allocations as the node agent sees them, with the budgets and priorities derived from their specs. */
module Allocations {
  import opened Text
  import opened Resources
  import opened Windows

  datatype Request = Request(required: Option<Resource>, preferred: Option<Resource>, maximum: Option<Resource>)

  datatype Actions = Actions(reclaimable: bool, throttleable: bool, pauseable: bool, evictable: bool)

  /** Observed state of one allocation; `forecast` holds the hourly resource buckets. */
  datatype Status = Status(
    phase: string,
    observed: Option<Resource>,
    current: Option<Resource>,
    forecast: Option<seq<Resource>>)

  datatype Allocation = Allocation(
    namespace: string,
    name: string,
    created: Option<int>,
    labelPriority: string,
    workloadNames: seq<string>,
    workloadType: string,
    priority: string,
    windows: seq<TimeWindow>,
    request: Option<Request>,
    resources: Option<Resource>,
    actions: Option<Actions>,
    status: Status)

  // ---- Budgets -------------------------------------------------------------

  function RequiredBudget(a: Allocation): Resource {
    if a.request.Some? && a.request.value.required.Some? then a.request.value.required.value
    else if a.resources.Some? then a.resources.value
    else ZERO
  }

  function PreferredBudget(a: Allocation): Resource {
    if a.request.Some? && a.request.value.preferred.Some? then a.request.value.preferred.value
    else RequiredBudget(a)
  }

  function MaxBudget(a: Allocation): Resource {
    if a.request.Some? && a.request.value.maximum.Some? then a.request.value.maximum.value
    else PreferredBudget(a)
  }

  /** All three budgets are non-negative int32 records. */
  predicate WellFormed(a: Allocation) {
    IsBudget(RequiredBudget(a)) && IsBudget(PreferredBudget(a)) && IsBudget(MaxBudget(a))
  }

  predicate AllWellFormed(s: seq<Allocation>) { forall i :: 0 <= i < |s| ==> WellFormed(s[i]) }

  // ---- Priorities ----------------------------------------------------------

  const PRIORITY_RANKS: seq<(string, int)> := [("critical", 4), ("high", 3), ("medium", 2), ("low", 1)]

  function RankIn(table: seq<(string, int)>, priority: string): int {
    if table == [] then 0
    else if table[0].0 == priority then table[0].1
    else RankIn(table[1..], priority)
  }

  /** priorityRank, the same on both sides: case-insensitive, unknown names rank lowest. */
  function PriorityRank(priority: string): int { RankIn(PRIORITY_RANKS, ToLower(priority)) }

  lemma CriticalAndHigh()
    ensures PriorityRank("critical") == 4 && PriorityRank("high") == 3
  {
    assert ToLower("critical") == "critical" && ToLower("high") == "high";
  }

  lemma MediumAndLow()
    ensures PriorityRank("medium") == 2 && PriorityRank("low") == 1
  {
    assert ToLower("medium") == "medium" && ToLower("low") == "low";
  }

  lemma NamedRanks()
    ensures PriorityRank("critical") == 4 && PriorityRank("high") == 3
    ensures PriorityRank("medium") == 2 && PriorityRank("low") == 1
  {
    CriticalAndHigh();
    MediumAndLow();
  }

  /** The four names count in any case, in this order; every other text ranks below them. */
  lemma PriorityRankExactly(priority: string)
    ensures FoldsTo(priority, "critical") <==> PriorityRank(priority) == 4
    ensures FoldsTo(priority, "high") <==> PriorityRank(priority) == 3
    ensures FoldsTo(priority, "medium") <==> PriorityRank(priority) == 2
    ensures FoldsTo(priority, "low") <==> PriorityRank(priority) == 1
    ensures 0 <= PriorityRank(priority) <= 4
  {
    var p := ToLower(priority);
    var low := [("low", 1)];
    var medium := [("medium", 2)] + low;
    var high := [("high", 3)] + medium;
    assert PRIORITY_RANKS == [("critical", 4)] + high;
    RankInCons(("critical", 4), high, p);
    RankInCons(("high", 3), medium, p);
    RankInCons(("medium", 2), low, p);
    RankInCons(("low", 1), [], p);
    assert low == [("low", 1)] + [];
    assert |"critical"| == 8 && |"high"| == 4 && |"medium"| == 6 && |"low"| == 3;
  }

  lemma RankInCons(head: (string, int), rest: seq<(string, int)>, priority: string)
    ensures RankIn([head] + rest, priority) == if head.0 == priority then head.1 else RankIn(rest, priority)
  {
    assert ([head] + rest)[1..] == rest;
  }

  function PriorityOf(a: Allocation): string {
    if a.priority != "" then a.priority else a.labelPriority
  }

  function Rank(a: Allocation): int { PriorityRank(PriorityOf(a)) }

  /** The spec's priority decides the rank; the label only where the spec names none. */
  lemma LabelRanksUnnamed(a: Allocation)
    ensures a.priority != "" ==> Rank(a) == PriorityRank(a.priority)
    ensures a.priority == "" ==> Rank(a) == PriorityRank(a.labelPriority)
  {
  }

  // ---- Activity ------------------------------------------------------------

  /** Name of the first window that contains the current minute, or "". */
  function ActiveWindow(windows: seq<TimeWindow>, now: ZoneClock): string {
    if windows == [] then ""
    else if AgentWindowContains(windows[0], now(windows[0].timezone)) then windows[0].name
    else ActiveWindow(windows[1..], now)
  }

  predicate IsActive(a: Allocation, now: ZoneClock) { ActiveWindow(a.windows, now) != "" }

  predicate NamedWindows(windows: seq<TimeWindow>) { forall i :: 0 <= i < |windows| ==> windows[i].name != "" }

  /** Every zone the windows mention shows the same minute. */
  predicate ClockShows(windows: seq<TimeWindow>, now: ZoneClock, minute: Minute) {
    forall i :: 0 <= i < |windows| ==> now(windows[i].timezone) == minute
  }

  /** With named windows and one wall clock, being active is window membership. */
  lemma {:induction false} ActiveIsMembership(windows: seq<TimeWindow>, now: ZoneClock, minute: Minute)
    requires NamedWindows(windows) && ClockShows(windows, now, minute)
    ensures ActiveWindow(windows, now) != "" <==> AgentContains(windows, minute)
  {
    if windows != [] {
      ActiveIsMembership(windows[1..], now, minute);
      assert windows == [windows[0]] + windows[1..];
    }
  }

  /** The first window that contains the current minute. */
  predicate FirstOpen(windows: seq<TimeWindow>, now: ZoneClock, i: nat) {
    && i < |windows| && AgentWindowContains(windows[i], now(windows[i].timezone))
    && forall j :: 0 <= j < i ==> !AgentWindowContains(windows[j], now(windows[j].timezone))
  }

  /** An allocation is active exactly when the first window that contains the current minute has a name. */
  lemma {:induction false} ActiveExactly(windows: seq<TimeWindow>, now: ZoneClock)
    ensures ActiveWindow(windows, now) != "" <==> exists i: nat :: FirstOpen(windows, now, i) && windows[i].name != ""
  {
    if windows != [] {
      var rest := windows[1..];
      if AgentWindowContains(windows[0], now(windows[0].timezone)) {
        assert FirstOpen(windows, now, 0);
        forall i: nat | FirstOpen(windows, now, i) ensures i == 0 {}
      } else {
        ActiveExactly(rest, now);
        forall i: nat | FirstOpen(windows, now, i) ensures i > 0 && FirstOpen(rest, now, i - 1)
            && rest[i - 1] == windows[i] { LaterOpen(windows, now, i); }
        forall i: nat | FirstOpen(rest, now, i) ensures FirstOpen(windows, now, i + 1) && rest[i] == windows[i + 1] {
          EarlierShut(windows, now, i);
        }
      }
    }
  }

  lemma LaterOpen(windows: seq<TimeWindow>, now: ZoneClock, i: nat)
    requires windows != [] && !AgentWindowContains(windows[0], now(windows[0].timezone)) && FirstOpen(windows, now, i)
    ensures i > 0 && FirstOpen(windows[1..], now, i - 1)
  {
    var rest := windows[1..];
    forall j | 0 <= j < i - 1 ensures !AgentWindowContains(rest[j], now(rest[j].timezone)) {
      assert rest[j] == windows[j + 1];
    }
  }

  lemma EarlierShut(windows: seq<TimeWindow>, now: ZoneClock, i: nat)
    requires windows != [] && !AgentWindowContains(windows[0], now(windows[0].timezone))
             && FirstOpen(windows[1..], now, i)
    ensures FirstOpen(windows, now, i + 1)
  {
    forall j | 0 <= j < i + 1 ensures !AgentWindowContains(windows[j], now(windows[j].timezone)) {
      if j > 0 { assert windows[j] == windows[1..][j - 1]; }
    }
  }

  /** The active window reported is the name of the first open one, or nothing. */
  lemma {:induction false} ActiveWindowIsFirstOpen(windows: seq<TimeWindow>, now: ZoneClock)
    ensures forall i: nat :: FirstOpen(windows, now, i) ==> ActiveWindow(windows, now) == windows[i].name
    ensures (forall i: nat :: !FirstOpen(windows, now, i)) ==> ActiveWindow(windows, now) == ""
  {
    if windows != [] {
      var rest := windows[1..];
      if AgentWindowContains(windows[0], now(windows[0].timezone)) {
        assert FirstOpen(windows, now, 0);
      } else {
        ActiveWindowIsFirstOpen(rest, now);
        forall i: nat | FirstOpen(windows, now, i) ensures i > 0 && FirstOpen(rest, now, i - 1)
            && rest[i - 1] == windows[i] {
          LaterOpen(windows, now, i);
        }
        forall i: nat | FirstOpen(rest, now, i) ensures FirstOpen(windows, now, i + 1) && rest[i] == windows[i + 1] {
          EarlierShut(windows, now, i);
        }
      }
    }
  }

  /** An open window without a name masks a named one behind it. */
  lemma UnnamedWindowMasks(unnamed: TimeWindow, named: TimeWindow, now: ZoneClock)
    requires unnamed.name == "" && named.name != ""
    requires AgentWindowContains(unnamed, now(unnamed.timezone)) && AgentWindowContains(named, now(named.timezone))
    ensures ActiveWindow([unnamed, named], now) == "" && ActiveWindow([named, unnamed], now) == named.name
  {
  }

  // ---- Local order ---------------------------------------------------------

  /** Creation order: an absent timestamp sorts last, ties are broken by name. */
  predicate OlderThan(a: Allocation, b: Allocation) {
    if a.created.Some? && b.created.Some? && a.created != b.created then a.created.value < b.created.value
    else if a.created.Some? && b.created.None? then true
    else if a.created.None? && b.created.Some? then false
    else StringLess(a.name, b.name)
  }

  /** The planner's comparator. */
  predicate Before(a: Allocation, b: Allocation, now: ZoneClock) {
    if Rank(a) != Rank(b) then Rank(a) > Rank(b)
    else if IsActive(a, now) != IsActive(b, now) then IsActive(a, now)
    else OlderThan(a, b)
  }

  lemma OlderThanStrict(a: Allocation, b: Allocation, c: Allocation)
    ensures !OlderThan(a, a)
    ensures OlderThan(a, b) && OlderThan(b, c) ==> OlderThan(a, c)
    ensures OlderThan(a, c) ==> OlderThan(a, b) || OlderThan(b, c)
  {
    StringLessIrreflexive(a.name);
    if StringLess(a.name, b.name) && StringLess(b.name, c.name) { StringLessTransitive(a.name, b.name, c.name); }
    if StringLess(a.name, c.name) && !StringLess(a.name, b.name) && !StringLess(b.name, c.name) {
      StringLessTotal(a.name, b.name);
      StringLessTotal(b.name, c.name);
      if StringLess(b.name, a.name) { StringLessTransitive(b.name, a.name, c.name); }
      if StringLess(c.name, b.name) { StringLessTransitive(a.name, c.name, b.name); }
    }
  }

  /** The comparator is a strict weak order: irreflexive, transitive, and incomparability is transitive. */
  lemma BeforeIsStrictWeakOrder(a: Allocation, b: Allocation, c: Allocation, now: ZoneClock)
    ensures !Before(a, a, now)
    ensures Before(a, b, now) && Before(b, c, now) ==> Before(a, c, now)
    ensures Before(a, c, now) ==> Before(a, b, now) || Before(b, c, now)
  {
    OlderThanStrict(a, b, c);
  }
}
