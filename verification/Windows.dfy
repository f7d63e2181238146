/**
  Time windows as the central scheduler and the node agent read them.

  The two sides parse clock strings differently: the agent calls
  time.Parse("15:04", ...), the scheduler splits on ':' and calls Atoi.
*/
module Windows {
  import opened Text

  const MINUTES_PER_DAY := 1440

  type Minute = m: int | 0 <= m < 1440 witness 0

  /** What a wall clock shows in each zone name at one instant ("" is the agent's own zone). */
  type ZoneClock = string -> Minute

  datatype TimeWindow = TimeWindow(name: string, start: string, end: string, timezone: string)

  // ---- Clock strings -------------------------------------------------------

  predicate IsDigit(c: char) { '0' <= c <= '9' }

  function DigitValue(c: char): int
    requires IsDigit(c)
  {
    c as int - '0' as int
  }

  predicate AllDigits(s: string) { forall c <- s :: IsDigit(c) }

  function Decimal(s: string): (r: int)
    requires AllDigits(s)
    ensures r >= 0
  {
    if s == "" then 0 else 10 * Decimal(s[..|s| - 1]) + DigitValue(s[|s| - 1])
  }

  /** strconv.Atoi: an optional sign, then one or more digits. */
  function Atoi(s: string): Option<int> {
    var digits := if s != "" && (s[0] == '-' || s[0] == '+') then s[1..] else s;
    if digits == "" || !AllDigits(digits) then None
    else if s[0] == '-' then Some(-Decimal(digits))
    else Some(Decimal(digits))
  }

  function CombineHHMM(hour: Option<int>, minute: Option<int>): (r: Option<int>)
    ensures r.Some? ==> 0 <= r.value < MINUTES_PER_DAY
  {
    if hour.Some? && minute.Some? && 0 <= hour.value <= 23 && 0 <= minute.value <= 59
    then Some(hour.value * 60 + minute.value)
    else None
  }

  /** First position of `c` in `s`, or |s|. */
  function IndexOf(s: string, c: char): (i: nat)
    ensures i <= |s|
  {
    if s == "" || s[0] == c then 0 else 1 + IndexOf(s[1..], c)
  }

  lemma {:induction false} IndexOfFirst(s: string, c: char, i: nat)
    requires i < |s| && s[i] == c && forall k :: 0 <= k < i ==> s[k] != c
    ensures IndexOf(s, c) == i
  {
    if i > 0 { IndexOfFirst(s[1..], c, i - 1); }
  }

  /** The scheduler's reading: exactly two ':'-separated integers. */
  function CentralMinute(s: string): (r: Option<int>)
    ensures r.Some? ==> 0 <= r.value < MINUTES_PER_DAY
  {
    var i := IndexOf(s, ':');
    if i == |s| || ':' in s[i + 1..] then None
    else CombineHHMM(Atoi(s[..i]), Atoi(s[i + 1..]))
  }

  /** One or two digits, a colon, two digits: the strings the layout "15:04" matches. */
  predicate ClockShaped(s: string) {
    && (|s| == 4 || |s| == 5)
    && s[|s| - 3] == ':'
    && AllDigits(s[..|s| - 3])
    && AllDigits(s[|s| - 2..])
  }

  /** The agent's reading. */
  function AgentMinute(s: string): (r: Option<int>)
    ensures r.Some? ==> 0 <= r.value < MINUTES_PER_DAY
  {
    if !ClockShaped(s) then None
    else CombineHHMM(Some(Decimal(s[..|s| - 3])), Some(Decimal(s[|s| - 2..])))
  }

  lemma AtoiOfDigits(s: string)
    requires s != "" && AllDigits(s)
    ensures Atoi(s) == Some(Decimal(s))
  {
    assert IsDigit(s[0]);
  }

  /** On clock-shaped strings both sides read the same minute. */
  lemma ClockShapedReadsAlike(s: string)
    requires ClockShaped(s)
    ensures CentralMinute(s) == AgentMinute(s)
  {
    var k := |s| - 3;
    assert forall j :: 0 <= j < k ==> s[j] != ':' by {
      forall j | 0 <= j < k ensures s[j] != ':' { assert s[..k][j] == s[j]; assert IsDigit(s[..k][j]); }
    }
    IndexOfFirst(s, ':', k);
    assert s[k + 1..] == s[|s| - 2..];
    assert ':' !in s[k + 1..] by { assert AllDigits(s[|s| - 2..]); }
    AtoiOfDigits(s[..k]);
    AtoiOfDigits(s[k + 1..]);
  }

  predicate AllZeros(s: string) { forall i :: 0 <= i < |s| ==> s[i] == '0' }

  /** All but the last two characters. */
  function Lead(s: string): string { if |s| > 2 then s[..|s| - 2] else "" }

  /** The last two digits of a text, read as a number. */
  function LastTwo(s: string): int
    requires s != "" && AllDigits(s)
  {
    DigitValue(s[|s| - 1]) + (if |s| > 1 then 10 * DigitValue(s[|s| - 2]) else 0)
  }

  /**
    A text of digits for a number up to `limit`: any number of leading zeros,
    then at most two digits, after an optional plus sign, or a minus sign if
    all digits are zero.
  */
  predicate Numeral(s: string, limit: int) {
    var digits := if s != "" && (s[0] == '-' || s[0] == '+') then s[1..] else s;
    && digits != "" && AllDigits(digits)
    && AllZeros(Lead(digits))
    && LastTwo(digits) <= limit
    && (s[0] == '-' ==> AllZeros(digits))
  }

  /** One colon between a numeral up to 23 and a numeral up to 59. */
  ghost predicate Readable(s: string) {
    exists i :: 0 <= i < |s| && s[i] == ':' && ':' !in s[..i] && ':' !in s[i + 1..] && Numeral(s[..i], 23)
        && Numeral(s[i + 1..], 59)
  }

  lemma {:induction false} ZeroIsZeros(s: string)
    requires AllDigits(s)
    ensures Decimal(s) == 0 <==> AllZeros(s)
  {
    if s != "" {
      var front, last := s[..|s| - 1], s[|s| - 1];
      ZeroIsZeros(front);
      assert IsDigit(last);
      assert DigitValue(last) == 0 ==> !(last > '0');
      assert s == front + [last];
      if AllZeros(s) {
        forall i | 0 <= i < |front| ensures front[i] == '0' { assert front[i] == s[i]; }
      }
    }
  }

  lemma DecimalByTwo(s: string)
    requires s != "" && AllDigits(s)
    ensures AllDigits(Lead(s)) && Decimal(s) == 100 * Decimal(Lead(s)) + LastTwo(s)
    ensures 0 <= LastTwo(s)
  {
    assert IsDigit(s[|s| - 1]);
    if |s| == 1 {
      assert s[..0] == "";
    } else {
      assert IsDigit(s[|s| - 2]);
      var front := s[..|s| - 1];
      assert front[..|front| - 1] == s[..|s| - 2] && front[|front| - 1] == s[|s| - 2];
      assert Decimal(front) == 10 * Decimal(s[..|s| - 2]) + DigitValue(s[|s| - 2]);
      assert Lead(s) == s[..|s| - 2];
    }
  }

  lemma SmallDecimal(s: string, limit: int)
    requires s != "" && AllDigits(s) && 0 <= limit <= 99
    ensures Decimal(s) <= limit <==> AllZeros(Lead(s)) && LastTwo(s) <= limit
  {
    DecimalByTwo(s);
    ZeroIsZeros(Lead(s));
  }

  /** Atoi yields a number from 0 to `limit` exactly on numerals. */
  lemma AtoiExactly(s: string, limit: int)
    requires 0 <= limit <= 99
    ensures (Atoi(s).Some? && 0 <= Atoi(s).value <= limit) <==> Numeral(s, limit)
  {
    var digits := if s != "" && (s[0] == '-' || s[0] == '+') then s[1..] else s;
    if digits != "" && AllDigits(digits) {
      SmallDecimal(digits, limit);
      ZeroIsZeros(digits);
      if AllZeros(digits) { assert Decimal(digits) == 0; }
    }
  }

  lemma {:induction false} NotBefore(s: string, c: char)
    ensures c !in s[..IndexOf(s, c)] && (IndexOf(s, c) < |s| ==> s[IndexOf(s, c)] == c)
  {
    if s != "" && s[0] != c {
      NotBefore(s[1..], c);
      var i := IndexOf(s, c);
      assert s[..i] == [s[0]] + s[1..][..i - 1];
    }
  }

  lemma OnlyColon(s: string, i: nat)
    requires i < |s| && s[i] == ':' && ':' !in s[..i]
    ensures IndexOf(s, ':') == i
  {
    forall k | 0 <= k < i ensures s[k] != ':' { assert s[k] in s[..i]; }
    IndexOfFirst(s, ':', i);
  }

  /** The scheduler reads exactly the texts of that shape. */
  lemma CentralReadsExactly(s: string)
    ensures CentralMinute(s).Some? <==> Readable(s)
  {
    var i := IndexOf(s, ':');
    NotBefore(s, ':');
    if i < |s| {
      AtoiExactly(s[..i], 23);
      AtoiExactly(s[i + 1..], 59);
    }
    if Readable(s) {
      var k :| 0 <= k < |s| && s[k] == ':' && ':' !in s[..k] && ':' !in s[k + 1..] && Numeral(s[..k], 23)
          && Numeral(s[k + 1..], 59);
      OnlyColon(s, k);
    }
  }

  /**
    The two parsers agree exactly on the texts that are clock-shaped or not of
    the wider shape the scheduler reads. They disagree on the rest of that
    shape: one-digit minutes, signs, extra zeros, as in "9:5" or "+009:00".
  */
  lemma ParsersAgreeExactly(s: string)
    ensures CentralMinute(s) == AgentMinute(s) <==> ClockShaped(s) || !Readable(s)
  {
    CentralReadsExactly(s);
    if ClockShaped(s) { ClockShapedReadsAlike(s); }
  }

  lemma ParsersDisagreeOnShortMinutes()
    ensures CentralMinute("9:5") == Some(545) && AgentMinute("9:5") == None
  {
    assert IndexOf("9:5", ':') == 1 by { assert "9:5"[1..] == ":5"; }
    assert "9:5"[..1] == "9" && "9:5"[2..] == "5";
    assert Decimal("9") == 9 by { assert "9"[..0] == ""; }
    assert Decimal("5") == 5 by { assert "5"[..0] == ""; }
  }

  // ---- Membership ----------------------------------------------------------

  /** Agent: half-open window; equal ends mean the whole day; a late start wraps over midnight. */
  predicate MinuteInWindow(current: int, start: int, end: int) {
    if start == end then true
    else if start < end then start <= current < end
    else start <= current || current < end
  }

  predicate AgentWindowContains(w: TimeWindow, minute: int) {
    && AgentMinute(w.start).Some?
    && AgentMinute(w.end).Some?
    && MinuteInWindow(minute, AgentMinute(w.start).value, AgentMinute(w.end).value)
  }

  predicate AgentContains(windows: seq<TimeWindow>, minute: int) {
    exists w <- windows :: AgentWindowContains(w, minute)
  }

  datatype Interval = Interval(start: int, end: int)

  /** Scheduler: the same window as one or two intervals of the day; none if a string does not parse. */
  function WindowIntervals(w: TimeWindow): seq<Interval> {
    SplitDay(CentralMinute(w.start), CentralMinute(w.end))
  }

  function SplitDay(start: Option<int>, end: Option<int>): seq<Interval> {
    if start.None? || end.None? then []
    else if start.value == end.value then [Interval(0, MINUTES_PER_DAY)]
    else if start.value < end.value then [Interval(start.value, end.value)]
    else [Interval(start.value, MINUTES_PER_DAY), Interval(0, end.value)]
  }

  predicate IntervalContains(i: Interval, minute: int) { i.start <= minute < i.end }

  predicate AnyIntervalContains(s: seq<Interval>, minute: int) {
    exists k :: 0 <= k < |s| && IntervalContains(s[k], minute)
  }

  predicate CentralWindowContains(w: TimeWindow, minute: int) {
    AnyIntervalContains(WindowIntervals(w), minute)
  }

  /** The parsed form of a window list, one entry per window. */
  function IntervalLists(windows: seq<TimeWindow>): (lists: seq<seq<Interval>>)
    ensures |lists| == |windows|
  {
    if windows == [] then [] else IntervalLists(windows[..|windows| - 1]) + [WindowIntervals(windows[|windows| - 1])]
  }

  lemma {:induction false} IntervalListsAt(windows: seq<TimeWindow>, k: nat)
    requires k < |windows|
    ensures IntervalLists(windows)[k] == WindowIntervals(windows[k])
  {
    if k < |windows| - 1 { IntervalListsAt(windows[..|windows| - 1], k); }
  }

  predicate AnyListContains(lists: seq<seq<Interval>>, minute: int) {
    exists k :: 0 <= k < |lists| && AnyIntervalContains(lists[k], minute)
  }

  predicate CentralContains(windows: seq<TimeWindow>, minute: int) {
    AnyListContains(IntervalLists(windows), minute)
  }

  /** Both clock strings of every window are ones the two parsers read alike. */
  predicate ReadAlike(windows: seq<TimeWindow>) {
    forall w <- windows ::
      CentralMinute(w.start) == AgentMinute(w.start) && CentralMinute(w.end) == AgentMinute(w.end)
  }

  /** A window that ends when it starts lasts all day. */
  lemma FullDayContains(w: TimeWindow, minute: Minute)
    requires CentralMinute(w.start).Some? && CentralMinute(w.end) == CentralMinute(w.start)
    ensures CentralContains([w], minute)
  {
    IntervalListsAt([w], 0);
    assert IntervalContains(WindowIntervals(w)[0], minute);
    assert AnyIntervalContains(IntervalLists([w])[0], minute);
  }

  lemma SplitDayContains(start: int, end: int, minute: Minute)
    requires 0 <= start < MINUTES_PER_DAY && 0 <= end < MINUTES_PER_DAY
    ensures AnyIntervalContains(SplitDay(Some(start), Some(end)), minute) <==> MinuteInWindow(minute, start, end)
  {
    var s := SplitDay(Some(start), Some(end));
    if start > end {
      assert IntervalContains(s[0], minute) || IntervalContains(s[1], minute) <==> MinuteInWindow(minute, start, end);
    } else {
      assert IntervalContains(s[0], minute) <==> MinuteInWindow(minute, start, end);
    }
  }

  /** Interval splitting and the agent's wrap-around test describe the same minutes. */
  lemma WindowSemanticsAgree(w: TimeWindow, minute: Minute)
    requires ReadAlike([w])
    ensures CentralWindowContains(w, minute) <==> AgentWindowContains(w, minute)
  {
    assert w in [w];
    var start, end := CentralMinute(w.start), CentralMinute(w.end);
    if start.Some? && end.Some? { SplitDayContains(start.value, end.value, minute); }
  }

  lemma WindowListsAgree(windows: seq<TimeWindow>, minute: Minute)
    requires ReadAlike(windows)
    ensures CentralContains(windows, minute) <==> AgentContains(windows, minute)
  {
    var lists := IntervalLists(windows);
    forall k | 0 <= k < |windows|
      ensures AnyIntervalContains(lists[k], minute) <==> AgentWindowContains(windows[k], minute)
    {
      IntervalListsAt(windows, k);
      WindowSemanticsAgree(windows[k], minute);
    }
  }

  method SearchIntervals(s: seq<Interval>, minute: int) returns (found: bool)
    ensures found <==> AnyIntervalContains(s, minute)
  {
    for j := 0 to |s|
      invariant forall k :: 0 <= k < j ==> !IntervalContains(s[k], minute)
    {
      if minute >= s[j].start && minute < s[j].end {
        assert IntervalContains(s[j], minute);
        return true;
      }
    }
    return false;
  }

  /** The outer loop of the search, over the intervals of each window. */
  method SearchLists(lists: seq<seq<Interval>>, minute: int) returns (found: bool)
    ensures found <==> AnyListContains(lists, minute)
  {
    for i := 0 to |lists|
      invariant forall k :: 0 <= k < i ==> !AnyIntervalContains(lists[k], minute)
    {
      var hit := SearchIntervals(lists[i], minute);
      if hit { return true; }
    }
    return false;
  }

  /** hourInTimeWindows: nested search over windows and intervals. */
  method HourInTimeWindows(windows: seq<TimeWindow>, hour: int) returns (found: bool)
    ensures found <==> 0 <= hour <= 23 && CentralContains(windows, hour * 60)
  {
    if hour < 0 || hour > 23 { return false; }
    found := SearchLists(IntervalLists(windows), hour * 60);
  }

  // ---- Overlap -------------------------------------------------------------

  /** An interval that a split day can produce. */
  predicate DayInterval(i: Interval) {
    0 <= i.start <= i.end <= MINUTES_PER_DAY && (i.start == i.end ==> i.start == 0)
  }

  predicate DayIntervals(s: seq<Interval>) { forall k :: 0 <= k < |s| ==> DayInterval(s[k]) }

  ghost predicate CommonMinute(a: seq<Interval>, b: seq<Interval>) {
    exists m: Minute :: AnyIntervalContains(a, m) && AnyIntervalContains(b, m)
  }

  /** Two intervals of the day pass the meeting test exactly when they share a minute. */
  lemma MeetMeansCommonMinute(a: Interval, b: Interval)
    requires DayInterval(a) && DayInterval(b)
    ensures (a.start < b.end && b.start < a.end)
       <==> exists m: Minute :: IntervalContains(a, m) && IntervalContains(b, m)
  {
    if a.start < b.end && b.start < a.end {
      var m: Minute := if a.start < b.start then b.start else a.start;
      assert IntervalContains(a, m) && IntervalContains(b, m);
    }
  }

  /** intervalsOverlap. */
  method IntervalsOverlap(left: seq<Interval>, right: seq<Interval>) returns (meet: bool)
    requires DayIntervals(left) && DayIntervals(right)
    ensures meet <==> CommonMinute(left, right)
  {
    for i := 0 to |left|
      invariant !CommonMinute(left[..i], right)
    {
      for j := 0 to |right|
        invariant forall q, m: Minute :: 0 <= q < j && IntervalContains(left[i], m) ==> !IntervalContains(right[q], m)
      {
        MeetMeansCommonMinute(left[i], right[j]);
        if left[i].start < right[j].end && right[j].start < left[i].end {
          ghost var m: Minute :| IntervalContains(left[i], m) && IntervalContains(right[j], m);
          assert AnyIntervalContains(left, m) && AnyIntervalContains(right, m);
          return true;
        }
      }
    }
    assert left[..|left|] == left;
    return false;
  }

  predicate DayLists(lists: seq<seq<Interval>>) { forall k :: 0 <= k < |lists| ==> DayIntervals(lists[k]) }

  lemma SplitDayOfDay(start: Option<int>, end: Option<int>)
    requires start.Some? ==> 0 <= start.value < MINUTES_PER_DAY
    requires end.Some? ==> 0 <= end.value < MINUTES_PER_DAY
    ensures DayIntervals(SplitDay(start, end))
  {
  }

  lemma IntervalListsOfDay(windows: seq<TimeWindow>)
    ensures DayLists(IntervalLists(windows))
  {
    forall k | 0 <= k < |windows| ensures DayIntervals(IntervalLists(windows)[k]) {
      IntervalListsAt(windows, k);
      SplitDayOfDay(CentralMinute(windows[k].start), CentralMinute(windows[k].end));
    }
  }

  ghost predicate ListsShareMinute(left: seq<seq<Interval>>, right: seq<seq<Interval>>) {
    exists m: Minute :: AnyListContains(left, m) && AnyListContains(right, m)
  }

  /** Some minute of the day lies in both window lists. */
  ghost predicate ShareMinute(left: seq<TimeWindow>, right: seq<TimeWindow>) {
    ListsShareMinute(IntervalLists(left), IntervalLists(right))
  }

  /** timeWindowsOverlap over the parsed lists. */
  method ListsOverlap(left: seq<seq<Interval>>, right: seq<seq<Interval>>) returns (overlap: bool)
    requires DayLists(left) && DayLists(right)
    ensures overlap <==> ListsShareMinute(left, right)
  {
    for i := 0 to |left|
      invariant forall p, q :: 0 <= p < i && 0 <= q < |right| ==> !CommonMinute(left[p], right[q])
    {
      for j := 0 to |right|
        invariant forall q :: 0 <= q < j ==> !CommonMinute(left[i], right[q])
      {
        var meet := IntervalsOverlap(left[i], right[j]);
        if meet {
          ghost var m: Minute :| AnyIntervalContains(left[i], m) && AnyIntervalContains(right[j], m);
          assert AnyListContains(left, m) && AnyListContains(right, m);
          return true;
        }
      }
    }
    return false;
  }

  /** timeWindowsOverlap: true exactly when some minute of the day lies in both lists. */
  method TimeWindowsOverlap(left: seq<TimeWindow>, right: seq<TimeWindow>) returns (overlap: bool)
    ensures overlap <==> ShareMinute(left, right)
  {
    IntervalListsOfDay(left);
    IntervalListsOfDay(right);
    overlap := ListsOverlap(IntervalLists(left), IntervalLists(right));
  }

  // ---- Whole-hour windows --------------------------------------------------

  predicate WholeHour(w: TimeWindow) {
    && (AgentMinute(w.start).Some? ==> AgentMinute(w.start).value % 60 == 0)
    && (AgentMinute(w.end).Some? ==> AgentMinute(w.end).value % 60 == 0)
  }

  predicate WholeHours(windows: seq<TimeWindow>) { forall w <- windows :: WholeHour(w) }

  /** With whole-hour boundaries the minute at which an hour starts decides the whole hour. */
  lemma WholeHourMembership(windows: seq<TimeWindow>, minute: Minute)
    requires WholeHours(windows)
    ensures AgentContains(windows, minute) <==> AgentContains(windows, minute / 60 * 60)
  {
    forall w | w in windows
      ensures AgentWindowContains(w, minute) <==> AgentWindowContains(w, minute / 60 * 60)
    {
      var start, end := AgentMinute(w.start), AgentMinute(w.end);
      if start.Some? && end.Some? {
        SameSideOfBoundary(start.value, minute);
        SameSideOfBoundary(end.value, minute);
      }
    }
  }

  lemma SameSideOfBoundary(boundary: int, minute: int)
    requires boundary % 60 == 0 && minute >= 0
    ensures boundary <= minute <==> boundary <= minute / 60 * 60
  {
  }
}
