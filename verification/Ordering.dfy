/** Stable ordering of allocations and their grouping into runs of equal priority. */
module Ordering {
  import opened Text
  import opened Windows
  import opened Allocations

  // ---- Stable sort ---------------------------------------------------------

  /** Places `x` behind everything it does not precede. */
  function Insert(s: seq<Allocation>, x: Allocation, now: ZoneClock): (r: seq<Allocation>)
    ensures |r| == |s| + 1
  {
    if s == [] || !Before(x, s[|s| - 1], now) then s + [x]
    else Insert(s[..|s| - 1], x, now) + [s[|s| - 1]]
  }

  /** sort.SliceStable with the planner's comparator. */
  function Order(s: seq<Allocation>, now: ZoneClock): (r: seq<Allocation>)
    ensures |r| == |s|
  {
    if s == [] then [] else Insert(Order(s[..|s| - 1], now), s[|s| - 1], now)
  }

  lemma PairPermutes<T>(o: seq<T>, a: T, b: T)
    requires |o| == 2 && multiset(o) == multiset{a, b}
    ensures o == [a, b] || o == [b, a]
  {
    assert o == [o[0], o[1]];
    assert o[0] in multiset{a, b} && o[1] in multiset{a, b} && a in multiset(o) && b in multiset(o);
  }

  predicate Ordered(s: seq<Allocation>, now: ZoneClock) {
    forall i, j :: 0 <= i < j < |s| ==> !Before(s[j], s[i], now)
  }

  lemma MultisetOfSnoc<T>(s: seq<T>)
    requires s != []
    ensures multiset(s) == multiset(s[..|s| - 1]) + multiset{s[|s| - 1]}
  {
    assert s == s[..|s| - 1] + [s[|s| - 1]];
  }

  lemma {:induction false} InsertIsPermutation(s: seq<Allocation>, x: Allocation, now: ZoneClock)
    ensures multiset(Insert(s, x, now)) == multiset(s) + multiset{x}
  {
    if s != [] && Before(x, s[|s| - 1], now) {
      InsertIsPermutation(s[..|s| - 1], x, now);
      MultisetOfSnoc(s);
    }
  }

  lemma {:induction false} OrderIsPermutation(s: seq<Allocation>, now: ZoneClock)
    ensures multiset(Order(s, now)) == multiset(s)
  {
    if s != [] {
      OrderIsPermutation(s[..|s| - 1], now);
      InsertIsPermutation(Order(s[..|s| - 1], now), s[|s| - 1], now);
      MultisetOfSnoc(s);
    }
  }

  /** If `x` does not precede the last of an ordered list, it precedes none of it. */
  lemma LastDecides(s: seq<Allocation>, x: Allocation, now: ZoneClock)
    requires s != [] && Ordered(s, now) && !Before(x, s[|s| - 1], now)
    ensures forall i :: 0 <= i < |s| ==> !Before(x, s[i], now)
  {
    forall i | 0 <= i < |s| ensures !Before(x, s[i], now) {
      BeforeIsStrictWeakOrder(x, s[|s| - 1], s[i], now);
    }
  }

  lemma {:induction false} InsertElements(s: seq<Allocation>, x: Allocation, now: ZoneClock)
    ensures forall y :: y in Insert(s, x, now) ==> y == x || y in s
  {
    if s != [] && Before(x, s[|s| - 1], now) { InsertElements(s[..|s| - 1], x, now); }
  }

  lemma {:induction false} InsertKeepsOrdered(s: seq<Allocation>, x: Allocation, now: ZoneClock)
    requires Ordered(s, now)
    ensures Ordered(Insert(s, x, now), now)
  {
    if s == [] {
    } else if !Before(x, s[|s| - 1], now) {
      LastDecides(s, x, now);
    } else {
      var front, last := s[..|s| - 1], s[|s| - 1];
      InsertKeepsOrdered(front, x, now);
      InsertElements(front, x, now);
      BeforeIsStrictWeakOrder(x, last, x, now);
      var r := Insert(front, x, now);
      forall i | 0 <= i < |r| ensures !Before(last, r[i], now) {
        assert r[i] in r;
      }
    }
  }

  lemma {:induction false} OrderIsOrdered(s: seq<Allocation>, now: ZoneClock)
    ensures Ordered(Order(s, now), now)
  {
    if s != [] {
      OrderIsOrdered(s[..|s| - 1], now);
      InsertKeepsOrdered(Order(s[..|s| - 1], now), s[|s| - 1], now);
    }
  }

  /** `b` was not created before `a`, where a missing timestamp counts as last, and not named before it if that ties. */
  predicate NotOlder(a: Allocation, b: Allocation) {
    && (a.created.None? ==> b.created.None?)
    && (a.created.Some? && b.created.Some? ==> a.created.value <= b.created.value)
    && (a.created == b.created ==> !StringLess(b.name, a.name))
  }

  /**
    The planning order in its own terms: from one position to a later one,
    ranks do not rise; at equal rank no active allocation stands behind an
    inactive one; and at equal rank and activity none stands behind a younger
    one, or on a further tie behind one with a greater name.
  */
  lemma PlannedInOrder(s: seq<Allocation>, now: ZoneClock, i: nat, j: nat)
    requires i < j < |s|
    ensures var a, b := Order(s, now)[i], Order(s, now)[j];
            && Rank(a) >= Rank(b)
            && (Rank(a) == Rank(b) && IsActive(b, now) ==> IsActive(a, now))
            && (Rank(a) == Rank(b) && IsActive(a, now) == IsActive(b, now) ==> NotOlder(a, b))
  {
    OrderIsOrdered(s, now);
    assert !Before(Order(s, now)[j], Order(s, now)[i], now);
  }

  predicate Tied(a: Allocation, b: Allocation, now: ZoneClock) { !Before(a, b, now) && !Before(b, a, now) }

  /** The members of `s` the comparator cannot tell from `k`, in their order in `s`. */
  function TiedWith(s: seq<Allocation>, k: Allocation, now: ZoneClock): seq<Allocation> {
    if s == [] then []
    else TiedWith(s[..|s| - 1], k, now) + (if Tied(s[|s| - 1], k, now) then [s[|s| - 1]] else [])
  }

  lemma {:induction false} InsertIsStable(s: seq<Allocation>, x: Allocation, k: Allocation, now: ZoneClock)
    ensures TiedWith(Insert(s, x, now), k, now) == TiedWith(s, k, now) + (if Tied(x, k, now) then [x] else [])
  {
    if s == [] || !Before(x, s[|s| - 1], now) {
      assert (s + [x])[..|s|] == s;
    } else {
      var front, last := s[..|s| - 1], s[|s| - 1];
      InsertIsStable(front, x, k, now);
      var r := Insert(front, x, now);
      assert (r + [last])[..|r|] == r;
      BeforeIsStrictWeakOrder(x, k, last, now);
    }
  }

  /** Allocations that tie keep the order they came in. */
  lemma {:induction false} OrderIsStable(s: seq<Allocation>, k: Allocation, now: ZoneClock)
    ensures TiedWith(Order(s, now), k, now) == TiedWith(s, k, now)
  {
    if s != [] {
      OrderIsStable(s[..|s| - 1], k, now);
      InsertIsStable(Order(s[..|s| - 1], now), s[|s| - 1], k, now);
    }
  }

  lemma {:induction false} TiedWithElements(s: seq<Allocation>, k: Allocation, now: ZoneClock)
    ensures forall y :: y in TiedWith(s, k, now) <==> y in s && Tied(y, k, now)
  {
    if s != [] {
      TiedWithElements(s[..|s| - 1], k, now);
      assert s == s[..|s| - 1] + [s[|s| - 1]];
    }
  }

  ghost predicate SameTies(s: seq<Allocation>, t: seq<Allocation>, now: ZoneClock) {
    forall k :: TiedWith(s, k, now) == TiedWith(t, k, now)
  }

  lemma TiesWithItself(a: Allocation, now: ZoneClock)
    ensures Tied(a, a, now)
  {
    BeforeIsStrictWeakOrder(a, a, a, now);
  }

  lemma MemberNotBehindLast(s: seq<Allocation>, y: Allocation, now: ZoneClock)
    requires y in s && Ordered(s, now)
    ensures !Before(s[|s| - 1], y, now)
  {
    TiesWithItself(y, now);
  }

  lemma TiesShareMembers(s: seq<Allocation>, t: seq<Allocation>, y: Allocation, now: ZoneClock)
    requires y in t && SameTies(s, t, now)
    ensures y in s
  {
    TiesWithItself(y, now);
    TiedWithElements(t, y, now);
    TiedWithElements(s, y, now);
    assert TiedWith(s, y, now) == TiedWith(t, y, now);
  }

  lemma LastsAgree(s: seq<Allocation>, t: seq<Allocation>, now: ZoneClock)
    requires s != [] && t != [] && Ordered(s, now) && Ordered(t, now) && SameTies(s, t, now)
    ensures s[|s| - 1] == t[|t| - 1]
  {
    var x, y := s[|s| - 1], t[|t| - 1];
    TiesShareMembers(s, t, y, now);
    TiesShareMembers(t, s, x, now);
    MemberNotBehindLast(s, y, now);
    MemberNotBehindLast(t, x, now);
    TiesWithItself(x, now);
    var front := TiedWith(s[..|s| - 1], x, now);
    assert TiedWith(s, x, now) == TiedWith(t, x, now);
    assert TiedWith(s, x, now) == front + [x];
    assert TiedWith(t, x, now)[|front|] == y;
  }

  lemma EqualAppends<T>(p: seq<T>, q: seq<T>, tail: seq<T>)
    requires p + tail == q + tail
    ensures p == q
  {
    assert |p| == |q|;
    assert p == (p + tail)[..|p|] && q == (q + tail)[..|q|];
  }

  lemma DropLastTies(s: seq<Allocation>, t: seq<Allocation>, k: Allocation, now: ZoneClock)
    requires s != [] && t != [] && s[|s| - 1] == t[|t| - 1] && TiedWith(s, k, now) == TiedWith(t, k, now)
    ensures TiedWith(s[..|s| - 1], k, now) == TiedWith(t[..|t| - 1], k, now)
  {
    var tail := if Tied(s[|s| - 1], k, now) then [s[|s| - 1]] else [];
    EqualAppends(TiedWith(s[..|s| - 1], k, now), TiedWith(t[..|t| - 1], k, now), tail);
  }

  /** There is only one stable ordering: whatever algorithm the library uses, it returns `Order`. */
  lemma {:induction false} StableOrderIsUnique(s: seq<Allocation>, t: seq<Allocation>, now: ZoneClock)
    requires Ordered(s, now) && Ordered(t, now) && SameTies(s, t, now)
    ensures s == t
  {
    if s == [] {
      if t != [] { TiesShareMembers(s, t, t[0], now); }
    } else if t == [] {
      TiesShareMembers(t, s, s[0], now);
    } else {
      LastsAgree(s, t, now);
      var f, g := s[..|s| - 1], t[..|t| - 1];
      forall k ensures TiedWith(f, k, now) == TiedWith(g, k, now) {
        DropLastTies(s, t, k, now);
      }
      StableOrderIsUnique(f, g, now);
      assert s == f + [s[|s| - 1]] && t == g + [t[|t| - 1]];
    }
  }

  /** Any list that is ordered and keeps ties in input order is the planner's order. */
  lemma OrderIsTheStableSort(s: seq<Allocation>, t: seq<Allocation>, now: ZoneClock)
    requires Ordered(t, now) && SameTies(t, s, now)
    ensures t == Order(s, now)
  {
    OrderIsOrdered(s, now);
    forall k ensures TiedWith(t, k, now) == TiedWith(Order(s, now), k, now) {
      OrderIsStable(s, k, now);
      assert TiedWith(t, k, now) == TiedWith(s, k, now);
    }
    StableOrderIsUnique(t, Order(s, now), now);
  }

  // ---- Splitting by rank ---------------------------------------------------

  /** The allocations of rank at least `k`, in input order. */
  function High(s: seq<Allocation>, k: int): seq<Allocation> {
    if s == [] then []
    else High(s[..|s| - 1], k) + (if Rank(s[|s| - 1]) >= k then [s[|s| - 1]] else [])
  }

  /** The allocations of rank below `k`, in input order. */
  function Low(s: seq<Allocation>, k: int): seq<Allocation> {
    if s == [] then []
    else Low(s[..|s| - 1], k) + (if Rank(s[|s| - 1]) >= k then [] else [s[|s| - 1]])
  }

  predicate RanksAtLeast(s: seq<Allocation>, k: int) { forall i :: 0 <= i < |s| ==> Rank(s[i]) >= k }

  predicate RanksBelow(s: seq<Allocation>, k: int) { forall i :: 0 <= i < |s| ==> Rank(s[i]) < k }

  /** Inserting into a list with a known last element. */
  lemma InsertSnoc(s: seq<Allocation>, last: Allocation, x: Allocation, now: ZoneClock)
    ensures Insert(s + [last], x, now) == if Before(x, last, now) then Insert(s, x, now) + [last] else s + [last] + [x]
  {
    assert (s + [last])[..|s|] == s;
  }

  lemma Regroup<T>(a: seq<T>, b: seq<T>, c: seq<T>)
    ensures a + (b + c) == a + b + c
  {
  }

  lemma InsertBehindStep(h: seq<Allocation>, front: seq<Allocation>, last: Allocation, x: Allocation, now: ZoneClock)
    requires Insert(h + front, x, now) == h + Insert(front, x, now)
    ensures Insert(h + (front + [last]), x, now) == h + Insert(front + [last], x, now)
  {
    Regroup(h, front, [last]);
    InsertSnoc(h + front, last, x, now);
    InsertSnoc(front, last, x, now);
    Regroup(h, Insert(front, x, now), [last]);
    Regroup(h, front + [last], [x]);
  }

  /** What `x` does not precede stays in front of the place `x` is put in. */
  lemma {:induction false} InsertBehind(h: seq<Allocation>, l: seq<Allocation>, x: Allocation, now: ZoneClock)
    requires h == [] || !Before(x, h[|h| - 1], now)
    ensures Insert(h + l, x, now) == h + Insert(l, x, now)
  {
    if l == [] {
      assert h + l == h;
    } else {
      var front, last := l[..|l| - 1], l[|l| - 1];
      InsertBehind(h, front, x, now);
      InsertBehindStep(h, front, last, x, now);
      assert l == front + [last];
    }
  }

  lemma {:induction false} InsertKeepsLow(l: seq<Allocation>, x: Allocation, k: int, now: ZoneClock)
    requires RanksBelow(l, k) && Rank(x) < k
    ensures RanksBelow(Insert(l, x, now), k)
  {
    if l != [] && Before(x, l[|l| - 1], now) { InsertKeepsLow(l[..|l| - 1], x, k, now); }
  }

  lemma InsertAheadOfLast(h: seq<Allocation>, front: seq<Allocation>, last: Allocation, x: Allocation, now: ZoneClock)
    requires Before(x, last, now) && Insert(h + front, x, now) == Insert(h, x, now) + front
    ensures Insert(h + (front + [last]), x, now) == Insert(h, x, now) + (front + [last])
  {
    Regroup(h, front, [last]);
    InsertSnoc(h + front, last, x, now);
    Regroup(Insert(h, x, now), front, [last]);
  }

  lemma RankDecides(h: seq<Allocation>, l: seq<Allocation>, x: Allocation, k: int, now: ZoneClock)
    requires RanksAtLeast(h, k) && RanksBelow(l, k)
    ensures Rank(x) >= k ==> forall i :: 0 <= i < |l| ==> Before(x, l[i], now)
    ensures Rank(x) < k ==> forall i :: 0 <= i < |h| ==> !Before(x, h[i], now)
  {
  }

  /** What `x` precedes stays behind the place `x` is put in. */
  lemma {:induction false} InsertAhead(h: seq<Allocation>, l: seq<Allocation>, x: Allocation, now: ZoneClock)
    requires forall i :: 0 <= i < |l| ==> Before(x, l[i], now)
    ensures Insert(h + l, x, now) == Insert(h, x, now) + l
    decreases |l|
  {
    if l == [] {
      assert h + l == h;
    } else {
      var front, last := l[..|l| - 1], l[|l| - 1];
      InsertAhead(h, front, x, now);
      InsertAheadOfLast(h, front, last, x, now);
      assert l == front + [last];
    }
  }

  lemma {:induction false} InsertKeepsHigh(h: seq<Allocation>, x: Allocation, k: int, now: ZoneClock)
    requires RanksAtLeast(h, k) && Rank(x) >= k
    ensures RanksAtLeast(Insert(h, x, now), k)
  {
    if h != [] && Before(x, h[|h| - 1], now) { InsertKeepsHigh(h[..|h| - 1], x, k, now); }
  }

  /** Ordering everything puts the ordering of the high part first and that of the low part behind it. */
  lemma {:induction false} OrderSplitsByRank(s: seq<Allocation>, k: int, now: ZoneClock)
    ensures Order(s, now) == Order(High(s, k), now) + Order(Low(s, k), now)
    ensures RanksAtLeast(Order(High(s, k), now), k) && RanksBelow(Order(Low(s, k), now), k)
  {
    if s != [] {
      var front, x := s[..|s| - 1], s[|s| - 1];
      OrderSplitsByRank(front, k, now);
      var h, l := High(front, k), Low(front, k);
      RankDecides(Order(h, now), Order(l, now), x, k, now);
      if Rank(x) >= k {
        assert (h + [x])[..|h|] == h && l + [] == l;
        InsertAhead(Order(h, now), Order(l, now), x, now);
        InsertKeepsHigh(Order(h, now), x, k, now);
      } else {
        assert (l + [x])[..|l|] == l && h + [] == h;
        InsertBehind(Order(h, now), Order(l, now), x, now);
        InsertKeepsLow(Order(l, now), x, k, now);
      }
    }
  }

  // ---- Grouping ------------------------------------------------------------

  type Group = seq<Allocation>

  /** `x` joins the group of the element before it. */
  predicate Joins(front: seq<Allocation>, x: Allocation) {
    front != [] && PriorityOf(x) == PriorityOf(front[|front| - 1])
  }

  function Extend(g: seq<Group>, x: Allocation, join: bool): (r: seq<Group>)
    ensures r != []
  {
    if join && g != [] then g[..|g| - 1] + [g[|g| - 1] + [x]] else g + [[x]]
  }

  /** Maximal runs of equal priority strings. */
  function Groups(s: seq<Allocation>): (g: seq<Group>)
    ensures g == [] <==> s == []
  {
    if s == [] then []
    else Extend(Groups(s[..|s| - 1]), s[|s| - 1], Joins(s[..|s| - 1], s[|s| - 1]))
  }

  lemma GroupsSnoc(front: seq<Allocation>, x: Allocation)
    ensures Groups(front + [x]) == Extend(Groups(front), x, Joins(front, x))
  {
    assert (front + [x])[..|front|] == front;
  }

  lemma ExtendOpenGroup(done: seq<Group>, current: Group, x: Allocation)
    ensures Extend(done + [current], x, true) == done + [current + [x]]
    ensures Extend(done + [current], x, false) == done + [current] + [[x]]
  {
    assert (done + [current])[..|done|] == done;
  }

  /** groupAllocationsByPriority. */
  method GroupAllocationsByPriority(s: seq<Allocation>) returns (groups: seq<Group>)
    ensures groups == Groups(s)
  {
    if s == [] { return []; }
    groups := [];
    var currentPriority := PriorityOf(s[0]);
    var current: Group := [];
    for i := 0 to |s|
      invariant i == 0 ==> groups == [] && current == [] && currentPriority == PriorityOf(s[0])
      invariant i > 0 ==> groups + [current] == Groups(s[..i]) && currentPriority == PriorityOf(s[i - 1])
    {
      var priority := PriorityOf(s[i]);
      assert s[..i + 1] == s[..i] + [s[i]];
      GroupsSnoc(s[..i], s[i]);
      ExtendOpenGroup(groups, current, s[i]);
      assert i > 0 ==> Joins(s[..i], s[i]) == (priority == currentPriority);
      assert i == 0 ==> s[..i] == [] && Groups(s[..i + 1]) == [[s[i]]];
      if priority != currentPriority {
        groups := groups + [current];
        currentPriority := priority;
        current := [];
        assert current + [s[i]] == [s[i]];
      }
      current := current + [s[i]];
      assert i == 0 ==> groups + [current] == [[s[i]]];
    }
    assert s[..|s|] == s;
    groups := groups + [current];
  }

  function Flatten(g: seq<Group>): seq<Allocation> {
    if g == [] then [] else Flatten(g[..|g| - 1]) + g[|g| - 1]
  }

  lemma FlattenExtend(g: seq<Group>, x: Allocation, join: bool)
    ensures Flatten(Extend(g, x, join)) == Flatten(g) + [x]
  {
    if join && g != [] {
      assert Extend(g, x, join)[..|g| - 1] == g[..|g| - 1];
    } else {
      assert (g + [[x]])[..|g|] == g;
    }
  }

  /** Groups concatenate back to the list. */
  lemma {:induction false} GroupsFlatten(s: seq<Allocation>)
    ensures Flatten(Groups(s)) == s
  {
    if s != [] {
      var front, x := s[..|s| - 1], s[|s| - 1];
      assert s == front + [x];
      GroupsFlatten(front);
      GroupsSnoc(front, x);
      FlattenExtend(Groups(front), x, Joins(front, x));
    }
  }

  /** Non-empty, and every member has priority `p`. */
  predicate GroupOf(g: Group, p: string) { g != [] && forall i :: 0 <= i < |g| ==> PriorityOf(g[i]) == p }

  predicate Homogeneous(g: seq<Group>) { forall k :: 0 <= k < |g| ==> g[k] != [] && GroupOf(g[k], PriorityOf(g[k][0])) }

  lemma ExtendHomogeneous(g: seq<Group>, x: Allocation, join: bool)
    requires Homogeneous(g) && (join && g != [] ==> GroupOf(g[|g| - 1], PriorityOf(x)))
    ensures Homogeneous(Extend(g, x, join))
    ensures var r := Extend(g, x, join); GroupOf(r[|r| - 1], PriorityOf(x))
  {
  }

  /** Groups are non-empty and hold one priority each. */
  lemma {:induction false} GroupsHomogeneous(s: seq<Allocation>)
    ensures Homogeneous(Groups(s))
    ensures s != [] ==> var g := Groups(s); GroupOf(g[|g| - 1], PriorityOf(s[|s| - 1]))
  {
    if s != [] {
      var front, x := s[..|s| - 1], s[|s| - 1];
      GroupsHomogeneous(front);
      ExtendHomogeneous(Groups(front), x, Joins(front, x));
    }
  }

  lemma ExtendBehind(a: seq<Group>, b: seq<Group>, x: Allocation, join: bool)
    requires b == [] ==> a == [] || !join
    ensures Extend(a + b, x, join) == a + Extend(b, x, join)
  {
    if b == [] {
      assert a + b == a;
    } else {
      assert (a + b)[..|a + b| - 1] == a + b[..|b| - 1];
    }
  }

  lemma JoinsAcross(a: seq<Allocation>, front: seq<Allocation>, x: Allocation)
    requires front == [] && a != [] ==> PriorityOf(a[|a| - 1]) != PriorityOf(x)
    ensures Joins(a + front, x) == Joins(front, x)
  {
    if front == [] { assert a + front == a; }
  }

  /** A change of priority is always a group boundary. */
  lemma {:induction false} GroupsSplit(a: seq<Allocation>, b: seq<Allocation>)
    requires a != [] && b != [] ==> PriorityOf(a[|a| - 1]) != PriorityOf(b[0])
    ensures Groups(a + b) == Groups(a) + Groups(b)
    decreases |b|
  {
    if b == [] {
      assert a + b == a;
    } else {
      var front, x := b[..|b| - 1], b[|b| - 1];
      assert b == front + [x];
      assert a + b == (a + front) + [x];
      GroupsSplit(a, front);
      GroupsSnoc(a + front, x);
      GroupsSnoc(front, x);
      JoinsAcross(a, front, x);
      ExtendBehind(Groups(a), Groups(front), x, Joins(front, x));
    }
  }

  /** Equal rank means equal priority string. */
  predicate Canonical(s: seq<Allocation>) {
    forall i, j :: 0 <= i < |s| && 0 <= j < |s| && Rank(s[i]) == Rank(s[j]) ==> PriorityOf(s[i]) == PriorityOf(s[j])
  }

  predicate RanksDescend(s: seq<Allocation>) { forall i, j :: 0 <= i < j < |s| ==> Rank(s[i]) >= Rank(s[j]) }

  /** No two groups share a priority. */
  predicate DistinctGroups(g: seq<Group>) {
    forall i, j :: 0 <= i < j < |g| && g[i] != [] && g[j] != [] ==> PriorityOf(g[i][0]) != PriorityOf(g[j][0])
  }

  lemma {:induction false} FlattenMember(g: seq<Group>, k: nat, i: nat)
    requires k < |g| && i < |g[k]|
    ensures g[k][i] in Flatten(g)
  {
    if k < |g| - 1 { FlattenMember(g[..|g| - 1], k, i); }
  }

  lemma {:induction false} FlattenIndex(g: seq<Group>, j: nat) returns (k: nat, i: nat)
    requires j < |Flatten(g)|
    ensures k < |g| && i < |g[k]| && g[k][i] == Flatten(g)[j]
  {
    var front := g[..|g| - 1];
    if j < |Flatten(front)| {
      k, i := FlattenIndex(front, j);
    } else {
      k, i := |g| - 1, j - |Flatten(front)|;
    }
  }

  lemma NewPriorityIsFresh(front: seq<Allocation>, x: Allocation, k: nat)
    requires RanksDescend(front + [x]) && Canonical(front + [x])
    requires front != [] && !Joins(front, x) && k < |Groups(front)|
    ensures Groups(front)[k] != [] && PriorityOf(Groups(front)[k][0]) != PriorityOf(x)
  {
    var s := front + [x];
    GroupsFlatten(front);
    GroupsHomogeneous(front);
    FlattenMember(Groups(front), k, 0);
    var i :| 0 <= i < |front| && front[i] == Groups(front)[k][0];
    assert s[i] == front[i] && s[|s| - 2] == front[|front| - 1] && s[|s| - 1] == x;
    assert Rank(s[i]) >= Rank(s[|s| - 2]) >= Rank(x);
    assert PriorityOf(s[|s| - 2]) != PriorityOf(x);
  }

  lemma PrefixIsOrdered(s: seq<Allocation>)
    requires s != [] && RanksDescend(s) && Canonical(s)
    ensures RanksDescend(s[..|s| - 1]) && Canonical(s[..|s| - 1])
  {
  }

  lemma ExtendDistinct(g: seq<Group>, x: Allocation, join: bool)
    requires Homogeneous(g) && DistinctGroups(g)
    requires join || forall k :: 0 <= k < |g| ==> PriorityOf(g[k][0]) != PriorityOf(x)
    ensures DistinctGroups(Extend(g, x, join))
  {
    if join && g != [] {
      var r := Extend(g, x, join);
      assert forall k :: 0 <= k < |g| ==> r[k][0] == g[k][0];
    }
  }

  /** With canonical strings, each priority of an ordered list forms exactly one group. */
  lemma {:induction false} OneGroupPerPriority(s: seq<Allocation>)
    requires RanksDescend(s) && Canonical(s)
    ensures DistinctGroups(Groups(s))
  {
    if s != [] {
      var front, x := s[..|s| - 1], s[|s| - 1];
      PrefixIsOrdered(s);
      OneGroupPerPriority(front);
      GroupsHomogeneous(front);
      assert s == front + [x];
      if !Joins(front, x) {
        forall k | 0 <= k < |Groups(front)| ensures PriorityOf(Groups(front)[k][0]) != PriorityOf(x) {
          NewPriorityIsFresh(front, x, k);
        }
      }
      ExtendDistinct(Groups(front), x, Joins(front, x));
    }
  }

  /** No two groups share a rank. */
  predicate RanksApart(g: seq<Group>) {
    forall i, j :: 0 <= i < j < |g| && g[i] != [] && g[j] != [] ==> Rank(g[i][0]) != Rank(g[j][0])
  }

  lemma HeadIsMember(s: seq<Allocation>, k: nat) returns (i: nat)
    requires k < |Groups(s)|
    ensures Groups(s)[k] != [] && i < |s| && s[i] == Groups(s)[k][0]
  {
    GroupsHomogeneous(s);
    GroupsFlatten(s);
    FlattenMember(Groups(s), k, 0);
    i :| 0 <= i < |s| && s[i] == Groups(s)[k][0];
  }

  lemma CanonicalKeepsRanksApart(s: seq<Allocation>)
    requires RanksDescend(s) && Canonical(s)
    ensures RanksApart(Groups(s))
  {
    var g := Groups(s);
    OneGroupPerPriority(s);
    forall i, j | 0 <= i < j < |g| && g[i] != [] && g[j] != [] ensures Rank(g[i][0]) != Rank(g[j][0]) {
      var x := HeadIsMember(s, i);
      var y := HeadIsMember(s, j);
    }
  }

  lemma HeadSharesRank(g: seq<Group>, k: nat, m: nat)
    requires Homogeneous(g) && k < |g| && m < |g[k]|
    ensures PriorityOf(g[k][0]) == PriorityOf(g[k][m]) && Rank(g[k][0]) == Rank(g[k][m])
  {
  }

  lemma SpellingsShareRank(s: seq<Allocation>, i: nat, j: nat)
    requires i < |s| && j < |s| && Rank(s[i]) == Rank(s[j]) && PriorityOf(s[i]) != PriorityOf(s[j])
    ensures !RanksApart(Groups(s))
  {
    var g := Groups(s);
    GroupsHomogeneous(s);
    GroupsFlatten(s);
    var k, m := FlattenIndex(g, i);
    var k', m' := FlattenIndex(g, j);
    HeadSharesRank(g, k, m);
    HeadSharesRank(g, k', m');
    assert k != k';
    RanksMeet(g, if k < k' then k else k', if k < k' then k' else k);
  }

  lemma RanksMeet(g: seq<Group>, i: nat, j: nat)
    requires i < j < |g| && g[i] != [] && g[j] != [] && Rank(g[i][0]) == Rank(g[j][0])
    ensures !RanksApart(g)
  {
  }

  /** On a list in descending rank, every rank forms one group exactly when equal ranks are spelled alike. */
  lemma OneGroupPerRankExactly(s: seq<Allocation>)
    requires RanksDescend(s)
    ensures RanksApart(Groups(s)) <==> Canonical(s)
  {
    if Canonical(s) {
      CanonicalKeepsRanksApart(s);
    } else {
      var i, j :| 0 <= i < |s| && 0 <= j < |s| && Rank(s[i]) == Rank(s[j]) && PriorityOf(s[i]) != PriorityOf(s[j]);
      SpellingsShareRank(s, i, j);
    }
  }

  /** Raw strings are compared, so two spellings of one priority fall into different groups. */
  lemma MixedCaseSplitsGroup(a: Allocation, b: Allocation)
    requires PriorityOf(a) == "high" && PriorityOf(b) == "High"
    ensures Rank(a) == Rank(b) && Groups([a, b]) == [[a], [b]]
  {
    assert ToLower("high") == ToLower("High");
    assert [a, b][..1] == [a] && [a][..0] == [];
    assert Groups([a]) == [[a]];
    assert "high"[0] != "High"[0];
  }
}
