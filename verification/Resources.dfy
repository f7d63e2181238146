/**
  The six-dimensional resource record and its int32 arithmetic.

  `Add` and `Subtract` are the source's operators, wrap-around included;
  `Plus`, `Minus` and `Total` are exact and exist only to say what the
  source's operators should have computed.
*/
module Resources {
  const INT32_MAX: int := 0x7fff_ffff

  predicate InInt32(x: int) { -0x8000_0000 <= x <= 0x7fff_ffff }

  /** Two's-complement wrap-around of the sum or difference of two int32 values. */
  function Wrap32(x: int): (r: int)
    ensures InInt32(x) ==> r == x
    ensures -0x1_0000_0000 <= x <= 0xffff_ffff ==> InInt32(r)
  {
    if x > 0x7fff_ffff then x - 0x1_0000_0000
    else if x < -0x8000_0000 then x + 0x1_0000_0000
    else x
  }

  function ClampNonNegative(x: int): int {
    if x < 0 then 0 else x
  }

  datatype Resource = Resource(
    gpuCount: int,
    gpuMemoryGiB: int,
    kvCacheGiB: int,
    prefillTps: int,
    decodeTps: int,
    totalTps: int)

  const ZERO: Resource := Resource(0, 0, 0, 0, 0, 0)

  /** A record that names GPUs only. */
  function Gpus(n: int): Resource { Resource(n, 0, 0, 0, 0, 0) }

  predicate IsZero(r: Resource) { r == ZERO }

  /** Every field of `a` is at most that of `b`. */
  predicate Fits(a: Resource, b: Resource) {
    && a.gpuCount <= b.gpuCount
    && a.gpuMemoryGiB <= b.gpuMemoryGiB
    && a.kvCacheGiB <= b.kvCacheGiB
    && a.prefillTps <= b.prefillTps
    && a.decodeTps <= b.decodeTps
    && a.totalTps <= b.totalTps
  }

  predicate NonNegative(r: Resource) { Fits(ZERO, r) }

  predicate IsInt32(r: Resource) {
    && InInt32(r.gpuCount)
    && InInt32(r.gpuMemoryGiB)
    && InInt32(r.kvCacheGiB)
    && InInt32(r.prefillTps)
    && InInt32(r.decodeTps)
    && InInt32(r.totalTps)
  }

  /** A value that a well-formed budget can take. */
  predicate IsBudget(r: Resource) { NonNegative(r) && IsInt32(r) }

  function Add(a: Resource, b: Resource): Resource {
    Resource(
      Wrap32(a.gpuCount + b.gpuCount),
      Wrap32(a.gpuMemoryGiB + b.gpuMemoryGiB),
      Wrap32(a.kvCacheGiB + b.kvCacheGiB),
      Wrap32(a.prefillTps + b.prefillTps),
      Wrap32(a.decodeTps + b.decodeTps),
      Wrap32(a.totalTps + b.totalTps))
  }

  function Subtract(a: Resource, b: Resource): Resource {
    Resource(
      ClampNonNegative(Wrap32(a.gpuCount - b.gpuCount)),
      ClampNonNegative(Wrap32(a.gpuMemoryGiB - b.gpuMemoryGiB)),
      ClampNonNegative(Wrap32(a.kvCacheGiB - b.kvCacheGiB)),
      ClampNonNegative(Wrap32(a.prefillTps - b.prefillTps)),
      ClampNonNegative(Wrap32(a.decodeTps - b.decodeTps)),
      ClampNonNegative(Wrap32(a.totalTps - b.totalTps)))
  }

  function MaxInt(a: int, b: int): int { if a > b then a else b }

  function Max(a: Resource, b: Resource): (r: Resource)
    ensures Fits(a, r) && Fits(b, r)
  {
    Resource(
      MaxInt(a.gpuCount, b.gpuCount),
      MaxInt(a.gpuMemoryGiB, b.gpuMemoryGiB),
      MaxInt(a.kvCacheGiB, b.kvCacheGiB),
      MaxInt(a.prefillTps, b.prefillTps),
      MaxInt(a.decodeTps, b.decodeTps),
      MaxInt(a.totalTps, b.totalTps))
  }

  function Plus(a: Resource, b: Resource): Resource {
    Resource(
      a.gpuCount + b.gpuCount,
      a.gpuMemoryGiB + b.gpuMemoryGiB,
      a.kvCacheGiB + b.kvCacheGiB,
      a.prefillTps + b.prefillTps,
      a.decodeTps + b.decodeTps,
      a.totalTps + b.totalTps)
  }

  function Minus(a: Resource, b: Resource): Resource {
    Resource(
      a.gpuCount - b.gpuCount,
      a.gpuMemoryGiB - b.gpuMemoryGiB,
      a.kvCacheGiB - b.kvCacheGiB,
      a.prefillTps - b.prefillTps,
      a.decodeTps - b.decodeTps,
      a.totalTps - b.totalTps)
  }

  /** Wrapping addition is exact when the sum is representable. */
  lemma AddIsExact(a: Resource, b: Resource)
    requires IsInt32(Plus(a, b))
    ensures Add(a, b) == Plus(a, b)
  {
  }

  /** Clamped subtraction of something that fits is exact: neither the clamp nor the wrap fires. */
  lemma SubtractIsExact(a: Resource, b: Resource)
    requires IsInt32(a) && NonNegative(b) && Fits(b, a)
    ensures Subtract(a, b) == Minus(a, b)
  {
  }

  predicate AllNonNegative(s: seq<Resource>) { forall i :: 0 <= i < |s| ==> NonNegative(s[i]) }

  /** Exact sum of a list. */
  function Total(s: seq<Resource>): Resource {
    if s == [] then ZERO else Plus(Total(s[..|s| - 1]), s[|s| - 1])
  }

  /** The source's accumulation loop: wrapping at each step. */
  function WrappedTotal(s: seq<Resource>): Resource {
    if s == [] then ZERO else Add(WrappedTotal(s[..|s| - 1]), s[|s| - 1])
  }

  lemma {:induction false} TotalNonNegative(s: seq<Resource>)
    requires AllNonNegative(s)
    ensures NonNegative(Total(s))
  {
    if s != [] { TotalNonNegative(s[..|s| - 1]); }
  }

  /** If the exact total of non-negative values is representable, no intermediate sum wraps. */
  lemma {:induction false} WrappedTotalIsExact(s: seq<Resource>)
    requires AllNonNegative(s)
    requires IsInt32(Total(s))
    ensures WrappedTotal(s) == Total(s)
  {
    if s != [] {
      TotalNonNegative(s[..|s| - 1]);
      WrappedTotalIsExact(s[..|s| - 1]);
      AddIsExact(Total(s[..|s| - 1]), s[|s| - 1]);
    }
  }

  lemma {:induction false} TotalConcat(a: seq<Resource>, b: seq<Resource>)
    ensures Total(a + b) == Plus(Total(a), Total(b))
  {
    if b == [] {
      assert a + b == a;
    } else {
      assert (a + b)[..|a + b| - 1] == a + b[..|b| - 1];
      TotalConcat(a, b[..|b| - 1]);
    }
  }

  lemma TotalSingleton(r: Resource)
    ensures Total([r]) == r
  {
    assert [r][..0] == [];
  }

  lemma PlusShuffle(a: Resource, b: Resource, c: Resource)
    ensures Plus(Plus(a, b), c) == Plus(Plus(a, c), b) == Plus(a, Plus(b, c))
  {
  }

  /** Removing one summand removes exactly that summand. */
  lemma TotalRemove(before: seq<Resource>, x: Resource, after: seq<Resource>)
    ensures Total(before + [x] + after) == Plus(Total(before + after), x)
  {
    TotalConcat(before + [x], after);
    TotalConcat(before, [x]);
    TotalConcat(before, after);
    TotalSingleton(x);
    PlusShuffle(Total(before), x, Total(after));
  }

  lemma IndexIn<T>(part: seq<T>, n: nat, whole: seq<T>) returns (i: nat)
    requires n < |part| && multiset(part) <= multiset(whole)
    ensures i < |whole| && whole[i] == part[n]
  {
    assert part[n] in multiset(part);
    assert part[n] in multiset(whole);
    i :| 0 <= i < |whole| && whole[i] == part[n];
  }

  lemma MultisetWithout<T>(s: seq<T>, i: nat)
    requires i < |s|
    ensures multiset(s) == multiset(s[..i] + s[i + 1..]) + multiset{s[i]}
  {
    assert s == s[..i] + [s[i]] + s[i + 1..];
  }

  lemma CancelOne<T>(a: multiset<T>, b: multiset<T>, x: T)
    requires a + multiset{x} <= b + multiset{x}
    ensures a <= b
  {
    forall y ensures a[y] <= b[y] { assert (a + multiset{x})[y] <= (b + multiset{x})[y]; }
  }

  lemma DropFromBoth<T>(part: seq<T>, whole: seq<T>, i: nat)
    requires part != [] && i < |whole| && whole[i] == part[|part| - 1]
    requires multiset(part) <= multiset(whole)
    ensures multiset(part[..|part| - 1]) <= multiset(whole[..i] + whole[i + 1..])
  {
    var n := |part| - 1;
    MultisetWithout(whole, i);
    MultisetWithout(part, n);
    assert part[..n] + part[n + 1..] == part[..n];
    CancelOne(multiset(part[..n]), multiset(whole[..i] + whole[i + 1..]), whole[i]);
  }

  lemma DropEqual<T>(part: seq<T>, whole: seq<T>, i: nat)
    requires part != [] && i < |whole| && whole[i] == part[|part| - 1]
    requires multiset(part) == multiset(whole)
    ensures multiset(whole[..i] + whole[i + 1..]) == multiset(part[..|part| - 1])
  {
    var n := |part| - 1;
    MultisetWithout(whole, i);
    MultisetWithout(part, n);
    assert part[..n] + part[n + 1..] == part[..n];
    CancelOne(multiset(whole[..i] + whole[i + 1..]), multiset(part[..n]), whole[i]);
    CancelOne(multiset(part[..n]), multiset(whole[..i] + whole[i + 1..]), whole[i]);
  }

  // ---- Records that name GPUs only -----------------------------------------

  lemma GpusAdd(a: int, b: int)
    requires InInt32(a + b)
    ensures Add(Gpus(a), Gpus(b)) == Gpus(a + b) == Plus(Gpus(a), Gpus(b))
  {
  }

  lemma GpusSubtract(a: int, b: int)
    requires b <= a && InInt32(a - b)
    ensures Subtract(Gpus(a), Gpus(b)) == Gpus(a - b)
  {
  }

  lemma GpusMinus(a: int, b: int)
    ensures Minus(Gpus(a), Gpus(b)) == Gpus(a - b)
  {
  }

  lemma GpusFit(a: int, b: int)
    ensures Fits(Gpus(a), Gpus(b)) <==> a <= b
    ensures IsZero(Gpus(a)) <==> a == 0
    ensures Gpus(0) == ZERO
  {
  }
}
