/** Object names derived from pod names: ledger entry names and replacement pod names, and when they collide. */
module Names {
  import opened Text

  // ---- The sanitiser -------------------------------------------------------

  /** Characters kept as they are; `dots` tells the ledger's variant from that of pod names. */
  predicate Kept(c: char, dots: bool) { 'a' <= c <= 'z' || '0' <= c <= '9' || c == '-' || (dots && c == '.') }

  predicate Cut(c: char, dots: bool) { c == '-' || (dots && c == '.') }

  function Mapped(s: string, dots: bool): (r: string)
    ensures |r| == |s|
  {
    if s == "" then "" else [if Kept(LowerChar(s[0]), dots) then LowerChar(s[0]) else '-'] + Mapped(s[1..], dots)
  }

  function TrimLeft(s: string, dots: bool): string {
    if s != "" && Cut(s[0], dots) then TrimLeft(s[1..], dots) else s
  }

  function TrimRight(s: string, dots: bool): string {
    if s != "" && Cut(s[|s| - 1], dots) then TrimRight(s[..|s| - 1], dots) else s
  }

  function Trim(s: string, dots: bool): string { TrimRight(TrimLeft(s, dots), dots) }

  function Sanitize(s: string, dots: bool): string { Trim(Mapped(s, dots), dots) }

  predicate AllKept(s: string, dots: bool) { forall i :: 0 <= i < |s| ==> Kept(s[i], dots) }

  /** A non-empty name that the sanitiser has nothing to change in. */
  predicate Clean(s: string, dots: bool) {
    s != "" && AllKept(s, dots) && !Cut(s[0], dots) && !Cut(s[|s| - 1], dots)
  }

  lemma {:induction false} MappedIsKept(s: string, dots: bool)
    ensures AllKept(Mapped(s, dots), dots)
    ensures AllKept(s, dots) ==> Mapped(s, dots) == s
  {
    if s != "" { MappedIsKept(s[1..], dots); }
  }

  lemma {:induction false} TrimLeftSound(s: string, dots: bool)
    requires AllKept(s, dots)
    ensures var r := TrimLeft(s, dots); AllKept(r, dots) && |r| <= |s| && (r != "" ==> !Cut(r[0], dots))
  {
    if s != "" && Cut(s[0], dots) { TrimLeftSound(s[1..], dots); }
  }

  lemma {:induction false} TrimRightSound(s: string, dots: bool)
    requires AllKept(s, dots)
    ensures var r := TrimRight(s, dots);
            && AllKept(r, dots) && |r| <= |s| && r == s[..|r|]
            && (r != "" ==> !Cut(r[|r| - 1], dots))
  {
    if s != "" && Cut(s[|s| - 1], dots) { TrimRightSound(s[..|s| - 1], dots); }
  }

  lemma TrimIsClean(s: string, dots: bool)
    requires AllKept(s, dots)
    ensures var r := Trim(s, dots); (r == "" || Clean(r, dots)) && |r| <= |s|
  {
    TrimLeftSound(s, dots);
    TrimRightSound(TrimLeft(s, dots), dots);
  }

  /** Whatever goes in, the sanitiser returns a clean name or nothing; clean names pass unchanged. */
  lemma SanitizeIsClean(s: string, dots: bool)
    ensures var r := Sanitize(s, dots); (r == "" || Clean(r, dots)) && |r| <= |s|
    ensures Clean(s, dots) ==> Sanitize(s, dots) == s
  {
    MappedIsKept(s, dots);
    TrimIsClean(Mapped(s, dots), dots);
  }

  // ---- Ledger entry names --------------------------------------------------

  function EntryName(namespace: string, name: string): string { Sanitize(namespace + "/" + name, true) }

  lemma {:induction false} MappedConcat(a: string, b: string, dots: bool)
    ensures Mapped(a + b, dots) == Mapped(a, dots) + Mapped(b, dots)
  {
    if a == "" {
      assert a + b == b;
    } else {
      assert (a + b)[1..] == a[1..] + b;
      MappedConcat(a[1..], b, dots);
    }
  }

  /** For valid Kubernetes names the slash becomes a dash and nothing else changes. */
  lemma EntryNameJoins(namespace: string, name: string)
    requires Clean(namespace, true) && Clean(name, true)
    ensures EntryName(namespace, name) == namespace + "-" + name
    ensures Clean(EntryName(namespace, name), true)
  {
    MappedIsKept(namespace, true);
    MappedIsKept(name, true);
    MappedConcat(namespace + "/", name, true);
    MappedConcat(namespace, "/", true);
    assert Mapped("/", true) == "-" by { assert "/"[1..] == ""; }
    var r := namespace + "-" + name;
    assert Mapped(namespace + "/" + name, true) == r;
    assert r[0] == namespace[0] && r[|r| - 1] == name[|name| - 1];
  }

  /** `long` is `short`, a dash and a valid name. */
  predicate Extends(short: string, long: string) {
    |short| + 1 < |long| && long[..|short| + 1] == short + "-" && !Cut(long[|short| + 1], true)
  }

  /** Some two pods of these namespaces share a ledger entry. */
  ghost predicate CanCollide(ns: string, other: string) {
    exists a, b :: Clean(a, true) && Clean(b, true) && EntryName(ns, a) == EntryName(other, b)
  }

  lemma ExtensionIsClean(short: string, long: string)
    requires Clean(long, true) && Extends(short, long)
    ensures Clean(long[|short| + 1..] + "-p", true)
  {
    var x := long[|short| + 1..];
    var a := x + "-p";
    assert a[0] == x[0] && a[|a| - 1] == 'p';
    forall i | 0 <= i < |a| ensures Kept(a[i], true) {
      assert a[i] == if i < |x| then long[|short| + 1 + i] else "-p"[i - |x|];
    }
  }

  lemma ExtensionCollides(short: string, long: string)
    requires Clean(short, true) && Clean(long, true) && Extends(short, long)
    ensures CanCollide(short, long) && CanCollide(long, short)
  {
    var x := long[|short| + 1..];
    var a, b := x + "-p", "p";
    ExtensionIsClean(short, long);
    assert long == short + "-" + x;
    EntryNameJoins(short, a);
    EntryNameJoins(long, b);
    assert short + "-" + a == long + "-" + b;
  }

  lemma CollisionExtends(short: string, long: string, a: string, b: string)
    requires Clean(short, true) && Clean(long, true) && Clean(a, true) && Clean(b, true)
    requires short != long && |short| <= |long| && EntryName(short, a) == EntryName(long, b)
    ensures Extends(short, long)
  {
    EntryNameJoins(short, a);
    EntryNameJoins(long, b);
    var r, t := short + "-" + a, long + "-" + b;
    assert r == t;
    assert r[..|short|] == short && t[..|long|] == long;
    assert r[|short|] == '-' && t[|long|] == '-';
    assert |short| < |long|;
    assert long[|short|] == t[|short|];
    assert long[|long| - 1] != '-';
    assert t[|short| + 1] == a[0] && t[|short| + 1] == long[|short| + 1];
    assert long[..|short| + 1] == t[..|short| + 1];
  }

  /**
    Two different namespaces can clash on a ledger entry exactly when one is
    the other extended by a dash; inside one namespace names never clash.
  */
  lemma EntriesCollideExactly(ns: string, other: string)
    requires Clean(ns, true) && Clean(other, true) && ns != other
    ensures CanCollide(ns, other) <==> Extends(ns, other) || Extends(other, ns)
  {
    if Extends(ns, other) { ExtensionCollides(ns, other); }
    if Extends(other, ns) { ExtensionCollides(other, ns); }
    if CanCollide(ns, other) {
      var a, b :| Clean(a, true) && Clean(b, true) && EntryName(ns, a) == EntryName(other, b);
      if |ns| <= |other| { CollisionExtends(ns, other, a, b); } else { CollisionExtends(other, ns, b, a); }
    }
  }

  lemma EntriesDistinctWithinNamespace(ns: string, a: string, b: string)
    requires Clean(ns, true) && Clean(a, true) && Clean(b, true) && EntryName(ns, a) == EntryName(ns, b)
    ensures a == b
  {
    EntryNameJoins(ns, a);
    EntryNameJoins(ns, b);
    var p := ns + "-";
    assert a == (p + a)[|p|..] && b == (p + b)[|p|..];
  }

  // ---- Replacement pod names -----------------------------------------------

  const MARK := "-astra-"

  /** 63 less the mark and eight characters of the hash. */
  const MAX_BASE := 48

  function Base(source: string): string {
    var dnsLabel := Sanitize(source, false);
    var base := if |dnsLabel| > MAX_BASE then Trim(dnsLabel[..MAX_BASE], false) else dnsLabel;
    if base == "" then "pod" else base
  }

  /** `hash` stands for the first eight hex digits of the SHA-256 of the ledger's name. */
  predicate HexHash(hash: string) {
    |hash| == 8 && forall i :: 0 <= i < 8 ==> '0' <= hash[i] <= '9' || 'a' <= hash[i] <= 'f'
  }

  function ReplacementName(source: string, hash: string): string { Base(source) + MARK + hash }

  lemma BaseIsClean(source: string)
    ensures Clean(Base(source), false) && |Base(source)| <= MAX_BASE
  {
    SanitizeIsClean(source, false);
    var dnsLabel := Sanitize(source, false);
    if |dnsLabel| > MAX_BASE {
      assert forall i :: 0 <= i < MAX_BASE ==> dnsLabel[..MAX_BASE][i] == dnsLabel[i];
      TrimIsClean(dnsLabel[..MAX_BASE], false);
    }
  }

  lemma MarkIsKept()
    ensures AllKept(MARK, false)
  {
  }

  /** A replacement name is always a valid pod name of at most 63 characters. */
  lemma ReplacementNameIsValid(source: string, hash: string)
    requires HexHash(hash)
    ensures Clean(ReplacementName(source, hash), false) && |ReplacementName(source, hash)| <= 63
  {
    BaseIsClean(source);
    MarkIsKept();
    var b, r := Base(source), ReplacementName(source, hash);
    assert r[0] == b[0] && r[|r| - 1] == hash[7];
    forall i | 0 <= i < |r| ensures Kept(r[i], false) {
      assert r[i] == if i < |b| then b[i] else if i < |b| + 7 then MARK[i - |b|] else hash[i - |b| - 7];
    }
  }

  /** Two sources on one node get the same replacement exactly when they share a base. */
  lemma ReplacementsCollideExactly(a: string, b: string, hash: string)
    ensures ReplacementName(a, hash) == ReplacementName(b, hash) <==> Base(a) == Base(b)
  {
    var tail := MARK + hash;
    assert ReplacementName(a, hash) == Base(a) + tail && ReplacementName(b, hash) == Base(b) + tail;
    if Base(a) + tail == Base(b) + tail {
      assert |Base(a)| == |Base(b)|;
      assert Base(a) == (Base(a) + tail)[..|Base(a)|] && Base(b) == (Base(b) + tail)[..|Base(b)|];
    }
  }

  /** Labels of at most 48 characters keep their replacements apart. */
  lemma ShortSourcesKeepApart(a: string, b: string, hash: string)
    requires Clean(a, false) && Clean(b, false) && |a| <= MAX_BASE && |b| <= MAX_BASE && a != b
    ensures ReplacementName(a, hash) != ReplacementName(b, hash)
  {
    SanitizeIsClean(a, false);
    SanitizeIsClean(b, false);
    ReplacementsCollideExactly(a, b, hash);
  }

  /** A source that already ends in this ledger's mark and whose truncated base is what precedes the mark. */
  predicate OwnReplacement(source: string, hash: string) {
    && 62 <= |source| <= 63
    && Clean(source[..|source| - 15], false)
    && source[|source| - 15..] == MARK + hash
  }

  lemma CleanTrims(s: string)
    requires Clean(s, false)
    ensures Trim(s, false) == s && Trim(s + "-", false) == s
  {
    var d := s + "-";
    assert TrimLeft(d, false) == d;
    assert d[..|d| - 1] == s;
    assert TrimRight(d, false) == TrimRight(s, false);
  }

  lemma OwnReplacementIsFixed(source: string, hash: string)
    requires HexHash(hash) && OwnReplacement(source, hash)
    ensures ReplacementName(source, hash) == source
  {
    var b := source[..|source| - 15];
    assert source == b + MARK + hash;
    MarkIsKept();
    forall i | 0 <= i < |source| ensures Kept(source[i], false) {
      assert source[i] == if i < |b| then b[i] else if i < |b| + 7 then MARK[i - |b|] else hash[i - |b| - 7];
    }
    assert source[0] == b[0] && source[|source| - 1] == hash[7];
    SanitizeIsClean(source, false);
    CleanTrims(b);
    if |b| == 48 {
      assert source[..MAX_BASE] == b;
    } else {
      assert source[..MAX_BASE] == b + "-" by { assert source[47] == MARK[0]; }
    }
  }

  lemma ShortTail(b: string, tail: string, n: nat)
    requires Clean(b, false) && |b| < n <= |b + tail| && |tail| >= 2 && tail[0] == '-' && tail[1] == 'a'
    requires Trim((b + tail)[..n], false) == b
    ensures n == |b| + 1
  {
    var s := (b + tail)[..n];
    if n > |b| + 1 {
      assert s[0] == b[0] && TrimLeft(s, false) == s;
      TrimRightKeeps(s, |b| + 1);
    }
  }

  lemma {:induction false} TrimRightKeeps(s: string, i: nat)
    requires i < |s| && !Cut(s[i], false)
    ensures |TrimRight(s, false)| > i
  {
    if Cut(s[|s| - 1], false) { TrimRightKeeps(s[..|s| - 1], i); }
  }

  lemma BaseOfCleanName(source: string)
    requires Clean(source, false)
    ensures |source| <= MAX_BASE ==> Base(source) == source
    ensures |source| > MAX_BASE ==> Base(source) == "pod" || Base(source) == Trim(source[..MAX_BASE], false)
  {
    SanitizeIsClean(source, false);
  }

  lemma FixedLength(source: string, b: string, tail: string)
    requires Clean(source, false) && Clean(b, false) && b == Base(source) && |b| <= MAX_BASE
    requires source == b + tail && |tail| == 15 && tail[0] == '-' && tail[1] == 'a'
    ensures MAX_BASE - 1 <= |b|
  {
    BaseOfCleanName(source);
    if |b| < MAX_BASE && b != "pod" {
      ShortTail(b, tail, MAX_BASE);
    }
  }

  lemma MarkedName(b: string, hash: string)
    requires Clean(b, false) && MAX_BASE - 1 <= |b| <= MAX_BASE && |hash| == 8
    ensures OwnReplacement(b + MARK + hash, hash)
  {
    var s := b + MARK + hash;
    assert s[..|s| - 15] == b && s[|s| - 15..] == MARK + hash;
  }

  lemma FixedIsOwnReplacement(source: string, b: string, hash: string)
    requires HexHash(hash) && b == Base(source) && source == b + MARK + hash
    ensures OwnReplacement(source, hash)
  {
    BaseIsClean(source);
    ReplacementNameIsValid(source, hash);
    var tail := MARK + hash;
    assert b + MARK + hash == b + tail;
    FixedLength(source, b, tail);
    MarkedName(b, hash);
  }

  /**
    A pod is named as its own replacement exactly when it is a long-named pod
    that this ledger already replaced once.
  */
  lemma SelfReplacementExactly(source: string, hash: string)
    requires HexHash(hash)
    ensures ReplacementName(source, hash) == source <==> OwnReplacement(source, hash)
  {
    if OwnReplacement(source, hash) { OwnReplacementIsFixed(source, hash); }
    if ReplacementName(source, hash) == source { FixedIsOwnReplacement(source, Base(source), hash); }
  }

  /** Replacing a long-named pod twice on one node: the second replacement is the pod itself. */
  lemma SecondReplacementIsItself(source: string, hash: string)
    requires HexHash(hash) && |Base(source)| >= MAX_BASE - 1
    ensures var first := ReplacementName(source, hash); ReplacementName(first, hash) == first
  {
    BaseIsClean(source);
    var first := ReplacementName(source, hash);
    MarkedName(Base(source), hash);
    OwnReplacementIsFixed(first, hash);
  }
}
