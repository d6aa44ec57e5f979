/**
  The memory tester's cache tree: checking its specification, counting its
  testers in closed form, and building it level by level.
 */
module CacheTree {
  import opened Options
  import opened Text
  import opened Collections

  const BLOCK_SIZE := 64

  // ---------- The specification ----------

  datatype Problem = NoCaches | LengthMismatch | NoTopTesters | NegativeTesters | TooFewCaches | TooManyTesters

  /** How many subsystems there are i levels above the memory. */
  function Product(cs: seq<int>, i: nat): int
    requires i <= |cs|
  {
    if i == 0 then 1 else Product(cs, i - 1) * cs[i - 1]
  }

  /** Testers on the k levels closest to the memory. */
  function Testers(cs: seq<int>, ts: seq<int>, k: nat): int
    requires k <= |ts| && k <= |cs| + 1
  {
    if k == 0 then 0 else Testers(cs, ts, k - 1) + ts[k - 1] * Product(cs, k - 1)
  }

  function Levels(cs: seq<int>, ts: seq<int>): nat { if |ts| < |cs| + 1 then |ts| else |cs| + 1 }

  method NumTesters(cs: seq<int>, ts: seq<int>) returns (total: int)
    ensures total == Testers(cs, ts, Levels(cs, ts))
  {
    var multiplier := [1];
    for i := 0 to |cs|
      invariant |multiplier| == i + 1 && forall k | 0 <= k <= i :: multiplier[k] == Product(cs, k)
    {
      multiplier := multiplier + [multiplier[i] * cs[i]];
    }
    total := 0;
    for k := 0 to Levels(cs, ts)
      invariant total == Testers(cs, ts, k)
    {
      total := total + ts[k] * multiplier[k];
    }
  }

  ghost predicate Accepted(cs: seq<int>, ts: seq<int>) {
    && 1 <= |cs| && |ts| == |cs| + 1 && ts[|cs|] != 0
    && (forall t | t in ts :: t >= 0) && (forall c | c in cs :: c >= 1)
    && Testers(cs, ts, |ts|) <= BLOCK_SIZE
  }

  /** What is wrong, each problem given that the ones checked before it are not. */
  ghost predicate Has(p: Problem, cs: seq<int>, ts: seq<int>) {
    match p
    case NoCaches => cs == []
    case LengthMismatch => cs != [] && |ts| != |cs| + 1
    case NoTopTesters => |ts| == |cs| + 1 && ts[|cs|] == 0
    case NegativeTesters => |ts| == |cs| + 1 && ts[|cs|] != 0 && exists t | t in ts :: t < 0
    case TooFewCaches => (forall t | t in ts :: t >= 0) && exists c | c in cs :: c < 1
    case TooManyTesters =>
      (forall t | t in ts :: t >= 0) && (forall c | c in cs :: c >= 1)
      && Testers(cs, ts, Levels(cs, ts)) > BLOCK_SIZE
  }

  method CheckSpec(cs: seq<int>, ts: seq<int>) returns (r: Option<Problem>)
    ensures r.None? <==> Accepted(cs, ts)
    ensures r.Some? ==> Has(r.value, cs, ts)
  {
    if |cs| < 1 {
      return Some(NoCaches);
    }
    if |cs| != |ts| - 1 {
      return Some(LengthMismatch);
    }
    if ts[|ts| - 1] == 0 {
      return Some(NoTopTesters);
    }
    for i := 0 to |ts|
      invariant forall k | 0 <= k < i :: ts[k] >= 0
    {
      if ts[i] < 0 {
        assert ts[i] in ts;
        return Some(NegativeTesters);
      }
    }
    for i := 0 to |cs|
      invariant forall k | 0 <= k < i :: cs[k] >= 1
    {
      if cs[i] < 1 {
        assert cs[i] in cs;
        return Some(TooFewCaches);
      }
    }
    var total := NumTesters(cs, ts);
    if total > BLOCK_SIZE {
      return Some(TooManyTesters);
    }
    return None;
  }

  // ---------- Prototypes ----------

  datatype Proto = Proto(size: int, assoc: int, mshrs: int, latency: int, writebackClean: bool, inclusive: bool)

  /** The cache k steps below the first-level one. */
  ghost predicate Scaled(p: Proto, mshrs: int, cs: seq<int>, k: nat)
    requires k <= |cs|
  {
    && p.size == 32768 * Product(cs, k) && p.assoc == 4 * Product(cs, k) && p.mshrs == mshrs * Product(cs, k)
    && p.latency == Power10(k) && p.writebackClean == (k % 2 == 0) && p.inclusive == (k % 2 == 0)
  }

  lemma ScaleStep(p: Proto, mshrs: int, cs: seq<int>, k: nat)
    requires k < |cs| && Scaled(p, mshrs, cs, k)
    ensures Scaled(Proto(p.size * cs[k], p.assoc * cs[k], p.mshrs * cs[k], 10 * p.latency,
                         !p.writebackClean, !p.inclusive), mshrs, cs, k + 1)
  {
    var x, c := Product(cs, k), cs[k];
    assert (32768 * x) * c == 32768 * (x * c) && (4 * x) * c == 4 * (x * c);
    assert (mshrs * x) * c == mshrs * (x * c) by { Assoc(mshrs, x, c); }
  }

  lemma Assoc(a: int, b: int, c: int)
    ensures (a * b) * c == a * (b * c)
  {
  }

  /** One prototype per level of caches, the one closest to the memory first. */
  method ScalePrototypes(cs: seq<int>, blocking: bool) returns (protos: seq<Proto>)
    requires 1 <= |cs|
    ensures |protos| == |cs|
    ensures forall k | 0 <= k < |cs| :: Scaled(protos[k], if blocking then 1 else 4, cs, |cs| - 1 - k)
  {
    hide Scaled;
    var mshrs := if blocking then 1 else 4;
    protos := [Proto(32768, 4, mshrs, 1, true, true)];
    FirstLevel(mshrs, cs);
    for i := 0 to |cs| - 1
      invariant |protos| == i + 1 && forall k | 0 <= k <= i :: Scaled(protos[k], mshrs, cs, i - k)
    {
      var prev, scale := protos[0], cs[i];
      ScaleStep(prev, mshrs, cs, i);
      protos := [Proto(prev.size * scale, prev.assoc * scale, prev.mshrs * scale, 10 * prev.latency,
                       !prev.writebackClean, !prev.inclusive)] + protos;
    }
  }

  lemma FirstLevel(mshrs: int, cs: seq<int>)
    ensures Scaled(Proto(32768, 4, mshrs, 1, true, true), mshrs, cs, 0)
  {
  }

  // ---------- What a subtree holds ----------

  /** Testers of a subtree that hangs at `level`. */
  function Below(cs: seq<int>, ts: seq<int>, level: nat): int
    requires |ts| == |cs| + 1 && level <= |cs|
  {
    ts[|cs| - level] + if level == 0 then 0 else cs[|cs| - level] * Below(cs, ts, level - 1)
  }

  /** Subsystems of that subtree at level m. */
  function Width(cs: seq<int>, level: nat, m: nat): int
    requires level <= |cs|
  {
    if m > level then 0 else if m == level then 1 else cs[|cs| - level] * Width(cs, level - 1, m)
  }

  lemma {:induction false} Horner(cs: seq<int>, ts: seq<int>, level: nat)
    requires |ts| == |cs| + 1 && level <= |cs|
    ensures Below(cs, ts, level) * Product(cs, |cs| - level) + Testers(cs, ts, |cs| - level) == Testers(cs, ts, |ts|)
  {
    if level > 0 {
      Horner(cs, ts, level - 1);
      var i := |cs| - level;
      Expand(ts[i], cs[i], Below(cs, ts, level - 1), Product(cs, i));
    }
  }

  lemma Expand(t: int, c: int, b: int, p: int)
    ensures (t + c * b) * p == t * p + b * (p * c)
  {
    assert (c * b) * p == b * (p * c) by { Assoc(b, p, c); Assoc(c, b, p); }
  }

  /** The whole tree has as many testers as the closed form says. */
  lemma TreeTesters(cs: seq<int>, ts: seq<int>)
    requires |ts| == |cs| + 1
    ensures Below(cs, ts, |cs|) == Testers(cs, ts, |ts|)
  {
    Horner(cs, ts, |cs|);
  }

  lemma {:induction false} WidthProduct(cs: seq<int>, level: nat, m: nat)
    requires m <= level <= |cs|
    ensures Width(cs, level, m) * Product(cs, |cs| - level) == Product(cs, |cs| - m)
  {
    if m < level {
      WidthProduct(cs, level - 1, m);
      var i := |cs| - level;
      Expand(0, cs[i], Width(cs, level - 1, m), Product(cs, i));
    }
  }

  // ---------- Names ----------

  function Name(level: nat, index: nat): string { "l" + Decimal(level) + "subsys" + Decimal(index) }

  lemma NameInjective(l: nat, i: nat, m: nat, j: nat)
    requires Name(l, i) == Name(m, j)
    ensures l == m && i == j
  {
    var a, b, x, y := Decimal(l), Decimal(m), Decimal(i), Decimal(j);
    var s, t := "subsys" + x, "subsys" + y;
    assert Name(l, i) == "l" + (a + s) && Name(m, j) == "l" + (b + t);
    assert a + s == Name(l, i)[1..] && b + t == Name(m, j)[1..];
    DigitsEnd(a, s, b, t);
    assert x == s[6..] && y == t[6..];
    DecimalInjective(l, m);
    DecimalInjective(i, j);
  }

  /** The digits in front of something else are where they end. */
  lemma DigitsEnd(a: string, s: string, b: string, t: string)
    requires (forall c | c in a :: IsDigit(c)) && (forall c | c in b :: IsDigit(c))
    requires s != [] && t != [] && !IsDigit(s[0]) && !IsDigit(t[0]) && a + s == b + t
    ensures a == b && s == t
  {
    SpanAll(a, s, IsDigit);
    SpanAll(b, t, IsDigit);
    assert a == (a + s)[..|a|] && b == (b + t)[..|b|];
    assert s == (a + s)[|a|..] && t == (b + t)[|b|..];
  }

  /** Every name was given out, none twice. */
  ghost predicate Named(names: seq<string>, next: seq<int>) {
    && NoRepeats(names)
    && forall n | n in names :: Given(n, next)
  }

  ghost predicate Given(n: string, next: seq<int>) {
    exists l: nat, i: nat :: l < |next| && i < next[l] && n == Name(l, i)
  }

  lemma NewName(names: seq<string>, next: seq<int>, level: nat)
    requires Named(names, next) && level < |next| && next[level] >= 0
    ensures Named(names + [Name(level, next[level])], next[level := next[level] + 1])
  {
    var n, next' := Name(level, next[level]), next[level := next[level] + 1];
    hide Name;
    forall x | x in names ensures x != n && Given(x, next') {
      var l: nat, i: nat :| l < |next| && i < next[l] && x == Name(l, i);
      assert i < next'[l];
      if x == n { NameInjective(l, i, level, next[level]); }
    }
    assert level < |next'| && next[level] < next'[level];
    assert Given(n, next');
  }

  /** At each level `next` has moved on by what i subtrees at `level` hold. */
  ghost predicate Grown(start: seq<int>, next: seq<int>, cs: seq<int>, level: nat, i: int)
    requires level <= |cs|
  {
    && |start| == |next| == |cs| + 1
    && forall m | 0 <= m < |next| :: next[m] == start[m] + i * Width(cs, level, m)
  }

  lemma GrowMore(s0: seq<int>, s1: seq<int>, s2: seq<int>, cs: seq<int>, level: nat, i: int)
    requires level <= |cs| && Grown(s0, s1, cs, level, i) && Grown(s1, s2, cs, level, 1)
    ensures Grown(s0, s2, cs, level, i + 1)
  {
    hide Width;
    forall m | 0 <= m < |s2| ensures s2[m] == s0[m] + (i + 1) * Width(cs, level, m) {
      var w := Width(cs, level, m);
      assert (i + 1) * w == i * w + w;
    }
  }

  /** A subtree is its own subsystem and the subtrees of its caches. */
  lemma GrowLevel(s0: seq<int>, s1: seq<int>, s2: seq<int>, cs: seq<int>, level: nat)
    requires 0 < level <= |cs| && |s0| == |cs| + 1 && s1 == s0[level := s0[level] + 1]
    requires Grown(s1, s2, cs, level - 1, cs[|cs| - level])
    ensures Grown(s0, s2, cs, level, 1)
  {
    forall m | 0 <= m < |s2| ensures s2[m] == s0[m] + 1 * Width(cs, level, m) {
    }
  }

  lemma GrowLeaf(s0: seq<int>, cs: seq<int>)
    requires |s0| == |cs| + 1
    ensures Grown(s0, s0[0 := s0[0] + 1], cs, 0, 1)
  {
  }

  // ---------- Building ----------

  class Builder {
    const cachespec: seq<int>
    const testerspec: seq<int>
    var nextSubsysIndex: seq<int>
    var names: seq<string>                // of the subsystems created
    var testers: int                      // how many were created

    ghost predicate Valid() reads this {
      && Accepted(cachespec, testerspec)
      && |nextSubsysIndex| == |cachespec| + 1 && (forall m | 0 <= m < |nextSubsysIndex| :: nextSubsysIndex[m] >= 0)
      && Named(names, nextSubsysIndex)
    }

    constructor (cs: seq<int>, ts: seq<int>)
      requires Accepted(cs, ts)
      ensures Valid() && cachespec == cs && testerspec == ts && names == [] && testers == 0
      ensures nextSubsysIndex == seq(|cs| + 1, _ => 0)
    {
      cachespec, testerspec := cs, ts;
      nextSubsysIndex := seq(|cs| + 1, _ => 0);
      names, testers := [], 0;
    }

    /** Create the subtree that hangs at `level`.  The result says whether the
        script goes on, rather than ending for want of a cache at the top. */
    method MakeCacheLevel(ncaches: seq<int>, prototypes: seq<Proto>, level: nat, hasNextCache: bool) returns (ok: bool)
      requires Valid() && level <= |cachespec| && ncaches == cachespec[|cachespec| - level..]
      requires |prototypes| == level && (level == 0 ==> hasNextCache)
      modifies this
      ensures Valid() && ok
      ensures testers == old(testers) + Below(cachespec, testerspec, level)
      ensures Grown(old(nextSubsysIndex), nextSubsysIndex, cachespec, level, 1)
      decreases level, 0
    {
      hide Named, Testers, Width, Grown, Product;
      var index := nextSubsysIndex[level];
      NewName(names, nextSubsysIndex, level);
      nextSubsysIndex := nextSubsysIndex[level := index + 1];
      names := names + [Name(level, index)];
      ghost var s1 := nextSubsysIndex;
      var ntesters := testerspec[|cachespec| - level];
      testers := testers + ntesters;
      assert ntesters in testerspec;
      if level != 0 {
        var count := ncaches[0];
        assert count == cachespec[|cachespec| - level] && count in cachespec;
        ok := MakeSubtrees(count, ncaches, prototypes, level);
        GrowLevel(old(nextSubsysIndex), s1, nextSubsysIndex, cachespec, level);
      } else {
        if !hasNextCache {
          return false;
        }
        GrowLeaf(old(nextSubsysIndex), cachespec);
        ok := true;
        if ntesters <= 1 {
          // The single tester, testers[0], hangs on the cache itself
          assert ntesters == 1;
        }
      }
    }

    /** One subtree for each of the caches on a level. */
    method MakeSubtrees(count: nat, ncaches: seq<int>, prototypes: seq<Proto>, level: nat) returns (ok: bool)
      requires Valid() && 0 < level <= |cachespec| && ncaches == cachespec[|cachespec| - level..]
      requires |prototypes| == level
      modifies this
      ensures Valid() && ok
      ensures testers == old(testers) + count * Below(cachespec, testerspec, level - 1)
      ensures Grown(old(nextSubsysIndex), nextSubsysIndex, cachespec, level - 1, count)
      decreases level - 1, 1
    {
      hide Named, Width, Below;
      assert ncaches[1..] == cachespec[|cachespec| - (level - 1)..];
      var cache := prototypes[0];
      ghost var b := Below(cachespec, testerspec, level - 1);
      ok := true;
      for i := 0 to count
        invariant Valid() && ok && testers == old(testers) + i * b
        invariant Grown(old(nextSubsysIndex), nextSubsysIndex, cachespec, level - 1, i)
      {
        ghost var s1 := nextSubsysIndex;
        ok := MakeCacheLevel(ncaches[1..], prototypes[1..], level - 1, true);
        GrowMore(old(nextSubsysIndex), s1, nextSubsysIndex, cachespec, level - 1, i);
        assert (i + 1) * b == i * b + b;
      }
    }

    /** Build the whole tree: exactly as many testers as counted, each level as
        wide as the product of the cache numbers below it, every subsystem under
        a name of its own. */
    method Build(blocking: bool) returns (ok: bool)
      requires Valid() && names == [] && testers == 0 && nextSubsysIndex == seq(|cachespec| + 1, _ => 0)
      modifies this
      ensures ok && Valid() && NoRepeats(names)
      ensures testers == Testers(cachespec, testerspec, |testerspec|) <= BLOCK_SIZE
      ensures forall m | 0 <= m <= |cachespec| :: nextSubsysIndex[m] == Product(cachespec, |cachespec| - m)
    {
      var protos := ScalePrototypes(cachespec, blocking);
      ok := MakeCacheLevel(cachespec, protos, |cachespec|, false);
      TreeTesters(cachespec, testerspec);
      forall m | 0 <= m <= |cachespec| ensures nextSubsysIndex[m] == Product(cachespec, |cachespec| - m) {
        WidthProduct(cachespec, |cachespec|, m);
      }
    }
  }
}
