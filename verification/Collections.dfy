/** Sequences without repeats, and how many elements sets and sequences have. */
module Collections {

  ghost predicate NoRepeats<T>(s: seq<T>) { forall i, j | 0 <= i < j < |s| :: s[i] != s[j] }

  ghost function SetOf<T>(s: seq<T>): set<T> { set x | x in s }

  lemma {:induction false} SetSize<T>(s: seq<T>)
    ensures |SetOf(s)| <= |s|
    ensures NoRepeats(s) ==> |SetOf(s)| == |s|
  {
    if s != [] {
      var init, x := s[..|s| - 1], s[|s| - 1];
      SetSize(init);
      assert SetOf(s) == SetOf(init) + {x};
      if NoRepeats(s) { assert x !in init; }
    }
  }

  lemma {:induction false} FullSize<T>(s: seq<T>)
    requires |SetOf(s)| == |s|
    ensures NoRepeats(s)
  {
    if s != [] {
      var init, x := s[..|s| - 1], s[|s| - 1];
      SetSize(init);
      assert SetOf(s) == SetOf(init) + {x};
      assert x !in SetOf(init);
      FullSize(init);
    }
  }

  lemma SameElements<T>(a: seq<T>, b: seq<T>)
    requires multiset(a) == multiset(b)
    ensures forall x :: x in a <==> x in b
  {
    forall x ensures x in a <==> x in b {
      assert x in a <==> x in multiset(a);
      assert x in b <==> x in multiset(b);
    }
  }

  /** Another order has no repeats either. */
  lemma ReorderedNoRepeats<T>(a: seq<T>, b: seq<T>)
    requires multiset(a) == multiset(b) && NoRepeats(b)
    ensures NoRepeats(a)
  {
    SameElements(a, b);
    SetSize(b);
    assert SetOf(a) == SetOf(b);
    assert |a| == |multiset(a)| == |b|;
    FullSize(a);
  }

  /** Some element of a set. */
  lemma Element<T>(s: set<T>) returns (x: T)
    requires s != {}
    ensures x in s
  {
    x :| x in s;
  }

  lemma SubsetSize<T>(a: set<T>, b: set<T>)
    requires a <= b
    ensures |a| <= |b| && (|a| == |b| <==> a == b)
  {
    assert b == a + (b - a);
  }
}
