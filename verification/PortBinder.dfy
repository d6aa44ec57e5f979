/**
  The configuration reader's port connections: their text form, and the single
  greedy pass that chooses one direction of every connection to bind.
 */
module PortBinder {
  import opened Options
  import opened Text
  import opened Collections

  datatype Port = Port(objectName: string, portName: string, index: nat)

  type Key = (string, string)

  function KeyOf(p: Port): Key { (p.objectName, p.portName) }

  type Connection = (Port, Port)

  function Reverse(c: Connection): Connection { (c.1, c.0) }

  datatype Result = Bound(made: seq<Connection>) | UnknownPort | Unordered

  // ---------- One pass ----------

  type Indices = map<Key, nat>

  function Increment(idx: Indices, p: Port): Indices
    requires KeyOf(p) in idx
  {
    idx[KeyOf(p) := idx[KeyOf(p)] + 1]
  }

  /** Both ends are next to be bound on their ports. */
  predicate Bindable(idx: Indices, c: Connection)
    requires KeyOf(c.0) in idx && KeyOf(c.1) in idx
  {
    idx[KeyOf(c.0)] == c.0.index && idx[KeyOf(c.1)] == c.1.index
  }

  /** Every port that has a connection starts at element 0. */
  function StartIndices(connections: seq<Connection>): Indices {
    map c | c in connections :: KeyOf(c.0) := 0
  }

  /** Walk the connections in order and bind each that can be; None when an
      index is looked up for a port that has none. */
  function Pass(idx: Indices, order: seq<Connection>): Option<(Indices, seq<Connection>)> {
    if order == [] then Some((idx, []))
    else
      var n, c := |order| - 1, order[|order| - 1];
      var before := Pass(idx, order[..n]);
      if before.None? then None
      else
        var (idx1, made) := before.value;
        if KeyOf(c.0) !in idx1 then None
        else if idx1[KeyOf(c.0)] != c.0.index then before
        else if KeyOf(c.1) !in idx1 then None
        else if idx1[KeyOf(c.1)] != c.1.index then before
        else Some((Increment(Increment(idx1, c.0), c.1), made + [c]))
  }

  function BindSpec(connections: seq<Connection>, order: seq<Connection>): Result {
    var end := Pass(StartIndices(connections), order);
    if end.None? then UnknownPort
    else if |end.value.1| * 2 != |connections| then Unordered
    else Bound(end.value.1)
  }

  // ---------- What the pass keeps ----------

  /** What `connections` must be: both directions of each, without repeats, and
      no port connected to itself. */
  ghost predicate Symmetric(cs: seq<Connection>) {
    && (forall i, j | 0 <= i < j < |cs| :: cs[i] != cs[j])
    && (forall c | c in cs :: Reverse(c) in cs && c.0 != c.1)
  }

  /** No connection joins two elements of one port. */
  ghost predicate Separate(cs: seq<Connection>) { forall c | c in cs :: KeyOf(c.0) != KeyOf(c.1) }

  /** The elements of one port in the order they are bound. */
  ghost function Elements(made: seq<Connection>, key: Key): seq<nat> {
    if made == [] then []
    else
      var c := made[|made| - 1];
      Elements(made[..|made| - 1], key)
        + (if KeyOf(c.0) == key then [c.0.index] else [])
        + (if KeyOf(c.1) == key then [c.1.index] else [])
  }

  ghost function Upto(n: nat): seq<nat> { seq(n, i => i) }

  ghost predicate ShareNoPort(c: Connection, d: Connection) {
    c.0 != d.0 && c.0 != d.1 && c.1 != d.0 && c.1 != d.1
  }

  ghost predicate PassInv(made: seq<Connection>, idx: Indices) {
    && (forall key | key in idx :: Elements(made, key) == Upto(idx[key]))
    && (forall c | c in made :: KeyOf(c.0) in idx && KeyOf(c.1) in idx && KeyOf(c.0) != KeyOf(c.1))
    && (forall c | c in made :: c.0.index < idx[KeyOf(c.0)] && c.1.index < idx[KeyOf(c.1)])
    && (forall i, j | 0 <= i < j < |made| :: ShareNoPort(made[i], made[j]))
  }

  lemma ElementsAppend(made: seq<Connection>, c: Connection, key: Key)
    ensures Elements(made + [c], key) == Elements(made, key)
              + (if KeyOf(c.0) == key then [c.0.index] else [])
              + (if KeyOf(c.1) == key then [c.1.index] else [])
  {
    assert (made + [c])[..|made|] == made;
  }

  lemma BindElements(made: seq<Connection>, idx: Indices, c: Connection, key: Key)
    requires KeyOf(c.0) in idx && KeyOf(c.1) in idx && KeyOf(c.0) != KeyOf(c.1) && Bindable(idx, c)
    requires key in idx && Elements(made, key) == Upto(idx[key])
    ensures Elements(made + [c], key) == Upto(Increment(Increment(idx, c.0), c.1)[key])
  {
    ElementsAppend(made, c, key);
    UptoNext(idx[key]);
    hide Elements, Upto;
    var before := Elements(made, key);
    if key == KeyOf(c.0) {
      assert before + [c.0.index] + [] == before + [c.0.index];
    } else if key == KeyOf(c.1) {
      assert before + [] + [c.1.index] == before + [c.1.index];
    } else {
      assert before + [] + [] == before;
    }
  }

  lemma UptoNext(n: nat)
    ensures Upto(n + 1) == Upto(n) + [n]
  {
  }

  /** Binding a connection whose two ends are both next keeps the invariant: had
      the ends been on one port they would have been the same element. */
  lemma BindKeeps(made: seq<Connection>, idx: Indices, c: Connection)
    requires PassInv(made, idx) && KeyOf(c.0) in idx && KeyOf(c.1) in idx
    requires Bindable(idx, c) && c.0 != c.1
    ensures PassInv(made + [c], Increment(Increment(idx, c.0), c.1))
  {
    var idx' := Increment(Increment(idx, c.0), c.1);
    forall key | key in idx' ensures Elements(made + [c], key) == Upto(idx'[key]) {
      BindElements(made, idx, c, key);
    }
    BindShares(made, idx, c);
    BindPassed(made, idx, c);
    hide ShareNoPort, Elements, Upto, Bindable, Increment;
  }

  lemma BindPassed(made: seq<Connection>, idx: Indices, c: Connection)
    requires PassInv(made, idx) && KeyOf(c.0) in idx && KeyOf(c.1) in idx && Bindable(idx, c) && c.0 != c.1
    ensures var idx' := Increment(Increment(idx, c.0), c.1);
      forall d | d in made + [c] :: KeyOf(d.0) in idx' && KeyOf(d.1) in idx' && KeyOf(d.0) != KeyOf(d.1)
        && d.0.index < idx'[KeyOf(d.0)] && d.1.index < idx'[KeyOf(d.1)]
  {
    hide Elements, Upto, ShareNoPort;
  }

  /** A new connection shares no port with the ones already made. */
  lemma BindShares(made: seq<Connection>, idx: Indices, c: Connection)
    requires PassInv(made, idx) && KeyOf(c.0) in idx && KeyOf(c.1) in idx && Bindable(idx, c)
    ensures forall i, j | 0 <= i < j < |made + [c]| :: ShareNoPort((made + [c])[i], (made + [c])[j])
  {
    hide Elements, Upto;
    forall i, j | 0 <= i < j < |made + [c]| ensures ShareNoPort((made + [c])[i], (made + [c])[j]) {
      if j == |made| { assert made[i] in made; }
    }
  }

  lemma {:induction false} PassKeeps(idx: Indices, order: seq<Connection>)
    requires forall key | key in idx :: idx[key] == 0
    requires forall c | c in order :: KeyOf(c.0) in idx && KeyOf(c.1) in idx && c.0 != c.1
    ensures var end := Pass(idx, order);
      && end.Some? && end.value.0.Keys == idx.Keys && PassInv(end.value.1, end.value.0)
      && forall c | c in end.value.1 :: c in order
  {
    if order != [] {
      var n, c := |order| - 1, order[|order| - 1];
      PassKeeps(idx, order[..n]);
      var (idx1, made) := Pass(idx, order[..n]).value;
      assert c in order;
      if Bindable(idx1, c) { BindKeeps(made, idx1, c); }
    }
  }

  // ---------- Counting ----------

  function Reversed(s: seq<Connection>): seq<Connection> { seq(|s|, i requires 0 <= i < |s| => Reverse(s[i])) }

  /** No connection is bound together with its reverse, and none twice. */
  lemma BothDirections(made: seq<Connection>, idx: Indices)
    requires PassInv(made, idx) && forall c | c in made :: c.0 != c.1
    ensures NoRepeats(made + Reversed(made))
  {
    hide Elements, Upto;
    var both, n := made + Reversed(made), |made|;
    forall i, j | 0 <= i < j < |both| ensures both[i] != both[j] {
      if i < n <= j {
        assert both[j] == Reverse(made[j - n]) && made[j - n] in made;
      } else if j < n {
        assert ShareNoPort(made[i], made[j]);
      } else {
        assert ShareNoPort(made[i - n], made[j - n]);
      }
    }
  }

  /** Exactly one direction of each connection is bound. */
  ghost predicate OneDirection(cs: seq<Connection>, made: seq<Connection>) {
    && (forall c | c in made :: c in cs)
    && (forall c | c in cs :: c in made <==> Reverse(c) !in made)
    && NoRepeats(made)
  }

  ghost predicate Covers(cs: seq<Connection>, made: seq<Connection>) {
    forall c | c in cs :: c in made || Reverse(c) in made
  }

  lemma InSymmetric(cs: seq<Connection>, made: seq<Connection>, c: Connection)
    requires Symmetric(cs) && (forall d | d in made :: d in cs) && (c in made || Reverse(c) in made)
    ensures c in cs
  {
    assert Reverse(Reverse(c)) == c;
  }

  lemma CoversAsSets(cs: seq<Connection>, made: seq<Connection>)
    requires Symmetric(cs) && forall c | c in made :: c in cs
    ensures var both := SetOf(made + Reversed(made));
      both <= SetOf(cs) && (Covers(cs, made) <==> SetOf(cs) == both)
  {
    var both := SetOf(made + Reversed(made));
    InBoth(made);
    forall c | c in both ensures c in cs {
      InSymmetric(cs, made, c);
    }
    hide Reversed, Symmetric;
    if SetOf(cs) == both {
      forall c | c in cs ensures c in made || Reverse(c) in made { assert c in SetOf(cs); }
    }
    if Covers(cs, made) {
      forall c | c in cs ensures c in both { assert c in made || Reverse(c) in made; }
    }
  }

  /** Half of the connections were bound exactly when every connection was. */
  lemma HalfIsAll(cs: seq<Connection>, made: seq<Connection>)
    requires Symmetric(cs) && NoRepeats(made + Reversed(made)) && forall c | c in made :: c in cs
    ensures |made| * 2 == |cs| <==> OneDirection(cs, made)
    ensures OneDirection(cs, made) <==> Covers(cs, made)
  {
    var both := made + Reversed(made);
    SetSize(both);
    SetSize(cs);
    CoversAsSets(cs, made);
    SubsetSize(SetOf(both), SetOf(cs));
    assert |made| * 2 == |cs| <==> Covers(cs, made);
    NeverBoth(made);
    hide Symmetric, SetOf, NoRepeats, Reversed;
    assert OneDirection(cs, made) <==> Covers(cs, made);
  }

  lemma InBoth(made: seq<Connection>)
    ensures forall c :: c in made + Reversed(made) <==> c in made || Reverse(c) in made
  {
    forall c ensures c in made + Reversed(made) <==> c in made || Reverse(c) in made {
      if Reverse(c) in made {
        var k :| 0 <= k < |made| && made[k] == Reverse(c);
        assert Reversed(made)[k] == c;
      }
      if c in Reversed(made) {
        var k :| 0 <= k < |made| && Reversed(made)[k] == c;
        assert made[k] == Reverse(c);
      }
    }
  }

  lemma NeverBoth(made: seq<Connection>)
    requires NoRepeats(made + Reversed(made))
    ensures forall c | c in made :: Reverse(c) !in made
    ensures NoRepeats(made)
  {
    var both := made + Reversed(made);
    forall i, k | 0 <= i < |made| && 0 <= k < |made| ensures made[k] != Reverse(made[i]) {
      assert both[|made| + k] == Reverse(made[k]) && both[i] != both[|made| + k];
    }
    forall i, j | 0 <= i < j < |made| ensures made[i] != made[j] {
      assert both[i] != both[j];
    }
  }

  // ---------- The result ----------

  /** The elements of every port are bound as 0, 1, 2, ... */
  ghost predicate InIndexOrder(made: seq<Connection>) {
    forall key :: Elements(made, key) == Upto(|Elements(made, key)|)
  }

  lemma {:induction false} NoElements(made: seq<Connection>, key: Key)
    requires forall c | c in made :: KeyOf(c.0) != key && KeyOf(c.1) != key
    ensures Elements(made, key) == []
  {
    if made != [] {
      assert made[|made| - 1] in made;
      NoElements(made[..|made| - 1], key);
    }
  }

  lemma PassOrdered(made: seq<Connection>, idx: Indices)
    requires PassInv(made, idx)
    ensures InIndexOrder(made)
  {
    forall key ensures Elements(made, key) == Upto(|Elements(made, key)|) {
      if key !in idx { NoElements(made, key); }
    }
  }

  lemma PassSeparate(made: seq<Connection>, idx: Indices)
    requires PassInv(made, idx)
    ensures Separate(made)
  {
  }

  /** On a list with both directions of every connection the pass looks up no
      unknown port, always binds each port's elements in index order, and
      succeeds exactly when it has bound one direction of every connection. */
  lemma BindSound(connections: seq<Connection>, order: seq<Connection>)
    requires Symmetric(connections) && multiset(order) == multiset(connections)
    ensures var end := Pass(StartIndices(connections), order);
      && end.Some? && InIndexOrder(end.value.1) && Separate(end.value.1)
      && (OneDirection(connections, end.value.1) <==> Covers(connections, end.value.1))
      && BindSpec(connections, order) ==
           if OneDirection(connections, end.value.1) then Bound(end.value.1) else Unordered
  {
    hide Symmetric, Pass, PassInv, InIndexOrder, OneDirection, StartIndices, NoRepeats;
    var idx := StartIndices(connections);
    SameElements(order, connections);
    StartKeys(connections, order);
    PassKeeps(idx, order);
    var (idx1, made) := Pass(idx, order).value;
    PassOrdered(made, idx1);
    assert Separate(made) by { PassSeparate(made, idx1); }
    BothDirections(made, idx1);
    HalfIsAll(connections, made);
    hide Separate, Covers;
  }

  lemma StartKeys(connections: seq<Connection>, order: seq<Connection>)
    requires Symmetric(connections) && forall c | c in order :: c in connections
    ensures var idx := StartIndices(connections);
      && (forall key | key in idx :: idx[key] == 0)
      && (forall c | c in order :: KeyOf(c.0) in idx && KeyOf(c.1) in idx && c.0 != c.1)
  {
    var idx := StartIndices(connections);
    forall c | c in order ensures KeyOf(c.0) in idx && KeyOf(c.1) in idx {
      assert Reverse(c) in connections;
    }
  }

  /** Choose the connections to make.  `order` is the connections in the order
      they are walked: whatever it is, so also the sorted one. */
  method BindPorts(connections: seq<Connection>, order: seq<Connection>) returns (r: Result)
    requires multiset(order) == multiset(connections)
    ensures r == BindSpec(connections, order)
    ensures Symmetric(connections) ==> !r.UnknownPort?
    ensures Symmetric(connections) && r.Bound? ==> OneDirection(connections, r.made) && InIndexOrder(r.made)
    ensures Symmetric(connections) ==>
      (r.Bound? <==> Separate(connections) && exists m :: Binding(connections, order, m))
  {
    var idx: Indices := map[];
    for i := 0 to |connections|
      invariant idx == StartIndices(connections[..i])
    {
      idx := idx[KeyOf(connections[i].0) := 0];
      StartStep(connections, i);
    }
    assert connections[..|connections|] == connections;
    if Symmetric(connections) {
      BindSound(connections, order);
      BindExactly(connections, order);
    }
    hide Symmetric, Binding, Separate, OneDirection, InIndexOrder;
    var made: seq<Connection> := [];
    for i := 0 to |order|
      invariant Pass(StartIndices(connections), order[..i]) == Some((idx, made))
    {
      var c := order[i];
      assert order[..i + 1][..i] == order[..i];
      if KeyOf(c.0) !in idx {
        PassFails(StartIndices(connections), order, i + 1);
        return UnknownPort;
      }
      if idx[KeyOf(c.0)] == c.0.index {
        if KeyOf(c.1) !in idx {
          PassFails(StartIndices(connections), order, i + 1);
          return UnknownPort;
        }
        if idx[KeyOf(c.1)] == c.1.index {
          made := made + [c];
          idx := idx[KeyOf(c.0) := idx[KeyOf(c.0)] + 1];
          idx := idx[KeyOf(c.1) := idx[KeyOf(c.1)] + 1];
        }
      }
    }
    assert order[..|order|] == order;
    if |made| * 2 != |connections| {
      return Unordered;
    }
    return Bound(made);
  }

  lemma StartStep(cs: seq<Connection>, i: nat)
    requires i < |cs|
    ensures StartIndices(cs[..i + 1]) == StartIndices(cs[..i])[KeyOf(cs[i].0) := 0]
  {
    assert cs[..i + 1] == cs[..i] + [cs[i]];
    assert StartIndices(cs[..i + 1]).Keys == StartIndices(cs[..i]).Keys + {KeyOf(cs[i].0)};
  }

  lemma {:induction false} PassFails(idx: Indices, order: seq<Connection>, n: nat)
    requires n <= |order| && Pass(idx, order[..n]).None?
    ensures Pass(idx, order).None?
    decreases |order|
  {
    if n == |order| {
      assert order[..n] == order;
    } else {
      var init := order[..|order| - 1];
      assert init[..n] == order[..n];
      PassFails(idx, init, n);
    }
  }

  // ---------- Exactly when the pass succeeds ----------

  /** Leaving out some of the elements of s gives m. */
  ghost predicate Subsequence<T>(m: seq<T>, s: seq<T>) {
    if s == [] then m == []
    else
      var n := |s| - 1;
      || Subsequence(m, s[..n])
      || (m != [] && m[|m| - 1] == s[n] && Subsequence(m[..|m| - 1], s[..n]))
  }

  lemma {:induction false} Members<T>(m: seq<T>, s: seq<T>)
    requires Subsequence(m, s)
    ensures forall x | x in m :: x in s
  {
    if s != [] {
      var n := |s| - 1;
      if Subsequence(m, s[..n]) {
        Members(m, s[..n]);
      } else {
        Members(m[..|m| - 1], s[..n]);
        assert m == m[..|m| - 1] + [s[n]] && s[n] in s;
      }
    }
  }

  ghost predicate SamePair(c: Connection, d: Connection) { c == d || c == Reverse(d) }

  /** No other pair of `order` shares a port with one of m. */
  ghost predicate OwnPorts(order: seq<Connection>, m: seq<Connection>) {
    forall c, d | c in m && d in order && !ShareNoPort(c, d) :: SamePair(d, c)
  }

  /** One of the two directions was made. */
  ghost predicate PairMade(c: Connection, made: seq<Connection>) { c in made || Reverse(c) in made }

  lemma {:induction false} ElementFrom(made: seq<Connection>, key: Key, x: nat) returns (c: Connection)
    requires x in Elements(made, key)
    ensures c in made && (c.0 == Port(key.0, key.1, x) || c.1 == Port(key.0, key.1, x))
  {
    c := made[|made| - 1];
    if x in Elements(made[..|made| - 1], key) {
      c := ElementFrom(made[..|made| - 1], key, x);
    }
  }

  /** Both ends of c are the next elements of their ports after m. */
  ghost predicate ComesNext(m: seq<Connection>, c: Connection) {
    Elements(m, KeyOf(c.0)) == Upto(c.0.index) && Elements(m, KeyOf(c.1)) == Upto(c.1.index)
  }

  lemma PrefixOrdered(m: seq<Connection>)
    requires InIndexOrder(m) && m != [] && Separate(m)
    ensures var init, c := m[..|m| - 1], m[|m| - 1];
      InIndexOrder(init) && ComesNext(init, c)
  {
    var init, c := m[..|m| - 1], m[|m| - 1];
    assert m == init + [c] && c in m;
    forall key ensures Elements(init, key) == Upto(|Elements(init, key)|) {
      ElementsAppend(init, c, key);
      assert Elements(m, key) == Upto(|Elements(m, key)|);
      UptoPrefix(Elements(init, key), Elements(m, key));
    }
    hide Elements;
    LastElement(init, c, KeyOf(c.0), c.0.index);
    LastElement(init, c, KeyOf(c.1), c.1.index);
  }

  lemma UptoPrefix(a: seq<nat>, b: seq<nat>)
    requires b == Upto(|b|) && |a| <= |b| && a == b[..|a|]
    ensures a == Upto(|a|)
  {
  }

  lemma LastElement(init: seq<Connection>, c: Connection, key: Key, x: nat)
    requires InIndexOrder(init + [c]) && InIndexOrder(init) && KeyOf(c.0) != KeyOf(c.1)
    requires (key == KeyOf(c.0) && x == c.0.index) || (key == KeyOf(c.1) && x == c.1.index)
    ensures Elements(init, key) == Upto(x)
  {
    ElementsAppend(init, c, key);
    var e := Elements(init, key);
    assert Elements(init + [c], key) == e + [x];
    assert Elements(init + [c], key) == Upto(|e| + 1) && (e + [x])[|e|] == x;
  }

  /** Whatever m binds below x on a port, the pass has bound too. */
  lemma AtLeast(made: seq<Connection>, idx: Indices, m: seq<Connection>, key: Key, x: nat)
    requires PassInv(made, idx) && key in idx && Elements(m, key) == Upto(x)
    requires forall c | c in m :: PairMade(c, made)
    ensures x <= idx[key]
  {
    hide Elements, Upto, ShareNoPort, PassInv;
    if x > 0 {
      UptoNext(x - 1);
      var c := ElementFrom(m, key, x - 1);
      assert PairMade(c, made);
      PassedBy(made, idx, if c in made then c else Reverse(c));
    }
  }

  lemma PassedBy(made: seq<Connection>, idx: Indices, c: Connection)
    requires PassInv(made, idx) && c in made
    ensures KeyOf(c.0) in idx && c.0.index < idx[KeyOf(c.0)] && KeyOf(c.1) in idx && c.1.index < idx[KeyOf(c.1)]
  {
  }

  /** The pass has not bound an element before the pair it belongs to. */
  lemma AtMost(made: seq<Connection>, idx: Indices, c: Connection, p: Port)
    requires PassInv(made, idx) && KeyOf(p) in idx && (p == c.0 || p == c.1)
    requires forall d | d in made && !ShareNoPort(c, d) :: SamePair(d, c)
    ensures idx[KeyOf(p)] <= p.index || PairMade(c, made)
  {
    if idx[KeyOf(p)] > p.index {
      assert Upto(idx[KeyOf(p)])[p.index] == p.index;
      var d := ElementFrom(made, KeyOf(p), p.index);
      assert !ShareNoPort(c, d) && SamePair(d, c);
    }
  }

  /** The next connection of m is bindable unless its pair was made already. */
  lemma NextIsBindable(made: seq<Connection>, idx: Indices, m: seq<Connection>, x: Connection)
    requires PassInv(made, idx) && KeyOf(x.0) in idx && KeyOf(x.1) in idx && !PairMade(x, made)
    requires ComesNext(m, x)
    requires forall c | c in m :: PairMade(c, made)
    requires forall d | d in made && !ShareNoPort(x, d) :: SamePair(d, x)
    ensures Bindable(idx, x)
  {
    hide PassInv, Elements, Upto, PairMade, ShareNoPort, SamePair;
    AtLeast(made, idx, m, KeyOf(x.0), x.0.index);
    AtLeast(made, idx, m, KeyOf(x.1), x.1.index);
    AtMost(made, idx, x, x.0);
    AtMost(made, idx, x, x.1);
  }

  /** What the last connection adds to the pass. */
  lemma PassLast(idx: Indices, order: seq<Connection>)
    requires order != [] && Pass(idx, order).Some?
    ensures var n, x := |order| - 1, order[|order| - 1];
      var before := Pass(idx, order[..n]);
      && before.Some?
      && (KeyOf(x.0) in before.value.0 && KeyOf(x.1) in before.value.0 && Bindable(before.value.0, x) ==>
            Pass(idx, order).value.1 == before.value.1 + [x])
      && forall c | PairMade(c, before.value.1) :: PairMade(c, Pass(idx, order).value.1)
  {
  }

  ghost predicate Starting(idx: Indices, order: seq<Connection>) {
    && (forall key | key in idx :: idx[key] == 0)
    && (forall c | c in order :: KeyOf(c.0) in idx && KeyOf(c.1) in idx && c.0 != c.1)
  }

  lemma ShorterWalk(idx: Indices, order: seq<Connection>, m: seq<Connection>)
    requires order != [] && Starting(idx, order) && NoRepeats(order) && OwnPorts(order, m)
    ensures var before, x := order[..|order| - 1], order[|order| - 1];
      && Starting(idx, before) && NoRepeats(before) && OwnPorts(before, m) && x in order && x !in before
  {
    var before, x := order[..|order| - 1], order[|order| - 1];
    assert order == before + [x];
    forall d | d in before ensures d in order && d != x {
      var k :| 0 <= k < |before| && before[k] == d;
      assert order[k] == d;
    }
  }

  lemma FewerPorts(order: seq<Connection>, m: seq<Connection>)
    requires OwnPorts(order, m) && m != []
    ensures OwnPorts(order, m[..|m| - 1]) && (Separate(m) ==> Separate(m[..|m| - 1]))
  {
    forall c | c in m[..|m| - 1] ensures c in m { }
  }

  /** Once the pairs of m are made, so is the one that comes next. */
  lemma LastMade(idx: Indices, order: seq<Connection>, m: seq<Connection>)
    requires order != [] && Starting(idx, order) && Pass(idx, order).Some?
    requires var before, x := order[..|order| - 1], order[|order| - 1];
      && Starting(idx, before) && Pass(idx, before).Some? && x in order
      && (forall c | c in m :: PairMade(c, Pass(idx, before).value.1))
      && ComesNext(m, x)
      && (forall d | d in before && !ShareNoPort(x, d) :: SamePair(d, x))
    ensures PairMade(order[|order| - 1], Pass(idx, order).value.1)
  {
    var before, x := order[..|order| - 1], order[|order| - 1];
    PassKeeps(idx, before);
    PassLast(idx, order);
    var (idx1, made) := Pass(idx, before).value;
    hide Pass, PassInv, ComesNext, ShareNoPort, SamePair;
    if !PairMade(x, made) {
      NextIsBindable(made, idx1, m, x);
    }
  }

  /** The indices of the pass never fall behind those of any m that could be
      bound, so it binds every pair that m does. */
  lemma {:induction false} KeepsUp(idx: Indices, order: seq<Connection>, m: seq<Connection>)
    requires Starting(idx, order) && NoRepeats(order)
    requires Subsequence(m, order) && InIndexOrder(m) && Separate(m) && OwnPorts(order, m)
    ensures Pass(idx, order).Some? && forall c | c in m :: PairMade(c, Pass(idx, order).value.1)
  {
    PassKeeps(idx, order);
    if order != [] {
      ShorterWalk(idx, order, m);
      PassLast(idx, order);
      hide Pass, PassInv, InIndexOrder, NoRepeats, PairMade, Starting, ComesNext, ShareNoPort, SamePair;
      var before, x := order[..|order| - 1], order[|order| - 1];
      if Subsequence(m, before) {
        KeepsUp(idx, before, m);
      } else {
        var m1 := m[..|m| - 1];
        assert m == m1 + [x] && x in m;
        FewerPorts(before, m);
        hide Separate, Subsequence;
        PrefixOrdered(m);
        KeepsUp(idx, before, m1);
        LastMade(idx, order, m1);
      }
    }
  }

  lemma {:induction false} ElementOf(made: seq<Connection>, c: Connection)
    requires c in made
    ensures c.0.index in Elements(made, KeyOf(c.0)) && c.1.index in Elements(made, KeyOf(c.1))
  {
    if c != made[|made| - 1] {
      ElementOf(made[..|made| - 1], c);
    }
  }

  ghost predicate AllApart(m: seq<Connection>) { forall i, j | 0 <= i < j < |m| :: ShareNoPort(m[i], m[j]) }

  lemma ApartAppend(m: seq<Connection>, c: Connection)
    requires AllApart(m) && forall d | d in m :: ShareNoPort(d, c)
    ensures AllApart(m + [c])
  {
    hide ShareNoPort;
    forall i, j | 0 <= i < j < |m + [c]| ensures ShareNoPort((m + [c])[i], (m + [c])[j]) {
      assert m[i] in m;
    }
  }

  lemma {:induction false} OrderedApart(m: seq<Connection>)
    requires InIndexOrder(m) && Separate(m)
    ensures AllApart(m)
  {
    hide *;
    if m == [] {
      NoneApart();
    } else {
      PrefixOrdered(m);
      SeparatePrefix(m);
      OrderedApart(m[..|m| - 1]);
      ApartStep(m[..|m| - 1], m[|m| - 1]);
      assert m == m[..|m| - 1] + [m[|m| - 1]];
    }
  }

  lemma NoneApart()
    ensures AllApart([])
  {
  }

  lemma ApartStep(init: seq<Connection>, c: Connection)
    requires AllApart(init) && ComesNext(init, c)
    ensures AllApart(init + [c])
  {
    hide *;
    NewApartFromAll(init, c);
    ApartAppend(init, c);
  }

  lemma NewApartFromAll(init: seq<Connection>, c: Connection)
    requires ComesNext(init, c)
    ensures forall d | d in init :: ShareNoPort(d, c)
  {
    hide *;
    forall d | d in init ensures ShareNoPort(d, c) { NewApart(init, c, d); }
  }

  lemma SeparatePrefix(m: seq<Connection>)
    requires Separate(m) && m != []
    ensures Separate(m[..|m| - 1])
  {
  }

  lemma NewApart(init: seq<Connection>, c: Connection, d: Connection)
    requires ComesNext(init, c) && d in init
    ensures ShareNoPort(d, c)
  {
    ElementOf(init, d);
  }

  /** Two connections of m that share a port are one. */
  lemma SharedIsSame(m: seq<Connection>, c: Connection, d: Connection)
    requires AllApart(m) && c in m && d in m && !ShareNoPort(c, d)
    ensures c == d
  {
    var i :| 0 <= i < |m| && m[i] == c;
    var j :| 0 <= j < |m| && m[j] == d;
  }

  lemma PortsAreOwn(cs: seq<Connection>, m: seq<Connection>)
    requires OneDirection(cs, m) && InIndexOrder(m) && Separate(m)
    ensures OwnPorts(cs, m)
  {
    OrderedApart(m);
    forall c, d | c in m && d in cs && !ShareNoPort(c, d) ensures SamePair(d, c) {
      if d in m {
        SharedIsSame(m, c, d);
      } else {
        SharedIsSame(m, c, Reverse(d));
      }
    }
  }

  lemma {:induction false} PassSubsequence(idx: Indices, order: seq<Connection>)
    requires Pass(idx, order).Some?
    ensures Subsequence(Pass(idx, order).value.1, order)
  {
    if order != [] {
      var before, x := order[..|order| - 1], order[|order| - 1];
      PassSubsequence(idx, before);
      var made := Pass(idx, before).value.1;
      assert (made + [x])[..|made|] == made;
    }
  }

  /** m binds one direction of every connection, in an order that both the walk
      and the indices of the ports allow. */
  ghost predicate Binding(cs: seq<Connection>, order: seq<Connection>, m: seq<Connection>) {
    Subsequence(m, order) && OneDirection(cs, m) && InIndexOrder(m)
  }

  lemma SymmetricOrder(cs: seq<Connection>, order: seq<Connection>)
    requires Symmetric(cs) && multiset(order) == multiset(cs)
    ensures NoRepeats(order) && Starting(StartIndices(cs), order)
    ensures forall c :: c in order <==> c in cs
  {
    hide Symmetric, StartIndices, NoRepeats, Reverse;
    SymmetricDistinct(cs);
    ReorderedNoRepeats(order, cs);
    SameElements(order, cs);
    StartKeys(cs, order);
  }

  lemma SymmetricDistinct(cs: seq<Connection>)
    requires Symmetric(cs)
    ensures NoRepeats(cs)
  {
  }

  /** Any possible binding is found by the pass. */
  lemma FindsBinding(cs: seq<Connection>, order: seq<Connection>, m: seq<Connection>)
    requires Symmetric(cs) && multiset(order) == multiset(cs) && Separate(cs) && Binding(cs, order, m)
    ensures BindSpec(cs, order).Bound?
  {
    hide Symmetric, Pass, InIndexOrder, Subsequence, Starting, StartIndices, NoRepeats, OneDirection;
    var idx := StartIndices(cs);
    SymmetricOrder(cs, order);
    assert Separate(m) by { DirectionParts(cs, m); }
    PortsAreOwn(cs, m);
    assert OwnPorts(order, m);
    hide OwnPorts;
    KeepsUp(idx, order, m);
    BindSound(cs, order);
    MadeCovers(cs, m, Pass(idx, order).value.1);
  }

  lemma DirectionParts(cs: seq<Connection>, m: seq<Connection>)
    requires OneDirection(cs, m)
    ensures Covers(cs, m) && forall c | c in m :: c in cs
  {
  }

  lemma MadeCovers(cs: seq<Connection>, m: seq<Connection>, made: seq<Connection>)
    requires OneDirection(cs, m) && forall c | c in m :: PairMade(c, made)
    ensures Covers(cs, made)
  {
    forall c | c in cs ensures c in made || Reverse(c) in made {
      if c in m { assert PairMade(c, made); } else { assert Reverse(c) in m && PairMade(Reverse(c), made); }
    }
  }

  lemma CoversSeparate(cs: seq<Connection>, made: seq<Connection>)
    requires Covers(cs, made) && Separate(made)
    ensures Separate(cs)
  {
    forall c | c in cs ensures KeyOf(c.0) != KeyOf(c.1) {
      assert c in made || Reverse(c) in made;
    }
  }

  /** The pass succeeds exactly when no connection joins two elements of one port
      and some choice of directions can be bound in the order of the walk. */
  lemma BindExactly(cs: seq<Connection>, order: seq<Connection>)
    requires Symmetric(cs) && multiset(order) == multiset(cs)
    ensures BindSpec(cs, order).Bound? <==> Separate(cs) && exists m :: Binding(cs, order, m)
  {
    hide Symmetric, Subsequence, InIndexOrder, OneDirection;
    BindSound(cs, order);
    if BindSpec(cs, order).Bound? {
      var made := BindSpec(cs, order).made;
      PassSubsequence(StartIndices(cs), order);
      assert Binding(cs, order, made);
      CoversSeparate(cs, made);
    }
    if Separate(cs) && exists m :: Binding(cs, order, m) {
      var m :| Binding(cs, order, m);
      FindsBinding(cs, order, m);
    }
  }

  // ---------- The pass may give up too early ----------

  /** One step of the pass. */
  lemma PassStep(idx: Indices, order: seq<Connection>, c: Connection, idx1: Indices, made: seq<Connection>)
    requires Pass(idx, order) == Some((idx1, made)) && KeyOf(c.0) in idx1 && KeyOf(c.1) in idx1
    ensures Pass(idx, order + [c]) ==
      if Bindable(idx1, c) then Some((Increment(Increment(idx1, c.0), c.1), made + [c])) else Some((idx1, made))
  {
    assert (order + [c])[..|order|] == order;
  }

  /** The order of the walk: by object name, port name and index of the first
      port, then of the second. */
  predicate Below(s: string, t: string) {
    t != [] && (s == [] || s[0] < t[0] || (s[0] == t[0] && Below(s[1..], t[1..])))
  }

  predicate KeyBelow(k: Key, l: Key) { Below(k.0, l.0) || (k.0 == l.0 && Below(k.1, l.1)) }

  predicate PortBelow(p: Port, q: Port) {
    KeyBelow(KeyOf(p), KeyOf(q)) || (KeyOf(p) == KeyOf(q) && p.index < q.index)
  }

  predicate ConnectionBelow(c: Connection, d: Connection) {
    PortBelow(c.0, d.0) || (c.0 == d.0 && PortBelow(c.1, d.1))
  }

  ghost predicate Sorted(cs: seq<Connection>) { forall i, j | 0 <= i < j < |cs| :: ConnectionBelow(cs[i], cs[j]) }

  lemma {:induction false} NotBelowItself(s: string)
    ensures !Below(s, s)
  {
    if s != [] { NotBelowItself(s[1..]); }
  }

  /** Elements 0 and 1 of ports b and y, element 0 of a and z, in the order of
      their names. */
  ghost predicate Chain(a: Port, b0: Port, b1: Port, y0: Port, y1: Port, z: Port) {
    && KeyOf(b0) == KeyOf(b1) && KeyOf(y0) == KeyOf(y1)
    && KeyBelow(KeyOf(a), KeyOf(b0)) && KeyBelow(KeyOf(a), KeyOf(y0)) && KeyBelow(KeyOf(a), KeyOf(z))
    && KeyBelow(KeyOf(b0), KeyOf(y0)) && KeyBelow(KeyOf(b0), KeyOf(z)) && KeyBelow(KeyOf(y0), KeyOf(z))
    && a.index == b0.index == y0.index == z.index == 0 && b1.index == y1.index == 1
  }

  lemma KeyNotBelowItself(k: Key)
    ensures !KeyBelow(k, k)
  {
    NotBelowItself(k.0);
    NotBelowItself(k.1);
  }

  /** The four ports are different, and there are such ports. */
  lemma ChainApart(a: Port, b0: Port, b1: Port, y0: Port, y1: Port, z: Port)
    requires Chain(a, b0, b1, y0, y1, z)
    ensures KeyOf(a) != KeyOf(b0) && KeyOf(a) != KeyOf(y0) && KeyOf(a) != KeyOf(z)
    ensures KeyOf(b0) != KeyOf(y0) && KeyOf(b0) != KeyOf(z) && KeyOf(y0) != KeyOf(z)
  {
    KeyNotBelowItself(KeyOf(a));
    KeyNotBelowItself(KeyOf(b0));
    KeyNotBelowItself(KeyOf(y0));
    hide KeyBelow;
  }

  lemma ChainExists()
    ensures Chain(Port("a", "p", 0), Port("b", "q", 0), Port("b", "q", 1),
                  Port("y", "r", 0), Port("y", "r", 1), Port("z", "s", 0))
  {
    assert Below("a", "b") && Below("a", "y") && Below("a", "z");
    assert Below("b", "y") && Below("b", "z") && Below("y", "z");
    hide Below;
  }

  /** a[0] - b[1], b[0] - y[1], y[0] - z[0] in both directions, as the pass walks
      them. */
  function InSortedOrder(a: Port, b0: Port, b1: Port, y0: Port, y1: Port, z: Port): seq<Connection> {
    [(a, b1), (b0, y1), (b1, a), (y0, z), (y1, b0), (z, y0)]
  }

  function InOtherOrder(a: Port, b0: Port, b1: Port, y0: Port, y1: Port, z: Port): seq<Connection> {
    [(y0, z), (y1, b0), (b1, a), (a, b1), (b0, y1), (z, y0)]
  }

  lemma ChainSorted(a: Port, b0: Port, b1: Port, y0: Port, y1: Port, z: Port)
    requires Chain(a, b0, b1, y0, y1, z)
    ensures Sorted(InSortedOrder(a, b0, b1, y0, y1, z))
  {
    hide KeyBelow;
  }

  lemma ChainStart(a: Port, b0: Port, b1: Port, y0: Port, y1: Port, z: Port)
    ensures var idx := StartIndices(InSortedOrder(a, b0, b1, y0, y1, z));
      && KeyOf(a) in idx && KeyOf(b0) in idx && KeyOf(y0) in idx && KeyOf(z) in idx
      && forall key | key in idx :: idx[key] == 0
  {
    var sorted := InSortedOrder(a, b0, b1, y0, y1, z);
    assert sorted[0] in sorted && sorted[1] in sorted && sorted[3] in sorted && sorted[5] in sorted;
  }

  /** Walked in sorted order: by the time b[0] can be bound, both directions of
      the first connection have gone by.  Walked in another order, all of the
      same connections are bound. */
  lemma GivesUpTooEarly(a: Port, b0: Port, b1: Port, y0: Port, y1: Port, z: Port)
    requires Chain(a, b0, b1, y0, y1, z)
    ensures var sorted, other := InSortedOrder(a, b0, b1, y0, y1, z), InOtherOrder(a, b0, b1, y0, y1, z);
      && Sorted(sorted) && multiset(other) == multiset(sorted)
      && BindSpec(sorted, sorted) == Unordered && BindSpec(sorted, other) == Bound([(y0, z), (y1, b0), (b1, a)])
  {
    var idx := StartIndices(InSortedOrder(a, b0, b1, y0, y1, z));
    ChainSorted(a, b0, b1, y0, y1, z);
    ChainApart(a, b0, b1, y0, y1, z);
    ChainStart(a, b0, b1, y0, y1, z);
    SameConnections(a, b0, b1, y0, y1, z);
    hide StartIndices, Pass, Sorted, KeyBelow, InSortedOrder, InOtherOrder;
    WalkSorted(idx, a, b0, b1, y0, y1, z);
    WalkOther(idx, a, b0, b1, y0, y1, z);
  }

  /** So there is a sorted list of connections on which the pass gives up, though
      walked in another order they can all be bound. */
  lemma SomeWalkGivesUp() returns (sorted: seq<Connection>, other: seq<Connection>)
    ensures Sorted(sorted) && multiset(other) == multiset(sorted)
    ensures BindSpec(sorted, sorted) == Unordered && BindSpec(sorted, other).Bound?
  {
    hide Sorted, BindSpec, Chain;
    ChainExists();
    var a, b0, b1 := Port("a", "p", 0), Port("b", "q", 0), Port("b", "q", 1);
    var y0, y1, z := Port("y", "r", 0), Port("y", "r", 1), Port("z", "s", 0);
    sorted, other := InSortedOrder(a, b0, b1, y0, y1, z), InOtherOrder(a, b0, b1, y0, y1, z);
    GivesUpTooEarly(a, b0, b1, y0, y1, z);
  }

  lemma SameConnections(a: Port, b0: Port, b1: Port, y0: Port, y1: Port, z: Port)
    ensures multiset(InOtherOrder(a, b0, b1, y0, y1, z)) == multiset(InSortedOrder(a, b0, b1, y0, y1, z))
  {
    hide *;
    OrderParts(a, b0, b1, y0, y1, z);
    Regrouped([(a, b1), (b0, y1)], [(b1, a)], [(y0, z), (y1, b0)], [(z, y0)]);
  }

  lemma OrderParts(a: Port, b0: Port, b1: Port, y0: Port, y1: Port, z: Port)
    ensures InSortedOrder(a, b0, b1, y0, y1, z) ==
      [(a, b1), (b0, y1)] + [(b1, a)] + [(y0, z), (y1, b0)] + [(z, y0)]
    ensures InOtherOrder(a, b0, b1, y0, y1, z) ==
      [(y0, z), (y1, b0)] + [(b1, a)] + [(a, b1), (b0, y1)] + [(z, y0)]
  {
  }

  lemma Regrouped<T>(p: seq<T>, q: seq<T>, r: seq<T>, s: seq<T>)
    ensures multiset(r + q + p + s) == multiset(p + q + r + s)
  {
  }

  /** Ports of a chain whose keys are known to be different. */
  ghost predicate Links(idx: Indices, a: Port, b0: Port, b1: Port, y0: Port, y1: Port, z: Port) {
    && KeyOf(b0) == KeyOf(b1) && KeyOf(y0) == KeyOf(y1)
    && KeyOf(a) != KeyOf(b0) && KeyOf(a) != KeyOf(y0) && KeyOf(a) != KeyOf(z)
    && KeyOf(b0) != KeyOf(y0) && KeyOf(b0) != KeyOf(z) && KeyOf(y0) != KeyOf(z)
    && a.index == b0.index == y0.index == z.index == 0 && b1.index == y1.index == 1
    && KeyOf(a) in idx && KeyOf(b0) in idx && KeyOf(y0) in idx && KeyOf(z) in idx
    && forall key | key in idx :: idx[key] == 0
  }

  lemma WalkSorted(idx: Indices, a: Port, b0: Port, b1: Port, y0: Port, y1: Port, z: Port)
    requires Links(idx, a, b0, b1, y0, y1, z)
    ensures |InSortedOrder(a, b0, b1, y0, y1, z)| == 6
    ensures var end := Pass(idx, InSortedOrder(a, b0, b1, y0, y1, z)); end.Some? && |end.value.1| == 2
  {
    var c1: seq<Connection> := [] + [(a, b1)];
    var c2 := c1 + [(b0, y1)];
    var c3 := c2 + [(b1, a)];
    var c4 := c3 + [(y0, z)];
    var c5 := c4 + [(y1, b0)];
    var idx4 := Increment(Increment(idx, y0), z);
    var idx5 := Increment(Increment(idx4, y1), b0);
    assert Pass(idx, []) == Some((idx, []));
    hide Pass;
    PassStep(idx, [], (a, b1), idx, []);
    PassStep(idx, c1, (b0, y1), idx, []);
    PassStep(idx, c2, (b1, a), idx, []);
    PassStep(idx, c3, (y0, z), idx, []);
    PassStep(idx, c4, (y1, b0), idx4, [] + [(y0, z)]);
    PassStep(idx, c5, (z, y0), idx5, ([] + [(y0, z)]) + [(y1, b0)]);
    assert c5 + [(z, y0)] == InSortedOrder(a, b0, b1, y0, y1, z);
  }

  lemma WalkOther(idx: Indices, a: Port, b0: Port, b1: Port, y0: Port, y1: Port, z: Port)
    requires Links(idx, a, b0, b1, y0, y1, z)
    ensures var end := Pass(idx, InOtherOrder(a, b0, b1, y0, y1, z));
      end.Some? && end.value.1 == [(y0, z), (y1, b0), (b1, a)]
  {
    var c1: seq<Connection> := [] + [(y0, z)];
    var c2 := c1 + [(y1, b0)];
    var c3 := c2 + [(b1, a)];
    var c4 := c3 + [(a, b1)];
    var c5 := c4 + [(b0, y1)];
    var idx1 := Increment(Increment(idx, y0), z);
    var idx2 := Increment(Increment(idx1, y1), b0);
    var idx3 := Increment(Increment(idx2, b1), a);
    assert Pass(idx, []) == Some((idx, []));
    hide Pass;
    PassStep(idx, [], (y0, z), idx, []);
    PassStep(idx, c1, (y1, b0), idx1, c1);
    PassStep(idx, c2, (b1, a), idx2, c2);
    PassStep(idx, c3, (a, b1), idx3, c3);
    PassStep(idx, c4, (b0, y1), idx3, c3);
    PassStep(idx, c5, (z, y0), idx3, c3);
    assert c5 + [(z, y0)] == InOtherOrder(a, b0, b1, y0, y1, z);
    assert c3 == [(y0, z), (y1, b0), (b1, a)];
  }

  // ---------- Text form ----------

  /** %s.%s[%d] */
  function Show(p: Port): string {
    p.objectName + "." + p.portName + "[" + Decimal(p.index) + "]"
  }

  predicate PortChar(c: char) { c != '.' && c != '[' }

  /** The last dot before position n that a port name can follow. */
  function LastDot(s: string, n: nat): (r: Option<nat>)
    requires n <= |s|
    ensures r.Some? ==> r.value < n && r.value + 1 < |s| && s[r.value] == '.' && PortChar(s[r.value + 1])
    ensures forall k | 0 <= k < n && k + 1 < |s| && s[k] == '.' && PortChar(s[k + 1]) :: r.Some? && k <= r.value
  {
    if n == 0 then None
    else if n < |s| && s[n - 1] == '.' && PortChar(s[n]) then Some(n - 1)
    else LastDot(s, n - 1)
  }

  /** The optional index at the start of what follows the port name. */
  function Index(s: string): nat {
    if s == [] || s[0] != '[' then 0
    else
      var n := Span(s[1..], IsDigit);
      if n > 0 && 1 + n < |s| && s[1 + n] == ']' then Value(s[1..][..n]) else 0
  }

  /** s starts with an index: a number in brackets. */
  ghost predicate Indexed(s: string, d: string, rest: string) {
    s == "[" + d + "]" + rest && d != [] && forall c | c in d :: IsDigit(c)
  }

  /** The index is read if there is one, and is 0 if not. */
  lemma IndexExactly(s: string)
    ensures forall d, rest | Indexed(s, d, rest) :: Index(s) == Value(d)
    ensures (forall d, rest :: !Indexed(s, d, rest)) ==> Index(s) == 0
  {
    forall d, rest | Indexed(s, d, rest) ensures Index(s) == Value(d) {
      assert s[1..] == d + ("]" + rest);
      SpanAll(d, "]" + rest, IsDigit);
      assert s[1..][..|d|] == d;
    }
    if s != [] && s[0] == '[' {
      var n := Span(s[1..], IsDigit);
      if n > 0 && 1 + n < |s| && s[1 + n] == ']' {
        var d, rest := s[1..][..n], s[2 + n..];
        assert s == "[" + d + "]" + rest && Indexed(s, d, rest);
      }
    }
  }

  predicate OnLine(c: char) { c != '\n' }

  /** Read a port reference; the object name does not go past a line break, and
      text after the reference is ignored. */
  function FromString(s: string): Option<Port> {
    var dot := LastDot(s, Span(s, OnLine));
    if dot.None? then None
    else
      var rest := s[dot.value + 1..];
      var n := Span(rest, PortChar);
      Some(Port(s[..dot.value], rest[..n], Index(rest[n..])))
  }

  predicate PlainName(name: string) { name != [] && forall c | c in name :: PortChar(c) }

  lemma IndexOf(n: nat)
    ensures Index("[" + Decimal(n) + "]") == n
  {
    var d := Decimal(n);
    assert ("[" + d + "]")[1..] == d + "]";
    SpanAll(d, "]", IsDigit);
    assert (d + "]")[..|d|] == d;
    ValueDecimal(n);
  }

  function Tail(p: Port): string { "[" + Decimal(p.index) + "]" }

  /** What follows the object name and its dot. */
  lemma ShowParts(p: Port)
    ensures var s, m := Show(p), |p.objectName|;
      s[..m] == p.objectName && s[m] == '.' && s[m + 1..] == p.portName + Tail(p)
  {
  }

  predicate OneLine(name: string) { forall c | c in name :: OnLine(c) }

  lemma ShowDot(p: Port)
    requires PlainName(p.portName) && OneLine(p.objectName)
    ensures LastDot(Show(p), Span(Show(p), OnLine)) == Some(|p.objectName|)
  {
    var s, m := Show(p), |p.objectName|;
    ShowParts(p);
    var rest := p.portName + Tail(p);
    assert s[m + 1] == rest[0] && rest[0] in p.portName;
    forall k | m < k < |s| ensures s[k] != '.' {
      assert s[k] == rest[k - m - 1];
      assert rest[k - m - 1] in p.portName || rest[k - m - 1] in Tail(p);
    }
    forall k | 0 <= k <= m ensures OnLine(s[k]) {
      if k < m { assert s[k] == s[..m][k] && s[k] in p.objectName; }
    }
    assert Span(s, OnLine) > m;
  }

  lemma PlainShow(p: Port)
    requires PlainName(p.portName) && OneLine(p.objectName)
    ensures FromString(Show(p)) == Some(p)
  {
    ShowDot(p);
    ShowParts(p);
    SpanAll(p.portName, Tail(p), PortChar);
    var rest := p.portName + Tail(p);
    assert rest[..|p.portName|] == p.portName && rest[|p.portName|..] == Tail(p);
    IndexOf(p.index);
    hide Decimal, Show, LastDot, Span, Index;
  }

  /** A reference without an index is to element 0. */
  lemma ReadsWithoutIndex(o: string, p: string)
    requires PlainName(p) && OneLine(o)
    ensures FromString(o + "." + p) == Some(Port(o, p, 0))
  {
    var s, m := o + "." + p, |o|;
    assert s[..m] == o && s[m] == '.' && s[m + 1..] == p && s[m + 1] == p[0] && p[0] in p;
    forall k | m < k < |s| ensures s[k] != '.' { assert s[k] == p[k - m - 1] && p[k - m - 1] in p; }
    forall k | 0 <= k <= m ensures OnLine(s[k]) {
      if k < m { assert s[k] == o[k] && o[k] in o; }
    }
    assert LastDot(s, Span(s, OnLine)) == Some(m);
    SpanAll(p, [], PortChar);
    assert p + [] == p && p[..|p|] == p && p[|p|..] == [];
    IndexExactly([]);
  }

  lemma ReadIsPlain(s: string)
    requires FromString(s).Some?
    ensures PlainName(FromString(s).value.portName) && OneLine(FromString(s).value.objectName)
  {
    var rest := s[LastDot(s, Span(s, OnLine)).value + 1..];
    assert PortChar(rest[0]) && Span(rest, PortChar) > 0;
  }

  /** A printed port reads back exactly if its port name is plain and its object
      name has no line break. */
  lemma ShowRoundTrip(p: Port)
    ensures FromString(Show(p)) == Some(p) <==> PlainName(p.portName) && OneLine(p.objectName)
  {
    hide FromString, Show, PlainName, OneLine;
    if PlainName(p.portName) && OneLine(p.objectName) {
      PlainShow(p);
    } else if FromString(Show(p)).Some? {
      ReadIsPlain(Show(p));
    }
  }
}
