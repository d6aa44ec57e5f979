/**
  Text as the scripts handle it: decimal numbers, and lists written with a
  separator between their parts.
 */
module Text {
  import opened Options

  // ---------- Decimal numbers ----------

  predicate IsDigit(c: char) { '0' <= c <= '9' }

  function Digit(d: nat): (c: char)
    requires d < 10
    ensures IsDigit(c) && c as int - '0' as int == d
  {
    '0' + d as char
  }

  /** %d of a number that is not negative. */
  function Decimal(n: nat): (s: string)
    ensures s != [] && forall c | c in s :: IsDigit(c)
  {
    if n < 10 then [Digit(n)] else Decimal(n / 10) + [Digit(n % 10)]
  }

  function Power10(n: nat): nat { if n == 0 then 1 else 10 * Power10(n - 1) }

  /** The value of a string of digits. */
  function Value(s: string): nat
    requires forall c | c in s :: IsDigit(c)
  {
    if s == [] then 0
    else
      assert IsDigit(s[|s| - 1]);
      10 * Value(s[..|s| - 1]) + (s[|s| - 1] as int - '0' as int)
  }

  /** int() of a string of digits; anything else is an error. */
  function ParseNat(s: string): Option<nat> {
    if s != [] && forall c | c in s :: IsDigit(c) then Some(Value(s)) else None
  }

  /** int() of a number with or without a sign. */
  function ParseInt(s: string): Option<int> {
    if s != [] && (s[0] == '-' || s[0] == '+') then
      var n := ParseNat(s[1..]);
      if n.None? then None else Some(if s[0] == '-' then 0 - n.value else n.value)
    else
      var n := ParseNat(s);
      if n.Some? then Some(n.value) else None
  }

  lemma {:induction false} ValueDecimal(n: nat)
    ensures Value(Decimal(n)) == n
  {
    if n >= 10 {
      var s := Decimal(n);
      assert s[..|s| - 1] == Decimal(n / 10);
      ValueDecimal(n / 10);
    }
  }

  /** Reading back a printed number. */
  lemma ParseDecimal(n: nat)
    ensures ParseNat(Decimal(n)) == Some(n)
  {
    ValueDecimal(n);
  }

  lemma DecimalInjective(m: nat, n: nat)
    requires Decimal(m) == Decimal(n)
    ensures m == n
  {
    ValueDecimal(m);
    ValueDecimal(n);
  }

  // ---------- Blanks ----------

  predicate IsSpace(c: char) { c == ' ' || '\t' <= c <= '\r' }

  function SkipSpace(s: string): string {
    if s != [] && IsSpace(s[0]) then SkipSpace(s[1..]) else s
  }

  function DropSpace(s: string): string {
    if s != [] && IsSpace(s[|s| - 1]) then DropSpace(s[..|s| - 1]) else s
  }

  function Strip(s: string): string { SkipSpace(DropSpace(s)) }

  ghost predicate Blank(s: string) { forall c | c in s :: IsSpace(c) }

  ghost predicate Trimmed(s: string) { s != [] ==> !IsSpace(s[0]) && !IsSpace(s[|s| - 1]) }

  /** p is r with blanks around it. */
  ghost predicate Around(p: string, r: string) {
    Trimmed(r) && exists a, b :: Blank(a) && Blank(b) && p == a + r + b
  }

  lemma {:induction false} SkipBlank(a: string, s: string)
    requires Blank(a)
    ensures SkipSpace(a + s) == SkipSpace(s)
    decreases a
  {
    if a == [] {
      assert a + s == s;
    } else {
      assert (a + s)[1..] == a[1..] + s;
      SkipBlank(a[1..], s);
    }
  }

  lemma {:induction false} DropBlank(s: string, b: string)
    requires Blank(b)
    ensures DropSpace(s + b) == DropSpace(s)
    decreases b
  {
    if b == [] {
      assert s + b == s;
    } else {
      assert (s + b)[..|s + b| - 1] == s + b[..|b| - 1];
      DropBlank(s, b[..|b| - 1]);
    }
  }

  /** Exactly the blanks around a text go. */
  lemma StripExactly(p: string, r: string)
    requires Around(p, r)
    ensures Strip(p) == r
  {
    var a, b :| Blank(a) && Blank(b) && p == a + r + b;
    DropBlank(a + r, b);
    if r == [] {
      assert a + r == [] + a;
      DropBlank([], a);
    } else {
      assert (a + r)[|a + r| - 1] == r[|r| - 1];
      SkipBlank(a, r);
    }
  }

  // ---------- Prefixes ----------

  /** Length of the longest prefix of characters that satisfy f. */
  function Span(s: string, f: char -> bool): (n: nat)
    ensures n <= |s| && (forall k | 0 <= k < n :: f(s[k])) && (n < |s| ==> !f(s[n]))
  {
    if s == [] || !f(s[0]) then 0 else 1 + Span(s[1..], f)
  }

  lemma {:induction false} SpanAll(s: string, rest: string, f: char -> bool)
    requires (forall c | c in s :: f(c)) && (rest == [] || !f(rest[0]))
    ensures Span(s + rest, f) == |s|
  {
    if s == [] {
      assert s + rest == rest;
    } else {
      assert (s + rest)[1..] == s[1..] + rest;
      SpanAll(s[1..], rest, f);
    }
  }

  // ---------- Lists with separators ----------

  function Join(parts: seq<string>, sep: char): string {
    if parts == [] then [] else if |parts| == 1 then parts[0] else parts[0] + [sep] + Join(parts[1..], sep)
  }

  function Split(s: string, sep: char): (parts: seq<string>)
    ensures parts != []
  {
    if s == [] then [[]]
    else
      var rest := Split(s[1..], sep);
      if s[0] == sep then [[]] + rest else [[s[0]] + rest[0]] + rest[1..]
  }

  ghost predicate Without(s: string, sep: char) { sep !in s }

  lemma {:induction false} SplitPlain(s: string, sep: char)
    requires Without(s, sep)
    ensures Split(s, sep) == [s]
  {
    if s != [] {
      SplitPlain(s[1..], sep);
      assert [s[0]] + s[1..] == s;
    }
  }

  lemma {:induction false} SplitFirst(s: string, sep: char, rest: string)
    requires Without(s, sep)
    ensures Split(s + [sep] + rest, sep) == [s] + Split(rest, sep)
  {
    var whole := s + [sep] + rest;
    if s == [] {
      assert whole[1..] == rest;
    } else {
      assert whole[1..] == s[1..] + [sep] + rest;
      SplitFirst(s[1..], sep, rest);
      assert [s[0]] + s[1..] == s;
    }
  }

  lemma {:induction false} JoinAppend(parts: seq<string>, p: string, sep: char)
    requires parts != []
    ensures Join(parts + [p], sep) == Join(parts, sep) + [sep] + p
  {
    if |parts| > 1 {
      assert (parts + [p])[1..] == parts[1..] + [p];
      JoinAppend(parts[1..], p, sep);
    } else {
      assert (parts + [p])[1..] == [p];
    }
  }

  /** Splitting a joined list gives its parts back. */
  lemma {:induction false} SplitJoin(parts: seq<string>, sep: char)
    requires parts != [] && forall p | p in parts :: Without(p, sep)
    ensures Split(Join(parts, sep), sep) == parts
  {
    if |parts| == 1 {
      SplitPlain(parts[0], sep);
    } else {
      SplitJoin(parts[1..], sep);
      SplitFirst(parts[0], sep, Join(parts[1..], sep));
    }
  }
}
