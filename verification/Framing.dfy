/**
  The message framing of the trace scripts: each message is preceded by its
  length as a base-128 varint.  Messages are the bytes they serialise to.
 */
module Framing {
  import opened Options

  const LIMIT := 0x1_0000_0000

  // ---------- Writing varints ----------

  /** Seven bits at a time, least significant first; all bytes but the last have
      their top bit set. */
  function Varint(n: nat): (s: seq<byte>)
    ensures s != []
  {
    if n < 0x80 then [n] else [0x80 + n % 0x80] + Varint(n / 0x80)
  }

  method EncodeVarint(value: nat) returns (out: seq<byte>)
    ensures out == Varint(value)
  {
    out := [];
    var bits: nat, rest: nat := value % 0x80, value / 0x80;
    while rest != 0
      invariant bits < 0x80 && out + Varint(0x80 * rest + bits) == Varint(value)
      decreases rest
    {
      ghost var done, n := out, 0x80 * rest + bits;
      assert Varint(n) == [0x80 + bits] + Varint(rest);
      assert done + ([0x80 + bits] + Varint(rest)) == done + [0x80 + bits] + Varint(rest);
      out := out + [0x80 + bits];
      bits, rest := rest % 0x80, rest / 0x80;
    }
    out := out + [bits];
  }

  // ---------- Reading varints ----------

  /** The end of the file, a value and what is left of the file, or too many
      bytes. */
  datatype Read = Eof | Value(value: int, rest: seq<byte>) | TooLong

  /** The number whose groups of seven bits s starts with, given that `pos` bytes
      of it have gone by already. */
  function Groups(s: seq<byte>, pos: nat): (r: Read)
    ensures r.Value? ==> r.value >= 0
    decreases s
  {
    if s == [] then Eof
    else if s[0] < 0x80 then Value(s[0], s[1..])
    else if 7 * (pos + 1) >= 64 then TooLong
    else
      var more := Groups(s[1..], pos + 1);
      if more.Value? then Value(s[0] - 0x80 + 0x80 * more.value, more.rest) else more
  }

  /** As a 32-bit number, negative if bit 63 or a higher one is set. */
  function Truncated(n: nat): int {
    if n > 0x7fff_ffff_ffff_ffff then n % LIMIT - LIMIT else n % LIMIT
  }

  function ReadVarint(s: seq<byte>): Read {
    var r := Groups(s, 0);
    if r.Value? then Value(Truncated(r.value), r.rest) else r
  }

  /** The loop has `result` and reads on at weight `scale`. */
  ghost function Continue(result: nat, scale: nat, r: Read): Read {
    if r.Value? then Value(result + scale * r.value, r.rest) else r
  }

  lemma ContinueStep(result: nat, scale: nat, bits: nat, more: Read)
    ensures Continue(result, scale, if more.Value? then Value(bits + 0x80 * more.value, more.rest) else more)
         == Continue(result + bits * scale, 0x80 * scale, more)
  {
    if more.Value? { Distribute(scale, bits, more.value); }
  }

  lemma Distribute(scale: nat, bits: nat, v: int)
    ensures scale * (bits + 0x80 * v) == bits * scale + (0x80 * scale) * v
  {
  }

  /** The bits of each byte go above all those read before, where `|=` adds. */
  method DecodeVarint(s: seq<byte>) returns (r: Read)
    ensures r == ReadVarint(s)
  {
    var result: nat, shift: nat, scale: nat, pos: nat := 0, 0, 1, 0;
    assert s[0..] == s;
    while true
      invariant pos <= |s| && shift == 7 * pos && shift < 64
      invariant result < scale && Groups(s, 0) == Continue(result, scale, Groups(s[pos..], pos))
      decreases |s| - pos
    {
      if pos == |s| {
        return Eof;
      }
      var b := s[pos];
      ghost var more := Groups(s[pos + 1..], pos + 1);
      assert s[pos..][1..] == s[pos + 1..];
      ContinueStep(result, scale, b % 0x80, more);
      BitsAbove(result, scale, b % 0x80);
      result := result + b % 0x80 * scale;
      pos := pos + 1;
      if b < 0x80 {
        return Value(Truncated(result), s[pos..]);
      }
      shift := shift + 7;
      scale := 0x80 * scale;
      if shift >= 64 {
        return TooLong;
      }
    }
  }

  lemma BitsAbove(result: nat, scale: nat, bits: nat)
    requires result < scale && bits < 0x80
    ensures result + bits * scale < 0x80 * scale && bits * scale == scale * bits
  {
    assert bits * scale <= 0x7f * scale;
  }

  // ---------- Varints round trip ----------

  function Power128(k: nat): nat { if k == 0 then 1 else 0x80 * Power128(k - 1) }

  lemma {:induction false} GroupsWritten(n: nat, rest: seq<byte>, pos: nat)
    requires pos <= 9 && n < Power128(10 - pos)
    ensures Groups(Varint(n) + rest, pos) == Value(n, rest)
    decreases n
  {
    var s := Varint(n) + rest;
    if n < 0x80 {
      assert s[1..] == rest;
    } else {
      assert s[1..] == Varint(n / 0x80) + rest;
      assert Power128(1) == 0x80;
      GroupsWritten(n / 0x80, rest, pos + 1);
    }
  }

  /** A written number is read back exactly if it fits in 32 bits, and modulo 2^32
      below 2^63; what follows it is left alone. */
  lemma VarintRoundTrip(n: nat, rest: seq<byte>)
    ensures ReadVarint(Varint(n) + rest) == Value(n, rest) <==> n < LIMIT
    ensures n < 0x8000_0000_0000_0000 ==> ReadVarint(Varint(n) + rest) == Value(n % LIMIT, rest)
  {
    if n < 0x8000_0000_0000_0000 {
      assert Power128(3) == 0x20_0000 && Power128(6) == 0x20_0000 * 0x20_0000;
      assert Power128(9) == 0x20_0000 * Power128(6);
      GroupsWritten(n, rest, 0);
    }
  }

  lemma TenGroups()
    ensures Power128(10) == 0x40_0000_0000_0000_0000
  {
    assert Power128(3) == 0x20_0000 && Power128(6) == 0x20_0000 * 0x20_0000;
    assert Power128(9) == 0x20_0000 * Power128(6);
    assert Power128(10) == 0x80 * Power128(9);
  }

  lemma {:induction false} GroupsTooMany(n: nat, rest: seq<byte>, pos: nat)
    requires pos <= 9 && n >= Power128(10 - pos)
    ensures Groups(Varint(n) + rest, pos) == TooLong
    decreases n
  {
    var s := Varint(n) + rest;
    assert Power128(10 - pos) == 0x80 * Power128(10 - (pos + 1));
    assert n >= 0x80 && s[1..] == Varint(n / 0x80) + rest;
    if pos < 9 { GroupsTooMany(n / 0x80, rest, pos + 1); }
  }

  /** The same for every number: from 2^63 on it is read as negative, and from 2^70 on
      it has too many bytes. */
  lemma VarintReads(n: nat, rest: seq<byte>)
    ensures ReadVarint(Varint(n) + rest) ==
      if n < 0x8000_0000_0000_0000 then Value(n % LIMIT, rest)
      else if n < 0x40_0000_0000_0000_0000 then Value(n % LIMIT - LIMIT, rest)
      else TooLong
  {
    hide Varint, Groups;
    TenGroups();
    if n < Power128(10) { GroupsWritten(n, rest, 0); } else { GroupsTooMany(n, rest, 0); }
  }

  /** A number that is cut off is none. */
  lemma {:induction false} VarintCut(n: nat, k: nat, pos: nat)
    requires k < |Varint(n)| && pos <= 9 && n < Power128(10 - pos)
    ensures Groups(Varint(n)[..k], pos) == Eof
    decreases n
  {
    var s := Varint(n);
    if k > 0 {
      assert s[1..] == Varint(n / 0x80) && s[..k][1..] == s[1..][..k - 1];
      assert Power128(1) == 0x80;
      VarintCut(n / 0x80, k - 1, pos + 1);
    }
  }

  // ---------- Messages ----------

  type Message = seq<byte>

  function Frame(m: Message): seq<byte> { Varint(|m|) + m }

  method EncodeMessage(out: seq<byte>, m: Message) returns (out': seq<byte>)
    ensures out' == out + Frame(m)
  {
    var size := EncodeVarint(|m|);
    out' := out + size;
    out' := out' + m;
  }

  /** file.read: all that is left if that is less, or if the size is negative. */
  function Take(s: seq<byte>, size: int): nat {
    if size < 0 || size > |s| then |s| else size
  }

  /** The next message and what is left of the file; None at the end of the file,
      on a bad length, and for a message of length 0. */
  function ReadMessage(s: seq<byte>): (r: Option<(Message, seq<byte>)>)
    ensures r.Some? ==> |r.value.1| < |s|
  {
    RestIsShorter(s, 0);
    var size := ReadVarint(s);
    if !size.Value? || size.value == 0 then None
    else
      var n := Take(size.rest, size.value);
      Some((size.rest[..n], size.rest[n..]))
  }

  lemma {:induction false} RestIsShorter(s: seq<byte>, pos: nat)
    ensures var r := Groups(s, pos); r.Value? ==> |r.rest| < |s|
    decreases s
  {
    if s != [] && s[0] >= 0x80 { RestIsShorter(s[1..], pos + 1); }
  }

  method DecodeMessage(s: seq<byte>) returns (r: Option<(Message, seq<byte>)>)
    ensures r == ReadMessage(s)
  {
    var size := DecodeVarint(s);
    match size {
      case Eof => return None;
      case TooLong => return None;
      case Value(n, rest) =>
        if n == 0 {
          return None;
        }
        var k := Take(rest, n);
        return Some((rest[..k], rest[k..]));
    }
  }

  /** Read messages until there are no more. */
  function ReadAll(s: seq<byte>): seq<Message>
    decreases |s|
  {
    var r := ReadMessage(s);
    if r.None? then [] else [r.value.0] + ReadAll(r.value.1)
  }

  method DecodeAll(s: seq<byte>) returns (ms: seq<Message>)
    ensures ms == ReadAll(s)
  {
    hide ReadMessage;
    ms := [];
    var rest := s;
    var r := DecodeMessage(rest);
    while r.Some?
      invariant r == ReadMessage(rest) && ReadAll(s) == ms + ReadAll(rest)
      decreases |rest|
    {
      assert ms + ([r.value.0] + ReadAll(r.value.1)) == ms + [r.value.0] + ReadAll(r.value.1);
      ms, rest := ms + [r.value.0], r.value.1;
      r := DecodeMessage(rest);
    }
  }

  function FrameAll(ms: seq<Message>): seq<byte> {
    if ms == [] then [] else Frame(ms[0]) + FrameAll(ms[1..])
  }

  lemma FrameRoundTrip(m: Message, rest: seq<byte>)
    requires |m| < LIMIT
    ensures ReadMessage(Frame(m) + rest) == if m == [] then None else Some((m, rest))
  {
    assert Frame(m) + rest == Varint(|m|) + (m + rest);
    VarintRoundTrip(|m|, m + rest);
    assert (m + rest)[..|m|] == m && (m + rest)[|m|..] == rest;
  }

  /** A length that reads as negative: the message is all that is left of the file. */
  lemma HugeLength(n: nat, rest: seq<byte>)
    requires 0x8000_0000_0000_0000 <= n < 0x40_0000_0000_0000_0000
    ensures ReadMessage(Varint(n) + rest) == Some((rest, []))
  {
    hide Varint, ReadVarint, Groups;
    VarintReads(n, rest);
    assert rest[..|rest|] == rest && rest[|rest|..] == [];
  }

  /** A message that is cut off: none if its length is, and otherwise what there is. */
  lemma FrameCut(m: Message, k: nat)
    requires 0 < |m| < LIMIT && k <= |Frame(m)|
    ensures var n := |Varint(|m|)|;
      ReadMessage(Frame(m)[..k]) == if k < n then None else Some((m[..k - n], []))
  {
    hide Varint, ReadMessage;
    var v := Varint(|m|);
    if k < |v| {
      assert Frame(m)[..k] == v[..k];
      LengthCut(|m|, k);
    } else {
      assert Frame(m)[..k] == v + m[..k - |v|];
      RestCut(m, m[..k - |v|]);
    }
  }

  lemma LengthCut(n: nat, k: nat)
    requires 0 < n < LIMIT && k < |Varint(n)|
    ensures ReadMessage(Varint(n)[..k]) == None
  {
    hide Varint;
    TenGroups();
    VarintCut(n, k, 0);
  }

  lemma RestCut(m: Message, part: Message)
    requires 0 < |m| < LIMIT && |part| <= |m|
    ensures ReadMessage(Varint(|m|) + part) == Some((part, []))
  {
    hide Varint, ReadVarint, Groups;
    VarintRoundTrip(|m|, part);
    assert part[..|part|] == part && part[|part|..] == [];
  }

  /** The messages before the first empty one. */
  function BeforeEmpty(ms: seq<Message>): seq<Message> {
    if ms == [] || ms[0] == [] then [] else [ms[0]] + BeforeEmpty(ms[1..])
  }

  lemma {:induction false} NoneEmpty(ms: seq<Message>)
    ensures BeforeEmpty(ms) == ms <==> forall m | m in ms :: m != []
  {
    if ms != [] {
      assert ms == [ms[0]] + ms[1..];
      if ms[0] == [] {
        assert ms[0] in ms;
      } else {
        NoneEmpty(ms[1..]);
        assert BeforeEmpty(ms) == ms <==> BeforeEmpty(ms[1..]) == ms[1..];
        assert forall m :: m in ms <==> m == ms[0] || m in ms[1..];
      }
    }
  }

  /** A written list is read back up to its first empty message, which reads as
      the end of the file: exactly the list if no message is empty. */
  lemma {:induction false} FramesRoundTrip(ms: seq<Message>)
    requires forall m | m in ms :: |m| < LIMIT
    ensures ReadAll(FrameAll(ms)) == BeforeEmpty(ms)
    ensures ReadAll(FrameAll(ms)) == ms <==> forall m | m in ms :: m != []
  {
    NoneEmpty(ms);
    if ms == [] {
      assert ReadMessage([]) == None;
    } else {
      FrameRoundTrip(ms[0], FrameAll(ms[1..]));
      FramesRoundTrip(ms[1..]);
    }
  }
}
