/**
  cbor.go: heads, byte strings and tags.  `Head`, `Bstr` and `Tag` say which bytes an item is made
  of; the methods put them in a buffer the way the code does.  A byte's major type and info are
  b / 32 and b % 32, the arithmetic reading of the masks 0xe0 and 0x1f.
*/
module Cbor {
  import opened Wire

  const TWO8: nat := 0x100
  const TWO16: nat := 0x1_0000
  const TWO32: nat := 0x1_0000_0000
  const TWO63: int := 0x8000_0000_0000_0000
  const TWO64: int := 0x1_0000_0000_0000_0000

  const BREAK: byte := 0xff       // breakStop
  const MAP_START: byte := 0xbf
  const ARRAY_START: byte := 0x9f

  // ---- big-endian numbers

  function Pow256(k: nat): nat { if k == 0 then 1 else 256 * Pow256(k - 1) }

  function PutBE(v: nat, k: nat): seq<byte>
    ensures |PutBE(v, k)| == k
  {
    if k == 0 then [] else PutBE(v / 256, k - 1) + [v % 256]
  }

  function GetBE(s: seq<byte>): nat {
    if s == [] then 0 else 256 * GetBE(s[..|s|-1]) + s[|s|-1]
  }

  lemma {:induction false} GetPutBE(v: nat, k: nat)
    requires v < Pow256(k)
    ensures GetBE(PutBE(v, k)) == v
  {
    if k > 0 {
      GetPutBE(v / 256, k - 1);
      assert PutBE(v, k)[..k-1] == PutBE(v / 256, k - 1);
    }
  }

  lemma {:induction false} PutGetBE(s: seq<byte>)
    ensures GetBE(s) < Pow256(|s|) && PutBE(GetBE(s), |s|) == s
  {
    if s != [] {
      var h, l := s[..|s|-1], s[|s|-1];
      PutGetBE(h);
      assert GetBE(s) / 256 == GetBE(h) && GetBE(s) % 256 == l;
      assert s == h + [l];
    }
  }

  lemma Powers()
    ensures Pow256(1) == TWO8 && Pow256(2) == TWO16 && Pow256(4) == TWO32 && Pow256(8) == TWO64
  {
    assert Pow256(2) == 256 * Pow256(1);
    assert Pow256(3) == 256 * Pow256(2);
    assert Pow256(4) == 256 * Pow256(3);
    assert Pow256(5) == 256 * Pow256(4);
    assert Pow256(6) == 256 * Pow256(5);
    assert Pow256(7) == 256 * Pow256(6);
    assert Pow256(8) == 256 * Pow256(7);
  }

  // ---- heads

  type Word = v: nat | v < TWO64

  /** Bytes that follow the first one for an argument `v`. */
  function Extra(v: Word): nat {
    if v < 24 then 0 else if v < TWO8 then 1 else if v < TWO16 then 2 else if v < TWO32 then 4 else 8
  }

  function Info(v: Word): nat {
    if v < 24 then v else if v < TWO8 then 24 else if v < TWO16 then 25 else if v < TWO32 then 26 else 27
  }

  /** The head of an item: its major type and its argument. */
  function Head(major: nat, v: Word): (s: seq<byte>)
    requires major < 8
    ensures |s| == 1 + Extra(v)
  {
    [32 * major + Info(v)] + PutBE(v, Extra(v))
  }

  function Uint(v: Word): seq<byte> { Head(0, v) }

  function Tag(t: Word): seq<byte> { Head(6, t) }

  function Bstr(d: seq<byte>): seq<byte>
    requires |d| < TWO64
  {
    Head(2, |d|) + d
  }

  /** Go's int64 reading of a 64-bit word, and its way back. */
  function Int64(v: Word): int { if v < TWO63 then v else v - TWO64 }

  function Uint64(i: int): Word
    requires -TWO63 <= i < TWO63
  {
    if i < 0 then i + TWO64 else i
  }

  lemma Int64Inverse(v: Word)
    ensures -TWO63 <= Int64(v) < TWO63 && Uint64(Int64(v)) == v
  {}

  /** cborItemLength: the argument of the head and its length, or (-1, -1) when it is cut short. */
  function ItemLength(buf: seq<byte>): (int, int)
    requires buf != []
  {
    var y := buf[0] % 32;
    if y < 24 then (y, 1)
    else if y == 24 then if |buf| < 2 then (-1, -1) else (buf[1], 2)
    else if y == 25 then if |buf| < 3 then (-1, -1) else (GetBE(buf[1..3]), 3)
    else if y == 26 then if |buf| < 5 then (-1, -1) else (GetBE(buf[1..5]), 5)
    else if |buf| < 9 then (-1, -1)
    else BE8Bound(buf[1..9]); (Int64(GetBE(buf[1..9])), 9)
  }

  lemma BE8Bound(s: seq<byte>)
    requires |s| == 8
    ensures GetBE(s) < TWO64
  {
    PutGetBE(s);
    Powers();
  }

  lemma ExtraFits(v: Word)
    ensures Extra(v) > 0 ==> v < Pow256(Extra(v))
  {
    Powers();
  }

  lemma HeadParts(major: nat, v: Word)
    requires major < 8
    ensures var h := Head(major, v);
            h[0] == 32 * major + Info(v) && h[0] % 32 == Info(v) && h[0] / 32 == major && h[1..] == PutBE(v, Extra(v))
  {}

  lemma ExtraBack(v: Word)
    ensures Extra(v) > 0 ==> GetBE(PutBE(v, Extra(v))) == v
  {
    ExtraFits(v);
    if Extra(v) > 0 { GetPutBE(v, Extra(v)); }
  }

  /** Reading back a head, whatever follows it. */
  lemma HeadRoundTrip(major: nat, v: Word, rest: seq<byte>)
    requires major < 8
    ensures var s := Head(major, v) + rest;
            s != [] && s[0] / 32 == major && ItemLength(s) == (Int64(v), 1 + Extra(v))
  {
    var s, k := Head(major, v) + rest, Extra(v);
    HeadParts(major, v);
    ExtraBack(v);
    assert s[0] == Head(major, v)[0] && s[1..1 + k] == Head(major, v)[1..];
  }

  // ---- shortest form

  /** What any head of RFC 7049 says, shortest or not: the argument and the bytes it takes. */
  function Argument(buf: seq<byte>): Option<(nat, nat)> {
    if buf == [] then None
    else
      var y := buf[0] % 32;
      var k := if y == 24 then 1 else if y == 25 then 2 else if y == 26 then 4 else if y == 27 then 8 else 0;
      if y < 24 then Some((y as nat, 1))
      else if k == 0 || |buf| < 1 + k then None
      else Some((GetBE(buf[1..1 + k]), 1 + k))
  }

  /** A head with `k` further bytes cannot say more than `k` bytes hold. */
  lemma ArgumentBound(buf: seq<byte>)
    requires Argument(buf).Some?
    ensures var (v, n) := Argument(buf).value;
            n in {1, 2, 3, 5, 9} && v < if n == 1 then 24 else Pow256(n - 1)
  {
    var n := Argument(buf).value.1;
    if n > 1 { PutGetBE(buf[1..n]); }
  }

  lemma ArgumentOfHead(major: nat, v: Word)
    requires major < 8
    ensures Argument(Head(major, v)) == Some((v as nat, |Head(major, v)|))
  {
    var h, k := Head(major, v), Extra(v);
    HeadParts(major, v);
    ExtraBack(v);
    assert h[1..1 + k] == h[1..];
  }

  /** No encoding of the same argument is shorter than `Head`: section 3.9 of RFC 7049. */
  lemma HeadIsShortest(major: nat, v: Word, other: seq<byte>)
    requires major < 8 && Argument(other).Some? && Argument(other).value.0 == v
    ensures Argument(Head(major, v)) == Some((v as nat, |Head(major, v)|))
    ensures |Head(major, v)| <= Argument(other).value.1
  {
    ArgumentOfHead(major, v);
    ArgumentBound(other);
    Powers();
  }

  // ---- buffers

  /** `s` with `p` written over it from `at`; what does not fit is cut off, as Go's copy does. */
  function Write(s: seq<byte>, at: nat, p: seq<byte>): (r: seq<byte>)
    requires at <= |s|
    ensures |r| == |s|
  {
    var k := if |p| <= |s| - at then |p| else |s| - at;
    s[..at] + p[..k] + s[at + k..]
  }

  method Copy(buf: array<byte>, at: nat, p: seq<byte>) returns (n: nat)
    requires at <= buf.Length
    modifies buf
    ensures n == if |p| <= buf.Length - at then |p| else buf.Length - at
    ensures buf[..] == Write(old(buf[..]), at, p)
  {
    n := if |p| <= buf.Length - at then |p| else buf.Length - at;
    for i := 0 to n
      invariant buf[..] == old(buf[..at]) + p[..i] + old(buf[at + i..])
    {
      buf[at + i] := p[i];
    }
  }

  lemma WriteTwice(s: seq<byte>, at: nat, p: seq<byte>, q: seq<byte>)
    requires at + |p| <= |s|
    ensures Write(Write(s, at, p), at + |p|, q) == Write(s, at, p + q)
  {}

  method PutByte(buf: array<byte>, at: nat, b: byte)
    requires at < buf.Length
    modifies buf
    ensures buf[..] == Write(old(buf[..]), at, [b])
  {
    buf[at] := b;
  }

  method ValUint8(item: byte, buf: array<byte>, at: nat) returns (n: nat)
    requires at + 1 + Extra(item) <= buf.Length
    modifies buf
    ensures n == 1 + Extra(item) && buf[..] == Write(old(buf[..]), at, Head(0, item))
  {
    if item <= 23 {
      buf[at] := item;
      return 1;
    }
    buf[at] := 24;
    buf[at + 1] := item;
    assert PutBE(item, 1) == [item];
    return 2;
  }

  method ValUint16(item: nat, buf: array<byte>, at: nat) returns (n: nat)
    requires item < TWO16 && at + 1 + Extra(item) <= buf.Length
    modifies buf
    ensures n == 1 + Extra(item) && buf[..] == Write(old(buf[..]), at, Head(0, item))
  {
    if item < 256 {
      n := ValUint8(item, buf, at);
      return;
    }
    PutByte(buf, at, 25);
    var _ := Copy(buf, at + 1, PutBE(item, 2));
    WriteTwice(old(buf[..]), at, [25], PutBE(item, 2));
    return 3;
  }

  method ValUint32(item: nat, buf: array<byte>, at: nat) returns (n: nat)
    requires item < TWO32 && at + 1 + Extra(item) <= buf.Length
    modifies buf
    ensures n == 1 + Extra(item) && buf[..] == Write(old(buf[..]), at, Head(0, item))
  {
    if item < 65536 {
      n := ValUint16(item, buf, at);
      return;
    }
    PutByte(buf, at, 26);
    var _ := Copy(buf, at + 1, PutBE(item, 4));
    WriteTwice(old(buf[..]), at, [26], PutBE(item, 4));
    return 5;
  }

  method ValUint64(item: Word, buf: array<byte>, at: nat) returns (n: nat)
    requires at + 1 + Extra(item) <= buf.Length
    modifies buf
    ensures n == 1 + Extra(item) && buf[..] == Write(old(buf[..]), at, Head(0, item))
  {
    if item < 4294967296 {
      n := ValUint32(item, buf, at);
      return;
    }
    PutByte(buf, at, 27);
    var _ := Copy(buf, at + 1, PutBE(item, 8));
    WriteTwice(old(buf[..]), at, [27], PutBE(item, 8));
    return 9;
  }

  lemma WriteFirst(s: seq<byte>, at: nat, p: seq<byte>, b: byte)
    requires p != [] && at + |p| <= |s|
    ensures Write(s, at, p)[at] == p[0] && Write(s, at, p)[at := b] == Write(s, at, [b] + p[1..])
  {}

  /** Patching the major type of a head of major type 0. */
  lemma Patch(s: seq<byte>, at: nat, major: nat, v: Word)
    requires major < 8 && at + 1 + Extra(v) <= |s|
    ensures var w := Write(s, at, Head(0, v));
            w[at := 32 * major + w[at] % 32] == Write(s, at, Head(major, v))
  {
    HeadParts(0, v);
    HeadParts(major, v);
    WriteFirst(s, at, Head(0, v), 32 * major + Info(v));
  }

  method TagTo(tag: Word, buf: array<byte>, at: nat) returns (n: nat)
    requires at + 1 + Extra(tag) <= buf.Length
    modifies buf
    ensures n == |Tag(tag)| && buf[..] == Write(old(buf[..]), at, Tag(tag))
  {
    n := ValUint64(tag, buf, at);
    Patch(old(buf[..]), at, 6, tag);
    ghost var w := buf[..];
    buf[at] := buf[at] % 32 + 192;
    assert buf[..] == w[at := 32 * 6 + w[at] % 32];
  }

  /** valbytes2cbor: the length is announced in full even when the copy is cut short. */
  method BytesTo(item: seq<byte>, buf: array<byte>, at: nat) returns (n: nat)
    requires |item| < TWO64 && at + 1 + Extra(|item|) <= buf.Length
    modifies buf
    ensures n == |Bstr(item)| && buf[..] == Write(old(buf[..]), at, Bstr(item))
  {
    n := ValUint64(|item|, buf, at);
    Patch(old(buf[..]), at, 2, |item|);
    ghost var w := buf[..];
    buf[at] := buf[at] % 32 + 64;
    assert buf[..] == w[at := 32 * 2 + w[at] % 32];
    var _ := Copy(buf, at + n, item);
    WriteTwice(old(buf[..]), at, Head(2, |item|), item);
    n := n + |item|;
  }
}
