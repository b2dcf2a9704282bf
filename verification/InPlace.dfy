/**
  tx.go as it runs: frames built in place in a stream's `out` buffer, bouncing through its `tagout`
  buffer.  The methods are proved to leave exactly the bytes of module Frames, for any tag codecs in
  any order, whenever every intermediate form fits its buffer.
*/
module InPlace {
  import opened Wire
  import opened Cbor
  import opened Frames

  /** `p` stands in `s` from `base` on. */
  predicate Holds(s: seq<byte>, base: nat, p: seq<byte>) {
    base + |p| <= |s| && s[base..base + |p|] == p
  }

  lemma HoldsMore(s: seq<byte>, base: nat, p: seq<byte>, q: seq<byte>)
    requires Holds(s, base, p) && base + |p| + |q| <= |s|
    ensures Holds(Write(s, base + |p|, q), base, p + q) && Write(s, base + |p|, q)[..base] == s[..base]
  {
    var w := Write(s, base + |p|, q);
    assert w[base..base + |p|] == s[base..base + |p|];
    assert w[base + |p|..base + |p| + |q|] == q;
    assert w[base..base + |p + q|] == w[base..base + |p|] + w[base + |p|..base + |p| + |q|];
  }

  lemma HoldsFirst(s: seq<byte>, base: nat, q: seq<byte>)
    requires base + |q| <= |s|
    ensures Holds(Write(s, base, q), base, q) && Write(s, base, q)[..base] == s[..base]
  {}

  /** Every layer fits: its encoded payload in `pong`, the layer itself in `ping`. */
  ghost predicate LayersFit(payload: seq<byte>, cs: seq<Codec>, ping: nat, pong: nat)
    decreases |cs|
  {
    |payload| <= ping &&
    (cs != [] ==>
       && |cs[0].enc(payload)| < TWO64 && |cs[0].enc(payload)| <= pong
       && LayersFit(Layer(cs[0], payload), cs[1..], ping, pong))
  }

  lemma {:induction false} LayersEncodable(payload: seq<byte>, cs: seq<Codec>, ping: nat, pong: nat)
    requires LayersFit(payload, cs, ping, pong)
    ensures Encodable(payload, cs) && |Roll(payload, cs)| <= ping
    decreases |cs|
  {
    if cs != [] { LayersEncodable(Layer(cs[0], payload), cs[1..], ping, pong); }
  }

  /** The whole packet, and everything on the way to it, fits. */
  ghost predicate Fits(id: Word, data: Data, cs: seq<Codec>, o: Word, ping: nat, pong: nat) {
    && ping < TWO64 && pong < TWO64
    && LayersFit(MsgBody(id, data), cs, ping, pong)
    && Encodable(MsgBody(id, data), cs)
    && var p := Roll(MsgBody(id, data), cs);
       |p| < TWO64 && |Tagged(o, p)| <= pong && |Packet(o, p)| <= ping
  }

  // Each writes one item after what stands in the buffer already, and moves the index on.

  method AddTag(t: Word, buf: array<byte>, base: nat, n: nat, ghost p: seq<byte>) returns (n': nat)
    requires n == |p| && Holds(buf[..], base, p) && base + n + |Tag(t)| <= buf.Length
    modifies buf
    ensures n' == n + |Tag(t)| && Holds(buf[..], base, p + Tag(t)) && buf[..base] == old(buf[..base])
  {
    HoldsMore(buf[..], base, p, Tag(t));
    var k := TagTo(t, buf, base + n);
    n' := n + k;
  }

  method AddUint(v: Word, buf: array<byte>, base: nat, n: nat, ghost p: seq<byte>) returns (n': nat)
    requires n == |p| && Holds(buf[..], base, p) && base + n + |Uint(v)| <= buf.Length
    modifies buf
    ensures n' == n + |Uint(v)| && Holds(buf[..], base, p + Uint(v)) && buf[..base] == old(buf[..base])
  {
    HoldsMore(buf[..], base, p, Uint(v));
    var k := ValUint64(v, buf, base + n);
    n' := n + k;
  }

  method AddBytes(d: Data, buf: array<byte>, base: nat, n: nat, ghost p: seq<byte>) returns (n': nat)
    requires n == |p| && Holds(buf[..], base, p) && base + n + |Bstr(d)| <= buf.Length
    modifies buf
    ensures n' == n + |Bstr(d)| && Holds(buf[..], base, p + Bstr(d)) && buf[..base] == old(buf[..base])
  {
    HoldsMore(buf[..], base, p, Bstr(d));
    var k := BytesTo(d, buf, base + n);
    n' := n + k;
  }

  method AddByte(b: byte, buf: array<byte>, base: nat, n: nat, ghost p: seq<byte>) returns (n': nat)
    requires n == |p| && Holds(buf[..], base, p) && base + n + 1 <= buf.Length
    modifies buf
    ensures n' == n + 1 && Holds(buf[..], base, p + [b]) && buf[..base] == old(buf[..base])
  {
    HoldsMore(buf[..], base, p, [b]);
    PutByte(buf, base + n, b);
    n' := n + 1;
  }

  lemma MsgParts(id: Word, data: Data)
    ensures MsgBody(id, data)
         == [] + Tag(TAG_MSG) + [MAP_START] + Tag(TAG_ID) + Uint(id) + Tag(TAG_DATA) + Bstr(data) + [BREAK]
  {}

  /** The message part: header map with id and data. */
  method MsgTo(id: Word, data: Data, ping: array<byte>, base: nat) returns (n: nat)
    requires base + |MsgBody(id, data)| <= ping.Length
    modifies ping
    ensures n == |MsgBody(id, data)| && Holds(ping[..], base, MsgBody(id, data))
    ensures ping[..base] == old(ping[..base])
  {
    BodyLength(id, data);
    ghost var p1 := [] + Tag(TAG_MSG);
    ghost var p2 := p1 + [MAP_START];
    ghost var p3 := p2 + Tag(TAG_ID);
    ghost var p4 := p3 + Uint(id);
    ghost var p5 := p4 + Tag(TAG_DATA);
    ghost var p6 := p5 + Bstr(data);
    n := AddTag(TAG_MSG, ping, base, 0, []);
    n := AddByte(MAP_START, ping, base, n, p1);
    n := AddTag(TAG_ID, ping, base, n, p2);
    n := AddUint(id, ping, base, n, p3);
    n := AddTag(TAG_DATA, ping, base, n, p4);
    n := AddBytes(data, ping, base, n, p5);
    n := AddByte(BREAK, ping, base, n, p6);
    MsgParts(id, data);
  }

  /** One tag layer: encode into `pong`, and wrap the result back into `ping`. */
  method LayerTo(c: Codec, ghost payload: seq<byte>, ping: array<byte>, base: nat, n: nat, pong: array<byte>)
      returns (n': nat)
    requires ping != pong && n == |payload| && Holds(ping[..], base, payload)
    requires |c.enc(payload)| < TWO64 && |c.enc(payload)| <= pong.Length
    requires base + |Layer(c, payload)| <= ping.Length
    modifies ping, pong
    ensures n' == |Layer(c, payload)| && Holds(ping[..], base, Layer(c, payload))
    ensures c.enc(payload) != [] ==>
              n' == |Tag(c.tag) + Bstr(c.enc(payload))| && Holds(ping[..], base, Tag(c.tag) + Bstr(c.enc(payload)))
    ensures c.enc(payload) == [] ==> n' == n && Holds(ping[..], base, payload)
    ensures ping[..base] == old(ping[..base])
  {
    assert ping[base..base + n] == payload;
    var e := c.enc(ping[base..base + n]);
    var m := Copy(pong, 0, e);
    if m == 0 {
      return n;
    }
    assert pong[..m] == e;
    HoldsFirst(ping[..], base, Tag(c.tag));
    n' := TagTo(c.tag, ping, base);
    HoldsMore(ping[..], base, Tag(c.tag), Bstr(e));
    var k := BytesTo(pong[..m], ping, base + n');
    n' := n' + k;
  }

  /** The loop over the tag map: `cs` are the codecs in the order it was walked. */
  method LayersTo(cs: seq<Codec>, ghost body: seq<byte>, ping: array<byte>, base: nat, from: nat, pong: array<byte>)
      returns (n: nat)
    requires ping != pong && base <= ping.Length && from == |body| && Holds(ping[..], base, body)
    requires LayersFit(body, cs, ping.Length - base, pong.Length) && Encodable(body, cs)
    modifies ping, pong
    ensures n == |Roll(body, cs)| && Holds(ping[..], base, Roll(body, cs)) && ping[..base] == old(ping[..base])
  {
    ghost var p := body;
    var i := 0;
    n := from;
    while i < |cs|
      invariant 0 <= i <= |cs| && n == |p| && Holds(ping[..], base, p)
      invariant LayersFit(p, cs[i..], ping.Length - base, pong.Length)
      invariant Encodable(p, cs[i..]) && Roll(p, cs[i..]) == Roll(body, cs)
      invariant ping[..base] == old(ping[..base])
    {
      assert cs[i..][0] == cs[i] && cs[i..][1..] == cs[i + 1..];
      n := LayerTo(cs[i], p, ping, base, n, pong);
      p := Layer(cs[i], p);
      i := i + 1;
    }
    assert cs[i..] == [];
  }

  /** The opaque tag and the byte string around everything. */
  method OpaqueTo(o: Word, ghost p: seq<byte>, ping: array<byte>, base: nat, from: nat, pong: array<byte>)
      returns (n: nat)
    requires ping != pong && from == |p| < TWO64 && Holds(ping[..], base, p)
    requires |Tagged(o, p)| <= pong.Length && |Tagged(o, p)| < TWO64 && base + |Packet(o, p)| <= ping.Length
    modifies ping, pong
    ensures n == |Packet(o, p)| && Holds(ping[..], base, Packet(o, p)) && ping[..base] == old(ping[..base])
  {
    var m := TagTo(o, pong, 0);
    HoldsFirst(old(pong[..]), 0, Tag(o));
    HoldsMore(pong[..], 0, Tag(o), Bstr(p));
    var k := BytesTo(ping[base..base + from], pong, m);
    m := m + k;
    assert pong[..m] == Tagged(o, p);
    HoldsFirst(ping[..], base, Bstr(pong[..m]));
    n := BytesTo(pong[..m], ping, base);
  }

  /** The codecs that apply: none to a whoami message. */
  function Chosen(whoami: bool, cs: seq<Codec>): seq<Codec> { if whoami then [] else cs }

  /** framepkt. */
  method FramePkt(whoami: bool, id: Word, data: Data, cs: seq<Codec>, o: Word, ping: array<byte>, base: nat,
                  pong: array<byte>)
      returns (n: nat)
    requires ping != pong && base <= ping.Length
    requires Fits(id, data, Chosen(whoami, cs), o, ping.Length - base, pong.Length)
    modifies ping, pong
    ensures n == |Packet(o, Roll(MsgBody(id, data), Chosen(whoami, cs)))|
    ensures Holds(ping[..], base, Packet(o, Roll(MsgBody(id, data), Chosen(whoami, cs))))
    ensures whoami ==> |Tagged(o, MsgBody(id, data))| < TWO64 && Holds(ping[..], base, Packet(o, MsgBody(id, data)))
    ensures ping[..base] == old(ping[..base])
  {
    n := MsgTo(id, data, ping, base);
    if !whoami { n := LayersTo(cs, MsgBody(id, data), ping, base, n, pong); }
    n := OpaqueTo(o, Roll(MsgBody(id, data), Chosen(whoami, cs)), ping, base, n, pong);
  }

  method PrefixTo(kind: Kind, out: array<byte>) returns (n: nat)
    requires 4 <= out.Length
    modifies out
    ensures n == 4 && out[..4] == Tag(TAG_CBOR_PREFIX) + [KindByte(kind)]
  {
    Prefix();
    n := AddTag(TAG_CBOR_PREFIX, out, 0, 0, []);
    n := AddByte(KindByte(kind), out, 0, n, [] + Tag(TAG_CBOR_PREFIX));
  }

  lemma PrefixThenPacket(kind: Kind, o: Word, payload: Data, s: seq<byte>, n: nat)
    requires !kind.Finish? && |Tagged(o, payload)| < TWO64 && n == |Packet(o, payload)|
    requires 4 + n <= |s| && s[..4] == Tag(TAG_CBOR_PREFIX) + [KindByte(kind)] && s[4..4 + n] == Packet(o, payload)
    ensures s[..4 + n] == FrameOf(kind, o, payload)
  {
    assert s[..4 + n] == s[..4] + s[4..4 + n];
  }

  /** post, request, response, start and stream: prefix, kind byte, packet. */
  method FrameTo(kind: Kind, whoami: bool, id: Word, data: Data, cs: seq<Codec>, o: Word, out: array<byte>,
                 tagout: array<byte>)
      returns (n: nat)
    requires !kind.Finish? && out != tagout && 4 <= out.Length
    requires Fits(id, data, Chosen(whoami, cs), o, out.Length - 4, tagout.Length)
    modifies out, tagout
    ensures n <= out.Length && out[..n] == FrameOf(kind, o, Roll(MsgBody(id, data), Chosen(whoami, cs)))
  {
    n := PrefixTo(kind, out);
    var k := FramePkt(whoami, id, data, cs, o, out, n, tagout);
    PrefixThenPacket(kind, o, Roll(MsgBody(id, data), Chosen(whoami, cs)), out[..], k);
    n := n + k;
  }

  /** finish: the end packet is built in a scratch array, and a break closes the stream. */
  method FinishTo(o: Word, out: array<byte>) returns (n: nat)
    requires |Tagged(o, [])| < TWO64 && |FrameOf(Finish, o, [])| <= out.Length
    modifies out
    ensures n <= out.Length && out[..n] == FrameOf(Finish, o, [])
  {
    Prefix();
    var scratch := new byte[16](_ => 0);
    assert Bstr([]) == [0x40];
    ghost var p1 := [] + Tag(TAG_CBOR_PREFIX);
    ghost var p2 := p1 + [KindByte(Finish)];
    n := AddTag(TAG_CBOR_PREFIX, out, 0, 0, []);
    n := AddByte(0xc8, out, 0, n, p1);
    var m := AddTag(o, scratch, 0, 0, []);
    m := AddByte(0x40, scratch, 0, m, [] + Tag(o));
    assert scratch[..m] == Tagged(o, []);
    n := AddBytes(scratch[..m], out, 0, n, p2);
    n := AddByte(BREAK, out, 0, n, p2 + Packet(o, []));
    assert FrameOf(Finish, o, []) == p2 + Packet(o, []) + [BREAK];
  }

  /** A message of up to buffersize - 41 bytes fits at every step when there are no tags. */
  lemma SmallMessagesFit(id: Word, data: Data, o: Word, buffersize: nat)
    requires OPAQUE_START <= o <= OPAQUE_END && |data| + 41 <= buffersize < TWO32
    ensures Fits(id, data, [], o, buffersize - 4, buffersize)
  {
    OverheadBound(Post, o, id, data);
    FrameLength(Post, o, MsgBody(id, data));
  }
}
