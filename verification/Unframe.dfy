/**
  go_rx.go: reading one frame from the connection and taking it apart.  The main results are that a
  read undoes a frame, whatever tag layers it carries, and that repeated reads split any sequence of
  frames at exactly the right bytes.
*/
module Unframe {
  import opened Wire
  import opened Cbor
  import opened Frames
  import opened HeaderMap

  /** A tag and what it is attached to. */
  type TagPayload = (Word, seq<byte>)

  /** readtp; None where the code indexes or slices out of range. */
  function ReadTp(payload: seq<byte>): Option<TagPayload> {
    if payload == [] then None
    else
      var (tag, n) := ItemLength(payload);
      if n < 0 || !(-TWO63 <= tag < TWO63) then None
      else if tag == 43 then Some((43, payload[n..]))
      else if n >= |payload| then None
      else if payload[n] == BREAK then Some((Uint64(tag), payload[n..]))
      else
        var (ln, m) := ItemLength(payload[n..]);
        if m < 0 || ln < 0 || n + m + ln > |payload| then None
        else Some((Uint64(tag), payload[n + m..n + m + ln]))
  }

  type Decoders = map<Word, seq<byte> -> seq<byte>>

  /** One turn of the loop over tag layers; a tag without a decoder is a nil function. */
  function Peel(t: TagPayload, dec: Decoders): Option<TagPayload> {
    if t.0 in dec then ReadTp(dec[t.0](t.1)) else None
  }

  predicate Done(t: TagPayload) { t.0 == TAG_MSG || t.1 == [] }

  /** The loop ends within `k` turns.  With arbitrary decoders nothing makes it end at all. */
  predicate Settles(t: TagPayload, dec: Decoders, k: nat)
    decreases k
  {
    Done(t) || (k > 0 && (Peel(t, dec).None? || Settles(Peel(t, dec).value, dec, k - 1)))
  }

  function PeelAll(t: TagPayload, dec: Decoders, k: nat): Option<TagPayload>
    requires Settles(t, dec, k)
    decreases k
  {
    if Done(t) then Some(t)
    else if Peel(t, dec).None? then None
    else PeelAll(Peel(t, dec).value, dec, k - 1)
  }

  datatype RxPacket = RxPacket(kind: Option<Kind>, oid: Word, msg: Option<BinMessage>)

  /** A read: a packet and the bytes it took; not enough bytes on the connection; a wrong prefix; or
      a malformed frame, on which the code panics or reads stale bytes of its buffers. */
  datatype Rx = Received(pkt: RxPacket, n: nat) | Short | WrongPrefix | Malformed

  function KindOf(b: byte): Option<Kind> {
    if b == 0xc6 then Some(Post) else if b == 0x81 then Some(Request) else if b == 0x9f then Some(Start)
    else if b == 0xc7 then Some(StreamMsg) else if b == 0xc8 then Some(Finish) else None
  }

  /** What the nine bytes of the pad announce: how many bytes of them belong to the packet's head,
      and how many bytes the packet takes, the trailing break of a finish frame included. */
  function Announced(pad: seq<byte>): Option<(nat, nat)>
    requires |pad| == 9
  {
    var (ln, m) := ItemLength(pad[4..]);
    if m < 0 || ln < 0 then None
    else Some((m, ln + if KindOf(pad[3]) == Some(Finish) then 1 else 0))
  }

  /** The packet proper, opaque tag first. */
  function Contents(kind: Option<Kind>, packet: seq<byte>, dec: Decoders, k: nat): Option<RxPacket>
    requires Layered(kind, packet) ==> Settles(ReadTp(ReadTp(packet).value.1).value, dec, k)
  {
    var first := ReadTp(packet);
    if first.None? then None
    else if kind == Some(Finish) then Some(RxPacket(kind, first.value.0, None))
    else
      var t := ReadTp(first.value.1);
      if t.None? then None
      else match PeelAll(t.value, dec, k)
        case None => None
        case Some(u) =>
          match Unmessage(u.1)
          case Message(m) => Some(RxPacket(kind, first.value.0, Some(m)))
          case Invalid => Some(RxPacket(kind, first.value.0, None))
          case Stuck => None
  }

  /** The packet has a payload whose tag layers are to be peeled. */
  predicate Layered(kind: Option<Kind>, packet: seq<byte>) {
    kind != Some(Finish) && ReadTp(packet).Some? && ReadTp(ReadTp(packet).value.1).Some?
  }

  predicate Whole(input: seq<byte>, buffersize: nat) {
    && |input| >= 9 && input[..3] == [0xd9, 0xd9, 0xf7]
    && Announced(input[..9]).Some?
    && var (m, ln) := Announced(input[..9]).value;
       5 - m <= ln <= buffersize && 4 + m + ln <= |input|
  }

  function PacketBytes(input: seq<byte>, buffersize: nat): seq<byte>
    requires Whole(input, buffersize)
  {
    var (m, ln) := Announced(input[..9]).value;
    input[4 + m..4 + m + ln]
  }

  /** The tag loop ends within `k` turns on whatever packet the input holds. */
  predicate Ends(input: seq<byte>, buffersize: nat, dec: Decoders, k: nat) {
    Whole(input, buffersize) && Layered(KindOf(input[3]), PacketBytes(input, buffersize)) ==>
      Settles(ReadTp(ReadTp(PacketBytes(input, buffersize)).value.1).value, dec, k)
  }

  lemma PacketFound(input: seq<byte>, buffersize: nat, m: nat, ln: nat)
    requires |input| >= 9 && input[..3] == [0xd9, 0xd9, 0xf7] && Announced(input[..9]) == Some((m, ln))
    requires 5 - m <= ln <= buffersize && 4 + m + ln <= |input|
    ensures Whole(input, buffersize) && PacketBytes(input, buffersize) == input[4 + m..4 + m + ln]
  {}

  /** unframepkt. */
  function Read(input: seq<byte>, buffersize: nat, dec: Decoders, k: nat): Rx
    requires Ends(input, buffersize, dec, k)
  {
    if |input| < 9 then Short
    else if input[..3] != [0xd9, 0xd9, 0xf7] then WrongPrefix
    else match Announced(input[..9])
      case None => Malformed
      case Some((m, ln)) =>
        if ln > buffersize || 5 - m > ln then Malformed
        else if |input| < 4 + m + ln then Short
        else
          PacketFound(input, buffersize, m, ln);
          match Contents(KindOf(input[3]), input[4 + m..4 + m + ln], dec, k)
          case None => Malformed
          case Some(p) => Received(p, 4 + m + ln)
  }

  // ---- reading a tag back

  lemma ReadTagged(t: Word, d: seq<byte>)
    requires t != TAG_MSG && |d| < TWO63
    ensures ReadTp(Tag(t) + Bstr(d)) == Some((t, d))
  {
    var h := Head(2, |d|);
    var s := Tag(t) + Bstr(d);
    assert s == Tag(t) + (h + (d + []));
    HeadRoundTrip(6, t, h + (d + []));
    After(s, 0, Tag(t), h + (d + []));
    HeadRoundTrip(2, |d|, d + []);
    After(s, |Tag(t)|, h, d + []);
    After(s, |Tag(t)| + |h|, d, []);
    assert s[|Tag(t)|..][0] == s[|Tag(t)|];
    Int64Inverse(t);
  }

  lemma ReadMsgTag(rest: seq<byte>)
    ensures ReadTp(Tag(TAG_MSG) + rest) == Some((TAG_MSG, rest))
  {
    HeadRoundTrip(6, TAG_MSG, rest);
    After(Tag(TAG_MSG) + rest, 0, Tag(TAG_MSG), rest);
  }

  /** The same for any complete heads, shortest or not, and whatever follows: the tag is the head's
      argument, and what it is attached to is as long as the second head says.  A tag in front of a
      break has just what follows it. */
  lemma ReadAnyHeads(t: seq<byte>, l: seq<byte>, d: seq<byte>, rest: seq<byte>)
    requires FullHead(t) && HeadValue(t) != TAG_MSG
    requires FullHead(l) && HeadValue(l) == |d| < TWO63
    ensures ReadTp(t + (l + (d + rest))) == Some((HeadValue(t), d))
    ensures ReadTp(t + ([BREAK] + rest)) == Some((HeadValue(t), [BREAK] + rest))
  {
    ReadWithHead(t, l, d, rest);
    ReadWithBreak(t, rest);
  }

  lemma ReadWithHead(t: seq<byte>, l: seq<byte>, d: seq<byte>, rest: seq<byte>)
    requires FullHead(t) && HeadValue(t) != TAG_MSG
    requires FullHead(l) && HeadValue(l) == |d| < TWO63
    ensures ReadTp(t + (l + (d + rest))) == Some((HeadValue(t), d))
  {
    var s := t + (l + (d + rest));
    ReadHead(t, l + (d + rest));
    ReadHead(l, d + rest);
    After(s, 0, t, l + (d + rest));
    After(s, |t|, l, d + rest);
    After(s, |t| + |l|, d, rest);
    assert s[|t|..][0] == s[|t|] == l[0];
    Int64Inverse(HeadValue(t));
  }

  lemma ReadWithBreak(t: seq<byte>, rest: seq<byte>)
    requires FullHead(t) && HeadValue(t) != TAG_MSG
    ensures ReadTp(t + ([BREAK] + rest)) == Some((HeadValue(t), [BREAK] + rest))
  {
    var s := t + ([BREAK] + rest);
    ReadHead(t, [BREAK] + rest);
    After(s, 0, t, [BREAK] + rest);
    Int64Inverse(HeadValue(t));
  }

  // ---- peeling undoes rolling

  /** The receiver's decoder for a codec's tag undoes the codec. */
  ghost predicate Undone(c: Codec, dec: Decoders) {
    c.tag != TAG_MSG && c.tag in dec && forall x :: c.enc(x) != [] ==> dec[c.tag](c.enc(x)) == x
  }

  /** The codecs a sender applies and the decoders a receiver holds belong together. */
  ghost predicate Matched(cs: seq<Codec>, dec: Decoders) { (forall c | c in cs :: Undone(c, dec)) == true }

  /** Peeling the payload `p` ends within `k` turns, with `r`. */
  ghost predicate PeelsTo(p: seq<byte>, dec: Decoders, k: nat, r: TagPayload) {
    (ReadTp(p).Some? && Settles(ReadTp(p).value, dec, k) && PeelAll(ReadTp(p).value, dec, k) == Some(r)) == true
  }

  lemma PeelLayer(c: Codec, p: seq<byte>, dec: Decoders, k: nat, r: TagPayload)
    requires Undone(c, dec) && |c.enc(p)| < TWO63 && PeelsTo(p, dec, k, r)
    ensures PeelsTo(Layer(c, p), dec, k + 1, r)
  {
    if c.enc(p) == [] {
      SettlesLonger(ReadTp(p).value, dec, k);
    } else {
      ReadTagged(c.tag, c.enc(p));
    }
  }

  lemma {:induction false} SettlesLonger(t: TagPayload, dec: Decoders, k: nat)
    requires Settles(t, dec, k)
    ensures Settles(t, dec, k + 1) && PeelAll(t, dec, k + 1) == PeelAll(t, dec, k)
    decreases k
  {
    if !Done(t) && Peel(t, dec).Some? { SettlesLonger(Peel(t, dec).value, dec, k - 1); }
  }

  ghost predicate Small(payload: seq<byte>, cs: seq<Codec>)
    decreases |cs|
  {
    cs != [] ==> |cs[0].enc(payload)| < TWO63 && Small(Layer(cs[0], payload), cs[1..])
  }

  /** `q` is `p` rolled up in `cs`, and every layer is small. */
  ghost predicate Rolled(p: seq<byte>, cs: seq<Codec>, q: seq<byte>) {
    (Small(p, cs) && Encodable(p, cs) && Roll(p, cs) == q) == true
  }

  lemma RollParts(p: seq<byte>, cs: seq<Codec>, q: seq<byte>)
    requires Rolled(p, cs, q)
    ensures cs == [] ==> p == q
    ensures cs != [] ==> |cs[0].enc(p)| < TWO63 && Rolled(Layer(cs[0], p), cs[1..], q)
  {}

  lemma MatchedParts(cs: seq<Codec>, dec: Decoders)
    requires cs != [] && Matched(cs, dec)
    ensures Undone(cs[0], dec) && Matched(cs[1..], dec)
  {
    assert cs[0] in cs && forall c | c in cs[1..] :: c in cs;
  }

  lemma PeelOne(p: seq<byte>, cs: seq<Codec>, dec: Decoders, k: nat, r: TagPayload)
    requires cs != [] && |cs[0].enc(p)| < TWO63 && Matched(cs, dec) && PeelsTo(p, dec, k, r)
    ensures PeelsTo(Layer(cs[0], p), dec, k + 1, r) && Matched(cs[1..], dec)
  {
    MatchedParts(cs, dec);
    PeelLayer(cs[0], p, dec, k, r);
  }

  /** However many layers are rolled up, in whatever order, peeling comes back to what was there. */
  lemma {:induction false} PeelRoll(p: seq<byte>, cs: seq<Codec>, q: seq<byte>, dec: Decoders, k: nat, r: TagPayload,
                                   n: nat)
    requires Rolled(p, cs, q) && Matched(cs, dec) && PeelsTo(p, dec, k, r) && n == k + |cs|
    ensures PeelsTo(q, dec, n, r)
    decreases |cs|
  {
    RollParts(p, cs, q);
    if cs != [] {
      PeelOne(p, cs, dec, k, r);
      PeelRoll(Layer(cs[0], p), cs[1..], q, dec, k + 1, r, n);
    }
  }

  // ---- a frame, from the outside in

  /** One frame as a sender means it: kind, opaque, message, and the codecs in the order applied. */
  datatype Sent = Sent(kind: Kind, oid: Word, id: Word, data: seq<byte>, cs: seq<Codec>)

  function Payload(s: Sent): seq<byte>
    requires |s.data| < TWO64 && Encodable(MsgBody(s.id, s.data), s.cs)
  {
    if s.kind.Finish? then [] else Roll(MsgBody(s.id, s.data), s.cs)
  }

  /** The frame exists, and its packet is short enough for the five length bytes a receiver sees. */
  ghost predicate Framed(s: Sent) { FramedParts(s) == true }

  ghost predicate FramedParts(s: Sent) {
    && |s.data| < TWO63 && Encodable(MsgBody(s.id, s.data), s.cs)
    && |Payload(s)| < TWO63 && |Tagged(s.oid, Payload(s))| < TWO32
  }

  /** What both ends rely on besides: a message id that is not zero, an opaque in the opaque space, and
      a packet that fits the receiver's buffer. */
  ghost predicate Fitting(s: Sent, buffersize: nat) {
    && Framed(s) && Small(MsgBody(s.id, s.data), s.cs)
    && OPAQUE_START <= s.oid && (s.kind.Finish? || s.id != 0)
    && |Tagged(s.oid, Payload(s))| + (if s.kind.Finish? then 1 else 0) <= buffersize
  }

  /** And codecs that the receiver can undo. */
  ghost predicate Sendable(s: Sent, buffersize: nat, dec: Decoders) { Fitting(s, buffersize) && Matched(s.cs, dec) }

  function Bytes(s: Sent): seq<byte>
    requires Framed(s)
  {
    FrameOf(s.kind, s.oid, Payload(s))
  }

  /** The bytes of the packet proper; a finish frame's trailing break is read with them. */
  function Inner(s: Sent): (r: seq<byte>)
    requires Framed(s)
    ensures |r| == |Tagged(s.oid, Payload(s))| + if s.kind.Finish? then 1 else 0
  {
    Tagged(s.oid, Payload(s)) + if s.kind.Finish? then [BREAK] else []
  }

  /** Where in the frame they start. */
  function InnerAt(s: Sent): nat
    requires Framed(s)
  {
    4 + HeadLen(|Tagged(s.oid, Payload(s))|)
  }

  /** What the receiver should make of it. */
  function Meaning(s: Sent): RxPacket {
    RxPacket(Some(s.kind), s.oid, if s.kind.Finish? then None else Some(BinMessage(s.id, s.data)))
  }

  lemma BodyPeels(id: Word, data: Data, dec: Decoders)
    ensures PeelsTo(MsgBody(id, data), dec, 0, (TAG_MSG, HdrMap(id, data)))
  {
    ReadMsgTag(HdrMap(id, data));
  }

  lemma MsgContents(kind: Kind, packet: seq<byte>, o: Word, p: seq<byte>, dec: Decoders, k: nat, id: Word, data: Data)
    requires !kind.Finish? && ReadTp(packet) == Some((o, p)) && PeelsTo(p, dec, k, (TAG_MSG, HdrMap(id, data)))
    requires id != 0 && |data| < TWO63
    ensures Layered(Some(kind), packet) && Settles(ReadTp(p).value, dec, k)
    ensures Contents(Some(kind), packet, dec, k) == Some(RxPacket(Some(kind), o, Some(BinMessage(id, data))))
  {
    HdrMapUnmessage(id, data);
  }

  lemma ReadContents(s: Sent, buffersize: nat, dec: Decoders, tail: seq<byte>)
    requires Sendable(s, buffersize, dec) && (tail == [] || s.kind.Finish?)
    ensures var packet := Tagged(s.oid, Payload(s)) + tail;
            && (Layered(Some(s.kind), packet) ==>
                  Settles(ReadTp(ReadTp(packet).value.1).value, dec, |s.cs|))
            && Contents(Some(s.kind), packet, dec, |s.cs|) == Some(Meaning(s))
  {
    if s.kind.Finish? { ReadFinish(s.oid, tail); } else { ReadPayload(s, buffersize, dec, tail); }
  }

  lemma ReadPayload(s: Sent, buffersize: nat, dec: Decoders, tail: seq<byte>)
    requires Sendable(s, buffersize, dec) && tail == [] && !s.kind.Finish?
    ensures var packet := Tagged(s.oid, Payload(s)) + tail;
            && Layered(Some(s.kind), packet)
            && Settles(ReadTp(ReadTp(packet).value.1).value, dec, |s.cs|)
            && Contents(Some(s.kind), packet, dec, |s.cs|) == Some(Meaning(s))
  {
    var packet, p := Tagged(s.oid, Payload(s)), Payload(s);
    assert packet + tail == packet;
    ReadTagged(s.oid, p);
    PayloadPeels(s.id, s.data, s.cs, dec);
    MsgContents(s.kind, packet, s.oid, p, dec, |s.cs|, s.id, s.data);
  }

  lemma PayloadPeels(id: Word, data: Data, cs: seq<Codec>, dec: Decoders)
    requires Small(MsgBody(id, data), cs) && Encodable(MsgBody(id, data), cs) && Matched(cs, dec)
    ensures PeelsTo(Roll(MsgBody(id, data), cs), dec, |cs|, (TAG_MSG, HdrMap(id, data)))
  {
    BodyPeels(id, data, dec);
    var p := MsgBody(id, data);
    PeelRoll(p, cs, Roll(p, cs), dec, 0, (TAG_MSG, HdrMap(id, data)), |cs|);
  }

  lemma ReadFinish(o: Word, tail: seq<byte>)
    requires o != TAG_MSG
    ensures ReadTp(Tagged(o, []) + tail) == Some((o, []))
  {
    var s := Tagged(o, []) + tail;
    var h := Head(2, 0);
    assert s == Tag(o) + (h + tail);
    HeadRoundTrip(6, o, h + tail);
    After(s, 0, Tag(o), h + tail);
    HeadRoundTrip(2, 0, tail);
    assert s[|Tag(o)|..][0] == s[|Tag(o)|];
    var n := |Tag(o)| + |h|;
    assert n <= |s| && s[n..n + 0] == [];
    assert |h| == 1;
    Int64Inverse(o);
  }

  lemma FrameParts(p: seq<byte>, k: seq<byte>, h: seq<byte>, t: seq<byte>, f: seq<byte>, rest: seq<byte>)
    ensures p + k + (h + t) + f + rest == p + (k + (h + ((t + f) + rest)))
  {}

  lemma FrontBytes(s: Sent, rest: seq<byte>)
    requires Framed(s)
    ensures var head := Head(2, |Tagged(s.oid, Payload(s))|);
            Bytes(s) + rest == [0xd9, 0xd9, 0xf7] + ([KindByte(s.kind)] + (head + (Inner(s) + rest)))
  {
    var t := Tagged(s.oid, Payload(s));
    Prefix();
    FrameParts([0xd9, 0xd9, 0xf7], [KindByte(s.kind)], Head(2, |t|), t, if s.kind.Finish? then [BREAK] else [], rest);
  }

  lemma PadOf(input: seq<byte>, p: seq<byte>, b: byte, r: seq<byte>)
    requires input == p + ([b] + r) && |p| == 3
    ensures input[..3] == p && input[3] == b && input[4..] == r
    ensures |input| >= 9 ==> input[..9][3] == b
  {}

  /** What the first nine bytes say about a frame. */
  lemma ReadPad(s: Sent, rest: seq<byte>)
    requires Framed(s) && OPAQUE_START <= s.oid
    ensures |Bytes(s)| >= 9 && 9 - InnerAt(s) <= |Inner(s)|
    ensures PadSays(Bytes(s) + rest, s.kind, InnerAt(s) - 4, |Inner(s)|)
  {
    var ln, input := |Tagged(s.oid, Payload(s))|, Bytes(s) + rest;
    NineBytes(s.kind, s.oid, Payload(s));
    FrameLength(s.kind, s.oid, Payload(s));
    FrontBytes(s, rest);
    PadOf(input, [0xd9, 0xd9, 0xf7], KindByte(s.kind), Head(2, ln) + (Inner(s) + rest));
    PadHead(input, ln, Inner(s) + rest);
  }

  lemma PadHead(input: seq<byte>, ln: nat, tail: seq<byte>)
    requires ln < TWO32 && |input| >= 9 && input[4..] == Head(2, ln) + tail
    ensures ItemLength(input[..9][4..]) == (ln, HeadLen(ln))
  {
    var h := Head(2, ln);
    var cut := input[..9][4..];
    assert |h| <= 5;
    assert cut == input[4..][..5];
    assert cut == h + tail[..5 - |h|];
    HeadRoundTrip(2, ln, tail[..5 - |h|]);
  }

  /** A packet's contents come out as `p`. */
  ghost predicate Yields(kind: Kind, packet: seq<byte>, dec: Decoders, k: nat, p: RxPacket) {
    ((Layered(Some(kind), packet) ==> Settles(ReadTp(ReadTp(packet).value.1).value, dec, k))
     && Contents(Some(kind), packet, dec, k) == Some(p)) == true
  }

  /** The pad says that a frame of this kind starts here. */
  ghost predicate PadSays(input: seq<byte>, kind: Kind, m: nat, ln: nat) {
    (|input| >= 9 && input[..3] == [0xd9, 0xd9, 0xf7] && KindOf(input[3]) == Some(kind)
     && Announced(input[..9]) == Some((m, ln))) == true
  }

  ghost predicate ReadsAs(input: seq<byte>, buffersize: nat, dec: Decoders, k: nat, p: RxPacket, n: nat) {
    (Ends(input, buffersize, dec, k) && Read(input, buffersize, dec, k) == Received(p, n)) == true
  }

  /** The five bytes after the kind byte tell the packet's length exactly when it is below 2^32: a
      longer one has a head of nine bytes, which the reader takes for one cut short. */
  lemma PadTellsLengthIff(ln: Word, tail: seq<byte>)
    requires |Head(2, ln) + tail| >= 5
    ensures var five := (Head(2, ln) + tail)[..5];
            && (ItemLength(five) == (ln, HeadLen(ln)) <==> ln < TWO32)
            && (ln >= TWO32 ==> ItemLength(five) == (-1, -1))
  {
    var h := Head(2, ln);
    HeadParts(2, ln);
    if ln < TWO32 {
      assert (h + tail)[..5] == h + tail[..5 - |h|];
      HeadRoundTrip(2, ln, tail[..5 - |h|]);
    }
  }

  /** What a read makes of a complete frame. */
  lemma ReadWhole(input: seq<byte>, packet: seq<byte>, buffersize: nat, dec: Decoders, k: nat, kind: Kind, m: nat,
                  p: RxPacket)
    requires PadSays(input, kind, m, |packet|) && 5 - m <= |packet| <= buffersize
    requires 4 + m + |packet| <= |input| && input[4 + m..4 + m + |packet|] == packet
    requires Yields(kind, packet, dec, k, p)
    ensures ReadsAs(input, buffersize, dec, k, p, 4 + m + |packet|)
  {
    if Layered(KindOf(input[3]), PacketBytes(input, buffersize)) { assert PacketBytes(input, buffersize) == packet; }
  }

  lemma SentYields(s: Sent, buffersize: nat, dec: Decoders)
    requires Sendable(s, buffersize, dec)
    ensures Yields(s.kind, Inner(s), dec, |s.cs|, Meaning(s)) && |Inner(s)| <= buffersize
  {
    ReadContents(s, buffersize, dec, if s.kind.Finish? then [BREAK] else []);
  }

  lemma FrameReads(s: Sent, buffersize: nat, dec: Decoders, rest: seq<byte>)
    requires Sendable(s, buffersize, dec)
    ensures |Bytes(s)| >= 9 && ReadsAs(Bytes(s) + rest, buffersize, dec, |s.cs|, Meaning(s), |Bytes(s)|)
  {
    ReadPad(s, rest);
    PacketAt(s, rest);
    SentYields(s, buffersize, dec);
    ReadWhole(Bytes(s) + rest, Inner(s), buffersize, dec, |s.cs|, s.kind, InnerAt(s) - 4, Meaning(s));
  }

  /** Reading undoes framing, whatever follows on the connection: the same kind, opaque, message id
      and data come out, and exactly the frame's bytes are taken. */
  lemma FrameRoundTrip(s: Sent, buffersize: nat, dec: Decoders, rest: seq<byte>)
    requires Sendable(s, buffersize, dec)
    ensures Ends(Bytes(s) + rest, buffersize, dec, |s.cs|)
    ensures Read(Bytes(s) + rest, buffersize, dec, |s.cs|) == Received(Meaning(s), |Bytes(s)|)
    ensures var p := Meaning(s);
            && p.kind == Some(s.kind) && p.oid == s.oid
            && p.msg == if s.kind.Finish? then None else Some(BinMessage(s.id, s.data))
    ensures |Bytes(s)| >= 9
  {
    FrameReads(s, buffersize, dec, rest);
  }

  lemma PacketAt(s: Sent, rest: seq<byte>)
    requires Framed(s)
    ensures InnerAt(s) + |Inner(s)| == |Bytes(s)| && (Bytes(s) + rest)[InnerAt(s)..InnerAt(s) + |Inner(s)|] == Inner(s)
  {
    var h := Head(2, |Tagged(s.oid, Payload(s))|);
    FrontBytes(s, rest);
    FrontBytes(s, []);
    Cut(Bytes(s) + rest, [0xd9, 0xd9, 0xf7], [KindByte(s.kind)], h, Inner(s), rest);
    assert Bytes(s) + [] == Bytes(s);
  }

  lemma Cut(input: seq<byte>, a: seq<byte>, b: seq<byte>, c: seq<byte>, d: seq<byte>, rest: seq<byte>)
    requires input == a + (b + (c + (d + rest)))
    ensures var n := |a| + |b| + |c|; n + |d| <= |input| && input[n..n + |d|] == d
  {
    After(input, 0, a, b + (c + (d + rest)));
    After(input, |a|, b, c + (d + rest));
    After(input, |a| + |b|, c, d + rest);
    After(input, |a| + |b| + |c|, d, rest);
  }

  // ---- what is no whole frame

  /** A frame of which some bytes are still to come is never taken for a packet. */
  lemma TruncatedIsShort(s: Sent, buffersize: nat, dec: Decoders, k: nat, n: nat)
    requires Fitting(s, buffersize) && n < |Bytes(s)|
    ensures Ends(Bytes(s)[..n], buffersize, dec, k) && Read(Bytes(s)[..n], buffersize, dec, k) == Short
  {
    var input := Bytes(s)[..n];
    ReadPad(s, []);
    PacketAt(s, []);
    assert Bytes(s) + [] == Bytes(s);
    if n >= 9 {
      SamePad(Bytes(s), input);
      assert Announced(input[..9]) == Some((InnerAt(s) - 4, |Inner(s)|));
    }
  }

  lemma SamePad(a: seq<byte>, b: seq<byte>)
    requires b <= a && |b| >= 9
    ensures a[..9] == b[..9] && a[..3] == b[..3] && a[3] == b[3]
  {}

  /** A packet that is larger than the receiver's buffer, its break included, is never accepted. */
  lemma OversizeIsMalformed(s: Sent, buffersize: nat, dec: Decoders, k: nat, rest: seq<byte>)
    requires Framed(s) && OPAQUE_START <= s.oid && |Inner(s)| > buffersize
    ensures Ends(Bytes(s) + rest, buffersize, dec, k) && Read(Bytes(s) + rest, buffersize, dec, k) == Malformed
  {
    ReadPad(s, rest);
    assert Announced((Bytes(s) + rest)[..9]) == Some((InnerAt(s) - 4, |Inner(s)|));
  }

  /** The prefix is looked at as soon as there are nine bytes, and nothing else is then. */
  lemma WrongPrefixIff(input: seq<byte>, buffersize: nat, dec: Decoders, k: nat)
    requires Ends(input, buffersize, dec, k)
    ensures Read(input, buffersize, dec, k) == WrongPrefix <==> |input| >= 9 && input[..3] != [217, 217, 247]
  {}

  /** A read never looks past the bytes it takes: whatever follows them, it makes the same of them. */
  lemma ReadIsLocal(input: seq<byte>, buffersize: nat, dec: Decoders, k: nat, rest: seq<byte>)
    requires Ends(input, buffersize, dec, k) && Read(input, buffersize, dec, k).Received?
    ensures var r := Read(input, buffersize, dec, k);
            && 9 <= r.n <= |input| && Ends(input[..r.n] + rest, buffersize, dec, k)
            && Read(input[..r.n] + rest, buffersize, dec, k) == r
  {
    var r := Read(input, buffersize, dec, k);
    var (m, ln) := Announced(input[..9]).value;
    var other := input[..r.n] + rest;
    assert r.n == 4 + m + ln;
    PacketFound(input, buffersize, m, ln);
    SamePad(input, input[..r.n]);
    SamePad(other, input[..r.n]);
    assert other[4 + m..4 + m + ln] == input[4 + m..4 + m + ln];
    PacketFound(other, buffersize, m, ln);
  }

  // ---- the layers, from the outside in

  /** A codec that returns something leaves its tag and what it returned, and nothing else does. */
  lemma LayerReads(c: Codec, p: seq<byte>)
    requires c.tag != TAG_MSG && |c.enc(p)| < TWO63
    ensures c.enc(p) != [] ==> ReadTp(Layer(c, p)) == Some((c.tag, c.enc(p)))
    ensures c.enc(p) == [] ==> Layer(c, p) == p
  {
    if c.enc(p) != [] { ReadTagged(c.tag, c.enc(p)); }
  }

  /** The codecs that returned something, with what they returned, in the order applied. */
  ghost function Applied(p: seq<byte>, cs: seq<Codec>): seq<TagPayload>
    requires Encodable(p, cs)
    decreases |cs|
  {
    if cs == [] then []
    else (if cs[0].enc(p) != [] then [(cs[0].tag, cs[0].enc(p))] else []) + Applied(Layer(cs[0], p), cs[1..])
  }

  /** The tags the loop comes to, with what they are attached to, up to where it ends. */
  function Passed(t: TagPayload, dec: Decoders, k: nat): seq<TagPayload>
    requires Settles(t, dec, k)
    decreases k
  {
    if Done(t) || Peel(t, dec).None? then [t] else [t] + Passed(Peel(t, dec).value, dec, k - 1)
  }

  function Reverse<T>(q: seq<T>): seq<T> { if q == [] then [] else Reverse(q[1..]) + [q[0]] }

  /** Peeling `q` the loop comes to just `ts`, in as many turns as there are tags before the last. */
  ghost predicate PeelsVia(q: seq<byte>, dec: Decoders, ts: seq<TagPayload>) {
    (ReadTp(q).Some? && Via(ReadTp(q).value, dec, ts)) == true
  }

  ghost predicate Via(t: TagPayload, dec: Decoders, ts: seq<TagPayload>) {
    && ts != []
    && (forall k: nat :: Settles(t, dec, k) <==> k >= |ts| - 1)
    && Passed(t, dec, |ts| - 1) == ts
  }

  lemma ViaLayer(c: Codec, p: seq<byte>, dec: Decoders, ts: seq<TagPayload>)
    requires Undone(c, dec) && |c.enc(p)| < TWO63 && c.enc(p) != [] && PeelsVia(p, dec, ts)
    ensures PeelsVia(Layer(c, p), dec, [(c.tag, c.enc(p))] + ts)
  {
    LayerReads(c, p);
    var t := (c.tag, c.enc(p));
    assert !Done(t) && Peel(t, dec) == ReadTp(p);
    forall k: nat ensures Settles(t, dec, k) <==> k >= |ts| {
      if k > 0 { assert Settles(t, dec, k) <==> Settles(ReadTp(p).value, dec, k - 1); }
    }
  }

  /** Undoing the layers the loop comes to the codecs that returned something, last one first, and
      then to what was there before. */
  lemma {:induction false} RollPeelsVia(p: seq<byte>, cs: seq<Codec>, q: seq<byte>, dec: Decoders, ts: seq<TagPayload>)
    requires Rolled(p, cs, q) && Encodable(p, cs) && Matched(cs, dec) && PeelsVia(p, dec, ts)
    ensures PeelsVia(q, dec, Reverse(Applied(p, cs)) + ts)
    decreases |cs|
  {
    RollParts(p, cs, q);
    if cs == [] {
      assert Reverse(Applied(p, cs)) + ts == ts;
    } else {
      MatchedParts(cs, dec);
      var r, rest := Layer(cs[0], p), Applied(Layer(cs[0], p), cs[1..]);
      if cs[0].enc(p) == [] {
        assert Applied(p, cs) == rest;
        RollPeelsVia(r, cs[1..], q, dec, ts);
      } else {
        var t := (cs[0].tag, cs[0].enc(p));
        ViaLayer(cs[0], p, dec, ts);
        RollPeelsVia(r, cs[1..], q, dec, [t] + ts);
        assert ([t] + rest)[1..] == rest;
        Regroup(Reverse(rest), [t], ts);
      }
    }
  }

  lemma BodyVia(id: Word, data: Data, dec: Decoders)
    ensures PeelsVia(MsgBody(id, data), dec, [(TAG_MSG, HdrMap(id, data))])
  {
    ReadMsgTag(HdrMap(id, data));
  }

  /** In a whole frame: behind the opaque a receiver comes from the outside in to just the codecs that
      returned something, in reverse order, each with what it returned, and then to the message; and
      its loop takes exactly as many turns as there are such codecs. */
  lemma FrameLayers(s: Sent, buffersize: nat, dec: Decoders, rest: seq<byte>)
    requires Sendable(s, buffersize, dec) && !s.kind.Finish?
    ensures Whole(Bytes(s) + rest, buffersize)
    ensures var outer, layers := ReadTp(PacketBytes(Bytes(s) + rest, buffersize)), Applied(MsgBody(s.id, s.data), s.cs);
            && outer.Some? && outer.value.0 == s.oid && ReadTp(outer.value.1).Some?
            && Via(ReadTp(outer.value.1).value, dec, Reverse(layers) + [(TAG_MSG, HdrMap(s.id, s.data))])
  {
    var body, ts := MsgBody(s.id, s.data), [(TAG_MSG, HdrMap(s.id, s.data))];
    FramePacket(s, buffersize, rest);
    ReadTagged(s.oid, Payload(s));
    BodyVia(s.id, s.data, dec);
    RollPeelsVia(body, s.cs, Payload(s), dec, ts);
  }

  lemma FramePacket(s: Sent, buffersize: nat, rest: seq<byte>)
    requires Fitting(s, buffersize) && !s.kind.Finish?
    ensures Whole(Bytes(s) + rest, buffersize)
    ensures PacketBytes(Bytes(s) + rest, buffersize) == Tagged(s.oid, Payload(s))
  {
    ReadPad(s, rest);
    PacketAt(s, rest);
    PacketFound(Bytes(s) + rest, buffersize, InnerAt(s) - 4, |Inner(s)|);
    assert Inner(s) == Tagged(s.oid, Payload(s));
  }

  // ---- splitting a connection's bytes into frames

  ghost predicate AllSendable(fs: seq<Sent>, buffersize: nat, dec: Decoders) {
    forall s | s in fs :: Sendable(s, buffersize, dec)
  }

  function Concat(fs: seq<Sent>, buffersize: nat, dec: Decoders): seq<byte>
    requires AllSendable(fs, buffersize, dec)
  {
    if fs == [] then [] else assert fs[0] in fs; Bytes(fs[0]) + Concat(fs[1..], buffersize, dec)
  }

  /** One read, given enough turns for its tag loop. */
  ghost predicate ReadsOne(input: seq<byte>, buffersize: nat, dec: Decoders, pkt: RxPacket, n: nat) {
    exists k: nat :: Ends(input, buffersize, dec, k) && Read(input, buffersize, dec, k) == Received(pkt, n)
  }

  /** Repeated reads make the packets `pkts` of `input`, taking `lens` bytes one after another. */
  ghost predicate Splits(input: seq<byte>, buffersize: nat, dec: Decoders, pkts: seq<RxPacket>, lens: seq<nat>)
    decreases |pkts|
  {
    |pkts| == |lens| &&
    (pkts != [] ==>
       && lens[0] <= |input| && ReadsOne(input, buffersize, dec, pkts[0], lens[0])
       && Splits(input[lens[0]..], buffersize, dec, pkts[1..], lens[1..]))
  }

  function Meanings(fs: seq<Sent>): seq<RxPacket> {
    if fs == [] then [] else [Meaning(fs[0])] + Meanings(fs[1..])
  }

  /** The lengths of the frames, one by one. */
  function Lengths(fs: seq<Sent>): seq<nat>
    requires forall s | s in fs :: Framed(s)
  {
    if fs == [] then [] else assert fs[0] in fs; [|Bytes(fs[0])|] + Lengths(fs[1..])
  }

  lemma {:induction false} MeaningsAt(fs: seq<Sent>)
    ensures |Meanings(fs)| == |fs| && forall i | 0 <= i < |fs| :: Meanings(fs)[i] == Meaning(fs[i])
    decreases |fs|
  {
    if fs != [] { MeaningsAt(fs[1..]); }
  }

  lemma SplitsNext(input: seq<byte>, n: nat, buffersize: nat, dec: Decoders, pkt: RxPacket,
                   pkts: seq<RxPacket>, lens: seq<nat>)
    requires n <= |input| && ReadsOne(input, buffersize, dec, pkt, n)
    requires Splits(input[n..], buffersize, dec, pkts, lens)
    ensures Splits(input, buffersize, dec, [pkt] + pkts, [n] + lens)
  {
    assert ([pkt] + pkts)[1..] == pkts && ([n] + lens)[1..] == lens;
  }

  /** Whatever frames are sent back to back, repeated reads recover exactly that sequence, each read
      taking exactly the bytes of one frame; nothing of `rest` is touched. */
  lemma {:induction false} StreamSplits(fs: seq<Sent>, buffersize: nat, dec: Decoders, rest: seq<byte>)
    requires AllSendable(fs, buffersize, dec)
    ensures Splits(Concat(fs, buffersize, dec) + rest, buffersize, dec, Meanings(fs), Lengths(fs))
    ensures |Meanings(fs)| == |fs| && forall i | 0 <= i < |fs| :: Meanings(fs)[i] == Meaning(fs[i])
    decreases |fs|
  {
    MeaningsAt(fs);
    if fs != [] {
      assert fs[0] in fs;
      var s, tail := fs[0], Concat(fs[1..], buffersize, dec) + rest;
      StreamSplits(fs[1..], buffersize, dec, rest);
      ReadFirst(s, buffersize, dec, tail);
      assert (Bytes(s) + tail)[|Bytes(s)|..] == tail;
      SplitsNext(Bytes(s) + tail, |Bytes(s)|, buffersize, dec, Meaning(s), Meanings(fs[1..]), Lengths(fs[1..]));
      FirstOf(fs, buffersize, dec, rest);
    }
  }

  lemma FirstOf(fs: seq<Sent>, buffersize: nat, dec: Decoders, rest: seq<byte>)
    requires AllSendable(fs, buffersize, dec) && fs != []
    ensures fs[0] in fs
    ensures Concat(fs, buffersize, dec) + rest == Bytes(fs[0]) + (Concat(fs[1..], buffersize, dec) + rest)
  {
    assert fs[0] in fs;
  }

  lemma ReadFirst(s: Sent, buffersize: nat, dec: Decoders, rest: seq<byte>)
    requires Sendable(s, buffersize, dec)
    ensures ReadsOne(Bytes(s) + rest, buffersize, dec, Meaning(s), |Bytes(s)|)
  {
    FrameRoundTrip(s, buffersize, dec, rest);
  }
}
