/**
  tx.go, what the bytes are: messages, tag layers, packets and frames as nested CBOR items; their
  exact lengths; and their compliance with RFC 7049.
*/
module Frames {
  import opened Wire
  import opened Cbor
  import opened Rfc7049

  const TAG_MSG: Word := 43
  const TAG_ID: Word := 44
  const TAG_DATA: Word := 45
  const TAG_CBOR_PREFIX: Word := 55799
  const OPAQUE_START: nat := 266
  const OPAQUE_END: nat := 15309735

  type Data = d: seq<byte> | |d| < TWO64

  /** A tag's encoder and decoder; an encoder that returns nothing asks to be skipped. */
  datatype Codec = Codec(tag: Word, enc: seq<byte> -> seq<byte>, dec: seq<byte> -> seq<byte>)

  /** The header map: message id and message data. */
  function HdrMap(id: Word, data: Data): seq<byte> {
    [MAP_START] + ((Tag(TAG_ID) + Uint(id)) + ((Tag(TAG_DATA) + Bstr(data)) + ([BREAK] + [])))
  }

  function MsgBody(id: Word, data: Data): seq<byte> { Tag(TAG_MSG) + HdrMap(id, data) }

  /** One tag layer around a payload. */
  function Layer(c: Codec, payload: seq<byte>): seq<byte>
    requires |c.enc(payload)| < TWO64
  {
    if c.enc(payload) == [] then payload else Tag(c.tag) + Bstr(c.enc(payload))
  }

  ghost predicate Encodable(payload: seq<byte>, cs: seq<Codec>)
    decreases |cs|
  {
    cs != [] ==> |cs[0].enc(payload)| < TWO64 && Encodable(Layer(cs[0], payload), cs[1..])
  }

  /** All the layers, in the order the tag map happens to be walked. */
  function Roll(payload: seq<byte>, cs: seq<Codec>): seq<byte>
    requires Encodable(payload, cs)
    decreases |cs|
  {
    if cs == [] then payload else Roll(Layer(cs[0], payload), cs[1..])
  }

  function Tagged(o: Word, payload: Data): seq<byte> { Tag(o) + Bstr(payload) }

  function Packet(o: Word, payload: Data): seq<byte>
    requires |Tagged(o, payload)| < TWO64
  {
    Bstr(Tagged(o, payload))
  }

  function KindByte(k: Kind): byte {
    match k
    case Post => 0xc6 case Request => 0x81 case Start => 0x9f case StreamMsg => 0xc7 case Finish => 0xc8
  }

  /** A whole frame.  The payload of a finish frame is empty, and a break follows it. */
  function FrameOf(k: Kind, o: Word, payload: Data): seq<byte>
    requires |Tagged(o, payload)| < TWO64
  {
    Tag(TAG_CBOR_PREFIX) + [KindByte(k)] + Packet(o, payload) + if k.Finish? then [BREAK] else []
  }

  lemma Prefix()
    ensures Tag(TAG_CBOR_PREFIX) == [0xd9, 0xd9, 0xf7]
  {
    assert PutBE(55799, 2) == PutBE(217, 1) + [247];
    assert PutBE(217, 1) == PutBE(0, 0) + [217];
  }

  // ---- lengths

  function HeadLen(v: Word): nat { 1 + Extra(v) }

  function BodyLen(id: Word, d: Word): nat { 8 + HeadLen(id) + HeadLen(d) + d }

  lemma BodyLength(id: Word, data: Data)
    ensures |MsgBody(id, data)| == BodyLen(id, |data|)
  {}

  /** The exact length of a frame without tag layers. */
  lemma FrameLength(k: Kind, o: Word, payload: Data)
    requires |Tagged(o, payload)| < TWO64
    ensures |Tagged(o, payload)| == HeadLen(o) + HeadLen(|payload|) + |payload|
    ensures |FrameOf(k, o, payload)|
         == 4 + HeadLen(|Tagged(o, payload)|) + |Tagged(o, payload)| + if k.Finish? then 1 else 0
  {
    Prefix();
  }

  /** Without tags a frame is at most 41 bytes longer than its message, and never under 9 bytes. */
  lemma OverheadBound(k: Kind, o: Word, id: Word, data: Data)
    requires !k.Finish? && OPAQUE_START <= o <= OPAQUE_END && |data| + 36 < TWO32
    ensures var body := MsgBody(id, data);
            && |body| < TWO32 && |Tagged(o, body)| < TWO32
            && |data| + 18 <= |FrameOf(k, o, body)| <= |data| + 41
  {
    BodyLength(id, data);
    FrameLength(k, o, MsgBody(id, data));
  }

  /** And exactly 41 bytes longer when every number in it is large. */
  lemma OverheadReachedIff(k: Kind, o: Word, id: Word, data: Data)
    requires !k.Finish? && OPAQUE_START <= o <= OPAQUE_END && |data| + 36 < TWO32
    ensures |Tagged(o, MsgBody(id, data))| < TWO64
    ensures |FrameOf(k, o, MsgBody(id, data))| == |data| + 41 <==> o >= TWO16 && id >= TWO32 && |data| >= TWO16
  {
    OverheadBound(k, o, id, data);
    BodyLength(id, data);
    FrameLength(k, o, MsgBody(id, data));
  }

  lemma NineBytes(k: Kind, o: Word, payload: Data)
    requires OPAQUE_START <= o && |Tagged(o, payload)| < TWO64
    ensures |FrameOf(k, o, payload)| >= 9 + if k.Finish? then 1 else 0
  {
    FrameLength(k, o, payload);
  }

  // ---- compliance with RFC 7049

  lemma TaggedWF(t: Word, d: Data, rest: seq<byte>, b: bool)
    ensures WellFormed(Tag(t) + Bstr(d) + rest, b) == Item(|Tag(t) + Bstr(d)|, 6)
  {
    BstrWF(d, rest, false);
    TagWF(t, Bstr(d), rest, 2, b);
  }

  lemma IdEntryWF(id: Word, rest: seq<byte>, b: bool)
    ensures WellFormed(Tag(TAG_ID) + Uint(id) + rest, b) == Item(|Tag(TAG_ID) + Uint(id)|, 6)
  {
    UintWF(id, rest, false);
    TagWF(TAG_ID, Uint(id), rest, 0, b);
  }

  lemma HdrMapWF(id: Word, data: Data, rest: seq<byte>, b: bool)
    ensures WellFormed(HdrMap(id, data) + rest, b) == Item(|HdrMap(id, data)|, 0)
  {
    var key, val := Tag(TAG_ID) + Uint(id), Tag(TAG_DATA) + Bstr(data);
    var tail := [BREAK] + rest;
    IdEntryWF(id, val + tail, true);
    TaggedWF(TAG_DATA, data, tail, false);
    MapOfOneWF(key, val, rest, 6, 6, b);
    HdrMapParts(id, data, rest);
  }

  lemma HdrMapParts(id: Word, data: Data, rest: seq<byte>)
    ensures HdrMap(id, data) + rest
         == [MAP_START] + ((Tag(TAG_ID) + Uint(id)) + ((Tag(TAG_DATA) + Bstr(data)) + ([BREAK] + rest)))
    ensures |HdrMap(id, data)| == 2 + |Tag(TAG_ID) + Uint(id)| + |Tag(TAG_DATA) + Bstr(data)|
  {
    MapBytes(Tag(TAG_ID) + Uint(id), Tag(TAG_DATA) + Bstr(data), rest);
  }

  lemma MapBytes(key: seq<byte>, val: seq<byte>, rest: seq<byte>)
    ensures [MAP_START] + (key + (val + ([BREAK] + []))) + rest == [MAP_START] + (key + (val + ([BREAK] + rest)))
    ensures |[MAP_START] + (key + (val + ([BREAK] + [])))| == 2 + |key| + |val|
  {}

  /** A message body is one well-formed item. */
  lemma MsgBodyWF(id: Word, data: Data, rest: seq<byte>, b: bool)
    ensures WellFormed(MsgBody(id, data) + rest, b) == Item(|MsgBody(id, data)|, 6)
  {
    HdrMapWF(id, data, rest, false);
    TagWF(TAG_MSG, HdrMap(id, data), rest, 0, b);
  }

  /** So is a body rolled up in any tag layers. */
  lemma {:induction false} RollWF(payload: seq<byte>, cs: seq<Codec>)
    requires Encodable(payload, cs) && OneItem(payload)
    ensures OneItem(Roll(payload, cs))
    decreases |cs|
  {
    if cs != [] {
      var p := Layer(cs[0], payload);
      assert OneItem(p) by {
        if cs[0].enc(payload) != [] {
          TaggedWF(cs[0].tag, cs[0].enc(payload), [], false);
          assert p + [] == p;
        }
      }
      RollWF(p, cs[1..]);
    }
  }

  /** The contents of a packet, read as CBOR, are one well-formed item. */
  lemma PacketContentsWF(o: Word, payload: Data)
    ensures OneItem(Tagged(o, payload))
  {
    TaggedWF(o, payload, [], false);
    assert Tagged(o, payload) + [] == Tagged(o, payload);
  }

  lemma PacketWF(o: Word, payload: Data, rest: seq<byte>, b: bool)
    requires |Tagged(o, payload)| < TWO64
    ensures WellFormed(Packet(o, payload) + rest, b) == Item(|Packet(o, payload)|, 2)
  {
    BstrWF(Tagged(o, payload), rest, b);
  }

  /** The kind byte of a post, stream or finish frame is a tag, the kind byte of a request or
      response an array of one. */
  lemma KindWF(k: Kind, o: Word, payload: Data, rest: seq<byte>)
    requires |Tagged(o, payload)| < TWO64 && !k.Start?
    ensures WellFormed([KindByte(k)] + Packet(o, payload) + rest, false)
         == Item(1 + |Packet(o, payload)|, if k.Request? then 4 else 6)
  {
    PacketWF(o, payload, rest, false);
    if k.Request? {
      ArrayOfOneWF(Packet(o, payload), rest, 2, false);
    } else {
      var t: Word := if k.Post? then 6 else if k.StreamMsg? then 7 else 8;
      assert Tag(t) == [KindByte(k)];
      TagWF(t, Packet(o, payload), rest, 2, false);
    }
  }

  function Element(k: Kind, o: Word, payload: Data): seq<byte>
    requires |Tagged(o, payload)| < TWO64
  {
    Tag(TAG_CBOR_PREFIX) + ([KindByte(k)] + Packet(o, payload))
  }

  lemma ItemWF(k: Kind, o: Word, payload: Data, rest: seq<byte>, b: bool)
    requires |Tagged(o, payload)| < TWO64 && !k.Start?
    ensures WellFormed(Element(k, o, payload) + rest, b) == Item(|Element(k, o, payload)|, 6)
  {
    KindWF(k, o, payload, rest);
    TagWF(TAG_CBOR_PREFIX, [KindByte(k)] + Packet(o, payload), rest, if k.Request? then 4 else 6, b);
  }

  /** Every post, request, response and stream frame is exactly one well-formed CBOR item. */
  lemma FrameIsOneItem(k: Kind, o: Word, payload: Data)
    requires |Tagged(o, payload)| < TWO64 && (k.Post? || k.Request? || k.StreamMsg?)
    ensures OneItem(FrameOf(k, o, payload))
  {
    ItemWF(k, o, payload, [], false);
    assert Element(k, o, payload) + [] == Element(k, o, payload);
    FrameIsElement(k, o, payload);
  }

  lemma FrameIsElement(k: Kind, o: Word, payload: Data)
    requires |Tagged(o, payload)| < TWO64 && !k.Finish?
    ensures FrameOf(k, o, payload) == Element(k, o, payload)
  {
    Regroup(Tag(TAG_CBOR_PREFIX), [KindByte(k)], Packet(o, payload));
  }

  /** A start frame leaves an array open. */
  lemma LoneStart(o: Word, payload: Data)
    requires |Tagged(o, payload)| < TWO64
    ensures WellFormed(FrameOf(Start, o, payload), false) == Fail
  {
    var p := Packet(o, payload);
    PacketWF(o, payload, [], true);
    assert p + [] == p;
    OpenArray(p, 2);
    TagOfNothing(TAG_CBOR_PREFIX, [ARRAY_START] + p, false);
    Regroup(Tag(TAG_CBOR_PREFIX), [ARRAY_START], p);
    assert FrameOf(Start, o, payload) == Tag(TAG_CBOR_PREFIX) + [ARRAY_START] + p;
  }

  lemma OpenArray(p: seq<byte>, m: nat)
    requires WellFormed(p + [], true) == Item(|p|, m)
    ensures WellFormed([ARRAY_START] + p, false) == Fail
  {
    NothingFollows();
    LoopNext(p, [], m, Elements, Elements, None);
    assert p + [] == p;
    NoArray(p);
  }

  lemma NothingFollows()
    ensures Contents([], Elements) == None
  {}

  lemma NoArray(body: seq<byte>)
    requires Contents(body, Elements) == None
    ensures WellFormed([ARRAY_START] + body, false) == Fail
  {
    assert ([ARRAY_START] + body)[1..] == body;
  }

  /** A tag in front of an array without length: the item that the contents of the array make, if they end. */
  lemma OpenedWF(body: seq<byte>, b: bool)
    ensures WellFormed(Tag(TAG_CBOR_PREFIX) + ([ARRAY_START] + body), b)
         == match Contents(body, Elements) case None => Fail case Some(n) => Item(|Tag(TAG_CBOR_PREFIX)| + 1 + n, 6)
  {
    var t := Contents(body, Elements);
    if t.None? {
      NoArray(body);
      TagOfNothing(TAG_CBOR_PREFIX, [ARRAY_START] + body, b);
    } else {
      var inner, rest := [ARRAY_START] + body[..t.value], body[t.value..];
      assert [ARRAY_START] + body == inner + rest;
      ArrayWF(body, t.value, false);
      TagWF(TAG_CBOR_PREFIX, inner, rest, 0, b);
      Regroup(Tag(TAG_CBOR_PREFIX), inner, rest);
    }
  }

  /** A finish frame is an item with a break behind it that nothing in it opened. */
  lemma LoneFinish(o: Word, payload: Data)
    requires |Tagged(o, payload)| < TWO64
    ensures WellFormed(FrameOf(Finish, o, payload), false) == Item(|FrameOf(Finish, o, payload)| - 1, 6)
  {
    ItemWF(Finish, o, payload, [BREAK], false);
    assert FrameOf(Finish, o, payload) == Element(Finish, o, payload) + [BREAK];
  }

  /** So a frame is one well-formed item by itself exactly when it neither starts nor ends a stream;
      in particular the end that did not start a stream ends it with a stray break. */
  lemma OneItemIff(k: Kind, o: Word, payload: Data)
    requires |Tagged(o, payload)| < TWO64
    ensures OneItem(FrameOf(k, o, payload)) <==> k.Post? || k.Request? || k.StreamMsg?
  {
    if k.Start? { LoneStart(o, payload); }
    else if k.Finish? { LoneFinish(o, payload); }
    else { FrameIsOneItem(k, o, payload); }
  }

  // ---- a whole stream

  /** The stream frames of one end, back to back. */
  function StreamFrames(o: Word, ps: seq<Data>): seq<byte>
    requires forall p | p in ps :: |Tagged(o, p)| < TWO64
  {
    if ps == [] then [] else Element(StreamMsg, o, ps[0]) + StreamFrames(o, ps[1..])
  }

  lemma MoreMore(a: nat, b: nat, t: Option<nat>)
    ensures More(a, More(b, t)) == More(a + b, t) && More(0, t) == t
  {}

  lemma MoreElements(e: seq<byte>, r: seq<byte>, tail: seq<byte>, m: nat, t: Option<nat>)
    requires WellFormed(e + (r + tail), true) == Item(|e|, m) && Contents(r + tail, Elements) == More(|r|, t)
    ensures Contents((e + r) + tail, Elements) == More(|e + r|, t)
  {
    LoopNext(e, r + tail, m, Elements, Elements, More(|r|, t));
    MoreMore(|e|, |r|, t);
    Regroup(e, r, tail);
  }

  lemma ElementsNext(o: Word, ps: seq<Data>, tail: seq<byte>, t: Option<nat>)
    requires ps != [] && forall p | p in ps :: |Tagged(o, p)| < TWO64
    requires Contents(StreamFrames(o, ps[1..]) + tail, Elements) == More(|StreamFrames(o, ps[1..])|, t)
    ensures Contents(StreamFrames(o, ps) + tail, Elements) == More(|StreamFrames(o, ps)|, t)
  {
    var e, r := Element(StreamMsg, o, ps[0]), StreamFrames(o, ps[1..]);
    ItemWF(StreamMsg, o, ps[0], r + tail, true);
    MoreElements(e, r, tail, 6, t);
    assert StreamFrames(o, ps) == e + r;
  }

  lemma {:induction false} ElementsWF(o: Word, ps: seq<Data>, tail: seq<byte>, t: Option<nat>)
    requires forall p | p in ps :: |Tagged(o, p)| < TWO64
    requires Contents(tail, Elements) == t
    ensures Contents(StreamFrames(o, ps) + tail, Elements) == More(|StreamFrames(o, ps)|, t)
    decreases |ps|
  {
    if ps == [] {
      assert StreamFrames(o, ps) + tail == tail;
      MoreMore(0, 0, t);
    } else {
      ElementsWF(o, ps[1..], tail, t);
      ElementsNext(o, ps, tail, t);
    }
  }

  lemma FinishContents(o: Word)
    requires |Tagged(o, [])| < TWO64
    ensures Contents(Element(Finish, o, []) + [BREAK], Elements) == More(|Element(Finish, o, [])|, Some(1))
  {
    LoopEnd([], Elements);
    assert [BREAK] + [] == [BREAK];
    ItemWF(Finish, o, [], [BREAK], true);
    LoopNext(Element(Finish, o, []), [BREAK], 6, Elements, Elements, Some(1));
  }

  lemma FirstContents(o: Word, first: Data, rest: seq<byte>, t: Option<nat>)
    requires |Tagged(o, first)| < TWO64 && Contents(rest, Elements) == t
    ensures Contents(Packet(o, first) + rest, Elements) == More(|Packet(o, first)|, t)
  {
    PacketWF(o, first, rest, true);
    LoopNext(Packet(o, first), rest, 2, Elements, Elements, t);
  }

  ghost predicate AllPackable(o: Word, ps: seq<Data>) { forall p | p in ps :: |Tagged(o, p)| < TWO64 }

  /** What follows the start frame's array byte: the first packet, the stream frames, the finish. */
  function StreamBody(o: Word, first: Data, ps: seq<Data>): seq<byte>
    requires |Tagged(o, first)| < TWO64 && |Tagged(o, [])| < TWO64 && forall p | p in ps :: |Tagged(o, p)| < TWO64
  {
    Packet(o, first) + (StreamFrames(o, ps) + (Element(Finish, o, []) + [BREAK]))
  }

  lemma StreamParts(o: Word, first: Data, ps: seq<Data>)
    requires |Tagged(o, first)| < TWO64 && |Tagged(o, [])| < TWO64 && AllPackable(o, ps)
    ensures Contents(StreamBody(o, first, ps), Elements)
         == More(|Packet(o, first)|, More(|StreamFrames(o, ps)|, More(|Element(Finish, o, [])|, Some(1))))
  {
    var tail, t := Element(Finish, o, []) + [BREAK], More(|Element(Finish, o, [])|, Some(1));
    FinishContents(o);
    ElementsWF(o, ps, tail, t);
    FirstContents(o, first, StreamFrames(o, ps) + tail, More(|StreamFrames(o, ps)|, t));
  }

  lemma StreamLength(o: Word, first: Data, ps: seq<Data>)
    requires |Tagged(o, first)| < TWO64 && |Tagged(o, [])| < TWO64 && AllPackable(o, ps)
    ensures Some(|StreamBody(o, first, ps)|)
         == More(|Packet(o, first)|, More(|StreamFrames(o, ps)|, More(|Element(Finish, o, [])|, Some(1))))
  {}

  /** A start frame, any number of stream frames and the finish frame of one end, back to back. */
  function WholeStream(o: Word, first: Data, ps: seq<Data>): seq<byte>
    requires |Tagged(o, first)| < TWO64 && |Tagged(o, [])| < TWO64 && forall p | p in ps :: |Tagged(o, p)| < TWO64
  {
    FrameOf(Start, o, first) + StreamFrames(o, ps) + FrameOf(Finish, o, [])
  }

  lemma WholeStreamBytes(o: Word, first: Data, ps: seq<Data>)
    requires |Tagged(o, first)| < TWO64 && |Tagged(o, [])| < TWO64 && AllPackable(o, ps)
    ensures WholeStream(o, first, ps) == Tag(TAG_CBOR_PREFIX) + ([ARRAY_START] + StreamBody(o, first, ps))
  {}

  /** Together they make exactly one well-formed CBOR item: the break after the finish closes the
      array that the start opened. */
  lemma StreamIsOneItem(o: Word, first: Data, ps: seq<Data>)
    requires |Tagged(o, first)| < TWO64 && |Tagged(o, [])| < TWO64 && AllPackable(o, ps)
    ensures OneItem(WholeStream(o, first, ps))
  {
    StreamParts(o, first, ps);
    StreamLength(o, first, ps);
    OpenedWF(StreamBody(o, first, ps), false);
    WholeStreamBytes(o, first, ps);
  }
}
