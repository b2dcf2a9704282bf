/**
  The frames and messages that the tests of the repository spell out byte by byte.
*/
module Vectors {
  import opened Wire
  import opened Cbor
  import opened Frames
  import H = HeaderMap
  import U = Unframe
  import W = Whoami

  /** What a client called "client", of version 1 and with 512 byte buffers, says of itself. */
  const CLIENT: seq<byte> := [99, 108, 105, 101, 110, 116]
  const WHOAMI: seq<byte> := [6, 99, 108, 105, 101, 110, 116, 1, 0, 0, 0, 0, 0, 0, 2, 0, 0, 0]

  lemma TwoDigits(v: nat)
    ensures PutBE(v, 1) == [v % 256] && PutBE(v, 2) == [v / 256 % 256, v % 256]
  {
    assert PutBE(v / 256 / 256, 0) == [] && PutBE(v / 256, 0) == [];
    assert PutBE(v / 256, 1) == PutBE(v / 256 / 256, 0) + [v / 256 % 256];
    assert PutBE(v, 2) == PutBE(v / 256, 1) + [v % 256];
  }

  lemma Tags()
    ensures Tag(43) == [216, 43] && Tag(44) == [216, 44] && Tag(45) == [216, 45]
  {
    TwoDigits(43);
    TwoDigits(44);
    TwoDigits(45);
  }

  lemma OpaqueTag()
    ensures Tag(278) == [217, 1, 22]
  {
    TwoDigits(278);
  }

  lemma Ids()
    ensures Uint(2) == [2] && Uint(4098) == [25, 16, 2]
  {
    TwoDigits(4098);
  }

  lemma Lengths()
    ensures Head(2, 0) == [64] && Head(2, 4) == [68] && Head(2, 18) == [82]
    ensures Head(2, 30) == [88, 30] && Head(2, 35) == [88, 35]
  {
    TwoDigits(30);
    TwoDigits(35);
  }

  lemma EightDigits()
    ensures PutBE(512, 8) == [0, 0, 0, 0, 0, 0, 2, 0] && PutBE(0, 2) == [0, 0]
  {
    Zeros(6);
    TwoDigits(0);
    assert PutBE(2, 7) == PutBE(0, 6) + [2];
    assert PutBE(512, 8) == PutBE(2, 7) + [0];
  }

  lemma {:induction false} Zeros(k: nat)
    ensures PutBE(0, k) == seq(k, _ => 0)
  {
    if k > 0 { Zeros(k - 1); }
  }

  /** msg_whoami_test.go:18. */
  lemma WhoamiBytes()
    ensures W.Encoded(W.Value(CLIENT, 1, 512, [])) == WHOAMI
  {
    EightDigits();
    Spelled(W.Value(CLIENT, 1, 512, []), PutBE(512, 8), PutBE(0, 2));
  }

  lemma Spelled(w: W.Value, size: seq<byte>, tags: seq<byte>)
    requires |w.name| == 6 && w.version == 1 && w.tags == [] && PutBE(w.buffersize, 8) == size && PutBE(0, 2) == tags
    ensures W.Encoded(w) == [6] + w.name + [1] + size + tags
  {}

  const BODY: seq<byte> := [216, 43, 191, 216, 44, 25, 16, 2, 216, 45, 82] + WHOAMI + [255]

  /** The eight pieces of a message body. */
  lemma BodyParts(id: Word, data: Data)
    ensures HdrMap(id, data) == [191] + Tag(44) + Uint(id) + Tag(45) + Head(2, |data|) + data + [255]
    ensures MsgBody(id, data) == Tag(43) + HdrMap(id, data)
  {}

  lemma MapOf(id: Word, data: seq<byte>)
    requires |data| == 18
    ensures HdrMap(id, data) == [191, 216, 44] + Uint(id) + [216, 45, 82] + data + [255]
  {
    BodyParts(id, data);
    Tags();
    Lengths();
  }

  lemma Joined(d: seq<byte>)
    ensures [191, 216, 44] + [2] + [216, 45, 82] + d + [255] == [191, 216, 44, 2, 216, 45, 82] + d + [255]
    ensures [216, 43] + ([191, 216, 44] + [25, 16, 2] + [216, 45, 82] + d + [255])
         == [216, 43, 191, 216, 44, 25, 16, 2, 216, 45, 82] + d + [255]
  {}

  lemma BodyOf(data: seq<byte>)
    requires |data| == 18
    ensures MsgBody(4098, data) == [216, 43, 191, 216, 44, 25, 16, 2, 216, 45, 82] + data + [255]
  {
    MapOf(4098, data);
    Ids();
    Tags();
    Joined(data);
  }

  /** A frame of this kind around the payload `p`, on the opaque 278. */
  ghost predicate IsFrame(k: Kind, b: byte, p: seq<byte>) {
    |p| == 30 && FrameOf(k, 278, p) == [217, 217, 247, b, 88, 35, 217, 1, 22, 88, 30] + p
  }

  lemma TaggedOf(p: seq<byte>)
    requires |p| == 30
    ensures Tagged(278, p) == [217, 1, 22, 88, 30] + p
  {
    OpaqueTag();
    Lengths();
  }

  lemma PacketOf(p: seq<byte>)
    requires |p| == 30
    ensures |Tagged(278, p)| == 35 && Packet(278, p) == [88, 35, 217, 1, 22, 88, 30] + p
  {
    TaggedOf(p);
    LongHead(Tagged(278, p));
  }

  lemma LongHead(t: seq<byte>)
    requires |t| == 35
    ensures Bstr(t) == [88, 35] + t
  {
    Lengths();
  }

  lemma FrameBytes(p: seq<byte>)
    requires |p| == 30
    ensures IsFrame(Post, 198, p) && IsFrame(Request, 129, p) && IsFrame(Start, 159, p) && IsFrame(StreamMsg, 199, p)
  {
    OneFrame(Post, 198, p);
    OneFrame(Request, 129, p);
    OneFrame(Start, 159, p);
    OneFrame(StreamMsg, 199, p);
  }

  lemma OneFrame(k: Kind, b: byte, p: seq<byte>)
    requires |p| == 30 && KindByte(k) == b && !k.Finish?
    ensures IsFrame(k, b, p)
  {
    Prefix();
    PacketOf(p);
  }

  /** tx_test.go:15-20, 43-48, 71-76, 99-104 and 127-132: a whoami message as post, request, response,
      start and stream message. */
  lemma WhoamiFrames()
    ensures MsgBody(4098, WHOAMI) == BODY
    ensures IsFrame(Post, 198, BODY) && IsFrame(Request, 129, BODY)
    ensures IsFrame(Start, 159, BODY) && IsFrame(StreamMsg, 199, BODY)
  {
    BodyOf(WHOAMI);
    FrameBytes(BODY);
  }

  lemma EmptyTagged()
    ensures Tagged(278, []) == [217, 1, 22, 64]
  {
    OpaqueTag();
    Lengths();
  }

  lemma EmptyPacket()
    ensures |Tagged(278, [])| == 4 && Packet(278, []) == [68, 217, 1, 22, 64]
  {
    EmptyTagged();
    Lengths();
  }

  /** tx_test.go:150: finish. */
  lemma FinishBytes()
    ensures |Tagged(278, [])| == 4 && FrameOf(Finish, 278, []) == [217, 217, 247, 200, 68, 217, 1, 22, 64, 255]
  {
    Prefix();
    EmptyPacket();
  }

  lemma MessageIsRead(data: seq<byte>)
    requires |data| == 18
    ensures var m := [191, 216, 44, 2, 216, 45, 82] + data + [255];
            U.ReadTp([216, 43] + m) == Some((43, m)) && H.Unmessage(m) == H.Message(BinMessage(2, data))
  {
    MapOf(2, data);
    Ids();
    Tags();
    Joined(data);
    U.ReadMsgTag(HdrMap(2, data));
    H.HdrMapUnmessage(2, data);
  }

  lemma FieldsAreRead()
    ensures W.Decoded(WHOAMI, []) == Some((W.Value(CLIENT, 1, 512, []), 18))
  {
    WhoamiBytes();
    W.RoundTripIffShort(W.Value(CLIENT, 1, 512, []), [], []);
    assert WHOAMI + [] == WHOAMI;
  }

  /** rx_test.go:31-53: from the tagged payload to the message, and to its fields. */
  lemma WhoamiIsRead()
    ensures var received := [191, 216, 44, 2, 216, 45, 82] + WHOAMI + [255];
            && U.ReadTp([216, 43] + received) == Some((43, received))
            && H.Unmessage(received) == H.Message(BinMessage(2, WHOAMI))
    ensures W.Decoded(WHOAMI, []) == Some((W.Value(CLIENT, 1, 512, []), 18))
  {
    MessageIsRead(WHOAMI);
    FieldsAreRead();
  }
}
