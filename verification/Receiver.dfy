/**
  go_rx.go with its buffers: doRx reuses one pad, one packet buffer and one output buffer per tag for
  every frame, and hands each message on in a pooled buffer that syncRx gives back.  A frame read
  never changes a message that still waits, or that a handler still looks at.
*/
module Receiver {
  import opened Wire
  import opened Cbor
  import opened Frames
  import opened HeaderMap
  import opened Unframe

  type Buffer = array<byte>

  /** An rxpacket; its message lives in the first `len` bytes of `buf`, or is the zero message. */
  datatype Waiting = Waiting(kind: Option<Kind>, oid: Word, id: nat, buf: array?<byte>, len: nat) {
    ghost predicate Fits() { buf != null ==> len <= buf.Length }

    ghost function Packet(): RxPacket
      requires Fits()
      reads buf
    {
      RxPacket(kind, oid, if buf == null then None else Some(BinMessage(id, buf[..len])))
    }
  }

  /** Every buffer has one owner: the scratch buffers of doRx, the pool, or one packet held. */
  ghost predicate Apart(scratch: set<Buffer>, pool: seq<Buffer>, held: seq<Waiting>) {
    ApartParts(scratch, pool, held) == true
  }

  ghost predicate ApartParts(scratch: set<Buffer>, pool: seq<Buffer>, held: seq<Waiting>) {
    && (forall i | 0 <= i < |pool| :: pool[i] !in scratch)
    && (forall i, j | 0 <= i < j < |pool| :: pool[i] != pool[j])
    && (forall i | 0 <= i < |held| && held[i].buf != null :: held[i].buf !in scratch && held[i].buf !in pool)
    && (forall i, j | 0 <= i < j < |held| && held[i].buf != null :: held[i].buf != held[j].buf)
  }

  ghost function Buffers(held: seq<Waiting>): set<object> {
    set i | 0 <= i < |held| && held[i].buf != null :: held[i].buf
  }

  /** The packets held say, in their buffers as they are now, what `queued` says. */
  ghost predicate Shows(held: seq<Waiting>, queued: seq<RxPacket>)
    reads Buffers(held)
  {
    |held| == |queued| && forall i | 0 <= i < |held| :: held[i].Fits() && held[i].Packet() == queued[i]
  }

  lemma ApartGive(scratch: set<Buffer>, pool: seq<Buffer>, held: seq<Waiting>)
    requires Apart(scratch, pool, held) && held != []
    ensures Apart(scratch, pool, held[1..])
    ensures held[0].buf != null ==> Apart(scratch, pool + [held[0].buf], held[1..])
  {}

  lemma ApartPop(scratch: set<Buffer>, pool: seq<Buffer>, held: seq<Waiting>)
    requires Apart(scratch, pool, held) && pool != []
    ensures Apart(scratch, pool[1..], held)
    ensures pool[0] !in scratch && pool[0] !in pool[1..] && pool[0] !in Buffers(held)
  {}

  lemma ApartPush(scratch: set<Buffer>, pool: seq<Buffer>, held: seq<Waiting>, w: Waiting)
    requires Apart(scratch, pool, held)
    requires w.buf != null ==> w.buf !in scratch && w.buf !in pool && w.buf !in Buffers(held)
    ensures Apart(scratch, pool, held + [w])
  {}

  lemma ShowsPush(held: seq<Waiting>, queued: seq<RxPacket>, w: Waiting)
    requires Shows(held, queued) && w.Fits()
    ensures Shows(held + [w], queued + [w.Packet()])
  {}

  lemma ShowsRest(held: seq<Waiting>, queued: seq<RxPacket>)
    requires Shows(held, queued) && held != []
    ensures held[0].Fits() && held[0].Packet() == queued[0] && Shows(held[1..], queued[1..])
  {}

  lemma Joined(input: seq<byte>, m: nat, ln: nat)
    requires m <= 5 && 5 - m <= ln && 4 + m + ln <= |input|
    ensures input[..9][4 + m..] + input[9..][..ln - (5 - m)] == input[4 + m..4 + m + ln]
  {}

  /** An output buffer for every tag. */
  method MakeOutputs(tags: set<Word>, buffersize: nat) returns (outs: map<Word, Buffer>)
    ensures outs.Keys == tags && forall t | t in outs :: fresh(outs[t]) && outs[t].Length == buffersize
  {
    outs := map[];
    var left := tags;
    while left != {}
      invariant left <= tags && outs.Keys == tags - left
      invariant forall t | t in outs :: fresh(outs[t]) && outs[t].Length == buffersize
      decreases |left|
    {
      var t :| t in left;
      var b := new byte[buffersize](_ => 0);
      outs, left := outs[t := b], left - {t};
    }
  }

  /** A read of a complete frame, up to what its packet contains. */
  lemma ReadSplit(input: seq<byte>, buffersize: nat, dec: Decoders, k: nat, m: nat, ln: nat)
    requires |input| >= 9 && input[..3] == [0xd9, 0xd9, 0xf7] && Announced(input[..9]) == Some((m, ln))
    requires 5 - m <= ln <= buffersize && 4 + m + ln <= |input| && Ends(input, buffersize, dec, k)
    ensures var kind, bytes := KindOf(input[3]), input[4 + m..4 + m + ln];
            && (Layered(kind, bytes) ==> Settles(ReadTp(ReadTp(bytes).value.1).value, dec, k))
            && Read(input, buffersize, dec, k)
               == match Contents(kind, bytes, dec, k) case None => Malformed case Some(p) => Received(p, 4 + m + ln)
  {
    PacketFound(input, buffersize, m, ln);
  }

  /** The length of the frame at the front of the input, when all of it is there. */
  function FrameBytes(input: seq<byte>, buffersize: nat): nat {
    if Whole(input, buffersize) then var (m, ln) := Announced(input[..9]).value; 4 + m + ln else 0
  }

  class Receiver {
    const pad: Buffer
    const packet: Buffer
    const tagouts: map<Word, Buffer>
    const dec: Decoders
    ghost const scratch: set<Buffer>   // pad, packet and tagouts
    const poolcap: nat

    var input: seq<byte>      // what the connection will still deliver before it closes
    var pool: seq<Buffer>     // pData
    var rxch: seq<Waiting>
    var hand: seq<Waiting>    // the packet syncRx is handling, if any
    var nRxbyte: nat
    var nDropped: nat
    ghost var queued: seq<RxPacket>   // every packet handed on and not done with, as it was read

    ghost function Held(): seq<Waiting>
      reads this
    {
      hand + rxch
    }

    /** Decoders fit the output buffers; the pad and the packet buffer are different ones. */
    ghost predicate Fixed() {
      && pad.Length == 9 && pad != packet && tagouts.Keys == dec.Keys
      && {pad, packet} <= scratch && (forall t | t in tagouts :: tagouts[t] in scratch - {pad, packet})
      && (forall t, x: seq<byte> | t in dec :: |dec[t](x)| <= tagouts[t].Length)
    }

    ghost predicate Valid()
      reads this, Buffers(Held())
    {
      Fixed() && Apart(scratch, pool, Held()) && Shows(Held(), queued) && |pool| <= poolcap && |hand| <= 1
    }

    /** The buffers doRx makes once, before its loop; `input` is all that the peer will ever send. */
    constructor (buffersize: nat, dec: Decoders, poolcap: nat, input: seq<byte>)
      requires forall t, x: seq<byte> | t in dec :: |dec[t](x)| <= buffersize
      ensures Valid() && packet.Length == buffersize && this.dec == dec && this.poolcap == poolcap
      ensures this.input == input && queued == [] && nRxbyte == 0 && nDropped == 0
    {
      var nine := new byte[9](_ => 0);
      var pkt := new byte[buffersize](_ => 0);
      var outs := MakeOutputs(dec.Keys, buffersize);
      pad, packet, tagouts, this.dec := nine, pkt, outs, dec;
      scratch := {nine, pkt} + set t | t in outs :: outs[t];
      this.poolcap, this.input, pool, rxch, hand, nRxbyte, nDropped, queued := poolcap, input, [], [], [], 0, 0, [];
    }

    /** io.ReadFull into buf[from..to]: all of it, or what was left on the connection. */
    method ReadFull(buf: Buffer, from: nat, to: nat) returns (n: nat)
      requires from <= to <= buf.Length
      modifies `input, buf
      ensures n == if to - from <= |old(input)| then to - from else |old(input)|
      ensures input == old(input[n..]) && buf[..] == Write(old(buf[..]), from, old(input[..n]))
    {
      n := if to - from <= |input| then to - from else |input|;
      var _ := Copy(buf, from, input[..n]);
      input := input[n..];
    }

    method GetData(size: nat) returns (data: Buffer)
      modifies `pool
      ensures size <= data.Length
      ensures pool == if old(pool) == [] then [] else old(pool[1..])
      ensures if old(pool) != [] && size <= old(pool[0]).Length then data == old(pool[0])
              else fresh(data) && data.Length == size
    {
      if pool == [] {
        data := new byte[size](_ => 0);
      } else {
        data := pool[0];
        pool := pool[1..];
        if data.Length < size { data := new byte[size](_ => 0); }
      }
    }

    method PutData(data: Buffer)
      modifies `pool
      ensures pool == if |old(pool)| < poolcap then old(pool) + [data] else old(pool)
    {
      if |pool| < poolcap { pool := pool + [data]; }
    }

    /** The tag loop and what follows it, on a packet that is completely read. */
    method Unpack(kind: Option<Kind>, ln: nat, ghost k: nat) returns (r: Option<RxPacket>)
      requires Fixed() && ln <= packet.Length
      requires Layered(kind, packet[..ln]) ==> Settles(ReadTp(ReadTp(packet[..ln]).value.1).value, dec, k)
      modifies scratch
      ensures r == Contents(kind, old(packet[..ln]), dec, k)
    {
      var first := ReadTp(packet[..ln]);
      if first.None? { return None; }
      if kind == Some(Finish) { return Some(RxPacket(kind, first.value.0, None)); }
      var second := ReadTp(first.value.1);
      if second.None? { return None; }
      var t := second.value;
      ghost var turns := k;
      while t.0 != TAG_MSG && t.1 != []
        invariant Settles(t, dec, turns) && PeelAll(t, dec, turns) == PeelAll(second.value, dec, k)
        decreases turns
      {
        if t.0 !in dec { return None; }
        var out := dec[t.0](t.1);
        var _ := Copy(tagouts[t.0], 0, out);
        assert tagouts[t.0][..|out|] == out;
        var next := ReadTp(tagouts[t.0][..|out|]);
        if next.None? { return None; }
        t := next.value;
        turns := turns - 1;
      }
      var res := UnmessageLoop(t.1, 0);
      r := match res
        case Message(m) => Some(RxPacket(kind, first.value.0, Some(m)))
        case Invalid => Some(RxPacket(kind, first.value.0, None))
        case Stuck => None;
    }

    /** The second read: the packet's first bytes are in the pad already. */
    method ReadRest(m: nat, ln: nat) returns (ok: bool)
      requires pad.Length == 9 && pad != packet && m <= 5 && 5 - m <= ln <= packet.Length
      modifies `input, `nRxbyte, `nDropped, packet
      ensures ok <==> ln - (5 - m) <= |old(input)|
      ensures ok ==> packet[..ln] == pad[4 + m..] + old(input[..ln - (5 - m)]) && input == old(input[ln - (5 - m)..])
      ensures ok ==> nRxbyte == old(nRxbyte) + 4 + m + ln && nDropped == old(nDropped)
      ensures !ok ==> input == [] && nRxbyte == old(nRxbyte) && nDropped == old(nDropped) + |old(input)|
    {
      var n := Copy(packet, 0, pad[4 + m..]);
      var got := ReadFull(packet, n, ln);
      if got != ln - n {
        nDropped := nDropped + got;
        return false;
      }
      nRxbyte := nRxbyte + 9 + got;
      return true;
    }

    /** The first read: nine bytes, prefix first. */
    method ReadPad() returns (r: Option<Rx>)
      requires pad.Length == 9
      modifies `input, `nDropped, pad
      ensures r.None? <==> |old(input)| >= 9 && old(input[..3]) == [0xd9, 0xd9, 0xf7]
      ensures r.None? ==> pad[..] == old(input[..9]) && input == old(input[9..]) && nDropped == old(nDropped)
      ensures r.Some? ==> r.value == if |old(input)| < 9 then Short else WrongPrefix
      ensures r.Some? && |old(input)| < 9 ==> input == [] && nDropped == old(nDropped) + |old(input)|
      ensures r.Some? && |old(input)| >= 9 ==> input == old(input[9..]) && nDropped == old(nDropped) + 9
    {
      var n := ReadFull(pad, 0, 9);
      if n != 9 {
        nDropped := nDropped + n;
        return Some(Short);
      }
      assert pad[..] == old(input[..9]);
      if pad[0] != 0xd9 || pad[1] != 0xd9 || pad[2] != 0xf7 {
        nDropped := nDropped + n;
        return Some(WrongPrefix);
      }
      assert old(input)[..3] == [0xd9, 0xd9, 0xf7];
      return None;
    }

    /** The rest of unframepkt, once the pad has announced the packet. */
    method ReadBody(m: nat, ln: nat, ghost k: nat, ghost all: seq<byte>) returns (r: Rx)
      requires Fixed() && 5 - m <= ln <= packet.Length && Ends(all, packet.Length, dec, k)
      requires |all| >= 9 && pad[..] == all[..9] && input == all[9..] && all[..3] == [0xd9, 0xd9, 0xf7]
      requires Announced(all[..9]) == Some((m, ln))
      modifies `input, `nRxbyte, `nDropped, scratch
      ensures r == Read(all, packet.Length, dec, k) && !r.WrongPrefix?
      ensures r.Short? <==> |all| < 4 + m + ln
      ensures r.Short? ==> input == [] && nRxbyte == old(nRxbyte) && nDropped == old(nDropped) + |all| - 9
      ensures !r.Short? ==>
                input == all[4 + m + ln..] && nRxbyte == old(nRxbyte) + 4 + m + ln && nDropped == old(nDropped)
      ensures r.Received? ==> r.n == 4 + m + ln
    {
      var kind := KindOf(pad[3]);
      var ok := ReadRest(m, ln);
      if !ok { return Short; }
      Joined(all, m, ln);
      ReadSplit(all, packet.Length, dec, k, m, ln);
      var p := Unpack(kind, ln, k);
      r := if p.None? then Malformed else Received(p.value, 4 + m + ln);
    }

    /** unframepkt, the message still in place. */
    method UnframePkt(ghost k: nat) returns (r: Rx)
      requires Fixed() && Ends(input, packet.Length, dec, k)
      modifies `input, `nRxbyte, `nDropped, scratch
      ensures r == Read(old(input), packet.Length, dec, k)
      ensures r.Received? ==> r.n <= |old(input)| && input == old(input[r.n..])
      ensures nRxbyte == old(nRxbyte) + FrameBytes(old(input), packet.Length)
      ensures r.Received? ==> r.n == FrameBytes(old(input), packet.Length)
      ensures r.Received? || r.Malformed? ==> nDropped == old(nDropped)
      ensures r.Short? ==> input == [] && nDropped == old(nDropped) + |old(input)| - if |old(input)| < 9 then 0 else 9
      ensures r.WrongPrefix? ==> input == old(input[9..]) && nDropped == old(nDropped) + 9
    {
      var failed := ReadPad();
      if failed.Some? { return failed.value; }
      var head := Announced(pad[..]);
      if head.None? { return Malformed; }
      var (m, ln) := head.value;
      if ln > packet.Length || 5 - m > ln { return Malformed; }
      r := ReadBody(m, ln, k, old(input));
    }

    /** putch: the packet joins the queue. */
    method Accept(w: Waiting)
      requires Valid() && w.Fits()
      requires w.buf != null ==> w.buf !in scratch && w.buf !in pool && w.buf !in Buffers(Held())
      modifies `rxch, `queued
      ensures Valid() && rxch == old(rxch) + [w] && queued == old(queued) + [w.Packet()]
    {
      ApartPush(scratch, pool, Held(), w);
      ShowsPush(Held(), queued, w);
      rxch, queued := rxch + [w], queued + [w.Packet()];
      assert Held() == old(Held()) + [w];
    }

    /** unmessage's copy: the message moves to a buffer of its own, and the packet joins the queue. */
    method HandOn(p: RxPacket)
      requires Valid()
      modifies `rxch, `queued, `pool, pool
      ensures Valid() && hand == old(hand) && queued == old(queued) + [p]
    {
      if p.msg.None? {
        Accept(Waiting(p.kind, p.oid, 0, null, 0));
      } else {
        var m := p.msg.value;
        if pool != [] { ApartPop(scratch, pool, Held()); }
        var data := GetData(|m.data|);
        var _ := Copy(data, 0, m.data);
        assert data[..|m.data|] == m.data;
        Accept(Waiting(p.kind, p.oid, m.id, data, |m.data|));
      }
    }

    /** One turn of doRx: a frame is read and its packet handed on. */
    method DoRx(ghost k: nat) returns (r: Rx)
      requires Valid() && Ends(input, packet.Length, dec, k)
      modifies this, scratch, pool
      ensures Valid() && hand == old(hand)
      ensures r == Read(old(input), packet.Length, dec, k)
      ensures queued == old(queued) + if r.Received? then [r.pkt] else []
      ensures r.Received? ==> input == old(input[r.n..]) && nRxbyte == old(nRxbyte) + r.n
      ensures r.Short? || r.WrongPrefix? ==> nRxbyte == old(nRxbyte)
    {
      r := UnframePkt(k);
      if r.Received? { HandOn(r.pkt); }
    }

    /** syncRx takes the next packet in hand.  It still says what was read, however many frames have
        been read since. */
    method Next() returns (w: Waiting)
      requires Valid() && hand == [] && rxch != []
      modifies `hand, `rxch
      ensures Valid() && hand == [w] && rxch == old(rxch[1..]) && queued == old(queued)
      ensures w.Fits() && w.Packet() == queued[0]
    {
      w := rxch[0];
      ShowsRest(Held(), queued);
      hand, rxch := [w], rxch[1..];
      assert Held() == old(Held());
    }

    /** The handler has returned: the buffer goes back to the pool. */
    method GiveBack()
      requires Valid() && hand != []
      modifies `hand, `pool, `queued
      ensures Valid() && hand == [] && rxch == old(rxch) && queued == old(queued[1..])
    {
      var w := hand[0];
      ApartGive(scratch, pool, Held());
      ShowsRest(Held(), queued);
      assert Held()[1..] == [] + rxch;
      LetGo();
      if w.buf != null { PutData(w.buf); }
    }

    method LetGo()
      requires hand != [] && queued != [] && Held()[1..] == [] + rxch
      modifies `hand, `queued
      ensures hand == [] && queued == old(queued[1..]) && Held() == old(Held()[1..])
    {
      hand, queued := [], queued[1..];
    }
  }
}
