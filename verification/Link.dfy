/**
  The exchange protocol on bytes.  The frames a node has on their way to its peer are one sequence of
  bytes; emitting a frame appends its bytes, and one frame read on the other end is one DoRx step.
*/
module Link {
  import opened Wire
  import opened Cbor
  import opened Frames
  import opened Exchange
  import P = ExchangeProof
  import U = Unframe

  // ---- finish frames carry no message

  ghost predicate Clean(n: Node) {
    forall i | i in n.out && i.Packet? && i.frame.kind.Finish? :: i.frame.msg == NO_MESSAGE
  }

  lemma ActClean(n: Node, p: Node, a: Action)
    requires NodeOk(n) && Enabled(n, p, a) && Clean(n) && Clean(p)
    ensures Clean(Act(n, p, a).0) && Clean(Act(n, p, a).1)
  {
    if a.Dispatch? {
      SyncClean(n, p, a);
    } else if a.SendFirst? || a.Send? || a.Close? {
      SendClean(n, p, a);
    } else if a.Respond? || a.RemoteSend? || a.RemoteClose? {
      SayClean(n, p, a);
    }
  }

  lemma SyncClean(n: Node, p: Node, a: Action)
    requires NodeOk(n) && Enabled(n, p, a) && Clean(n) && a.Dispatch?
    ensures Clean(Act(n, p, a).0) && Act(n, p, a).1 == p
  {
    P.SyncFinishes(n, a.hcb);
    P.FinishOnly(n.out, SyncRx(n, a.hcb).out);
  }

  lemma SendClean(n: Node, p: Node, a: Action)
    requires NodeOk(n) && Enabled(n, p, a) && Clean(n) && (a.SendFirst? || a.Send? || a.Close?)
    ensures Clean(Act(n, p, a).0) && Act(n, p, a).1 == p
  {}

  lemma SayClean(n: Node, p: Node, a: Action)
    requires NodeOk(n) && Enabled(n, p, a) && Clean(n) && (a.Respond? || a.RemoteSend? || a.RemoteClose?)
    ensures Clean(Act(n, p, a).0) && Act(n, p, a).1 == p
  {}

  lemma {:induction false} RunClean(s: State, ms: seq<Move>, t: State)
    requires Clean(s.a) && Clean(s.b) && Run(s, ms, t)
    ensures Clean(t.a) && Clean(t.b)
    decreases |ms|
  {
    if ms != [] {
      if ms[0].left { ActClean(s.a, s.b, ms[0].act); } else { ActClean(s.b, s.a, ms[0].act); }
      RunClean(Step(s, ms[0]), ms[1..], t);
    }
  }

  lemma ReachableClean(t: State)
    requires Reachable(t)
    ensures Clean(t.a) && Clean(t.b)
  {
    var s, ms :| Init(s) && Run(s, ms, t);
    RunClean(s, ms, t);
  }

  // ---- bytes

  /** The frame as the codec sends it; `cs` are the tag codecs in the order they are applied. */
  function Dress(f: Frame, cs: seq<Codec>): U.Sent
    requires f.oid < TWO64 && f.msg.id < TWO64
  {
    U.Sent(f.kind, f.oid, f.msg.id, f.msg.data, cs)
  }

  ghost predicate Dressable(i: Item, cs: seq<Codec>, buffersize: nat, dec: U.Decoders) {
    && i.Packet? && i.frame.oid < TWO64 && i.frame.msg.id < TWO64
    && U.Sendable(Dress(i.frame, cs), buffersize, dec)
  }

  /** Every frame in `q` fits the two ends; each may have its own order of codecs. */
  ghost predicate Loaded(q: seq<Item>, orders: seq<seq<Codec>>, buffersize: nat, dec: U.Decoders) {
    |q| == |orders| && forall i | 0 <= i < |q| :: Dressable(q[i], orders[i], buffersize, dec)
  }

  function WireBytes(q: seq<Item>, orders: seq<seq<Codec>>, buffersize: nat, dec: U.Decoders): seq<byte>
    requires Loaded(q, orders, buffersize, dec)
    decreases q
  {
    if q == [] then []
    else U.Bytes(Dress(q[0].frame, orders[0])) + WireBytes(q[1..], orders[1..], buffersize, dec)
  }

  /** The received packet is this frame. */
  predicate Carries(p: U.RxPacket, f: Frame) {
    p.kind == Some(f.kind) && p.oid == f.oid && f.msg == if p.msg.None? then NO_MESSAGE else p.msg.value
  }

  lemma DressCarries(f: Frame, cs: seq<Codec>)
    requires f.oid < TWO64 && f.msg.id < TWO64 && (f.kind.Finish? ==> f.msg == NO_MESSAGE)
    ensures Carries(U.Meaning(Dress(f, cs)), f)
  {}

  lemma LoadedSnoc(q: seq<Item>, orders: seq<seq<Codec>>, i: Item, cs: seq<Codec>, buffersize: nat, dec: U.Decoders)
    requires Loaded(q, orders, buffersize, dec) && Dressable(i, cs, buffersize, dec)
    ensures Loaded(q + [i], orders + [cs], buffersize, dec)
  {}

  lemma WireNext(q: seq<Item>, orders: seq<seq<Codec>>, buffersize: nat, dec: U.Decoders)
    requires Loaded(q, orders, buffersize, dec) && q != []
    ensures Dressable(q[0], orders[0], buffersize, dec) && Loaded(q[1..], orders[1..], buffersize, dec)
    ensures WireBytes(q, orders, buffersize, dec)
         == U.Bytes(Dress(q[0].frame, orders[0])) + WireBytes(q[1..], orders[1..], buffersize, dec)
  {
    assert Dressable(q[0], orders[0], buffersize, dec);
  }

  /** Frame by frame: kind, opaque, and the message in the layers of its own codecs, innermost first; a
      finish has no message and no layers. */
  lemma OnTheWire(q: seq<Item>, orders: seq<seq<Codec>>, buffersize: nat, dec: U.Decoders)
    requires Loaded(q, orders, buffersize, dec) && q != []
    ensures q[0].Packet? && q[0].frame.oid < TWO64 && q[0].frame.msg.id < TWO64
    ensures |q[0].frame.msg.data| < TWO64 && Loaded(q[1..], orders[1..], buffersize, dec)
    ensures var f := q[0].frame; var body := MsgBody(f.msg.id, f.msg.data);
            && Encodable(body, orders[0])
            && var payload := if f.kind.Finish? then [] else Roll(body, orders[0]);
               && |payload| < TWO64 && |Tagged(f.oid, payload)| < TWO64
               && WireBytes(q, orders, buffersize, dec)
               == FrameOf(f.kind, f.oid, payload) + WireBytes(q[1..], orders[1..], buffersize, dec)
  {
    WireNext(q, orders, buffersize, dec);
    DressedBytes(q[0].frame, orders[0], buffersize, dec);
  }

  lemma DressedBytes(f: Frame, cs: seq<Codec>, buffersize: nat, dec: U.Decoders)
    requires Dressable(Packet(f), cs, buffersize, dec)
    ensures |f.msg.data| < TWO64
    ensures var body := MsgBody(f.msg.id, f.msg.data);
            && Encodable(body, cs)
            && var payload := if f.kind.Finish? then [] else Roll(body, cs);
               && |payload| < TWO64 && |Tagged(f.oid, payload)| < TWO64
               && U.Framed(Dress(f, cs)) && U.Bytes(Dress(f, cs)) == FrameOf(f.kind, f.oid, payload)
  {}

  /** The first frame's bytes come first, also when another frame has joined behind. */
  lemma AppendsNext(q: seq<Item>, orders: seq<seq<Codec>>, f: Frame, cs: seq<Codec>, buffersize: nat, dec: U.Decoders)
    requires q != [] && Loaded(q, orders, buffersize, dec) && Dressable(Packet(f), cs, buffersize, dec)
    requires Loaded(q[1..], orders[1..], buffersize, dec)
    requires Loaded(q[1..] + [Packet(f)], orders[1..] + [cs], buffersize, dec)
    requires WireBytes(q[1..] + [Packet(f)], orders[1..] + [cs], buffersize, dec)
          == WireBytes(q[1..], orders[1..], buffersize, dec) + U.Bytes(Dress(f, cs))
    ensures Loaded(q + [Packet(f)], orders + [cs], buffersize, dec)
    ensures WireBytes(q + [Packet(f)], orders + [cs], buffersize, dec)
         == WireBytes(q, orders, buffersize, dec) + U.Bytes(Dress(f, cs))
  {
    var q', orders' := q + [Packet(f)], orders + [cs];
    LoadedSnoc(q, orders, Packet(f), cs, buffersize, dec);
    WireNext(q', orders', buffersize, dec);
    WireNext(q, orders, buffersize, dec);
    SnocRest<Item>(q, Packet(f));
    SnocRest<seq<Codec>>(orders, cs);
    Regroup(U.Bytes(Dress(q[0].frame, orders[0])), WireBytes(q[1..], orders[1..], buffersize, dec),
            U.Bytes(Dress(f, cs)));
  }

  lemma AppendsFirst(f: Frame, cs: seq<Codec>, buffersize: nat, dec: U.Decoders)
    requires Dressable(Packet(f), cs, buffersize, dec)
    ensures Loaded([Packet(f)], [cs], buffersize, dec)
    ensures WireBytes([Packet(f)], [cs], buffersize, dec) == U.Bytes(Dress(f, cs))
  {
    WireNext([Packet(f)], [cs], buffersize, dec);
    assert [Packet(f)][1..] == [] && [cs][1..] == [];
  }

  /** Emitting a frame appends its bytes to what is on the way. */
  lemma {:induction false} EmitAppends(q: seq<Item>, orders: seq<seq<Codec>>, f: Frame, cs: seq<Codec>,
                                       buffersize: nat, dec: U.Decoders)
    requires Loaded(q, orders, buffersize, dec) && Dressable(Packet(f), cs, buffersize, dec)
    ensures Loaded(q + [Packet(f)], orders + [cs], buffersize, dec)
    ensures WireBytes(q + [Packet(f)], orders + [cs], buffersize, dec)
         == WireBytes(q, orders, buffersize, dec) + U.Bytes(Dress(f, cs))
    decreases q
  {
    if q == [] {
      assert q + [Packet(f)] == [Packet(f)] && orders + [cs] == [cs];
      AppendsFirst(f, cs, buffersize, dec);
    } else {
      WireNext(q, orders, buffersize, dec);
      EmitAppends(q[1..], orders[1..], f, cs, buffersize, dec);
      AppendsNext(q, orders, f, cs, buffersize, dec);
    }
  }

  lemma FirstBytes(q: seq<Item>, orders: seq<seq<Codec>>, buffersize: nat, dec: U.Decoders, rest: seq<byte>)
    requires Loaded(q, orders, buffersize, dec) && q != []
    ensures Dressable(q[0], orders[0], buffersize, dec) && Loaded(q[1..], orders[1..], buffersize, dec)
    ensures WireBytes(q, orders, buffersize, dec) + rest
         == U.Bytes(Dress(q[0].frame, orders[0])) + (WireBytes(q[1..], orders[1..], buffersize, dec) + rest)
  {
    WireNext(q, orders, buffersize, dec);
    Regroup(U.Bytes(Dress(q[0].frame, orders[0])), WireBytes(q[1..], orders[1..], buffersize, dec), rest);
  }

  lemma AfterFirst(a: seq<byte>, b: seq<byte>)
    ensures |a| <= |a + b| && (a + b)[|a|..] == b
  {}

  /** A read of the connection gives the first frame on its way, takes exactly its bytes, and leaves
      the bytes of the frames behind it. */
  lemma FirstRead(q: seq<Item>, orders: seq<seq<Codec>>, buffersize: nat, dec: U.Decoders, rest: seq<byte>)
      returns (pkt: U.RxPacket, len: nat)
    requires Loaded(q, orders, buffersize, dec) && q != []
    requires q[0].Packet? && q[0].frame.kind.Finish? ==> q[0].frame.msg == NO_MESSAGE
    ensures Loaded(q[1..], orders[1..], buffersize, dec)
    ensures var input := WireBytes(q, orders, buffersize, dec) + rest;
            && U.ReadsAs(input, buffersize, dec, |orders[0]|, pkt, len)
            && len <= |input| && input[len..] == WireBytes(q[1..], orders[1..], buffersize, dec) + rest
    ensures q[0].Packet? && Carries(pkt, q[0].frame)
  {
    FirstBytes(q, orders, buffersize, dec, rest);
    var s, tail := Dress(q[0].frame, orders[0]), WireBytes(q[1..], orders[1..], buffersize, dec) + rest;
    pkt, len := U.Meaning(s), |U.Bytes(s)|;
    U.FrameReads(s, buffersize, dec, tail);
    AfterFirst(U.Bytes(s), tail);
    DressCarries(q[0].frame, orders[0]);
  }

  lemma DoRxStep(n: Node, p: Node)
    requires NodeOk(n) && p.out != []
    ensures Act(n, p, DoRx) == (n.(rxch := n.rxch + [p.out[0]]), p.(out := p.out[1..]))
  {}

  lemma NextCarries(n: Node, p: Node)
    requires Reachable(State(n, p)) || Reachable(State(p, n))
    requires p.out != []
    ensures p.out[0].Packet? && p.out[0].frame.kind.Finish? ==> p.out[0].frame.msg == NO_MESSAGE
  {
    if Reachable(State(n, p)) { ReachableClean(State(n, p)); } else { ReachableClean(State(p, n)); }
    assert p.out[0] in p.out;
  }

  lemma ReadOnce(n: Node, p: Node, orders: seq<seq<Codec>>, buffersize: nat, dec: U.Decoders, rest: seq<byte>)
      returns (n': Node, p': Node, pkt: U.RxPacket, len: nat)
    requires NodeOk(n) && p.out != [] && Loaded(p.out, orders, buffersize, dec)
    requires p.out[0].Packet? && p.out[0].frame.kind.Finish? ==> p.out[0].frame.msg == NO_MESSAGE
    ensures (n', p') == Act(n, p, DoRx) && n'.rxch != [] && Loaded(p'.out, orders[1..], buffersize, dec)
    ensures var input := WireBytes(p.out, orders, buffersize, dec) + rest;
            && U.ReadsAs(input, buffersize, dec, |orders[0]|, pkt, len)
            && len <= |input| && input[len..] == WireBytes(p'.out, orders[1..], buffersize, dec) + rest
    ensures var i := n'.rxch[|n'.rxch| - 1]; i.Packet? && Carries(pkt, i.frame)
  {
    DoRxStep(n, p);
    pkt, len := FirstRead(p.out, orders, buffersize, dec, rest);
    n', p' := n.(rxch := n.rxch + [p.out[0]]), p.(out := p.out[1..]);
  }

  /** So, in every state a run can reach, one read of the connection is one DoRx step: it gives the
      packet that step puts in rxch and leaves the bytes of what that step leaves on the way.  What is
      assumed of the frames is `Loaded`: each fits both ends, carries a message id that is not zero
      unless it is a finish, and has codecs that the receiver undoes.  Module Joint derives the last
      from the negotiation of tags. */
  lemma ReadIsDoRx(n: Node, p: Node, orders: seq<seq<Codec>>, buffersize: nat, dec: U.Decoders, rest: seq<byte>)
      returns (n': Node, p': Node, pkt: U.RxPacket, len: nat)
    requires Reachable(State(n, p)) || Reachable(State(p, n))
    requires NodeOk(n) && p.out != [] && Loaded(p.out, orders, buffersize, dec)
    ensures (n', p') == Act(n, p, DoRx) && n'.rxch != [] && Loaded(p'.out, orders[1..], buffersize, dec)
    ensures var input := WireBytes(p.out, orders, buffersize, dec) + rest;
            && U.ReadsAs(input, buffersize, dec, |orders[0]|, pkt, len)
            && len <= |input| && input[len..] == WireBytes(p'.out, orders[1..], buffersize, dec) + rest
    ensures var i := n'.rxch[|n'.rxch| - 1]; i.Packet? && Carries(pkt, i.frame)
  {
    NextCarries(n, p);
    n', p', pkt, len := ReadOnce(n, p, orders, buffersize, dec, rest);
  }
}
