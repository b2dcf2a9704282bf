/**
  Which runs of the protocol put well-formed CBOR on the wire.  An end that closes only streams of its
  own has sent a sequence of complete items whenever none of its streams is open, and at no other time.
*/
module Compliance {
  import opened Wire
  import opened Exchange
  import opened ExchangeView
  import opened ExchangeProof
  import opened ExchangeLog
  import opened ExchangeTheorems
  import F = Frames
  import L = Link
  import N = Nesting
  import U = Unframe

  // ---- streams start at their owner

  ghost predicate OwnStarts(n: Node) { Starts(n.log.sent, n.range) == true }

  ghost predicate Starts(q: seq<Item>, ids: set<Oid>) {
    forall i | i in q && i.Packet? && i.frame.kind.Start? :: i.frame.oid in ids
  }

  lemma SyncStarts(n: Node, p: Node, a: Action)
    requires NodeOk(n) && Enabled(n, p, a) && OwnStarts(n) && a.Dispatch?
    ensures OwnStarts(Act(n, p, a).0) && Act(n, p, a).1 == p
  {
    SyncFinishes(n, a.hcb);
    StartsStay(n.log.sent, SyncRx(n, a.hcb).log.sent, n.range);
  }

  lemma StartsStay(q: seq<Item>, r: seq<Item>, ids: set<Oid>)
    requires Starts(q, ids) && MayFinish(q, r)
    ensures Starts(r, ids)
  {
    FinishOnly(q, r);
  }

  lemma SendStarts(n: Node, p: Node, a: Action)
    requires NodeOk(n) && Enabled(n, p, a) && OwnStarts(n) && (a.SendFirst? || a.Send? || a.Close?)
    ensures OwnStarts(Act(n, p, a).0) && Act(n, p, a).1 == p
  {}

  lemma SayStarts(n: Node, p: Node, a: Action)
    requires NodeOk(n) && Enabled(n, p, a) && OwnStarts(n) && (a.Respond? || a.RemoteSend? || a.RemoteClose?)
    ensures OwnStarts(Act(n, p, a).0) && Act(n, p, a).1 == p
  {}

  lemma ActStarts(n: Node, p: Node, a: Action)
    requires NodeOk(n) && Enabled(n, p, a) && OwnStarts(n) && OwnStarts(p)
    ensures OwnStarts(Act(n, p, a).0) && OwnStarts(Act(n, p, a).1)
  {
    if a.Dispatch? { SyncStarts(n, p, a); }
    else if a.SendFirst? || a.Send? || a.Close? { SendStarts(n, p, a); }
    else if a.Respond? || a.RemoteSend? || a.RemoteClose? { SayStarts(n, p, a); }
  }

  lemma {:induction false} RunStarts(s: State, ms: seq<Move>, t: State)
    requires Run(s, ms, t) && OwnStarts(s.a) && OwnStarts(s.b)
    ensures OwnStarts(t.a) && OwnStarts(t.b)
    decreases |ms|
  {
    if ms != [] {
      if ms[0].left { ActStarts(s.a, s.b, ms[0].act); } else { ActStarts(s.b, s.a, ms[0].act); }
      RunStarts(Step(s, ms[0]), ms[1..], t);
    }
  }

  lemma ReachableStarts(n: Node, p: Node)
    requires ReachablePair(n, p)
    ensures OwnStarts(n)
  {
    if Reachable(State(n, p)) {
      var s, ms :| Init(s) && Run(s, ms, State(n, p));
      RunStarts(s, ms, State(n, p));
    } else {
      var s, ms :| Init(s) && Run(s, ms, State(p, n));
      RunStarts(s, ms, State(p, n));
    }
  }

  // ---- how many streams are open

  function KindsOf(q: seq<Item>): (ks: seq<Kind>)
    requires AllPackets(q)
    ensures |ks| == |q|
  {
    if q == [] then [] else [q[0].frame.kind] + KindsOf(q[1..])
  }

  /** Where the frames sent so far leave each exchange of an owner. */
  function EarAt(q: seq<Item>, o: Oid): Ear { RunEar(Silent(0), On(q, o)) }

  ghost function OpenIn(q: seq<Item>, ids: set<Oid>): set<Oid> { set o | o in ids && EarAt(q, o).Listening? }

  /** Only streams of `ids` are started or closed, each in due order. */
  ghost predicate InOrder(q: seq<Item>, ids: set<Oid>) { OrderParts(q, ids) == true }

  ghost predicate OrderParts(q: seq<Item>, ids: set<Oid>) {
    && AllPackets(q) && (forall o | o in ids :: EarAt(q, o) != Wrong)
    && forall i | i in q && i.Packet? && (i.frame.kind.Start? || i.frame.kind.Finish?) :: i.frame.oid in ids
  }

  lemma {:induction false} EarConcat(e: Ear, q: seq<Item>, r: seq<Item>)
    ensures RunEar(e, q + r) == RunEar(RunEar(e, q), r)
    decreases q
  {
    if q == [] {
      assert q + r == r;
    } else {
      assert (q + r)[1..] == q[1..] + r;
      EarConcat(StepEar(e, q[0]), q[1..], r);
    }
  }

  lemma OrderedBefore(q: seq<Item>, r: seq<Item>, ids: set<Oid>)
    requires InOrder(q + r, ids)
    ensures InOrder(q, ids)
  {
    forall i | i in q ensures i in q + r {}
    forall o | o in ids ensures EarAt(q, o) != Wrong {
      OnConcat(q, r, o);
      EarConcat(Silent(0), On(q, o), On(r, o));
      WrongStays(On(r, o));
    }
  }

  lemma EarNext(q: seq<Item>, i: Item, o: Oid)
    ensures EarAt(q + [i], o) == if i.Id() == o then StepEar(EarAt(q, o), i) else EarAt(q, o)
  {
    OnSnoc(q, i, o);
    EarSnoc(Silent(0), On(q, o), i);
  }

  /** A start opens one more stream, a finish closes an open one, and no other frame does either. */
  lemma OpenNext(q: seq<Item>, i: Item, ids: set<Oid>)
    requires InOrder(q + [i], ids) && InOrder(q, ids) && i.Packet?
    ensures var was, now := OpenIn(q, ids), OpenIn(q + [i], ids);
            match i.frame.kind
            case Start => i.frame.oid !in was && now == was + {i.frame.oid}
            case Finish => i.frame.oid in was && now == was - {i.frame.oid}
            case _ => now == was
  {
    assert i in q + [i];
    forall o ensures EarAt(q + [i], o) == if i.Id() == o then StepEar(EarAt(q, o), i) else EarAt(q, o) {
      EarNext(q, i, o);
    }
    if i.frame.oid in ids { assert EarAt(q + [i], i.frame.oid) != Wrong; }
  }

  lemma OpenSize(k: Kind, was: set<Oid>, now: set<Oid>, x: Oid)
    requires match k
             case Start => x !in was && now == was + {x}
             case Finish => x in was && now == was - {x}
             case _ => now == was
    ensures match k
            case Start => |now| == |was| + 1
            case Finish => |was| > 0 && |now| == |was| - 1
            case _ => |now| == |was|
  {}

  lemma KindNext(q: seq<Item>)
    requires q != [] && AllPackets(q)
    ensures q[0].Packet? && AllPackets(q[1..]) && KindsOf(q) == [q[0].frame.kind] + KindsOf(q[1..])
  {}

  /** With `done` sent, the rest is balanced, from as many as that leaves open, exactly when nothing is
      open in the end. */
  lemma {:induction false} BalancedFrom(done: seq<Item>, rest: seq<Item>, ids: set<Oid>)
    requires InOrder(done + rest, ids) && AllPackets(rest)
    ensures N.Balanced(KindsOf(rest), |OpenIn(done, ids)|) <==> OpenIn(done + rest, ids) == {}
    decreases |rest|
  {
    if rest == [] {
      assert done + rest == done;
    } else {
      var i, now := rest[0], done + [rest[0]];
      assert now + rest[1..] == done + rest;
      KindNext(rest);
      OrderedBefore(now, rest[1..], ids);
      OrderedBefore(done, [i], ids);
      OpenNext(done, i, ids);
      OpenSize(i.frame.kind, OpenIn(done, ids), OpenIn(now, ids), i.frame.oid);
      N.BalancedCons(i.frame.kind, KindsOf(rest[1..]), |OpenIn(done, ids)|);
      BalancedFrom(now, rest[1..], ids);
    }
  }

  // ---- the bytes

  /** The frames of a queue, each with its payload. */
  function AsSent(q: seq<Item>, orders: seq<seq<F.Codec>>, buffersize: nat, dec: U.Decoders): (fs: seq<N.Sent>)
    requires L.Loaded(q, orders, buffersize, dec)
    ensures N.AllPackable(fs)
    decreases |q|
  {
    if q == [] then []
    else
      assert L.Dressable(q[0], orders[0], buffersize, dec);
      var s := L.Dress(q[0].frame, orders[0]);
      [N.Sent(s.kind, s.oid, U.Payload(s))] + AsSent(q[1..], orders[1..], buffersize, dec)
  }

  lemma {:induction false} SentBytes(q: seq<Item>, orders: seq<seq<F.Codec>>, buffersize: nat, dec: U.Decoders)
    requires L.Loaded(q, orders, buffersize, dec) && AllPackets(q)
    ensures L.WireBytes(q, orders, buffersize, dec) == N.Bytes(AsSent(q, orders, buffersize, dec))
    ensures N.Kinds(AsSent(q, orders, buffersize, dec)) == KindsOf(q)
    decreases |q|
  {
    if q != [] {
      L.WireNext(q, orders, buffersize, dec);
      SentBytes(q[1..], orders[1..], buffersize, dec);
      var fs := AsSent(q, orders, buffersize, dec);
      assert fs[1..] == AsSent(q[1..], orders[1..], buffersize, dec);
    }
  }

  // ---- main result

  lemma EarFits(v: View, o: Oid)
    requires Good(v, o)
    ensures var e := RunEar(Silent(0), v.saidFwd); e != Wrong && (e.Listening? <==> IsIn(v.caller, {StrOpen}))
  {}

  lemma OwnEar(n: Node, p: Node, o: Oid)
    requires SysInv(n, p) && o in n.range
    ensures EarAt(n.log.sent, o) != Wrong && (EarAt(n.log.sent, o).Listening? <==> CallerIs(n, o, {StrOpen}))
  {
    EarFits(ViewOf(n, p, o), o);
  }

  lemma SentPackets(n: Node, p: Node)
    requires SysInv(n, p)
    ensures AllPackets(n.log.sent) && n.callers.Keys <= n.range
  {}

  /** An end that closes no stream of the other's sends its own streams in due order. */
  lemma SentInOrder(n: Node, p: Node)
    requires SysInv(n, p) && OwnStarts(n) && ClosesOwn(n)
    ensures InOrder(n.log.sent, n.range)
    ensures OpenIn(n.log.sent, n.range) == set o | o in n.callers && n.callers[o].StrOpen?
  {
    SentPackets(n, p);
    forall o | o in n.range
      ensures EarAt(n.log.sent, o) != Wrong && (EarAt(n.log.sent, o).Listening? <==> CallerIs(n, o, {StrOpen}))
    {
      OwnEar(n, p, o);
    }
    OrderFrom(n);
    OpenFrom(n);
  }

  lemma OrderFrom(n: Node)
    requires AllPackets(n.log.sent) && OwnStarts(n) && ClosesOwn(n)
    requires forall o | o in n.range :: EarAt(n.log.sent, o) != Wrong
    ensures InOrder(n.log.sent, n.range)
  {}

  lemma OpenFrom(n: Node)
    requires n.callers.Keys <= n.range
    requires forall o | o in n.range :: EarAt(n.log.sent, o).Listening? <==> CallerIs(n, o, {StrOpen})
    ensures OpenIn(n.log.sent, n.range) == set o | o in n.callers && n.callers[o].StrOpen?
  {}

  /** Every stream that this end has closed was its own. */
  ghost predicate ClosesOwn(n: Node) {
    forall i | i in n.log.sent && i.Packet? && i.frame.kind.Finish? :: i.frame.oid in n.range
  }

  /** The bytes of frames in due order are items exactly when no stream is open behind them. */
  lemma ItemsIffClosed(q: seq<Item>, ids: set<Oid>, orders: seq<seq<F.Codec>>, buffersize: nat, dec: U.Decoders)
    requires InOrder(q, ids) && AllPackets(q) && L.Loaded(q, orders, buffersize, dec)
    ensures N.Items(L.WireBytes(q, orders, buffersize, dec)) <==> OpenIn(q, ids) == {}
  {
    assert [] + q == q && OpenIn([], ids) == {};
    BalancedFrom([], q, ids);
    SentBytes(q, orders, buffersize, dec);
    N.ItemsIffBalanced(AsSent(q, orders, buffersize, dec));
  }

  /** In every run: as long as an end closes no stream that the other one started, the bytes it has sent
      are a sequence of well-formed items exactly when it has no stream of its own open. */
  lemma SentIsItemsIff(n: Node, p: Node, orders: seq<seq<F.Codec>>, buffersize: nat, dec: U.Decoders)
    requires ReachablePair(n, p) && ClosesOwn(n) && L.Loaded(n.log.sent, orders, buffersize, dec)
    ensures N.Items(L.WireBytes(n.log.sent, orders, buffersize, dec))
       <==> forall o | o in n.callers :: !n.callers[o].StrOpen?
  {
    ReachableInv(n, p);
    ReachableStarts(n, p);
    SentPackets(n, p);
    SentInOrder(n, p);
    ItemsIffClosed(n.log.sent, n.range, orders, buffersize, dec);
    NoneOpen(n);
  }

  lemma NoneOpen(n: Node)
    ensures (set o | o in n.callers && n.callers[o].StrOpen?) == {}
       <==> forall o | o in n.callers :: !n.callers[o].StrOpen?
  {
    var open := set o | o in n.callers && n.callers[o].StrOpen?;
    if open == {} {
      forall o | o in n.callers ensures !n.callers[o].StrOpen? { assert o !in open; }
    }
  }
}
