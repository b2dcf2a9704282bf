/**
  What the discipline of answering and closing is for: its exact conditions.  One more frame of either
  end, and a close callback that does not close, keep the invariant of the pair in the cases given here
  and in no others.  Module Mishaps says what happens then.
*/
module Indiscipline {
  import opened Wire
  import opened Exchange
  import opened ExchangeView
  import opened ExchangeProof
  import opened ExchangeDispatch
  import opened ExchangeLog

  // ---- the initiator

  /** Close, called by whoever got the stream on `o` as its generation `g`. */
  function CloseBy(n: Node, o: Oid, g: nat): Node
    requires o in n.gen
  {
    var n1 := if CallerIs(n, o, {StrOpen}) && g == n.gen[o] then n.(callers := n.callers[o := StrClosed]) else n;
    Emit(n1, Frame(Finish, o, NO_MESSAGE, g))
  }

  /** One more frame of a stream from an owner who may not send it: the peer was never to hear it. */
  lemma Unheard(v: View, v': View, o: Oid, f: Frame)
    requires Good(v, o) && (f.kind.Finish? || f.kind.StreamMsg?) && !(IsIn(v.caller, {StrOpen}) && f.gen == v.gen)
    requires v'.saidFwd == v.saidFwd + [Packet(f)]
    ensures !Good(v', o)
  {
    EarSnoc(Silent(0), v.saidFwd, Packet(f));
  }

  lemma SaidAfter(n: Node, p: Node, f: Frame, n': Node)
    requires n'.log.sent == n.log.sent + [Packet(f)]
    ensures ViewOf(n', p, f.oid).saidFwd == ViewOf(n, p, f.oid).saidFwd + [Packet(f)]
  {
    OnSnoc(n.log.sent, Packet(f), f.oid);
  }

  lemma SysGood(n: Node, p: Node, o: Oid)
    requires SysInv(n, p) && o in n.range
    ensures Good(ViewOf(n, p, o), o)
  {}

  /** Sent by an owner who is not the holder of the open stream, it breaks the invariant. */
  lemma StrayBreaks(n: Node, p: Node, f: Frame, n': Node)
    requires SysInv(n, p) && f.oid in n.range && (f.kind.Finish? || f.kind.StreamMsg?)
    requires !(CallerIs(n, f.oid, {StrOpen}) && f.oid in n.gen && f.gen == n.gen[f.oid])
    requires n'.range == n.range && n'.log.sent == n.log.sent + [Packet(f)]
    ensures !SysInv(n', p)
  {
    SysGood(n, p, f.oid);
    SaidAfter(n, p, f, n');
    OwnGen(n, f.oid);
    Unheard(ViewOf(n, p, f.oid), ViewOf(n', p, f.oid), f.oid, f);
    if SysInv(n', p) { SysGood(n', p, f.oid); }
  }

  lemma OwnGen(n: Node, o: Oid)
    requires NodeOk(n) && o in n.range
    ensures o in n.gen && o in n.cb
  {}

  lemma SysOk(n: Node, p: Node)
    requires SysInv(n, p)
    ensures NodeOk(n) && NodeOk(p)
  {}

  /** One more close keeps the invariant exactly when it comes from the holder of the exchange in
      progress, and is its first: neither from a former holder, nor a second time, nor on an opaque
      that carries no stream. */
  lemma CloseKeepsIff(n: Node, p: Node, o: Oid, g: nat)
    requires SysInv(n, p) && o in n.range
    ensures o in n.gen
    ensures SysInv(CloseBy(n, o, g), p) <==> CallerIs(n, o, {StrOpen}) && g == n.gen[o]
  {
    SysOk(n, p);
    OwnGen(n, o);
    if CallerIs(n, o, {StrOpen}) && g == n.gen[o] {
      SysClose(n, p, o);
    } else {
      StrayBreaks(n, p, Frame(Finish, o, NO_MESSAGE, g), CloseBy(n, o, g));
    }
  }

  /** One more message on a stream, from its initiator, keeps it in the same case: not after the close. */
  lemma SendKeepsIff(n: Node, p: Node, o: Oid, g: nat, msg: BinMessage)
    requires SysInv(n, p) && o in n.range
    ensures o in n.gen
    ensures SysInv(Emit(n, Frame(StreamMsg, o, msg, g)), p) <==> CallerIs(n, o, {StrOpen}) && g == n.gen[o]
  {
    SysOk(n, p);
    OwnGen(n, o);
    if CallerIs(n, o, {StrOpen}) && g == n.gen[o] {
      SysSend(n, p, o, msg);
    } else {
      StrayBreaks(n, p, Frame(StreamMsg, o, msg, g), Emit(n, Frame(StreamMsg, o, msg, g)));
    }
  }

  // ---- the remote end

  /** The handle that a frame from the remote end of a stream or a request is sent with. */
  function Serving(f: Frame): Handle { Handle(f.oid, f.gen, if f.kind.Request? then Request else Start) }

  /** The start frame of the exchange is among these. */
  ghost predicate StartComes(q: seq<Item>, o: Oid, g: nat) {
    exists i | i in q :: i.Packet? && i.frame.kind.Start? && i.frame.oid == o && i.frame.gen == g
  }

  /** What the remote end of `f.oid` may send: the one answer to a request it holds, the close of a
      stream it holds, and a message on a stream it holds or is about to get. */
  ghost predicate MaySay(n: Node, p: Node, f: Frame) {
    match f.kind
    case Request => Serving(f) in n.handles
    case Finish => Serving(f) in n.handles
    case StreamMsg => Serving(f) in n.handles || StartComes(n.rxch + p.out, f.oid, f.gen)
    case _ => false
  }

  ghost predicate SayOk(v: View, o: Oid, f: Frame) {
    match f.kind
    case Request => Serving(f) in v.owed
    case Finish => Serving(f) in v.owed
    case StreamMsg => Serving(f) in v.owed || StartComes(v.fwd, o, f.gen)
    case _ => false
  }

  lemma {:induction false} OpenersIn(q: seq<Item>)
    ensures forall i :: i in Openers(q) <==> i in q && i.Packet? && (i.frame.kind.Request? || i.frame.kind.Start?)
  {
    if q != [] {
      OpenersIn(q[1..]);
      assert q == [q[0]] + q[1..];
    }
  }

  /** Everything in flight on `o` is on `o`. */
  lemma {:induction false} OnIn(q: seq<Item>, o: Oid)
    ensures forall i :: i in On(q, o) <==> i in q && i.Id() == o
  {
    if q != [] {
      OnIn(q[1..], o);
      assert q == [q[0]] + q[1..];
    }
  }

  /** A message on a stream whose start is still on its way is awaited. */
  lemma StartAwaited(v: View, o: Oid, g: nat)
    requires Good(v, o) && StartComes(v.fwd, o, g)
    ensures RunWait(WaitOf(v.caller, v.gen), Tail(v)) == AwaitStream(g)
  {
    OpenersIn(v.fwd);
    var i :| i in v.fwd && i.Packet? && i.frame.kind.Start? && i.frame.oid == o && i.frame.gen == g;
    assert i in Openers(v.fwd);
  }

  lemma KeepEarly(v: View, o: Oid, f: Frame)
    requires Good(v, o) && f.kind.StreamMsg? && StartComes(v.fwd, o, f.gen)
    ensures Good(VReply(v, f), o)
  {
    var i, w, t := Packet(f), WaitOf(v.caller, v.gen), RunTalk(Said(0), v.saidBwd);
    StartAwaited(v, o, f.gen);
    WaitSnoc(w, Tail(v), i);
    TalkSnoc(Said(0), v.saidBwd, i);
    GoodAfterSay(v, VReply(v, f), o, i, AwaitStream(f.gen), Talking(f.gen));
  }

  /** Whatever the remote says and keeps the invariant was awaited, and of the kind awaited. */
  lemma SaidAwaited(v: View, o: Oid, f: Frame)
    requires Good(v, o) && Good(VReply(VPaid(v, Serving(f), f), f), o)
    ensures var w := RunWait(WaitOf(v.caller, v.gen), Tail(v));
            && (f.kind.Request? || f.kind.StreamMsg? || f.kind.Finish?)
            && w == (if f.kind.Request? then AwaitResp(f.gen) else AwaitStream(f.gen))
            && (!f.kind.StreamMsg? ==> Openers(v.fwd) == [])
  {
    var v' := VReply(VPaid(v, Serving(f), f), f);
    TailSnoc(v, Packet(f), v');
    WaitSnoc(WaitOf(v.caller, v.gen), Tail(v), Packet(f));
  }

  lemma SayKeepsIff(v: View, o: Oid, f: Frame)
    requires Good(v, o) && f.oid == o && forall i | i in v.fwd && i.Packet? :: i.frame.oid == o
    ensures Good(VReply(VPaid(v, Serving(f), f), f), o) <==> SayOk(v, o, f)
  {
    if SayOk(v, o, f) {
      if Serving(f) in v.owed { KeepSay(v, o, Serving(f), f); } else { KeepEarly(v, o, f); }
    }
    if Good(VReply(VPaid(v, Serving(f), f), f), o) {
      SaidAwaited(v, o, f);
      OwedOrComing(v, o, f);
    }
  }

  /** What is awaited was asked for: the remote holds the handle, or its opener is on the way. */
  lemma OwedOrComing(v: View, o: Oid, f: Frame)
    requires Good(v, o) && forall i | i in v.fwd && i.Packet? :: i.frame.oid == o
    requires f.oid == o && (f.kind.Request? || f.kind.StreamMsg? || f.kind.Finish?)
    requires RunWait(WaitOf(v.caller, v.gen), Tail(v))
          == if f.kind.Request? then AwaitResp(f.gen) else AwaitStream(f.gen)
    requires !f.kind.StreamMsg? ==> Openers(v.fwd) == []
    ensures SayOk(v, o, f)
  {
    OpenersIn(v.fwd);
    if Openers(v.fwd) != [] {
      var i := Openers(v.fwd)[0];
      assert i in v.fwd && i.Packet? && i.frame.kind.Start? && i.frame.gen == f.gen;
    }
  }

  lemma SaidViews(n: Node, p: Node, f: Frame)
    requires NodeOk(n) && NodeOk(p) && n.range !! p.range
    ensures var n', v := Emit(AfterSay(n, Serving(f), f), f), ViewOf(p, n, f.oid);
            && NodeOk(n') && n'.range == n.range
            && ViewOf(p, n', f.oid) == VReply(VPaid(v, Serving(f), f), f)
            && (forall x | x != f.oid :: ViewOf(p, n', x) == ViewOf(p, n, x))
            && (forall x | x in n.range && x != f.oid :: ViewOf(n', p, x) == ViewOf(n, p, x))
  {
    PaidViews(n, p, Serving(f), f);
    EmitViews(AfterSay(n, Serving(f), f), p, f);
  }

  lemma SayViewIff(n: Node, p: Node, f: Frame)
    ensures SayOk(ViewOf(p, n, f.oid), f.oid, f) <==> MaySay(n, p, f)
    ensures forall i | i in ViewOf(p, n, f.oid).fwd && i.Packet? :: i.frame.oid == f.oid
  {
    OnIn(n.rxch, f.oid);
    OnIn(p.out, f.oid);
    var q, v := n.rxch + p.out, ViewOf(p, n, f.oid).fwd;
    forall i ensures i in v <==> i in q && i.Id() == f.oid {}
    assert StartComes(v, f.oid, f.gen) <==> StartComes(q, f.oid, f.gen);
  }

  /** One more frame of generation `f.gen` from the remote end of `f.oid`, a response, a message or a
      close, keeps the invariant exactly when the remote may say it: so no second response, no second
      close, and no message after its close. */
  lemma SpeakKeepsIff(n: Node, p: Node, f: Frame)
    requires SysInv(n, p) && f.oid in p.range
    ensures SysInv(Emit(AfterSay(n, Serving(f), f), f), p) <==> MaySay(n, p, f)
  {
    var n' := Emit(AfterSay(n, Serving(f), f), f);
    SysOk(n, p);
    SayViewIff(n, p, f);
    GoodPeer(n, p, f.oid);
    SayKeepsIff(ViewOf(p, n, f.oid), f.oid, f);
    SaidViews(n, p, f);
    if MaySay(n, p, f) { SpeakKeeps(n, p, f); }
    if SysInv(n', p) { GoodPeer(n', p, f.oid); }
  }

  lemma GoodPeer(n: Node, p: Node, o: Oid)
    requires SysInv(n, p) && o in p.range
    ensures Good(ViewOf(p, n, o), o) && n.range !! p.range
  {}

  lemma SpeakKeeps(n: Node, p: Node, f: Frame)
    requires SysInv(n, p) && f.oid in p.range
    requires Good(ViewOf(p, Emit(AfterSay(n, Serving(f), f), f), f.oid), f.oid)
    ensures SysInv(Emit(AfterSay(n, Serving(f), f), f), p)
  {
    SaidViews(n, p, f);
    KeepPeer(n, p, Emit(AfterSay(n, Serving(f), f), f), f.oid);
    LogEmit(n, p, AfterSay(n, Serving(f), f), f);
  }

  // ---- the close callback

  /** The remote's finish is dispatched, and the close callback returns without closing the stream. */
  function Unclosed(n: Node, f: Frame): Node
    requires Linked(n) && HeadIs(n, f)
  {
    SyncRx(n.(callers := n.callers[f.oid := StrClosed]), true)
  }

  lemma MarkedAwaits(n: Node, f: Frame)
    requires NodeOk(n) && HeadIs(n, f) && Awaits(n, f) && f.kind.Finish?
    ensures var m := n.(callers := n.callers[f.oid := StrClosed]); NodeOk(m) && HeadIs(m, f) && Awaits(m, f)
  {}

  lemma UnclosedShape(n: Node, f: Frame)
    requires NodeOk(n) && HeadIs(n, f) && Awaits(n, f) && f.kind.Finish?
    ensures var m := Unclosed(n, f);
            && m == Release(Unlinked(n, f.oid), f.oid).(log := m.log) && NodeOk(m)
            && m.log.sent == n.log.sent && m.log.tx == n.log.tx
  {
    MarkedAwaits(n, f);
    var c := FinShape(n.(callers := n.callers[f.oid := StrClosed]), f, true);
    var m := Unclosed(n, f);
    assert m.callers == n.callers - {f.oid};
    assert forall i | i in m.rxch :: i in n.rxch;
  }

  /** Who has not closed when its stream is gone is still heard by the peer. */
  lemma StillHeard(v: View, v': View, o: Oid)
    requires Good(v, o) && IsIn(v.caller, {StrOpen}) && v'.saidFwd == v.saidFwd && v'.caller == None
    ensures !Good(v', o)
  {}

  lemma FinishAwaited(n: Node, p: Node, f: Frame)
    requires SysInv(n, p) && HeadIs(n, f) && f.kind.Finish? && f.oid in n.range
    ensures NodeOk(n) && Awaits(n, f)
  {
    AwaitsNow(n, p, f);
    AwaitsMeans(n, p, f);
  }

  lemma ClosedBefore(n: Node, f: Frame)
    requires Linked(n) && HeadIs(n, f) && f.oid in n.callers && n.callers[f.oid].StrClosed?
    ensures Unclosed(n, f) == SyncRx(n, true)
  {
    assert n.callers[f.oid := StrClosed] == n.callers;
  }

  lemma NotClosedBefore(n: Node, p: Node, f: Frame)
    requires NodeOk(n) && HeadIs(n, f) && f.kind.Finish? && Awaits(n, f) && Good(ViewOf(n, p, f.oid), f.oid)
    requires n.callers[f.oid].StrOpen?
    ensures Unclosed(n, f).range == n.range && !Good(ViewOf(Unclosed(n, f), p, f.oid), f.oid)
  {
    UnclosedShape(n, f);
    StillHeard(ViewOf(n, p, f.oid), ViewOf(Unclosed(n, f), p, f.oid), f.oid);
  }

  /** A close callback may return without closing exactly when the initiator has closed before. */
  lemma CallbackMayReturnIff(n: Node, p: Node, f: Frame)
    requires SysInv(n, p) && HeadIs(n, f) && f.kind.Finish? && f.oid in n.range
    ensures Linked(n) && f.oid in n.callers
    ensures SysInv(Unclosed(n, f), p) <==> n.callers[f.oid].StrClosed?
  {
    FinishAwaited(n, p, f);
    if n.callers[f.oid].StrClosed? {
      ClosedBefore(n, f);
      SysDispatch(n, p, true);
    } else {
      SysGood(n, p, f.oid);
      NotClosedBefore(n, p, f);
      if SysInv(Unclosed(n, f), p) { SysGood(Unclosed(n, f), p, f.oid); }
    }
  }
}
