/**
  The history of a reachable system: what was sent is what was handled followed by what is in
  flight, every packet handled caused exactly its expected call and its own count, and nothing was
  ever dropped.
*/
module ExchangeLog {
  import opened Wire
  import opened Exchange
  import opened ExchangeView
  import opened ExchangeProof
  import opened ExchangeDispatch

  function Packets(q: seq<Item>): seq<Item> {
    if q == [] then [] else (if q[0].Packet? then [q[0]] else []) + Packets(q[1..])
  }

  /** The frames from `n` that `p` has not handled yet. */
  function Flight(n: Node, p: Node): seq<Item> { Packets(p.rxch) + n.out }

  function ExpectAll(q: seq<Item>, owner: set<Oid>): seq<Call>
    requires forall i | i in q :: i.Packet?
  {
    if q == [] then [] else ExpectAll(q[..|q|-1], owner) + [Expected(q[|q|-1].frame, q[|q|-1].Id() in owner)]
  }

  function PlainAll(cs: seq<Call>): seq<Call> { seq(|cs|, i requires 0 <= i < |cs| => Plain(cs[i])) }

  function CountAll(q: seq<Item>, owner: set<Oid>): Counts
    requires forall i | i in q :: i.Packet?
  {
    if q == [] then ZERO
    else CountAll(q[..|q|-1], owner).Bump(RoleOf(q[|q|-1].frame, q[|q|-1].Id() in owner))
  }

  ghost predicate AllPackets(q: seq<Item>) { forall i | i in q :: i.Packet? }

  /** `n` sends, `p` receives. */
  ghost predicate LogInv(n: Node, p: Node) { LogParts(n, p) == true }

  ghost predicate LogParts(n: Node, p: Node) {
    && AllPackets(n.log.sent) && AllPackets(p.log.got)
    && n.log.sent == p.log.got + Flight(n, p)
    && PlainAll(p.log.calls) == ExpectAll(p.log.got, n.range)
    && n.log.tx == CountAll(n.log.sent, n.range)
    && p.log.rx == CountAll(p.log.got, n.range)
    && p.log.mdrops == 0 && p.log.nrx == |p.log.got|
    && (forall o | o in p.live && p.live[o].Remote? && !p.live[o].callb :: (o, p.live[o].gen) in p.log.muted)
    && (forall c | c in p.log.calls && c.ToStream? && !c.heard :: (c.oid, c.gen) in p.log.muted)
  }

  ghost predicate SysInv(n: Node, p: Node) { PairInv(n, p) && LogInv(n, p) && LogInv(p, n) }

  lemma {:induction false} PacketsSnoc(q: seq<Item>, i: Item)
    ensures Packets(q + [i]) == Packets(q) + if i.Packet? then [i] else []
  {
    if q == [] {
      assert q + [i] == [i] && Packets([i][1..]) == [];
    } else {
      assert (q + [i])[1..] == q[1..] + [i] && (q + [i])[0] == q[0];
      PacketsSnoc(q[1..], i);
      assert Packets(q + [i]) == (if q[0].Packet? then [q[0]] else []) + Packets(q[1..] + [i]);
    }
  }

  /** Everything a log says about itself is untouched by a step that emits and handles nothing. */
  lemma LogSame(n: Node, p: Node, n': Node)
    requires LogInv(n, p) && LogInv(p, n)
    requires n'.log == n.log && n'.out == n.out && n'.range == n.range && Packets(n'.rxch) == Packets(n.rxch)
    requires forall o | o in n'.live && n'.live[o].Remote? :: o in n.live && n.live[o] == n'.live[o]
    ensures LogInv(n', p) && LogInv(p, n')
  {}

  lemma LogEmit(n: Node, p: Node, m: Node, f: Frame)
    requires LogInv(n, p) && LogInv(p, n)
    requires m == n.(callers := m.callers, handles := m.handles)
    ensures LogInv(Emit(m, f), p) && LogInv(p, Emit(m, f))
  {
    var n', i := Emit(m, f), Packet(f);
    assert n'.log.sent[..|n'.log.sent| - 1] == n.log.sent;
    assert n'.log.sent == p.log.got + (Flight(n, p) + [i]);
    assert Flight(n', p) == Flight(n, p) + [i];
  }

  lemma LogDoRx(n: Node, p: Node)
    requires LogInv(n, p) && LogInv(p, n) && p.out != [] && NodeOk(p)
    ensures LogInv(Deliver(n, p.out[0]), Shift(p)) && LogInv(Shift(p), Deliver(n, p.out[0]))
  {
    FlightMoves(n, p);
    LogMoved(n, p, Deliver(n, p.out[0]), Shift(p));
    LogMoved(p, n, Shift(p), Deliver(n, p.out[0]));
  }

  /** A frame read from the connection is as much in flight as before. */
  lemma FlightMoves(n: Node, p: Node)
    requires p.out != [] && NodeOk(p)
    ensures Flight(Shift(p), Deliver(n, p.out[0])) == Flight(p, n)
    ensures Flight(Deliver(n, p.out[0]), Shift(p)) == Flight(n, p)
  {
    var i := p.out[0];
    assert i in p.out;
    PacketsSnoc(n.rxch, i);
    assert Packets(n.rxch) + [i] + p.out[1..] == Packets(n.rxch) + p.out;
  }

  lemma LogMoved(n: Node, p: Node, n': Node, p': Node)
    requires LogInv(n, p) && Flight(n', p') == Flight(n, p)
    requires n' == n.(rxch := n'.rxch, out := n'.out) && p' == p.(rxch := p'.rxch, out := p'.out)
    ensures LogInv(n', p')
  {}

  /** The handling of one packet, as the receiver's log records it. */
  lemma LogHandled(n: Node, p: Node, n': Node, f: Frame, c: Call)
    requires LogInv(p, n) && HeadIs(n, f) && n'.rxch == n.rxch[1..]
    requires Logged(n.log, n'.log, f, f.oid in p.range, c, n.live)
    requires n.log.muted <= n'.log.muted
    requires forall o | o in n'.live && n'.live[o].Remote? && !n'.live[o].callb :: (o, n'.live[o].gen) in n'.log.muted
    ensures LogInv(p, n')
  {
    assert Packets(n.rxch) == [Packet(f)] + Packets(n'.rxch);
    assert n.log.got + Flight(p, n) == n'.log.got + Flight(p, n');
    assert n'.log.got[..|n'.log.got| - 1] == n.log.got;
    assert PlainAll(n'.log.calls) == PlainAll(n.log.calls) + [Plain(c)];
  }

  /** The sender's half of a log does not change when the node only handles. */
  lemma LogSender(n: Node, p: Node, n': Node)
    requires LogInv(n, p) && n'.log.sent == n.log.sent && n'.log.tx == n.log.tx
    requires n'.out == n.out && n'.range == n.range
    ensures LogInv(n', p)
  {}

  lemma LogHear(n: Node, p: Node, f: Frame, hcb: bool)
    requires SysInv(n, p) && HeadIs(n, f) && f.oid in p.range
    ensures LogInv(SyncRx(n, hcb), p) && LogInv(p, SyncRx(n, hcb))
  {
    ReadyNow(n, p, f, hcb);
    var c := HearShape(n, f, hcb);
    LogHeard(n, p, SyncRx(n, hcb), f, hcb, c);
  }

  lemma LogHeard(n: Node, p: Node, n': Node, f: Frame, hcb: bool, c: Call)
    requires LogInv(n, p) && LogInv(p, n) && HeadIs(n, f) && f.oid in p.range
    requires n' == n.(rxch := n.rxch[1..], live := LiveAfter(n.live, f, hcb), handles := n'.handles, log := n'.log)
    requires n'.log.sent == n.log.sent && n'.log.tx == n.log.tx
    requires n'.log.muted == n.log.muted + (if f.kind.Start? && !hcb then {(f.oid, f.gen)} else {})
    requires Logged(n.log, n'.log, f, true, c, n.live)
    ensures LogInv(n', p) && LogInv(p, n')
  {
    LogSender(n, p, n');
    forall o | o in n'.live && n'.live[o].Remote? && !n'.live[o].callb ensures (o, n'.live[o].gen) in n'.log.muted {
      assert o == f.oid || (o in n.live && n.live[o] == n'.live[o]);
    }
    LogHandled(n, p, n', f, c);
  }

  lemma LogReply(n: Node, p: Node, f: Frame, hcb: bool)
    requires SysInv(n, p) && HeadIs(n, f) && f.oid in n.range && !f.kind.Finish?
    ensures LogInv(SyncRx(n, hcb), p) && LogInv(p, SyncRx(n, hcb))
  {
    AwaitsNow(n, p, f);
    AwaitsMeans(n, p, f);
    var c := ReplyShape(n, f, hcb);
    LogReplied(n, p, SyncRx(n, hcb), f, c);
  }

  lemma LogReplied(n: Node, p: Node, n': Node, f: Frame, c: Call)
    requires LogInv(n, p) && LogInv(p, n) && HeadIs(n, f) && f.oid !in p.range
    requires n' == n.(rxch := n.rxch[1..], callers := n'.callers, log := n'.log)
    requires n'.log.sent == n.log.sent && n'.log.tx == n.log.tx && n'.log.muted == n.log.muted
    requires Logged(n.log, n'.log, f, false, c, n.live)
    ensures LogInv(n', p) && LogInv(p, n')
  {
    LogSender(n, p, n');
    LogHandled(n, p, n', f, c);
  }

  lemma LogFinReply(n: Node, p: Node, f: Frame, hcb: bool)
    requires SysInv(n, p) && HeadIs(n, f) && f.oid in n.range && f.kind.Finish?
    ensures LogInv(SyncRx(n, hcb), p) && LogInv(p, SyncRx(n, hcb))
  {
    AwaitsNow(n, p, f);
    AwaitsMeans(n, p, f);
    var c := FinShape(n, f, hcb);
    var n', o := SyncRx(n, hcb), f.oid;
    forall x | x in n'.live && n'.live[x].Remote? && !n'.live[x].callb ensures (x, n'.live[x].gen) in n'.log.muted {
      assert x in n.live && n.live[x] == n'.live[x];
    }
    LogHandled(n, p, n', f, c);
    LogFinSent(n, p, n', o);
  }

  lemma LogFinSent(n: Node, p: Node, n': Node, o: Oid)
    requires LogInv(n, p) && LogInv(p, n) && n.rxch != [] && o in n.gen
    requires var m := Finished(n, o); n' == m.(log := n'.log) && n'.log.sent == m.log.sent && n'.log.tx == m.log.tx
    ensures LogInv(n', p)
  {
    if CallerIs(n, o, {StrOpen}) {
      var e := Emit(SetCaller(n, o, StrClosed), Frame(Finish, o, NO_MESSAGE, n.gen[o]));
      LogEmit(n, p, SetCaller(n, o, StrClosed), Frame(Finish, o, NO_MESSAGE, n.gen[o]));
      LogSender(e, p, n');
    } else {
      LogSender(n, p, n');
    }
  }

  lemma LogNotice(n: Node, p: Node, o: Oid, hcb: bool)
    requires SysInv(n, p) && n.rxch != [] && n.rxch[0] == Notice(o) && o in n.range
    ensures LogInv(SyncRx(n, hcb), p) && LogInv(p, SyncRx(n, hcb))
  {
    NoticeShape(n, p, o, hcb);
    if n.cb[o].Some? { LogUnheard(n, p, Opened(n, o), o); } else { LogUnheard(n, p, Release(Unlinked(n, o), o), o); }
  }

  /** Handling a notice leaves no trace in the logs. */
  lemma LogUnheard(n: Node, p: Node, m: Node, o: Oid)
    requires LogInv(n, p) && LogInv(p, n) && n.rxch != [] && n.rxch[0].Notice?
    requires m == n.(rxch := n.rxch[1..], live := m.live, pool := m.pool, callers := m.callers)
    requires m.live == n.live - {o} || m.live == n.live[o := Local]
    ensures LogInv(m, p) && LogInv(p, m)
  {
    assert Packets(m.rxch) == Packets(n.rxch);
    LogSame(n, p, m);
  }

  lemma SysDispatch(n: Node, p: Node, hcb: bool)
    requires SysInv(n, p) && n.rxch != []
    ensures SysInv(SyncRx(n, hcb), p)
  {
    StepDispatch(n, p, hcb);
    assert n.rxch[0] in n.rxch;
    match n.rxch[0]
    case Notice(o) => LogNotice(n, p, o, hcb);
    case Packet(f) =>
      if f.oid in p.range { LogHear(n, p, f, hcb); }
      else if f.kind.Finish? { LogFinReply(n, p, f, hcb); }
      else { LogReply(n, p, f, hcb); }
  }

  lemma SysHandle(n: Node, p: Node, h: Handle, f: Frame)
    requires SysInv(n, p) && h in n.handles && f.oid == h.oid && Answers(h, f)
    ensures SysInv(Emit(AfterSay(n, h, f), f), p)
  {
    HandlesHome(n, p, h);
    StepSay(n, p, h, f);
    LogEmit(n, p, AfterSay(n, h, f), f);
  }

  /** Every handle is on an opaque of the peer. */
  lemma HandlesHome(n: Node, p: Node, h: Handle)
    requires SysInv(n, p) && h in n.handles
    ensures h.oid in p.range
  {}

  lemma SysTake(n: Node, p: Node, c: Caller)
    requires SysInv(n, p) && Enabled(n, p, TakeFor(c))
    ensures SysInv(Take(n, c), p)
  {
    StepTake(n, p, c);
    LogSame(n, p, Take(n, c));
  }

  lemma SysTell(n: Node, p: Node, o: Oid)
    requires SysInv(n, p) && Enabled(n, p, Tell(o))
    ensures SysInv(PutNotice(n, o, AfterTell(n.callers[o])), p)
  {
    StepTell(n, p, o);
    LogTell(n, p, o, AfterTell(n.callers[o]));
  }

  lemma LogTell(n: Node, p: Node, o: Oid, c: Caller)
    requires LogInv(n, p) && LogInv(p, n)
    ensures LogInv(PutNotice(n, o, c), p) && LogInv(p, PutNotice(n, o, c))
  {
    PacketsSnoc(n.rxch, Notice(o));
    LogSame(n, p, PutNotice(n, o, c));
  }

  lemma SysFirst(n: Node, p: Node, o: Oid, msg: BinMessage)
    requires SysInv(n, p) && Enabled(n, p, SendFirst(o, msg))
    ensures SysInv(Emit(SetCaller(n, o, AfterFirst(n.callers[o])),
                        Frame(FirstKind(n.callers[o]), o, msg, n.gen[o])), p)
  {
    StepFirst(n, p, o, msg);
    LogEmit(n, p, SetCaller(n, o, AfterFirst(n.callers[o])), Frame(FirstKind(n.callers[o]), o, msg, n.gen[o]));
  }

  lemma SysPostReturn(n: Node, p: Node, o: Oid)
    requires SysInv(n, p) && Enabled(n, p, PostReturn(o))
    ensures SysInv(Release(n, o), p)
  {
    StepPostReturn(n, p, o);
    LogSame(n, p, Release(n, o));
  }

  lemma SysClear(n: Node, p: Node, o: Oid)
    requires SysInv(n, p) && Enabled(n, p, Clear(o))
    ensures SysInv(n.(callers := n.callers[o := ReqCleared], cb := n.cb[o := None]), p)
  {
    StepClear(n, p, o);
    LogSame(n, p, n.(callers := n.callers[o := ReqCleared], cb := n.cb[o := None]));
  }

  lemma SysSend(n: Node, p: Node, o: Oid, msg: BinMessage)
    requires SysInv(n, p) && Enabled(n, p, Send(o, msg))
    ensures SysInv(Emit(n, Frame(StreamMsg, o, msg, n.gen[o])), p)
  {
    StepSend(n, p, o, msg);
    LogEmit(n, p, n, Frame(StreamMsg, o, msg, n.gen[o]));
  }

  lemma SysClose(n: Node, p: Node, o: Oid)
    requires SysInv(n, p) && Enabled(n, p, Close(o))
    ensures SysInv(Emit(SetCaller(n, o, StrClosed), Frame(Finish, o, NO_MESSAGE, n.gen[o])), p)
  {
    StepClose(n, p, o);
    LogEmit(n, p, SetCaller(n, o, StrClosed), Frame(Finish, o, NO_MESSAGE, n.gen[o]));
  }

  lemma SysDoRx(n: Node, p: Node)
    requires SysInv(n, p) && p.out != []
    ensures SysInv(Deliver(n, p.out[0]), Shift(p))
  {
    StepDoRx(n, p);
    LogDoRx(n, p);
  }

  // ---- every move

  /** The move keeps the invariant. */
  ghost predicate Kept(n: Node, p: Node, a: Action)
    requires NodeOk(n) && Enabled(n, p, a)
  {
    SysInv(Act(n, p, a).0, Act(n, p, a).1) == true
  }

  lemma KeptPool(n: Node, p: Node, a: Action)
    requires SysInv(n, p) && Enabled(n, p, a) && (a.TakeFor? || a.Tell? || a.PostReturn?)
    ensures Kept(n, p, a)
  {
    if a.TakeFor? { SysTake(n, p, a.c); }
    else if a.Tell? { SysTell(n, p, a.o); }
    else { SysPostReturn(n, p, a.o); }
  }

  lemma KeptFirst(n: Node, p: Node, a: Action, o: Oid, msg: BinMessage)
    requires SysInv(n, p) && a == SendFirst(o, msg) && Enabled(n, p, a)
    ensures Kept(n, p, a)
  {
    SysFirst(n, p, o, msg);
  }

  lemma KeptClear(n: Node, p: Node, a: Action, o: Oid)
    requires SysInv(n, p) && a == Clear(o) && Enabled(n, p, a)
    ensures Kept(n, p, a)
  {
    SysClear(n, p, o);
  }

  lemma KeptSend(n: Node, p: Node, a: Action, o: Oid, msg: BinMessage)
    requires SysInv(n, p) && a == Send(o, msg) && Enabled(n, p, a)
    ensures Kept(n, p, a)
  {
    SysSend(n, p, o, msg);
  }

  lemma KeptClose(n: Node, p: Node, a: Action, o: Oid)
    requires SysInv(n, p) && a == Close(o) && Enabled(n, p, a)
    ensures Kept(n, p, a)
  {
    SysClose(n, p, o);
  }

  /** The frame with which an application takes part in the peer's exchange. */
  function Saying(a: Action): Frame
    requires a.Respond? || a.RemoteSend? || a.RemoteClose?
  {
    match a
    case Respond(h, msg) => Frame(Request, h.oid, msg, h.gen)
    case RemoteSend(h, msg) => Frame(StreamMsg, h.oid, msg, h.gen)
    case RemoteClose(h) => Frame(Finish, h.oid, NO_MESSAGE, h.gen)
  }

  lemma ActIsSaying(n: Node, p: Node, a: Action)
    requires NodeOk(n) && Enabled(n, p, a) && (a.Respond? || a.RemoteSend? || a.RemoteClose?)
    ensures a.h in n.handles && Saying(a).oid == a.h.oid && Answers(a.h, Saying(a))
    ensures Act(n, p, a) == (Emit(AfterSay(n, a.h, Saying(a)), Saying(a)), p)
  {}

  lemma KeptSaying(n: Node, p: Node, a: Action)
    requires SysInv(n, p) && Enabled(n, p, a) && (a.Respond? || a.RemoteSend? || a.RemoteClose?)
    ensures Kept(n, p, a)
  {
    ActIsSaying(n, p, a);
    SysHandle(n, p, a.h, Saying(a));
  }

  lemma KeptDoRx(n: Node, p: Node, a: Action)
    requires SysInv(n, p) && a == DoRx && Enabled(n, p, a)
    ensures Kept(n, p, a)
  {
    SysDoRx(n, p);
  }

  lemma KeptDispatch(n: Node, p: Node, a: Action, hcb: bool)
    requires SysInv(n, p) && a == Dispatch(hcb) && Enabled(n, p, a)
    ensures Kept(n, p, a)
  {
    SysDispatch(n, p, hcb);
  }

  lemma KeptLocal(n: Node, p: Node, a: Action)
    requires SysInv(n, p) && Enabled(n, p, a) && (a.SendFirst? || a.Send? || a.Close?)
    ensures Kept(n, p, a)
  {
    if a.SendFirst? { KeptFirst(n, p, a, a.o, a.msg); }
    else if a.Send? { KeptSend(n, p, a, a.o, a.msg); }
    else { KeptClose(n, p, a, a.o); }
  }

  lemma KeptQueue(n: Node, p: Node, a: Action)
    requires SysInv(n, p) && Enabled(n, p, a) && (a.Clear? || a.DoRx? || a.Dispatch?)
    ensures Kept(n, p, a)
  {
    if a.Clear? { KeptClear(n, p, a, a.o); }
    else if a.DoRx? { KeptDoRx(n, p, a); }
    else { KeptDispatch(n, p, a, a.hcb); }
  }

  /** Every move of either node keeps the invariant of the pair. */
  lemma SysAct(n: Node, p: Node, a: Action) returns (n': Node, p': Node)
    requires SysInv(n, p) && Enabled(n, p, a)
    ensures (n', p') == Act(n, p, a) && SysInv(n', p')
  {
    n', p' := Act(n, p, a).0, Act(n, p, a).1;
    if a.TakeFor? || a.Tell? || a.PostReturn? { KeptPool(n, p, a); }
    else if a.SendFirst? || a.Send? || a.Close? { KeptLocal(n, p, a); }
    else if a.Clear? || a.DoRx? || a.Dispatch? { KeptQueue(n, p, a); }
    else { KeptSaying(n, p, a); }
  }

  lemma SysSym(n: Node, p: Node)
    requires SysInv(n, p)
    ensures SysInv(p, n)
  {}

  lemma SysStep(s: State, m: Move)
    requires SysInv(s.a, s.b) && CanStep(s, m)
    ensures SysInv(Step(s, m).a, Step(s, m).b)
  {
    if m.left {
      var n, p := SysAct(s.a, s.b, m.act);
    } else {
      SysSym(s.a, s.b);
      var n, p := SysAct(s.b, s.a, m.act);
      SysSym(n, p);
    }
  }
}
