/**
  Dispatch in a good state.  The lemmas named *Shape say exactly what one turn of syncRx does to
  the node and to its log, using what ExchangeView knows about the head item: these are the
  no-cross-talk and no-drop facts, one packet at a time.  The lemmas named Step* conclude that the
  pair stays good.
*/
module ExchangeDispatch {
  import opened Wire
  import opened Exchange
  import opened ExchangeView
  import opened ExchangeProof

  /** The call a frame must cause at its receiver, up to whether a callback was there to hear it. */
  function Expected(f: Frame, senderOwns: bool): Call {
    match f.kind
    case Post => ToHandler(f.oid, f.gen, RPost, f.msg)
    case Request => if senderOwns then ToHandler(f.oid, f.gen, RReq, f.msg)
                    else ToStream(f.oid, f.gen, f.msg, false, true)
    case Start => ToHandler(f.oid, f.gen, RStart, f.msg)
    case StreamMsg => ToStream(f.oid, f.gen, f.msg, true, true)
    case Finish => ToStream(f.oid, f.gen, NO_MESSAGE, false, true)
  }

  function Plain(c: Call): Call { if c.ToStream? then c.(heard := true) else c }

  /** The log after handling the packet `f`: one expected call, one count, no drop. */
  ghost predicate Logged(l: Log, l': Log, f: Frame, senderOwns: bool, c: Call, live: map<Oid, Entry>) {
    && l'.calls == l.calls + [c] && Plain(c) == Expected(f, senderOwns)
    && (c.ToStream? ==> (!c.heard <==> f.oid in live && live[f.oid] == Remote(f.gen, false)))
    && l'.rx == l.rx.Bump(RoleOf(f, senderOwns))
    && l'.mdrops == l.mdrops && l'.nrx == l.nrx + 1
    && l'.got == l.got + [Packet(f)]
  }

  ghost predicate HeadIs(n: Node, f: Frame) { n.rxch != [] && n.rxch[0] == Packet(f) }

  // ---- a frame of the peer's exchange

  function LiveAfter(live: map<Oid, Entry>, f: Frame, hcb: bool): map<Oid, Entry> {
    match f.kind
    case Start => live[f.oid := Remote(f.gen, hcb)]
    case Finish => live - {f.oid}
    case _ => live
  }

  function HandlesAfter(hs: set<Handle>, f: Frame): set<Handle> {
    if f.kind.Request? || f.kind.Start? then hs + {Handle(f.oid, f.gen, f.kind)} else hs
  }

  /** The peer's livestreams is ready for this frame: nothing there for a frame that begins an
      exchange, and the entry of that very exchange for one that continues it. */
  ghost predicate Ready(n: Node, f: Frame) {
    match f.kind
    case StreamMsg => f.oid in n.live && n.live[f.oid].Remote? && n.live[f.oid].gen == f.gen
    case Finish => f.oid in n.live && n.live[f.oid].Remote? && n.live[f.oid].gen == f.gen
    case Post => f.oid !in n.live
    case _ => f.oid !in n.live && forall h | h in n.handles :: h.oid != f.oid
  }

  lemma HeadFwd(n: Node, p: Node, f: Frame)
    requires HeadIs(n, f)
    ensures ViewOf(p, n, f.oid).fwd == [Packet(f)] + (On(n.rxch[1..], f.oid) + On(p.out, f.oid))
  {
    assert On(n.rxch, f.oid) == [Packet(f)] + On(n.rxch[1..], f.oid);
  }

  lemma ReadyNow(n: Node, p: Node, f: Frame, hcb: bool)
    requires PairInv(n, p) && HeadIs(n, f) && f.oid in p.range
    ensures Ready(n, f) && f.oid !in n.range
    ensures var v := ViewOf(p, n, f.oid); v.fwd != [] && Good(VHear(v, f.oid, f, hcb), f.oid)
  {
    HeadFwd(n, p, f);
    var v := ViewOf(p, n, f.oid);
    KeepHear(v, f.oid, hcb);
    forall h | h in n.handles && h.oid == f.oid ensures h in v.owed {}
  }

  lemma HearShape(n: Node, f: Frame, hcb: bool) returns (c: Call)
    requires NodeOk(n) && HeadIs(n, f) && Ready(n, f) && f.oid !in n.range
    ensures var n' := SyncRx(n, hcb);
            && n' == n.(rxch := n.rxch[1..], live := LiveAfter(n.live, f, hcb),
                        handles := HandlesAfter(n.handles, f), log := n'.log)
            && n'.log.sent == n.log.sent && n'.log.tx == n.log.tx
            && n'.log.muted == n.log.muted + (if f.kind.Start? && !hcb then {(f.oid, f.gen)} else {})
            && Logged(n.log, n'.log, f, true, c, n.live)
  {
    c := Expected(f, true);
    if f.kind.StreamMsg? || f.kind.Finish? { c := c.(heard := n.live[f.oid].callb); }
  }

  lemma HearView(n: Node, p: Node, n': Node, f: Frame, hcb: bool)
    requires HeadIs(n, f)
    requires n' == n.(rxch := n.rxch[1..], live := LiveAfter(n.live, f, hcb),
                      handles := HandlesAfter(n.handles, f), log := n'.log)
    requires n'.log.sent == n.log.sent
    ensures ViewOf(p, n, f.oid).fwd != []
    ensures ViewOf(p, n', f.oid) == VHear(ViewOf(p, n, f.oid), f.oid, f, hcb)
  {
    var v := ViewOf(p, n, f.oid);
    assert On(n.rxch, f.oid) == [Packet(f)] + On(n'.rxch, f.oid);
    assert v.fwd[1..] == On(n'.rxch, f.oid) + On(p.out, f.oid);
    assert HandlesOn(n'.handles, f.oid) == OwedAfter(v, f.oid, f);
  }

  lemma HearOther(n: Node, p: Node, n': Node, f: Frame, hcb: bool, x: Oid)
    requires HeadIs(n, f) && x != f.oid
    requires n' == n.(rxch := n.rxch[1..], live := LiveAfter(n.live, f, hcb),
                      handles := HandlesAfter(n.handles, f), log := n'.log)
    requires n'.log.sent == n.log.sent
    ensures ViewOf(p, n', x) == ViewOf(p, n, x) && ViewOf(n', p, x) == ViewOf(n, p, x)
  {
    assert On(n.rxch, x) == On(n'.rxch, x);
    assert HandlesOn(n'.handles, x) == HandlesOn(n.handles, x);
  }

  lemma HearOk(n: Node, p: Node, n': Node, f: Frame, hcb: bool)
    requires NodeOk(n) && Traffic(n, p) && HeadIs(n, f) && f.oid in p.range && f.oid !in n.range
    requires n' == n.(rxch := n.rxch[1..], live := LiveAfter(n.live, f, hcb),
                      handles := HandlesAfter(n.handles, f), log := n'.log)
    ensures NodeOk(n') && Traffic(n', p)
  {
    assert forall i | i in n'.rxch :: i in n.rxch;
  }

  lemma StepHear(n: Node, p: Node, f: Frame, hcb: bool)
    requires PairInv(n, p) && HeadIs(n, f) && f.oid in p.range
    ensures PairInv(SyncRx(n, hcb), p)
  {
    var n' := SyncRx(n, hcb);
    ReadyNow(n, p, f, hcb);
    var c := HearShape(n, f, hcb);
    HearView(n, p, n', f, hcb);
    HearOk(n, p, n', f, hcb);
    forall x | x in p.range && x != f.oid ensures ViewOf(p, n', x) == ViewOf(p, n, x) {
      HearOther(n, p, n', f, hcb, x);
    }
    forall x | x in n.range ensures ViewOf(n', p, x) == ViewOf(n, p, x) { HearOther(n, p, n', f, hcb, x); }
    KeepPeer(n, p, n', f.oid);
  }

  // ---- a reply to an exchange of this node

  /** The owner's livestreams is ready for this reply: the entry is there, its callback serves the
      exchange the frame belongs to, and the caller is waiting for just this kind of frame. */
  ghost predicate Awaits(n: Node, f: Frame) {
    && f.oid in n.range && f.oid in n.cb && f.oid in n.gen && f.oid in n.live && f.oid in n.callers
    && n.cb[f.oid] == Some(f.gen) && n.gen[f.oid] == f.gen
    && match f.kind
       case Request => n.callers[f.oid].ReqSent?
       case StreamMsg => n.callers[f.oid].StrOpen? || n.callers[f.oid].StrClosed?
       case Finish => n.callers[f.oid].StrOpen? || n.callers[f.oid].StrClosed?
       case _ => false
  }

  lemma HeadBwd(n: Node, p: Node, f: Frame)
    requires HeadIs(n, f)
    ensures ViewOf(n, p, f.oid).bwd == [Packet(f)] + (On(n.rxch[1..], f.oid) + On(p.out, f.oid))
  {
    assert On(n.rxch, f.oid) == [Packet(f)] + On(n.rxch[1..], f.oid);
  }

  lemma AwaitsNow(n: Node, p: Node, f: Frame)
    requires PairInv(n, p) && HeadIs(n, f) && f.oid in n.range
    ensures var v := ViewOf(n, p, f.oid);
            && v.bwd != [] && ReplyRight(v, f)
            && (f.kind.Finish? ==> Good(VFinished(v, f.oid), f.oid))
            && (!f.kind.Finish? ==> Good(VAnswered(v), f.oid))
  {
    HeadBwd(n, p, f);
    var v := ViewOf(n, p, f.oid);
    if f.kind.Finish? { KeepFinReply(v, f.oid); } else { KeepReply(v, f.oid); }
  }

  lemma AwaitsMeans(n: Node, p: Node, f: Frame)
    requires NodeOk(n) && f.oid in n.range && ReplyRight(ViewOf(n, p, f.oid), f)
    ensures Awaits(n, f)
  {}

  function CallersAfter(n: Node, o: Oid): map<Oid, Caller> {
    if CallerIs(n, o, {ReqSent}) then n.callers[o := ReqDone] else n.callers
  }

  lemma ReplyShape(n: Node, f: Frame, hcb: bool) returns (c: Call)
    requires NodeOk(n) && HeadIs(n, f) && Awaits(n, f) && !f.kind.Finish?
    ensures var n' := SyncRx(n, hcb);
            && n' == n.(rxch := n.rxch[1..], callers := CallersAfter(n, f.oid), log := n'.log)
            && n'.log.sent == n.log.sent && n'.log.tx == n.log.tx && n'.log.muted == n.log.muted
            && Logged(n.log, n'.log, f, false, c, n.live)
  {
    c := Expected(f, false);
  }

  lemma ReplyView(n: Node, p: Node, n': Node, f: Frame)
    requires NodeOk(n) && NodeOk(p) && HeadIs(n, f) && f.oid in n.range && n.range !! p.range
    requires n' == n.(rxch := n.rxch[1..], callers := CallersAfter(n, f.oid), log := n'.log)
    requires n'.log.sent == n.log.sent
    ensures ViewOf(n, p, f.oid).bwd != []
    ensures ViewOf(n', p, f.oid) == VAnswered(ViewOf(n, p, f.oid))
    ensures forall x | x != f.oid :: ViewOf(n', p, x) == ViewOf(n, p, x) && ViewOf(p, n', x) == ViewOf(p, n, x)
  {
    HeadBwd(n, p, f);
    assert ViewOf(n, p, f.oid).bwd[1..] == On(n.rxch[1..], f.oid) + On(p.out, f.oid);
    assert forall x | x != f.oid :: On(n.rxch, x) == On(n'.rxch, x);
  }

  lemma ReplyOk(n: Node, p: Node, n': Node, f: Frame)
    requires NodeOk(n) && HeadIs(n, f) && f.oid in n.range && Traffic(n, p)
    requires n' == n.(rxch := n.rxch[1..], callers := CallersAfter(n, f.oid), log := n'.log)
    ensures NodeOk(n') && Traffic(n', p)
  {
    assert forall i | i in n'.rxch :: i in n.rxch;
  }

  lemma StepReply(n: Node, p: Node, f: Frame, hcb: bool)
    requires PairInv(n, p) && HeadIs(n, f) && f.oid in n.range && !f.kind.Finish?
    ensures PairInv(SyncRx(n, hcb), p)
  {
    var n' := SyncRx(n, hcb);
    AwaitsNow(n, p, f);
    AwaitsMeans(n, p, f);
    var c := ReplyShape(n, f, hcb);
    ReplyView(n, p, n', f);
    ReplyOk(n, p, n', f);
    KeepOwn(n, p, n', f.oid);
  }

  // ---- the remote's close on a stream of this node

  /** The node without the head item and without the entry at `o`. */
  function Unlinked(n: Node, o: Oid): Node
    requires n.rxch != []
  {
    n.(rxch := n.rxch[1..], live := n.live - {o})
  }

  function Finished(n: Node, o: Oid): Node
    requires n.rxch != [] && o in n.gen
  {
    var b := Unlinked(n, o);
    Release(if CallerIs(n, o, {StrOpen}) then Emit(SetCaller(b, o, StrClosed), Frame(Finish, o, NO_MESSAGE, n.gen[o]))
            else b, o)
  }

  lemma FinShape(n: Node, f: Frame, hcb: bool) returns (c: Call)
    requires NodeOk(n) && HeadIs(n, f) && Awaits(n, f) && f.kind.Finish?
    ensures var n', m := SyncRx(n, hcb), Finished(n, f.oid);
            && n' == m.(log := n'.log)
            && n'.log.sent == m.log.sent && n'.log.tx == m.log.tx && n'.log.muted == n.log.muted
            && Logged(n.log, n'.log, f, false, c, n.live)
  {
    c := Expected(f, false);
  }

  /** Removing the head item of rxch, as the view of its opaque sees it. */
  lemma PopView(n: Node, p: Node, o: Oid)
    requires n.rxch != [] && n.rxch[0].Id() == o
    ensures var v := ViewOf(n, p, o);
            v.bwd == [n.rxch[0]] + v.bwd[1..] && v.bwd[1..] == On(n.rxch[1..], o) + On(p.out, o)
  {
    assert On(n.rxch, o) == [n.rxch[0]] + On(n.rxch[1..], o);
    assert ViewOf(n, p, o).bwd == [n.rxch[0]] + (On(n.rxch[1..], o) + On(p.out, o));
  }

  /** A change of live and the removal of the head item leave every other view alone. */
  lemma PopOther(n: Node, p: Node, m: Node, o: Oid, x: Oid)
    requires n.rxch != [] && n.rxch[0].Id() == o && x != o
    requires m == n.(rxch := n.rxch[1..], live := m.live)
    requires x in m.live <==> x in n.live
    requires x in n.live ==> m.live[x] == n.live[x]
    ensures ViewOf(m, p, x) == ViewOf(n, p, x) && ViewOf(p, m, x) == ViewOf(p, n, x)
  {
    assert On(n.rxch, x) == On(m.rxch, x);
  }

  lemma PopOk(n: Node, p: Node, m: Node, o: Oid)
    requires NodeOk(n) && n.rxch != [] && o in n.range
    requires m == n.(rxch := n.rxch[1..], live := m.live)
    requires m.live == n.live - {o} || m.live == n.live[o := Local]
    ensures NodeOk(m) && (Traffic(n, p) ==> Traffic(m, p))
  {
    assert forall i | i in m.rxch :: i in n.rxch;
  }

  lemma UnlinkedViews(n: Node, p: Node, o: Oid)
    requires NodeOk(n) && NodeOk(p) && n.range !! p.range && o in n.range
    requires n.rxch != [] && n.rxch[0].Id() == o
    ensures var b, v := Unlinked(n, o), ViewOf(n, p, o);
            && NodeOk(b) && (Traffic(n, p) ==> Traffic(b, p))
            && v.bwd != [] && v.bwd[0] == n.rxch[0]
            && ViewOf(b, p, o) == v.(bwd := v.bwd[1..], live := false)
            && (forall x | x != o :: ViewOf(b, p, x) == ViewOf(n, p, x) && ViewOf(p, b, x) == ViewOf(p, n, x))
  {
    PopOk(n, p, Unlinked(n, o), o);
    PopView(n, p, o);
    forall x | x != o
      ensures ViewOf(Unlinked(n, o), p, x) == ViewOf(n, p, x) && ViewOf(p, Unlinked(n, o), x) == ViewOf(p, n, x)
    {
      PopOther(n, p, Unlinked(n, o), o, x);
    }
  }

  lemma FinView(n: Node, p: Node, o: Oid)
    requires NodeOk(n) && NodeOk(p) && n.range !! p.range && o in n.range
    requires n.rxch != [] && n.rxch[0].Id() == o
    ensures var m, v := Finished(n, o), ViewOf(n, p, o);
            && NodeOk(m) && (Traffic(n, p) ==> Traffic(m, p))
            && v.bwd != []
            && ViewOf(m, p, o) == VFinished(v, o)
            && (forall x | x != o :: ViewOf(m, p, x) == ViewOf(n, p, x) && ViewOf(p, m, x) == ViewOf(p, n, x))
  {
    var b := Unlinked(n, o);
    UnlinkedViews(n, p, o);
    if CallerIs(n, o, {StrOpen}) {
      SetCallerViews(b, p, o, StrClosed);
      EmitViews(SetCaller(b, o, StrClosed), p, Frame(Finish, o, NO_MESSAGE, n.gen[o]));
      ReleaseViews(Emit(SetCaller(b, o, StrClosed), Frame(Finish, o, NO_MESSAGE, n.gen[o])), p, o);
    } else {
      ReleaseViews(b, p, o);
    }
  }

  /** Views read nothing of the log but the frames sent. */
  lemma SameViews(n: Node, p: Node, m: Node)
    requires n == m.(log := n.log) && n.log.sent == m.log.sent
    ensures NodeOk(m) ==> NodeOk(n)
    ensures Traffic(m, p) ==> Traffic(n, p)
    ensures forall x :: ViewOf(n, p, x) == ViewOf(m, p, x) && ViewOf(p, n, x) == ViewOf(p, m, x)
  {}

  lemma StepFinReply(n: Node, p: Node, f: Frame, hcb: bool)
    requires PairInv(n, p) && HeadIs(n, f) && f.oid in n.range && f.kind.Finish?
    ensures PairInv(SyncRx(n, hcb), p)
  {
    AwaitsNow(n, p, f);
    AwaitsMeans(n, p, f);
    var c := FinShape(n, f, hcb);
    FinView(n, p, f.oid);
    SameViews(SyncRx(n, hcb), p, Finished(n, f.oid));
    KeepOwn(n, p, SyncRx(n, hcb), f.oid);
  }

  // ---- notices

  lemma NoticeShape(n: Node, p: Node, o: Oid, hcb: bool)
    requires PairInv(n, p) && n.rxch != [] && n.rxch[0] == Notice(o) && o in n.range
    ensures var v := ViewOf(n, p, o);
            && v.bwd != []
            && (n.cb[o].Some? ==> o !in n.live && n.cb[o] == Some(n.gen[o]) && Opening(v.caller)
                                  && SyncRx(n, hcb) == Opened(n, o)
                                  && Good(VOpened(v), o))
            && (n.cb[o].None? ==> o in n.live && v.caller == Some(ReqReturned)
                                  && SyncRx(n, hcb) == Release(Unlinked(n, o), o)
                                  && Good(VEnded(v), o))
  {
    UnlinkedViews(n, p, o);
    KeepNotice(ViewOf(n, p, o), o);
  }

  function Opened(n: Node, o: Oid): Node
    requires n.rxch != []
  {
    n.(rxch := n.rxch[1..], live := n.live[o := Local])
  }

  lemma OpenedViews(n: Node, p: Node, o: Oid)
    requires NodeOk(n) && NodeOk(p) && n.range !! p.range && o in n.range
    requires n.rxch != [] && n.rxch[0].Id() == o
    ensures var m, v := Opened(n, o), ViewOf(n, p, o);
            && NodeOk(m) && (Traffic(n, p) ==> Traffic(m, p))
            && v.bwd != [] && ViewOf(m, p, o) == VOpened(v)
            && (forall x | x != o :: ViewOf(m, p, x) == ViewOf(n, p, x) && ViewOf(p, m, x) == ViewOf(p, n, x))
  {
    PopOk(n, p, Opened(n, o), o);
    PopView(n, p, o);
    forall x | x != o
      ensures ViewOf(Opened(n, o), p, x) == ViewOf(n, p, x) && ViewOf(p, Opened(n, o), x) == ViewOf(p, n, x)
    {
      PopOther(n, p, Opened(n, o), o, x);
    }
  }

  lemma StepNotice(n: Node, p: Node, o: Oid, hcb: bool)
    requires PairInv(n, p) && n.rxch != [] && n.rxch[0] == Notice(o) && o in n.range
    ensures PairInv(SyncRx(n, hcb), p)
  {
    NoticeShape(n, p, o, hcb);
    if n.cb[o].Some? {
      OpenedViews(n, p, o);
    } else {
      UnlinkedViews(n, p, o);
      ReleaseViews(Unlinked(n, o), p, o);
    }
    KeepOwn(n, p, SyncRx(n, hcb), o);
  }

  lemma StepDispatch(n: Node, p: Node, hcb: bool)
    requires PairInv(n, p) && n.rxch != []
    ensures PairInv(SyncRx(n, hcb), p)
  {
    assert n.rxch[0] in n.rxch;
    match n.rxch[0]
    case Notice(o) => StepNotice(n, p, o, hcb);
    case Packet(f) =>
      if f.oid in p.range { StepHear(n, p, f, hcb); }
      else if f.kind.Finish? { StepFinReply(n, p, f, hcb); }
      else { StepReply(n, p, f, hcb); }
  }
}
