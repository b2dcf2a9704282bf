/**
  From one opaque to the whole system.  `ViewOf` projects a pair of nodes onto one opaque; every
  move changes the projection of at most one opaque, and there it is one of the steps of
  ExchangeView.  So the pair keeps `ViewInv` on every opaque of both nodes.
*/
module ExchangeProof {
  import opened Wire
  import opened Exchange
  import opened ExchangeView

  /** The items of a queue that concern one opaque, in order. */
  function On(q: seq<Item>, o: Oid): seq<Item> {
    if q == [] then [] else (if q[0].Id() == o then [q[0]] else []) + On(q[1..], o)
  }

  function HandlesOn(hs: set<Handle>, o: Oid): set<Handle> { set h | h in hs && h.oid == o }

  function ViewOf(n: Node, p: Node, o: Oid): View {
    View(multiset(n.pool)[o],
         if o in n.callers then Some(n.callers[o]) else None,
         if o in n.gen then n.gen[o] else 0,
         if o in n.cb then n.cb[o] else None,
         o in n.live,
         if o in p.live then Some(p.live[o]) else None,
         HandlesOn(p.handles, o),
         On(p.rxch, o) + On(n.out, o),
         On(n.rxch, o) + On(p.out, o),
         On(n.log.sent, o),
         On(p.log.sent, o))
  }

  ghost predicate Owned(n: Node, p: Node) {
    (forall o | o in n.range :: Good(ViewOf(n, p, o), o)) == true
  }

  ghost predicate Known(q: seq<Item>, ids: set<Oid>) { forall i | i in q :: i.Id() in ids }

  ghost predicate PairInv(n: Node, p: Node) {
    && NodeOk(n) && NodeOk(p) && n.range !! p.range
    && Owned(n, p) && Owned(p, n)
    && Traffic(n, p) && Traffic(p, n)
  }

  // ---- projections

  lemma {:induction false} OnConcat(q: seq<Item>, r: seq<Item>, o: Oid)
    ensures On(q + r, o) == On(q, o) + On(r, o)
  {
    if q == [] {
      assert q + r == r;
    } else {
      assert (q + r)[1..] == q[1..] + r && (q + r)[0] == q[0];
      var h := if q[0].Id() == o then [q[0]] else [];
      OnConcat(q[1..], r, o);
      Regroup(h, On(q[1..], o), On(r, o));
      assert On(q, o) == h + On(q[1..], o) && On(q + r, o) == h + On(q[1..] + r, o);
    }
  }

  lemma OnSnoc(q: seq<Item>, i: Item, o: Oid)
    ensures On(q + [i], o) == if i.Id() == o then On(q, o) + [i] else On(q, o)
  {
    OnConcat(q, [i], o);
  }

  /** Everything queued at `n`, and every remote stream it holds, is on an opaque of the pair. */
  ghost predicate Traffic(n: Node, p: Node) {
    (Known(n.rxch, n.range + p.range) && Known(n.out, n.range + p.range)
     && forall h | h in n.handles :: h.oid in p.range) == true
  }

  /** If a move of `n` changed only the view of its own opaque `o`, and kept that one good. */
  lemma KeepOwn(n: Node, p: Node, n': Node, o: Oid)
    requires PairInv(n, p) && NodeOk(n') && n'.range == n.range && o in n.range
    requires Good(ViewOf(n', p, o), o)
    requires forall x | x in n.range && x != o :: ViewOf(n', p, x) == ViewOf(n, p, x)
    requires forall x | x in p.range :: ViewOf(p, n', x) == ViewOf(p, n, x)
    requires Traffic(n', p)
    ensures PairInv(n', p)
  {
    forall x | x in n.range ensures Good(ViewOf(n', p, x), x) {
      if x != o { assert ViewOf(n', p, x) == ViewOf(n, p, x); }
    }
    forall x | x in p.range ensures Good(ViewOf(p, n', x), x) {
      assert ViewOf(p, n', x) == ViewOf(p, n, x);
    }
  }

  /** The same for a move of `n` on an opaque of its peer. */
  lemma KeepPeer(n: Node, p: Node, n': Node, o: Oid)
    requires PairInv(n, p) && NodeOk(n') && n'.range == n.range && o in p.range
    requires Good(ViewOf(p, n', o), o)
    requires forall x | x in p.range && x != o :: ViewOf(p, n', x) == ViewOf(p, n, x)
    requires forall x | x in n.range :: ViewOf(n', p, x) == ViewOf(n, p, x)
    requires Traffic(n', p)
    ensures PairInv(n', p)
  {
    forall x | x in p.range ensures Good(ViewOf(p, n', x), x) {
      if x != o { assert ViewOf(p, n', x) == ViewOf(p, n, x); }
    }
    forall x | x in n.range ensures Good(ViewOf(n', p, x), x) {
      assert ViewOf(n', p, x) == ViewOf(n, p, x);
    }
  }

  /** What the views see of an emitted frame. */
  lemma EmitViews(n: Node, p: Node, f: Frame)
    requires NodeOk(n)
    ensures var n' := Emit(n, f);
            && NodeOk(n') && n'.range == n.range
            && (forall x :: ViewOf(n', p, x) == if x == f.oid then VEmit(ViewOf(n, p, x), f) else ViewOf(n, p, x))
            && (forall x :: ViewOf(p, n', x) == if x == f.oid then VReply(ViewOf(p, n, x), f) else ViewOf(p, n, x))
  {
    var n' := Emit(n, f);
    forall x ensures ViewOf(n', p, x) == if x == f.oid then VEmit(ViewOf(n, p, x), f) else ViewOf(n, p, x) {
      EmitView(n, p, f, x);
    }
    forall x ensures ViewOf(p, n', x) == if x == f.oid then VReply(ViewOf(p, n, x), f) else ViewOf(p, n, x) {
      EmitView(n, p, f, x);
    }
  }

  lemma EmitView(n: Node, p: Node, f: Frame, x: Oid)
    ensures ViewOf(Emit(n, f), p, x) == if x == f.oid then VEmit(ViewOf(n, p, x), f) else ViewOf(n, p, x)
    ensures ViewOf(p, Emit(n, f), x) == if x == f.oid then VReply(ViewOf(p, n, x), f) else ViewOf(p, n, x)
  {
    var n' := Emit(n, f);
    OnSnoc(n.out, Packet(f), x);
    OnSnoc(n.log.sent, Packet(f), x);
    if x == f.oid {
      Regroup(On(p.rxch, x), On(n.out, x), [Packet(f)]);
    } else {
      assert On(n'.out, x) == On(n.out, x) && On(n'.log.sent, x) == On(n.log.sent, x);
    }
  }

  /** A change of caller and callback shows in one view only. */
  lemma CallerViews(n: Node, p: Node, o: Oid, c: Caller, cb: Option<nat>)
    requires NodeOk(n) && NodeOk(p) && n.range !! p.range && o in n.range
    ensures var m := n.(callers := n.callers[o := c], cb := n.cb[o := cb]);
            && NodeOk(m)
            && ViewOf(m, p, o) == VSetCaller(ViewOf(n, p, o), c, cb)
            && (forall x | x != o :: ViewOf(m, p, x) == ViewOf(n, p, x))
            && (forall x :: ViewOf(p, m, x) == ViewOf(p, n, x))
  {}

  function SetCaller(n: Node, o: Oid, c: Caller): Node { n.(callers := n.callers[o := c]) }

  lemma SetCallerViews(n: Node, p: Node, o: Oid, c: Caller)
    requires NodeOk(n) && NodeOk(p) && n.range !! p.range && o in n.range
    ensures var m := SetCaller(n, o, c);
            && NodeOk(m)
            && ViewOf(m, p, o) == VSetCaller(ViewOf(n, p, o), c, n.cb[o])
            && (forall x | x != o :: ViewOf(m, p, x) == ViewOf(n, p, x))
            && (forall x :: ViewOf(p, m, x) == ViewOf(p, n, x))
  {
    CallerViews(n, p, o, c, n.cb[o]);
    assert n.cb[o := n.cb[o]] == n.cb;
  }

  // ---- moves of the application on its own streams

  lemma PoolHead(q: seq<Oid>, x: Oid)
    requires q != []
    ensures multiset(q)[x] == multiset(q[1..])[x] + if x == q[0] then 1 else 0
  {
    assert q == [q[0]] + q[1..];
  }

  lemma TakeView(n: Node, p: Node, c: Caller)
    requires NodeOk(n) && n.range !! p.range && n.pool != []
    ensures var v := ViewOf(n, p, n.pool[0]);
            n.pool[0] in n.range && v.pooled >= 1 && ViewOf(Take(n, c), p, n.pool[0]) == VTake(v, c)
  {
    assert n.pool[0] in n.pool;
    PoolHead(n.pool, n.pool[0]);
  }

  lemma TakeOther(n: Node, p: Node, c: Caller, x: Oid)
    requires NodeOk(n) && n.pool != []
    ensures n.pool[0] in n.range
    ensures x != n.pool[0] ==> ViewOf(Take(n, c), p, x) == ViewOf(n, p, x)
    ensures ViewOf(p, Take(n, c), x) == ViewOf(p, n, x)
  {
    assert n.pool[0] in n.pool;
    PoolHead(n.pool, x);
  }

  lemma TakeOk(n: Node, c: Caller)
    requires NodeOk(n) && n.pool != []
    ensures NodeOk(Take(n, c))
  {
    assert n.pool[0] in n.pool;
    assert forall x | x in n.pool[1..] :: x in n.pool;
  }

  lemma StepTake(n: Node, p: Node, c: Caller)
    requires PairInv(n, p) && n.pool != [] && c in {PostTaken, ReqTaken, StrTaken}
    ensures PairInv(Take(n, c), p)
  {
    TakeOk(n, c);
    TakeView(n, p, c);
    forall x ensures x != n.pool[0] ==> ViewOf(Take(n, c), p, x) == ViewOf(n, p, x) { TakeOther(n, p, c, x); }
    forall x ensures ViewOf(p, Take(n, c), x) == ViewOf(p, n, x) { TakeOther(n, p, c, x); }
    KeepTake(ViewOf(n, p, n.pool[0]), n.pool[0], c);
    KeepOwn(n, p, Take(n, c), n.pool[0]);
  }

  lemma TellViews(n: Node, p: Node, o: Oid, c: Caller)
    requires NodeOk(n) && NodeOk(p) && n.range !! p.range && o in n.range && ViewOf(n, p, o).bwd == []
    ensures var n' := PutNotice(n, o, c);
            && ViewOf(n', p, o) == VTell(ViewOf(n, p, o), o, c)
            && (forall x | x in n.range && x != o :: ViewOf(n', p, x) == ViewOf(n, p, x))
            && (forall x | x in p.range :: ViewOf(p, n', x) == ViewOf(p, n, x))
  {
    var n' := PutNotice(n, o, c);
    TellOwn(n, p, o, c);
    forall x | x in n.range && x != o ensures ViewOf(n', p, x) == ViewOf(n, p, x) { TellOther(n, p, o, c, x); }
    forall x | x in p.range ensures ViewOf(p, n', x) == ViewOf(p, n, x) { TellOther(n, p, o, c, x); }
  }

  lemma TellOwn(n: Node, p: Node, o: Oid, c: Caller)
    requires NodeOk(n) && o in n.range && ViewOf(n, p, o).bwd == []
    ensures ViewOf(PutNotice(n, o, c), p, o) == VTell(ViewOf(n, p, o), o, c)
  {
    assert On(n.rxch, o) == [] && On(p.out, o) == [];
    OnSnoc(n.rxch, Notice(o), o);
  }

  lemma TellOther(n: Node, p: Node, o: Oid, c: Caller, x: Oid)
    requires x != o
    ensures ViewOf(PutNotice(n, o, c), p, x) == ViewOf(n, p, x)
    ensures ViewOf(p, PutNotice(n, o, c), x) == ViewOf(p, n, x)
  {
    OnSnoc(n.rxch, Notice(o), x);
  }

  lemma TellOk(n: Node, p: Node, o: Oid, c: Caller)
    requires NodeOk(n) && o in n.range && Traffic(n, p)
    ensures NodeOk(PutNotice(n, o, c)) && Traffic(PutNotice(n, o, c), p)
  {}

  lemma StepTell(n: Node, p: Node, o: Oid)
    requires PairInv(n, p) && CallerIs(n, o, {ReqTaken, StrTaken, ReqCleared})
    ensures PairInv(PutNotice(n, o, AfterTell(n.callers[o])), p)
  {
    var c := AfterTell(n.callers[o]);
    KeepTell(ViewOf(n, p, o), o);
    TellViews(n, p, o, c);
    TellOk(n, p, o, c);
    KeepOwn(n, p, PutNotice(n, o, c), o);
  }

  /** `m` is `n` with another caller or callback on `f.oid` at most; then it emits `f`. */
  lemma EmitOwn(n: Node, p: Node, m: Node, f: Frame)
    requires PairInv(n, p) && NodeOk(m) && f.oid in n.range && m == n.(callers := m.callers, cb := m.cb)
    requires Good(VEmit(ViewOf(m, p, f.oid), f), f.oid)
    requires forall x | x != f.oid :: ViewOf(m, p, x) == ViewOf(n, p, x)
    requires forall x :: ViewOf(p, m, x) == ViewOf(p, n, x)
    ensures PairInv(Emit(m, f), p)
  {
    EmitViews(m, p, f);
    EmitTraffic(m, p, f);
    KeepOwn(n, p, Emit(m, f), f.oid);
  }

  lemma EmitTraffic(n: Node, p: Node, f: Frame)
    requires Traffic(n, p) && f.oid in n.range
    ensures Traffic(Emit(n, f), p)
  {}

  lemma StepFirst(n: Node, p: Node, o: Oid, msg: BinMessage)
    requires PairInv(n, p) && CallerIs(n, o, {PostTaken, ReqNoticed, StrNoticed})
    ensures PairInv(Emit(SetCaller(n, o, AfterFirst(n.callers[o])),
                         Frame(FirstKind(n.callers[o]), o, msg, n.gen[o])), p)
  {
    var f := Frame(FirstKind(n.callers[o]), o, msg, n.gen[o]);
    KeepFirst(ViewOf(n, p, o), o, f);
    SetCallerViews(n, p, o, AfterFirst(n.callers[o]));
    EmitOwn(n, p, SetCaller(n, o, AfterFirst(n.callers[o])), f);
  }

  lemma ReleaseViews(n: Node, p: Node, o: Oid)
    requires NodeOk(n) && NodeOk(p) && n.range !! p.range && o in n.range
    ensures var n' := Release(n, o);
            && NodeOk(n') && n'.range == n.range
            && ViewOf(n', p, o) == VRelease(ViewOf(n, p, o))
            && (forall x | x != o :: ViewOf(n', p, x) == ViewOf(n, p, x))
            && (forall x :: ViewOf(p, n', x) == ViewOf(p, n, x))
  {}

  lemma StepPostReturn(n: Node, p: Node, o: Oid)
    requires PairInv(n, p) && CallerIs(n, o, {PostSent})
    ensures PairInv(Release(n, o), p)
  {
    KeepPostReturn(ViewOf(n, p, o), o);
    ReleaseViews(n, p, o);
    KeepOwn(n, p, Release(n, o), o);
  }

  lemma StepClear(n: Node, p: Node, o: Oid)
    requires PairInv(n, p) && CallerIs(n, o, {ReqDone})
    ensures PairInv(n.(callers := n.callers[o := ReqCleared], cb := n.cb[o := None]), p)
  {
    KeepClear(ViewOf(n, p, o), o);
    CallerViews(n, p, o, ReqCleared, None);
    KeepOwn(n, p, n.(callers := n.callers[o := ReqCleared], cb := n.cb[o := None]), o);
  }

  lemma StepSend(n: Node, p: Node, o: Oid, msg: BinMessage)
    requires PairInv(n, p) && CallerIs(n, o, {StrOpen})
    ensures PairInv(Emit(n, Frame(StreamMsg, o, msg, n.gen[o])), p)
  {
    var f := Frame(StreamMsg, o, msg, n.gen[o]);
    KeepSend(ViewOf(n, p, o), o, f);
    EmitOwn(n, p, n, f);
  }

  lemma StepClose(n: Node, p: Node, o: Oid)
    requires PairInv(n, p) && CallerIs(n, o, {StrOpen})
    ensures PairInv(Emit(SetCaller(n, o, StrClosed), Frame(Finish, o, NO_MESSAGE, n.gen[o])), p)
  {
    var f := Frame(Finish, o, NO_MESSAGE, n.gen[o]);
    KeepClose(ViewOf(n, p, o), o, f);
    SetCallerViews(n, p, o, StrClosed);
    EmitOwn(n, p, SetCaller(n, o, StrClosed), f);
  }

  // ---- moves of the application on remote streams

  function AfterSay(n: Node, h: Handle, f: Frame): Node {
    n.(handles := if f.kind.StreamMsg? then n.handles else n.handles - {h})
  }

  lemma PaidViews(n: Node, p: Node, h: Handle, f: Frame)
    requires NodeOk(n)
    ensures var m := AfterSay(n, h, f);
            && NodeOk(m) && ViewOf(p, m, h.oid) == VPaid(ViewOf(p, n, h.oid), h, f)
            && (forall x | x != h.oid :: ViewOf(p, m, x) == ViewOf(p, n, x))
            && (forall x :: ViewOf(m, p, x) == ViewOf(n, p, x))
  {
    var m := AfterSay(n, h, f);
    assert HandlesOn(n.handles - {h}, h.oid) == HandlesOn(n.handles, h.oid) - {h};
    forall x | x != h.oid ensures ViewOf(p, m, x) == ViewOf(p, n, x) {
      assert HandlesOn(m.handles, x) == HandlesOn(n.handles, x);
    }
  }

  lemma StepSay(n: Node, p: Node, h: Handle, f: Frame)
    requires PairInv(n, p) && h in n.handles && h.oid in p.range && f.oid == h.oid && Answers(h, f)
    ensures PairInv(Emit(AfterSay(n, h, f), f), p)
  {
    PaidViews(n, p, h, f);
    assert h in HandlesOn(n.handles, h.oid);
    KeepSay(ViewOf(p, n, h.oid), h.oid, h, f);
    EmitViews(AfterSay(n, h, f), p, f);
    KeepPeer(n, p, Emit(AfterSay(n, h, f), f), h.oid);
  }

  // ---- the connection

  function Deliver(n: Node, i: Item): Node { n.(rxch := n.rxch + [i]) }

  function Shift(p: Node): Node requires p.out != [] { p.(out := p.out[1..]) }

  /** Moving the head of one queue to the end of another changes no opaque's traffic. */
  lemma OnShift(r: seq<Item>, q: seq<Item>, x: Oid)
    requires q != []
    ensures On(r + [q[0]], x) + On(q[1..], x) == On(r, x) + On(q, x)
  {
    OnConcat(r, [q[0]], x);
    OnConcat([q[0]], q[1..], x);
    assert q == [q[0]] + q[1..];
    Regroup(On(r, x), On([q[0]], x), On(q[1..], x));
  }

  lemma DoRxPath(n: Node, p: Node, x: Oid)
    requires p.out != []
    ensures On(Deliver(n, p.out[0]).rxch, x) + On(Shift(p).out, x) == On(n.rxch, x) + On(p.out, x)
  {
    OnShift(n.rxch, p.out, x);
  }

  lemma DoRxViews(n: Node, p: Node, x: Oid)
    requires p.out != []
    ensures var n', p' := Deliver(n, p.out[0]), Shift(p);
            ViewOf(n', p', x) == ViewOf(n, p, x) && ViewOf(p', n', x) == ViewOf(p, n, x)
  {
    DoRxPath(n, p, x);
  }

  lemma DoRxOk(n: Node, p: Node)
    requires NodeOk(n) && NodeOk(p) && p.out != []
    ensures NodeOk(Deliver(n, p.out[0])) && NodeOk(Shift(p))
  {
    assert p.out[0] in p.out;
    assert forall j | j in p.out[1..] :: j in p.out;
  }

  lemma DoRxTraffic(n: Node, p: Node)
    requires p.out != [] && Traffic(n, p) && Traffic(p, n)
    ensures Traffic(Deliver(n, p.out[0]), p) && Traffic(Shift(p), n)
  {
    assert p.out[0] in p.out;
    assert forall j | j in p.out[1..] :: j in p.out;
  }

  lemma StepDoRx(n: Node, p: Node)
    requires PairInv(n, p) && p.out != []
    ensures PairInv(Deliver(n, p.out[0]), Shift(p))
  {
    var n', p' := Deliver(n, p.out[0]), Shift(p);
    DoRxOk(n, p);
    DoRxTraffic(n, p);
    forall x | x in n.range ensures Good(ViewOf(n', p', x), x) { DoRxViews(n, p, x); }
    forall x | x in p.range ensures Good(ViewOf(p', n', x), x) { DoRxViews(n, p, x); }
  }

  // ---- what a dispatch sends

  /** `r` is `q`, or `q` with one finish frame behind it. */
  predicate MayFinish(q: seq<Item>, r: seq<Item>) {
    || r == q
    || (|r| == |q| + 1 && r[..|q|] == q && r[|q|].Packet? && r[|q|].frame.kind.Finish?
        && r[|q|].frame.msg == NO_MESSAGE)
  }

  lemma FinishOnly(q: seq<Item>, r: seq<Item>)
    requires MayFinish(q, r)
    ensures forall i | i in r :: i in q || (i.Packet? && i.frame.kind.Finish? && i.frame.msg == NO_MESSAGE)
  {
    assert r == q || r == q + [r[|q|]];
  }

  /** Between `n` and `m` at most one finish frame was sent, and the queue of what comes in is the same. */
  predicate Finishes(n: Node, m: Node) {
    m.rxch == n.rxch && m.range == n.range && MayFinish(n.out, m.out) && MayFinish(n.log.sent, m.log.sent)
  }

  lemma CallbackFinishes(n: Node, o: Oid, msg: BinMessage, ok: bool)
    requires Linked(n) && o in n.live
    ensures Finishes(n, Callback(n, o, msg, ok))
  {}

  lemma HandleFinishes(n: Node, f: Frame, hcb: bool)
    requires Linked(n)
    ensures Finishes(n, HandlePkt(n, f, hcb))
  {
    if f.oid in n.live {
      CallbackFinishes(n, f.oid, if f.kind.Finish? then NO_MESSAGE else f.msg, !f.kind.Finish? && !f.kind.Request?);
    }
  }

  /** A dispatch sends nothing but a finish, and takes the head of rxch. */
  lemma SyncFinishes(n: Node, hcb: bool)
    requires NodeOk(n) && n.rxch != []
    ensures Linked(n) && (n.rxch[0].Notice? ==> n.rxch[0].stream in n.range)
    ensures Finishes(n.(rxch := n.rxch[1..]), SyncRx(n, hcb))
  {
    assert n.rxch[0] in n.rxch;
    if n.rxch[0].Packet? { HandleFinishes(n.(rxch := n.rxch[1..]), n.rxch[0].frame, hcb); }
  }
}
