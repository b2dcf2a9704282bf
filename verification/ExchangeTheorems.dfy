/**
  What holds in every reachable state of every run of two nodes: no cross-talk, no drops, ordered
  delivery, counters that agree, notices that are never confused, and a conserved stream pool.
*/
module ExchangeTheorems {
  import opened Wire
  import opened Exchange
  import opened ExchangeView
  import opened ExchangeProof
  import opened ExchangeDispatch
  import opened ExchangeLog

  // ---- reachability

  lemma InitInv(n: Node, p: Node)
    requires n == Fresh(n.range, n.pool) && p == Fresh(p.range, p.pool) && Pooled(n) && Pooled(p)
    requires n.range !! p.range
    ensures SysInv(n, p)
  {
    InitOwned(n, p);
    InitOwned(p, n);
    InitRest(n, p);
    InitRest(p, n);
  }

  lemma InitRest(n: Node, p: Node)
    requires n == Fresh(n.range, n.pool) && p == Fresh(p.range, p.pool) && Pooled(n)
    ensures NodeOk(n) && Traffic(n, p) && LogInv(n, p)
  {}

  lemma InitOwned(n: Node, p: Node)
    requires n == Fresh(n.range, n.pool) && p == Fresh(p.range, p.pool) && Pooled(n)
    ensures Owned(n, p)
  {
    forall o | o in n.range ensures Good(ViewOf(n, p, o), o) {
      var v := ViewOf(n, p, o);
      assert v == View(1, None, 0, None, false, None, {}, [], [], [], []);
    }
  }

  lemma {:induction false} RunKeeps(s: State, ms: seq<Move>, t: State)
    requires SysInv(s.a, s.b) && Run(s, ms, t)
    ensures SysInv(t.a, t.b)
    decreases |ms|
  {
    if ms != [] {
      SysStep(s, ms[0]);
      RunKeeps(Step(s, ms[0]), ms[1..], t);
    }
  }

  ghost predicate ReachablePair(n: Node, p: Node) {
    Reachable(State(n, p)) || Reachable(State(p, n))
  }

  /** The invariant holds in every reachable state, seen from either end. */
  lemma ReachableInv(n: Node, p: Node)
    requires ReachablePair(n, p)
    ensures SysInv(n, p) && NodeOk(n) && NodeOk(p)
  {
    if Reachable(State(n, p)) {
      var s, ms :| Init(s) && Run(s, ms, State(n, p));
      InitInv(s.a, s.b);
      RunKeeps(s, ms, State(n, p));
    } else {
      var s, ms :| Init(s) && Run(s, ms, State(p, n));
      InitInv(s.a, s.b);
      RunKeeps(s, ms, State(p, n));
    }
  }

  lemma ReachableGood(n: Node, p: Node, o: Oid)
    requires ReachablePair(n, p)
    ensures NodeOk(n) && (o in n.range ==> Good(ViewOf(n, p, o), o)) && (o in p.range ==> Good(ViewOf(p, n, o), o))
  {
    ReachableInv(n, p);
  }

  /** Where a local stream is. */
  lemma GoodPlace(n: Node, p: Node, o: Oid)
    requires Good(ViewOf(n, p, o), o)
    ensures multiset(n.pool)[o] == if o in n.callers then 0 else 1
    ensures o in n.live ==> o in n.callers
  {}

  // ---- no cross-talk, no drops

  /** Whatever the history of an opaque, the packet about to be dispatched belongs to the exchange
      that created the entry it meets, and dispatching it calls exactly that exchange's callback or
      the request handler, counts it under its own kind, and drops nothing. */
  lemma NoCrossTalk(n: Node, p: Node, f: Frame, hcb: bool) returns (c: Call)
    requires ReachablePair(n, p) && HeadIs(n, f)
    ensures NodeOk(n) && f.oid in n.range + p.range
    ensures f.oid in p.range ==> Ready(n, f)
    ensures f.oid in n.range ==> Awaits(n, f)
    ensures n.log.mdrops == 0
    ensures Logged(n.log, SyncRx(n, hcb).log, f, f.oid in p.range, c, n.live)
  {
    ReachableInv(n, p);
    assert n.rxch[0] in n.rxch;
    if f.oid in p.range {
      ReadyNow(n, p, f, hcb);
      c := HearShape(n, f, hcb);
    } else {
      AwaitsNow(n, p, f);
      AwaitsMeans(n, p, f);
      if f.kind.Finish? { c := FinShape(n, f, hcb); } else { c := ReplyShape(n, f, hcb); }
    }
  }

  /** The entry, the handle and the caller that the packet finds, and what becomes of them: a peer's
      frame that opens something leaves a handle, and for a stream an entry with the callback that the
      handler returned; the peer's finish removes the entry. */
  lemma HearEffect(n: Node, p: Node, f: Frame, hcb: bool)
    requires ReachablePair(n, p) && HeadIs(n, f) && f.oid in p.range
    ensures NodeOk(n)
    ensures var n' := SyncRx(n, hcb);
            && n' == n.(rxch := n.rxch[1..], live := n'.live, handles := n'.handles, log := n'.log)
            && n'.log.sent == n.log.sent
            && (f.kind.Start? ==> n'.live == n.live[f.oid := Remote(f.gen, hcb)])
            && (f.kind.Finish? ==> n'.live == n.live - {f.oid})
            && (!f.kind.Start? && !f.kind.Finish? ==> n'.live == n.live)
            && (f.kind.Request? || f.kind.Start? ==> n'.handles == n.handles + {Handle(f.oid, f.gen, f.kind)})
            && (!f.kind.Request? && !f.kind.Start? ==> n'.handles == n.handles)
  {
    ReachableInv(n, p);
    ReadyNow(n, p, f, hcb);
    var c := HearShape(n, f, hcb);
  }

  lemma AwaitsHead(n: Node, p: Node, f: Frame)
    requires ReachablePair(n, p) && HeadIs(n, f) && f.oid in n.range
    ensures NodeOk(n) && Awaits(n, f)
  {
    ReachableInv(n, p);
    AwaitsNow(n, p, f);
    AwaitsMeans(n, p, f);
  }

  /** On a local opaque a response wakes the requester and a message changes nothing. */
  lemma ReplyEffect(n: Node, p: Node, f: Frame, hcb: bool)
    requires ReachablePair(n, p) && HeadIs(n, f) && f.oid in n.range && !f.kind.Finish?
    ensures NodeOk(n) && f.oid in n.callers && f.oid in n.live && (f.kind.Request? || f.kind.StreamMsg?)
    ensures f.kind.Request? <==> n.callers[f.oid].ReqSent?
    ensures var n' := SyncRx(n, hcb);
            && n' == n.(rxch := n.rxch[1..], callers := n'.callers, log := n'.log)
            && n'.log.sent == n.log.sent
            && n'.callers == if f.kind.Request? then n.callers[f.oid := ReqDone] else n.callers
  {
    AwaitsHead(n, p, f);
    var c := ReplyShape(n, f, hcb);
  }

  /** A finish on a local opaque gives the stream back; its initiator's callback closes it first if it
      is still open. */
  lemma FinishEffect(n: Node, p: Node, f: Frame, hcb: bool)
    requires ReachablePair(n, p) && HeadIs(n, f) && f.oid in n.range && f.kind.Finish?
    ensures NodeOk(n) && f.oid in n.live && GivesBack(n, SyncRx(n, hcb), f)
  {
    AwaitsHead(n, p, f);
    var c := FinShape(n, f, hcb);
    FinishedGivesBack(n, SyncRx(n, hcb), f);
  }

  ghost predicate GivesBack(n: Node, n': Node, f: Frame) {
    && n.rxch != [] && f.oid in n.callers && n.callers[f.oid] in {StrOpen, StrClosed}
    && n' == n.(rxch := n.rxch[1..], live := n.live - {f.oid}, callers := n.callers - {f.oid},
                pool := n.pool + [f.oid], out := n'.out, log := n'.log)
    && n'.out == n.out + if n.callers[f.oid].StrOpen? then [Packet(Frame(Finish, f.oid, NO_MESSAGE, f.gen))] else []
  }

  lemma FinishedGivesBack(n: Node, n': Node, f: Frame)
    requires n.rxch != [] && Awaits(n, f) && f.kind.Finish?
    requires n' == Finished(n, f.oid).(log := n'.log)
    ensures GivesBack(n, n', f)
  {
    var o := f.oid;
    assert n.callers[o := StrClosed] - {o} == n.callers - {o};
  }

  // ---- notices

  /** A notice at the head of rxch is an open notice exactly when the stream has a callback.  Then
      the stream is not live yet and its exchange is waiting to be opened.  Otherwise it is the
      close notice of a request whose response has been handled, and the stream is still live. */
  lemma NoticesNeverConfused(n: Node, p: Node, o: Oid, hcb: bool)
    requires ReachablePair(n, p) && n.rxch != [] && n.rxch[0] == Notice(o)
    ensures NodeOk(n) && o in n.range && o in n.callers && o in n.cb && o in n.gen && multiset(n.pool)[o] == 0
    ensures n.cb[o].Some? ==> o !in n.live && n.cb[o].value == n.gen[o]
                              && n.callers[o] in {ReqNoticed, ReqSent, StrNoticed, StrOpen, StrClosed}
                              && SyncRx(n, hcb) == Opened(n, o)
    ensures n.cb[o].None? ==> o in n.live && n.callers[o].ReqReturned?
                              && SyncRx(n, hcb) == Release(Unlinked(n, o), o)
  {
    ReachableInv(n, p);
    assert n.rxch[0] in n.rxch;
    NoticeShape(n, p, o, hcb);
    ReachableGood(n, p, o);
    NoticeCaller(n, p, o);
  }

  lemma NoticeCaller(n: Node, p: Node, o: Oid)
    requires Good(ViewOf(n, p, o), o) && n.rxch != [] && n.rxch[0] == Notice(o) && o in n.cb
    ensures o in n.callers && multiset(n.pool)[o] == 0
    ensures n.cb[o].Some? ==> n.callers[o] in {ReqNoticed, ReqSent, StrNoticed, StrOpen, StrClosed}
    ensures n.cb[o].None? ==> n.callers[o].ReqReturned?
  {
    PopView(n, p, o);
    KeepNotice(ViewOf(n, p, o), o);
    GoodPlace(n, p, o);
  }

  /** A notice and a reply for the same opaque are never out of order: while an open notice waits,
      no packet on that opaque stands before it. */
  lemma NoticeBeforeReplies(n: Node, p: Node, o: Oid)
    requires ReachablePair(n, p) && o in n.range && Notice(o) in On(n.rxch, o)
    ensures On(n.rxch, o)[0] == Notice(o) && forall i | 1 <= i < |On(n.rxch, o)| :: On(n.rxch, o)[i].Packet?
  {
    ReachableGood(n, p, o);
    NoticeFirst(ViewOf(n, p, o), o, On(n.rxch, o), On(p.out, o));
  }

  lemma NoticeFirst(v: View, o: Oid, q: seq<Item>, r: seq<Item>)
    requires Good(v, o) && v.bwd == q + r && Notice(o) in q
    ensures q[0] == Notice(o) && forall i | 1 <= i < |q| :: q[i].Packet?
  {
    NoNotices(WaitOf(v.caller, v.gen), Tail(v));
    assert Notice(o) in v.bwd;
    assert v.bwd[0] == Notice(o) && Tail(v) == v.bwd[1..];
    forall i | 1 <= i < |q| ensures q[i].Packet? { assert q[i] == v.bwd[1..][i - 1]; }
  }

  lemma {:induction false} NoNotices(w: Wait, q: seq<Item>)
    requires RunWait(w, q) != Lost
    ensures forall i | i in q :: i.Packet?
    decreases q
  {
    if q != [] {
      WrongStays(q[1..]);
      NoNotices(StepWait(w, q[0]), q[1..]);
      assert q == [q[0]] + q[1..];
    }
  }

  // ---- the stream pool

  /** Each local stream is in the pool exactly once or with exactly one caller, never both; so the
      pool never holds more streams than there are, and strictly fewer while any is out. */
  lemma PoolConserved(n: Node, p: Node)
    requires ReachablePair(n, p)
    ensures forall o | o in n.range :: multiset(n.pool)[o] == if o in n.callers then 0 else 1
    ensures forall o | o in n.live && o in n.range :: o in n.callers
    ensures n.callers.Keys <= n.range && |n.pool| + |n.callers| == |n.range|
  {
    ReachableGood(n, p, 0);
    forall o | o in n.range ensures multiset(n.pool)[o] == (if o in n.callers then 0 else 1)
    {
      ReachableGood(n, p, o);
      GoodPlace(n, p, o);
    }
    forall o | o in n.live && o in n.range ensures o in n.callers {
      ReachableGood(n, p, o);
      GoodPlace(n, p, o);
    }
    PoolSize(n);
  }

  lemma PoolSize(n: Node)
    requires NodeOk(n) && forall o | o in n.range :: multiset(n.pool)[o] == if o in n.callers then 0 else 1
    ensures |n.pool| + |n.callers| == |n.range|
  {
    var pooled := n.range - n.callers.Keys;
    forall o | o in n.pool ensures o in pooled { assert multiset(n.pool)[o] > 0; }
    SeqOfSet(n.pool, pooled);
    TwoParts(n.range, n.callers.Keys);
  }

  lemma TwoParts(all: set<Oid>, part: set<Oid>)
    requires part <= all
    ensures |all - part| + |part| == |all|
  {
    assert all == (all - part) + part;
  }

  /** A sequence that holds each member of a set once, and nothing else, is as long as the set. */
  lemma {:induction false} SeqOfSet(q: seq<Oid>, s: set<Oid>)
    requires (forall o | o in q :: o in s) && forall o | o in s :: multiset(q)[o] == 1
    ensures |q| == |s|
    decreases q
  {
    if q == [] {
      assert forall o | o in s :: multiset(q)[o] == 1;
      assert s == {};
    } else {
      var r := s - {q[0]};
      assert q == [q[0]] + q[1..];
      forall o | o in r ensures multiset(q[1..])[o] == 1 { PoolHead(q, o); }
      forall o | o in q[1..] ensures o in r {
        assert o in q && multiset(q[1..])[o] > 0;
        PoolHead(q, o);
      }
      SeqOfSet(q[1..], r);
    }
  }

  /** A stream going back to the pool finds room: the capacity is at least the number of streams. */
  lemma ReleaseNeverBlocks(n: Node, p: Node, o: Oid, capacity: nat)
    requires ReachablePair(n, p) && o in n.callers && |n.range| <= capacity
    ensures |n.pool| < capacity
  {
    PoolConserved(n, p);
    assert n.callers != map[];
  }

  // ---- progress

  /** All that can happen is that an application takes another stream. */
  ghost predicate OnlyNew(n: Node, p: Node) { forall a: Action | Enabled(n, p, a) :: a.TakeFor? }

  /** With nothing on its way on an opaque, its caller waits for the peer's application at most, which
      then has a handle of that very exchange. */
  lemma IdleView(v: View, o: Oid)
    requires Good(v, o) && v.fwd == [] && v.bwd == []
    ensures !IsIn(v.caller, {ReqReturned})
    ensures v.owed == if IsIn(v.caller, {ReqSent}) then {Handle(o, v.gen, Request)}
                      else if IsIn(v.caller, {StrOpen, StrClosed}) then {Handle(o, v.gen, Start)} else {}
    ensures v.ear.Some? ==> IsIn(v.caller, {StrOpen})
  {}

  lemma NothingOnTheWay(n: Node, p: Node)
    requires OnlyNew(n, p) && OnlyNew(p, n)
    ensures n.rxch == [] && p.rxch == [] && n.out == [] && p.out == []
  {
    assert Enabled(n, p, DoRx) <==> p.out != [];
    assert Enabled(p, n, DoRx) <==> n.out != [];
    assert Enabled(n, p, Dispatch(true)) <==> n.rxch != [];
    assert Enabled(p, n, Dispatch(true)) <==> p.rxch != [];
  }

  /** What the caller of a stream can do next, if it is its turn. */
  function NextMove(o: Oid, c: Caller): Action {
    match c
    case PostTaken => SendFirst(o, NO_MESSAGE)
    case ReqNoticed => SendFirst(o, NO_MESSAGE)
    case StrNoticed => SendFirst(o, NO_MESSAGE)
    case PostSent => PostReturn(o)
    case ReqDone => Action.Clear(o)
    case StrOpen => Close(o)
    case _ => Tell(o)
  }

  lemma CallerWaits(n: Node, p: Node, o: Oid)
    requires OnlyNew(n, p) && o in n.callers
    ensures n.callers[o] in {ReqSent, StrClosed, ReqReturned}
  {
    var a := NextMove(o, n.callers[o]);
    assert Enabled(n, p, a) ==> a.TakeFor?;
  }

  lemma NoHandles(n: Node, p: Node)
    requires OnlyNew(n, p)
    ensures forall h | h in n.handles :: !h.kind.Request? && !h.kind.Start?
  {
    forall h | h in n.handles ensures !h.kind.Request? && !h.kind.Start? {
      assert Enabled(n, p, Respond(h, NO_MESSAGE)) <==> h.kind.Request?;
      assert Enabled(n, p, RemoteClose(h)) <==> h.kind.Start?;
    }
  }

  lemma IdleOpaque(n: Node, p: Node, o: Oid)
    requires ReachablePair(n, p) && OnlyNew(n, p) && OnlyNew(p, n) && o in n.range
    ensures o !in n.callers && o !in p.live && forall h | h in p.handles :: h.oid != o
  {
    var v := ViewOf(n, p, o);
    ReachableGood(n, p, o);
    NothingOnTheWay(n, p);
    NoHandles(p, n);
    assert v.fwd == [] && v.bwd == [];
    IdleView(v, o);
    if o in n.callers { CallerWaits(n, p, o); NotOwed(v, p, o); }
    HandlesNone(p, o);
  }

  lemma NotOwed(v: View, p: Node, o: Oid)
    requires v.owed == HandlesOn(p.handles, o) && forall h | h in p.handles :: !h.kind.Request? && !h.kind.Start?
    ensures v.owed != {Handle(o, v.gen, Request)} && v.owed != {Handle(o, v.gen, Start)}
  {
    assert Handle(o, v.gen, Request) !in p.handles && Handle(o, v.gen, Start) !in p.handles;
    assert Handle(o, v.gen, Request) !in v.owed && Handle(o, v.gen, Start) !in v.owed;
  }

  lemma HandlesNone(p: Node, o: Oid)
    requires HandlesOn(p.handles, o) == {}
    ensures forall h | h in p.handles :: h.oid != o
  {
    forall h | h in p.handles ensures h.oid != o { assert h.oid == o ==> h in HandlesOn(p.handles, o); }
  }

  lemma HandlesAtHome(n: Node, p: Node)
    requires ReachablePair(n, p)
    ensures forall h | h in n.handles :: h.oid in p.range
  {
    ReachableInv(n, p);
    forall h | h in n.handles ensures h.oid in p.range { HandlesHome(n, p, h); }
  }

  /** No stream is ever lost and no exchange gets stuck: in a reachable state in which neither end can
      make any move but to take another stream, every stream is back in its pool, nothing is live and
      nobody owes an answer.  As long as any is out, somebody can move. */
  lemma NeverStuck(n: Node, p: Node)
    requires ReachablePair(n, p) && OnlyNew(n, p) && OnlyNew(p, n)
    ensures n.rxch == [] && n.out == [] && n.callers == map[] && |n.pool| == |n.range|
    ensures forall o | o in n.range + p.range :: o !in n.live
    ensures n.handles == {}
  {
    NothingOnTheWay(n, p);
    PoolConserved(n, p);
    HandlesAtHome(n, p);
    forall o | o in n.range ensures o !in n.callers { IdleOpaque(n, p, o); }
    forall o | o in p.range ensures o !in n.live && forall h | h in n.handles :: h.oid != o { IdleOpaque(p, n, o); }
  }

  /** The streams that their initiators have open. */
  ghost function Open(n: Node): set<Oid> { set o | o in n.callers && n.callers[o].StrOpen? }

  /** What the node has still to read and to handle, with the closes that handling may cause. */
  ghost function Load(n: Node): nat { 2 * |n.out| + |n.rxch| + 3 * |Open(n)| }

  lemma OpenSame(n: Node, m: Node)
    requires forall o :: o in m.callers && m.callers[o].StrOpen? <==> o in n.callers && n.callers[o].StrOpen?
    ensures Open(m) == Open(n)
  {}

  lemma OpenLess(n: Node, m: Node, o: Oid)
    requires m.callers == n.callers - {o} && o in n.callers
    ensures |Open(m)| + (if n.callers[o].StrOpen? then 1 else 0) == |Open(n)|
  {
    OpenWithout(n, m, o);
    OneLess(Open(n), Open(m), o);
  }

  lemma OpenWithout(n: Node, m: Node, o: Oid)
    requires m.callers == n.callers - {o}
    ensures Open(m) == Open(n) - {o}
  {}

  lemma OneLess(a: set<Oid>, b: set<Oid>, o: Oid)
    requires b == a - {o}
    ensures |b| + (if o in a then 1 else 0) == |a|
  {
    assert a == if o in a then b + {o} else b;
  }

  lemma HearLoad(n: Node, p: Node, f: Frame, hcb: bool)
    requires ReachablePair(n, p) && HeadIs(n, f) && f.oid in p.range
    ensures NodeOk(n) && Load(SyncRx(n, hcb)) < Load(n)
  {
    HearEffect(n, p, f, hcb);
    OpenSame(n, SyncRx(n, hcb));
  }

  lemma ReplyLoad(n: Node, p: Node, f: Frame, hcb: bool)
    requires ReachablePair(n, p) && HeadIs(n, f) && f.oid in n.range && !f.kind.Finish?
    ensures NodeOk(n) && Load(SyncRx(n, hcb)) < Load(n)
  {
    ReplyEffect(n, p, f, hcb);
    OpenSame(n, SyncRx(n, hcb));
  }

  lemma FinishLoad(n: Node, p: Node, f: Frame, hcb: bool)
    requires ReachablePair(n, p) && HeadIs(n, f) && f.oid in n.range && f.kind.Finish?
    ensures NodeOk(n) && Load(SyncRx(n, hcb)) < Load(n)
  {
    FinishEffect(n, p, f, hcb);
    GivenLoad(n, SyncRx(n, hcb), f);
  }

  lemma GivenLoad(n: Node, m: Node, f: Frame)
    requires GivesBack(n, m, f)
    ensures Load(m) < Load(n)
  {
    OpenLess(n, m, f.oid);
  }

  lemma NoticeLoad(n: Node, p: Node, o: Oid, hcb: bool)
    requires ReachablePair(n, p) && n.rxch != [] && n.rxch[0] == Notice(o)
    ensures NodeOk(n) && o in n.range && Load(SyncRx(n, hcb)) < Load(n)
  {
    NoticesNeverConfused(n, p, o, hcb);
    if n.cb[o].Some? { OpenSame(n, Opened(n, o)); } else { OpenLess(n, Release(Unlinked(n, o), o), o); }
  }

  lemma DispatchLoad(n: Node, p: Node, hcb: bool)
    requires ReachablePair(n, p) && n.rxch != []
    ensures NodeOk(n) && (n.rxch[0].Notice? ==> n.rxch[0].stream in n.range) && Load(SyncRx(n, hcb)) < Load(n)
  {
    match n.rxch[0]
    case Notice(o) => NoticeLoad(n, p, o, hcb);
    case Packet(f) =>
      HeadKnown(n, p, f);
      if f.oid in p.range { HearLoad(n, p, f, hcb); }
      else if f.kind.Finish? { FinishLoad(n, p, f, hcb); }
      else { ReplyLoad(n, p, f, hcb); }
  }

  lemma HeadKnown(n: Node, p: Node, f: Frame)
    requires ReachablePair(n, p) && HeadIs(n, f)
    ensures NodeOk(n) && f.oid in n.range + p.range
  {
    ReachableInv(n, p);
    assert n.rxch[0] in n.rxch;
  }

  /** The moves of the event loops and of the receivers: no application takes part. */
  predicate Handling(a: Action) { a.DoRx? || a.Dispatch? }

  lemma HandlingDown(n: Node, p: Node, a: Action)
    requires ReachablePair(n, p) && NodeOk(n) && Enabled(n, p, a) && Handling(a)
    ensures var (n', p') := Act(n, p, a); Load(n') + Load(p') < Load(n) + Load(p)
  {
    if a.DoRx? { OpenSame(n, Act(n, p, a).0); OpenSame(p, Act(n, p, a).1); } else { DispatchLoad(n, p, a.hcb); }
  }

  lemma ReachableStep(s: State, m: Move)
    requires Reachable(s) && CanStep(s, m)
    ensures Reachable(Step(s, m))
  {
    var s0, ms :| Init(s0) && Run(s0, ms, s);
    RunSnoc(s0, ms, s, m);
  }

  lemma StepDown(s: State, m: Move)
    requires Reachable(s) && CanStep(s, m) && Handling(m.act)
    ensures Load(Step(s, m).a) + Load(Step(s, m).b) < Load(s.a) + Load(s.b)
  {
    assert s == State(s.a, s.b);
    if m.left { HandlingDown(s.a, s.b, m.act); } else { HandlingDown(s.b, s.a, m.act); }
  }

  /** Without the applications the two ends come to rest: reading and handling what is on the way, and
      the closes that this causes, takes at most as many moves as there is load. */
  lemma {:induction false} HandlingEnds(s: State, ms: seq<Move>, t: State)
    requires Reachable(s) && Run(s, ms, t) && forall m | m in ms :: Handling(m.act)
    ensures |ms| <= Load(s.a) + Load(s.b)
    decreases |ms|
  {
    if ms != [] {
      assert ms[0] in ms && forall m | m in ms[1..] :: m in ms;
      StepDown(s, ms[0]);
      ReachableStep(s, ms[0]);
      HandlingEnds(Step(s, ms[0]), ms[1..], t);
    }
  }

  // ---- delivery

  /** The items of one exchange. */
  function Of(q: seq<Item>, o: Oid, g: nat): seq<Item> {
    if q == [] then []
    else
      var i := q[|q|-1];
      Of(q[..|q|-1], o, g) + if i.Packet? && i.Id() == o && i.frame.gen == g then [i] else []
  }

  /** The calls of one exchange. */
  function CallsOf(cs: seq<Call>, o: Oid, g: nat): seq<Call> {
    if cs == [] then []
    else CallsOf(cs[..|cs|-1], o, g) + if cs[|cs|-1].oid == o && cs[|cs|-1].gen == g then [cs[|cs|-1]] else []
  }

  lemma {:induction false} OfConcat(q: seq<Item>, r: seq<Item>, o: Oid, g: nat)
    ensures Of(q + r, o, g) == Of(q, o, g) + Of(r, o, g)
    decreases r
  {
    if r == [] {
      assert q + r == q;
    } else {
      assert (q + r)[..|q + r| - 1] == q + r[..|r|-1];
      OfConcat(q, r[..|r|-1], o, g);
    }
  }

  lemma {:induction false} OfPackets(q: seq<Item>, o: Oid, g: nat)
    requires AllPackets(q)
    ensures AllPackets(Of(q, o, g))
    decreases q
  {
    if q != [] { OfPackets(q[..|q|-1], o, g); }
  }

  lemma {:induction false} ExpectConcat(q: seq<Item>, r: seq<Item>, owner: set<Oid>)
    requires AllPackets(q) && AllPackets(r)
    ensures ExpectAll(q + r, owner) == ExpectAll(q, owner) + ExpectAll(r, owner)
    decreases r
  {
    if r == [] {
      assert q + r == q;
    } else {
      assert (q + r)[..|q + r| - 1] == q + r[..|r|-1];
      ExpectConcat(q, r[..|r|-1], owner);
    }
  }

  lemma CallsSnoc(cs: seq<Call>, c: Call, o: Oid, g: nat)
    ensures CallsOf(cs + [c], o, g) == if c.oid == o && c.gen == g then CallsOf(cs, o, g) + [c] else CallsOf(cs, o, g)
  {
    assert (cs + [c])[..|cs|] == cs;
  }

  lemma OfSnoc(q: seq<Item>, i: Item, o: Oid, g: nat)
    ensures Of(q + [i], o, g) == if i.Packet? && i.Id() == o && i.frame.gen == g then Of(q, o, g) + [i] else Of(q, o, g)
  {
    assert (q + [i])[..|q|] == q;
  }

  lemma ExpectSnoc(q: seq<Item>, i: Item, owner: set<Oid>)
    requires AllPackets(q) && i.Packet?
    ensures ExpectAll(q + [i], owner) == ExpectAll(q, owner) + [Expected(i.frame, i.Id() in owner)]
  {
    assert (q + [i])[..|q|] == q;
  }

  lemma ExpectOfSnoc(h: seq<Item>, l: Item, owner: set<Oid>, o: Oid, g: nat)
    requires AllPackets(h) && l.Packet? && AllPackets(Of(h, o, g))
    requires CallsOf(ExpectAll(h, owner), o, g) == ExpectAll(Of(h, o, g), owner)
    ensures AllPackets(Of(h + [l], o, g))
    ensures CallsOf(ExpectAll(h + [l], owner), o, g) == ExpectAll(Of(h + [l], o, g), owner)
  {
    var c := Expected(l.frame, l.Id() in owner);
    ExpectSnoc(h, l, owner);
    OfSnoc(h, l, o, g);
    CallsSnoc(ExpectAll(h, owner), c, o, g);
    ExpectedIds(l.frame, l.Id() in owner);
    if l.Id() == o && l.frame.gen == g { ExpectSnoc(Of(h, o, g), l, owner); }
  }

  lemma ExpectedIds(f: Frame, own: bool)
    ensures Expected(f, own).oid == f.oid && Expected(f, own).gen == f.gen
  {}

  /** Selecting an exchange's calls and expecting its frames commute. */
  lemma {:induction false} ExpectOf(q: seq<Item>, owner: set<Oid>, o: Oid, g: nat)
    requires AllPackets(q)
    ensures AllPackets(Of(q, o, g)) && CallsOf(ExpectAll(q, owner), o, g) == ExpectAll(Of(q, o, g), owner)
    decreases q
  {
    if q != [] {
      var h, l := q[..|q|-1], q[|q|-1];
      assert q == h + [l];
      ExpectOf(h, owner, o, g);
      ExpectOfSnoc(h, l, owner, o, g);
    }
  }

  lemma {:induction false} PlainOf(cs: seq<Call>, o: Oid, g: nat)
    ensures CallsOf(PlainAll(cs), o, g) == PlainAll(CallsOf(cs, o, g))
    decreases cs
  {
    if cs != [] {
      var h := cs[..|cs|-1];
      PlainOf(h, o, g);
      assert PlainAll(cs)[..|cs|-1] == PlainAll(h);
      assert CallsOf(PlainAll(cs), o, g)
          == CallsOf(PlainAll(h), o, g)
             + if cs[|cs|-1].oid == o && cs[|cs|-1].gen == g then [Plain(cs[|cs|-1])] else [];
    }
  }

  lemma {:induction false} HeardOf(cs: seq<Call>, o: Oid, g: nat)
    requires forall c | c in cs && c.ToStream? && c.oid == o && c.gen == g :: c.heard
    ensures PlainAll(CallsOf(cs, o, g)) == CallsOf(cs, o, g)
    decreases cs
  {
    if cs != [] { HeardOf(cs[..|cs|-1], o, g); assert cs[|cs|-1] in cs; }
  }

  /** In each direction of each exchange, the calls the receiver's application has seen are the
      calls for the frames sent, in send order and without gaps, minus those still in flight. */
  lemma Delivery(n: Node, p: Node, o: Oid, g: nat)
    requires ReachablePair(n, p)
    ensures AllPackets(n.log.sent) && AllPackets(Of(n.log.sent, o, g)) && AllPackets(Of(Flight(n, p), o, g))
    ensures ExpectAll(Of(n.log.sent, o, g), n.range)
         == PlainAll(CallsOf(p.log.calls, o, g)) + ExpectAll(Of(Flight(n, p), o, g), n.range)
    ensures (o, g) !in p.log.muted ==> PlainAll(CallsOf(p.log.calls, o, g)) == CallsOf(p.log.calls, o, g)
  {
    ReachableInv(n, p);
    var got, fl := p.log.got, Flight(n, p);
    assert AllPackets(fl) by {
      forall i | i in fl ensures i.Packet? { assert i in n.log.sent; }
    }
    OfConcat(got, fl, o, g);
    OfPackets(n.log.sent, o, g);
    OfPackets(got, o, g);
    OfPackets(fl, o, g);
    ExpectConcat(Of(got, o, g), Of(fl, o, g), n.range);
    ExpectOf(got, n.range, o, g);
    PlainOf(p.log.calls, o, g);
    if (o, g) !in p.log.muted { HeardOf(p.log.calls, o, g); }
  }

  // ---- nothing after the close

  /** Frames that end what their sender has to say in an exchange. */
  predicate Ends(i: Item, senderOwns: bool) {
    i.Packet? && (i.frame.kind.Finish? || (i.frame.kind.Request? && !senderOwns))
  }

  function Gen(q: seq<Item>, g: nat): seq<Item> {
    if q == [] then [] else (if q[0].Packet? && q[0].frame.gen == g then [q[0]] else []) + Gen(q[1..], g)
  }

  predicate EndsLast(q: seq<Item>, senderOwns: bool) {
    forall i | 0 <= i < |q| - 1 :: !Ends(q[i], senderOwns)
  }

  lemma {:induction false} EarPast(e: Ear, q: seq<Item>, g: nat)
    requires RunEar(e, q) != Wrong && ((e.Silent? && g <= e.last) || (e.Listening? && g < e.gen))
    ensures Gen(q, g) == []
    decreases q
  {
    if q != [] {
      WrongStays(q[1..]);
      EarPast(StepEar(e, q[0]), q[1..], g);
    }
  }

  lemma {:induction false} EarEndsLast(e: Ear, q: seq<Item>, g: nat)
    requires RunEar(e, q) != Wrong
    ensures EndsLast(Gen(q, g), true)
    decreases q
  {
    if q != [] {
      WrongStays(q[1..]);
      var e1 := StepEar(e, q[0]);
      EarEndsLast(e1, q[1..], g);
      if q[0].frame.gen == g && q[0].frame.kind.Finish? { EarPast(e1, q[1..], g); }
    }
  }

  lemma {:induction false} TalkPast(t: Talk, q: seq<Item>, g: nat)
    requires RunTalk(t, q) != Babble && ((t.Said? && g <= t.last) || (t.Talking? && g < t.gen))
    ensures Gen(q, g) == []
    decreases q
  {
    if q != [] {
      BabbleStays(q[1..]);
      TalkPast(StepTalk(t, q[0]), q[1..], g);
    }
  }

  lemma {:induction false} BabbleStays(q: seq<Item>)
    ensures RunTalk(Babble, q) == Babble
  {
    if q != [] { BabbleStays(q[1..]); }
  }

  lemma {:induction false} TalkEndsLast(t: Talk, q: seq<Item>, g: nat)
    requires RunTalk(t, q) != Babble
    ensures EndsLast(Gen(q, g), false)
    decreases q
  {
    if q != [] {
      BabbleStays(q[1..]);
      var t1 := StepTalk(t, q[0]);
      TalkEndsLast(t1, q[1..], g);
      if q[0].frame.gen == g && Ends(q[0], false) { TalkPast(t1, q[1..], g); }
    }
  }

  lemma {:induction false} OfIsGen(q: seq<Item>, o: Oid, g: nat)
    requires AllPackets(q)
    ensures Of(q, o, g) == Gen(On(q, o), g)
    decreases q
  {
    if q != [] {
      var h, l := q[..|q|-1], q[|q|-1];
      OfIsGen(h, o, g);
      assert q == h + [l];
      OnSnoc(h, l, o);
      if l.Id() == o { GenSnoc(On(h, o), l, g); }
    }
  }

  lemma {:induction false} GenSnoc(q: seq<Item>, i: Item, g: nat)
    ensures Gen(q + [i], g) == Gen(q, g) + if i.Packet? && i.frame.gen == g then [i] else []
    decreases q
  {
    if q == [] {
      assert q + [i] == [i] && Gen([i][1..], g) == [];
    } else {
      assert (q + [i])[1..] == q[1..] + [i];
      GenSnoc(q[1..], i, g);
    }
  }

  /** Each end closes an exchange at most once and says nothing in it afterwards; by `Delivery` the
      other end's callback therefore sees exactly one close, and nothing after it. */
  lemma NothingAfterClose(n: Node, p: Node, o: Oid, g: nat)
    requires ReachablePair(n, p) && o in n.range + p.range
    ensures EndsLast(Of(n.log.sent, o, g), o in n.range)
  {
    ReachableInv(n, p);
    OfIsGen(n.log.sent, o, g);
    ReachableGood(n, p, o);
    if o in n.range { GoodSaidFwd(ViewOf(n, p, o), o, g); } else { GoodSaidBwd(ViewOf(p, n, o), o, g); }
  }

  lemma GoodSaidFwd(v: View, o: Oid, g: nat)
    requires Good(v, o)
    ensures EndsLast(Gen(v.saidFwd, g), true)
  {
    EarEndsLast(Silent(0), v.saidFwd, g);
  }

  lemma GoodSaidBwd(v: View, o: Oid, g: nat)
    requires Good(v, o)
    ensures EndsLast(Gen(v.saidBwd, g), false)
  {
    TalkEndsLast(Said(0), v.saidBwd, g);
  }

  /** A close, or the one response: the callback's boolean is false. */
  predicate Closing(c: Call) { c.ToStream? && !c.ok }

  lemma {:induction false} ExpectLen(q: seq<Item>, owner: set<Oid>)
    requires AllPackets(q)
    ensures |ExpectAll(q, owner)| == |q|
    decreases q
  {
    if q != [] { ExpectLen(q[..|q|-1], owner); }
  }

  lemma {:induction false} ExpectAt(q: seq<Item>, owner: set<Oid>, k: nat)
    requires AllPackets(q) && k < |q|
    ensures |ExpectAll(q, owner)| == |q| && ExpectAll(q, owner)[k] == Expected(q[k].frame, q[k].Id() in owner)
    decreases q
  {
    ExpectLen(q, owner);
    ExpectLen(q[..|q|-1], owner);
    if k < |q| - 1 { ExpectAt(q[..|q|-1], owner, k); }
  }

  lemma {:induction false} OfIds(q: seq<Item>, o: Oid, g: nat)
    ensures forall i | i in Of(q, o, g) :: i.Packet? && i.Id() == o && i.frame.gen == g
    decreases q
  {
    if q != [] { OfIds(q[..|q|-1], o, g); }
  }

  lemma CloseFacts(n: Node, p: Node, o: Oid, g: nat)
    requires ReachablePair(n, p) && o in n.range + p.range
    ensures var calls, said := CallsOf(p.log.calls, o, g), Of(n.log.sent, o, g);
            && |calls| <= |said| && EndsLast(said, o in n.range) && (Of(Flight(n, p), o, g) == [] ==> |calls| == |said|)
            && forall i | 0 <= i < |calls| :: Closing(calls[i]) <==> Ends(said[i], o in n.range)
  {
    Delivery(n, p, o, g);
    NothingAfterClose(n, p, o, g);
    OfIds(n.log.sent, o, g);
    ClosesMatch(CallsOf(p.log.calls, o, g), Of(n.log.sent, o, g), Of(Flight(n, p), o, g), n.range, o);
  }

  /** Of these calls only the last one can be closing; and if nothing is in flight there is a call for
      every frame, the last one closing if and only if the last frame ends what its sender says. */
  ghost predicate SeenOnce(calls: seq<Call>, said: seq<Item>, fl: seq<Item>, own: bool) {
    ((forall i | 0 <= i < |calls| - 1 :: !Closing(calls[i]))
     && (fl == [] ==> |calls| == |said|
                      && (said != [] ==> (Closing(calls[|calls|-1]) <==> Ends(said[|said|-1], own))))) == true
  }

  lemma ClosedOnce(calls: seq<Call>, said: seq<Item>, fl: seq<Item>, own: bool)
    requires |calls| <= |said| && EndsLast(said, own) && (fl == [] ==> |calls| == |said|)
    requires forall i | 0 <= i < |calls| :: Closing(calls[i]) <==> Ends(said[i], own)
    ensures SeenOnce(calls, said, fl, own)
  {}

  /** A receiver sees at most one closing call of an exchange, as the last call it ever sees there;
      and once nothing is in flight it has seen it if and only if the other end has closed. */
  lemma SeesCloseOnce(n: Node, p: Node, o: Oid, g: nat)
    requires ReachablePair(n, p) && o in n.range + p.range
    ensures SeenOnce(CallsOf(p.log.calls, o, g), Of(n.log.sent, o, g), Of(Flight(n, p), o, g), o in n.range)
  {
    CloseFacts(n, p, o, g);
    ClosedOnce(CallsOf(p.log.calls, o, g), Of(n.log.sent, o, g), Of(Flight(n, p), o, g), o in n.range);
  }

  lemma CloseKept(c: Call, f: Frame, own: bool)
    requires Plain(c) == Expected(f, own)
    ensures Closing(c) <==> Ends(Packet(f), own)
  {}

  /** Calls that mirror a prefix of the frames close where the frames end. */
  lemma ClosesMatch(calls: seq<Call>, said: seq<Item>, fl: seq<Item>, owner: set<Oid>, o: Oid)
    requires AllPackets(said) && AllPackets(fl) && forall i | i in said :: i.Id() == o
    requires ExpectAll(said, owner) == PlainAll(calls) + ExpectAll(fl, owner)
    ensures |calls| <= |said| && (fl == [] ==> |calls| == |said|)
    ensures forall i | 0 <= i < |calls| :: Closing(calls[i]) <==> Ends(said[i], o in owner)
  {
    ExpectLen(said, owner);
    ExpectLen(fl, owner);
    forall i | 0 <= i < |calls| ensures Closing(calls[i]) <==> Ends(said[i], o in owner) {
      assert Plain(calls[i]) == ExpectAll(said, owner)[i];
      ExpectAt(said, owner, i);
      CloseKept(calls[i], said[i].frame, said[i].Id() in owner);
      assert said[i] in said;
    }
  }

  /** Frames that open an exchange. */
  predicate Opens(f: Frame) { f.kind.Post? || f.kind.Request? || f.kind.Start? }

  lemma {:induction false} EarOpens(e: Ear, q: seq<Item>, g: nat)
    requires RunEar(e, q) != Wrong
    ensures forall i | 0 <= i < |Gen(q, g)| ::
              Gen(q, g)[i].Packet? && (Opens(Gen(q, g)[i].frame) <==> i == 0 && e != Listening(g))
    decreases q
  {
    if q != [] {
      WrongStays(q[1..]);
      var e1 := StepEar(e, q[0]);
      EarOpens(e1, q[1..], g);
      if q[0].frame.gen == g && e1 != Listening(g) { EarPast(e1, q[1..], g); }
    }
  }

  /** What an owner says in one exchange is one opening frame and then, for a stream, its messages:
      the opening frame is first and is the only one. */
  lemma OpensFirst(n: Node, p: Node, o: Oid, g: nat)
    requires ReachablePair(n, p) && o in n.range
    ensures var said := Of(n.log.sent, o, g);
            forall i | 0 <= i < |said| :: said[i].Packet? && (Opens(said[i].frame) <==> i == 0)
  {
    ReachableInv(n, p);
    ReachableGood(n, p, o);
    OfIsGen(n.log.sent, o, g);
    GoodOpens(ViewOf(n, p, o), o, g);
  }

  lemma GoodOpens(v: View, o: Oid, g: nat)
    requires Good(v, o)
    ensures forall i | 0 <= i < |Gen(v.saidFwd, g)| ::
              Gen(v.saidFwd, g)[i].Packet? && (Opens(Gen(v.saidFwd, g)[i].frame) <==> i == 0)
  {
    EarOpens(Silent(0), v.saidFwd, g);
  }

  // ---- counters

  function Plus(a: Counts, b: Counts): Counts {
    Counts(a.post + b.post, a.req + b.req, a.resp + b.resp, a.start + b.start, a.stream + b.stream, a.fin + b.fin)
  }

  lemma PlusBump(a: Counts, b: Counts, r: Role)
    ensures Plus(a, b).Bump(r) == Plus(a, b.Bump(r))
  {}

  lemma CountSnoc(q: seq<Item>, i: Item, owner: set<Oid>)
    requires AllPackets(q) && i.Packet?
    ensures AllPackets(q + [i])
    ensures CountAll(q + [i], owner) == CountAll(q, owner).Bump(RoleOf(i.frame, i.Id() in owner))
  {
    assert (q + [i])[..|q|] == q;
  }

  lemma {:induction false} CountConcat(q: seq<Item>, r: seq<Item>, owner: set<Oid>)
    requires AllPackets(q) && AllPackets(r)
    ensures CountAll(q + r, owner) == Plus(CountAll(q, owner), CountAll(r, owner))
    decreases r
  {
    if r == [] {
      assert q + r == q;
    } else {
      var h, l := r[..|r|-1], r[|r|-1];
      assert r == h + [l] && q + r == (q + h) + [l];
      CountConcat(q, h, owner);
      CountSnoc(q + h, l, owner);
      CountSnoc(h, l, owner);
      PlusBump(CountAll(q, owner), CountAll(h, owner), RoleOf(l.frame, l.Id() in owner));
    }
  }

  lemma {:induction false} CountSum(q: seq<Item>, owner: set<Oid>)
    requires AllPackets(q)
    ensures CountAll(q, owner).Sum() == |q|
    decreases q
  {
    if q != [] { CountSum(q[..|q|-1], owner); }
  }

  /** A frame of one kind; of the shape that requests and responses share, a request, or a response, of
      the sender with the local opaques `owner`. */
  predicate Is(i: Item, kind: Kind, owner: set<Oid>, own: bool) {
    i.Packet? && i.frame.kind == kind && (kind.Request? ==> (i.frame.oid in owner <==> own))
  }

  /** Where such frames stand. */
  function Where(q: seq<Item>, kind: Kind, owner: set<Oid>, own: bool): set<int> {
    set i | 0 <= i < |q| && Is(q[i], kind, owner, own)
  }

  /** Each counter is the number of frames of its kind. */
  predicate Tallies(c: Counts, q: seq<Item>, owner: set<Oid>) {
    && c.post == |Where(q, Post, owner, true)| && c.start == |Where(q, Start, owner, true)|
    && c.req == |Where(q, Request, owner, true)| && c.resp == |Where(q, Request, owner, false)|
    && c.stream == |Where(q, StreamMsg, owner, true)| && c.fin == |Where(q, Finish, owner, true)|
  }

  lemma WhereSnoc(q: seq<Item>, x: Item, kind: Kind, owner: set<Oid>, own: bool)
    ensures |Where(q + [x], kind, owner, own)|
         == |Where(q, kind, owner, own)| + if Is(x, kind, owner, own) then 1 else 0
  {
    var w, w' := Where(q, kind, owner, own), Where(q + [x], kind, owner, own);
    forall i ensures i in w' <==> i in w || (i == |q| && Is(x, kind, owner, own)) {
      if 0 <= i < |q| { assert (q + [x])[i] == q[i]; }
    }
    if Is(x, kind, owner, own) { assert w' == w + {|q|}; } else { assert w' == w; }
  }

  lemma TalliesSnoc(c: Counts, q: seq<Item>, i: Item, owner: set<Oid>)
    requires Tallies(c, q, owner) && i.Packet?
    ensures Tallies(c.Bump(RoleOf(i.frame, i.frame.oid in owner)), q + [i], owner)
  {
    WhereSnoc(q, i, Post, owner, true);
    WhereSnoc(q, i, Start, owner, true);
    WhereSnoc(q, i, Request, owner, true);
    WhereSnoc(q, i, Request, owner, false);
    WhereSnoc(q, i, StreamMsg, owner, true);
    WhereSnoc(q, i, Finish, owner, true);
  }

  lemma {:induction false} CountTallies(q: seq<Item>, owner: set<Oid>)
    requires AllPackets(q)
    ensures Tallies(CountAll(q, owner), q, owner)
    decreases q
  {
    if q != [] {
      var h, l := q[..|q|-1], q[|q|-1];
      assert q == h + [l];
      CountTallies(h, owner);
      TalliesSnoc(CountAll(h, owner), h, l, owner);
    }
  }

  /** In every reachable state each transmit counter is the number of frames of its kind that were
      sent, and each receive counter the number of those that were handled. */
  lemma CountersCount(n: Node, p: Node)
    requires ReachablePair(n, p)
    ensures Tallies(n.log.tx, n.log.sent, n.range) && Tallies(p.log.rx, p.log.got, n.range)
  {
    ReachableInv(n, p);
    CountTallies(n.log.sent, n.range);
    CountTallies(p.log.got, n.range);
  }

  /** Kind by kind, a node's transmit counters are its peer's receive counters plus what is in
      flight; nRx is the sum of the receive counters, and nothing has been dropped. */
  lemma CountersAgree(n: Node, p: Node)
    requires ReachablePair(n, p)
    ensures AllPackets(Flight(n, p))
    ensures n.log.tx == Plus(p.log.rx, CountAll(Flight(n, p), n.range))
    ensures Flight(n, p) == [] ==> n.log.tx == p.log.rx
    ensures n.log.nrx == n.log.rx.Sum() + n.log.mdrops && n.log.mdrops == 0
  {
    ReachableInv(n, p);
    FlightCounted(n, p);
    if Flight(n, p) == [] { DrainedCounted(n, p); }
    RxCounted(n, p);
  }

  lemma DrainedCounted(n: Node, p: Node)
    requires LogInv(n, p) && Flight(n, p) == []
    ensures n.log.tx == p.log.rx
  {
    assert p.log.got + [] == p.log.got;
  }

  lemma RxCounted(n: Node, p: Node)
    requires LogInv(p, n)
    ensures n.log.nrx == n.log.rx.Sum() + n.log.mdrops && n.log.mdrops == 0
  {
    CountSum(n.log.got, p.range);
  }

  lemma FlightCounted(n: Node, p: Node)
    requires LogInv(n, p)
    ensures AllPackets(Flight(n, p))
    ensures n.log.tx == Plus(p.log.rx, CountAll(Flight(n, p), n.range))
  {
    forall i | i in Flight(n, p) ensures i.Packet? { assert i in n.log.sent; }
    CountConcat(p.log.got, Flight(n, p), n.range);
  }

  // ---- what a callback is for

  /** Why an initiator must pass a callback: the open notice registers the stream if and only if
      there is one, and when it did not, whatever the remote says in reply is dropped. */
  lemma NilCallbackIsNeverOpened(n: Node, o: Oid, f: Frame, hcb: bool)
    requires Linked(n) && o in n.range && o !in n.live && f.oid == o
    requires f.kind.StreamMsg? || f.kind.Finish?
    ensures o in StreamUpdate(n, o).live <==> n.cb[o].Some?
    ensures n.cb[o].None? ==> HandlePkt(StreamUpdate(n, o), f, hcb) == Drop(n)
  {}
}
