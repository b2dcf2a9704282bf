/**
  Generations are history.  The machine that forgets every generation number after every step makes
  the same moves, the same decisions and the same calls, so nothing the protocol does can depend on
  one.
*/
module Erasure {
  import opened Wire
  import opened Exchange
  import opened ExchangeView
  import opened ExchangeProof
  import opened ExchangeLog
  import opened ExchangeTheorems

  // ---- forgetting

  function OfFrame(f: Frame): Frame { f.(gen := 0) }

  function OfItem(i: Item): Item { match i case Packet(f) => Packet(OfFrame(f)) case Notice(_) => i }

  function OfItems(q: seq<Item>): (r: seq<Item>)
    ensures |r| == |q| && forall i | 0 <= i < |q| :: r[i] == OfItem(q[i])
  {
    seq(|q|, i requires 0 <= i < |q| => OfItem(q[i]))
  }

  function OfCall(c: Call): Call { c.(gen := 0) }

  function OfCalls(q: seq<Call>): (r: seq<Call>)
    ensures |r| == |q| && forall i | 0 <= i < |q| :: r[i] == OfCall(q[i])
  {
    seq(|q|, i requires 0 <= i < |q| => OfCall(q[i]))
  }

  function OfHandle(h: Handle): Handle { h.(gen := 0) }

  ghost function OfHandles(hs: set<Handle>): set<Handle> { set h | h in hs :: OfHandle(h) }

  ghost function OfMuted(m: set<(Oid, nat)>): set<(Oid, nat)> { set x | x in m :: (x.0, 0) }

  function OfEntry(e: Entry): Entry { match e case Local => Local case Remote(_, callb) => Remote(0, callb) }

  function OfLive(m: map<Oid, Entry>): map<Oid, Entry> { map o | o in m :: OfEntry(m[o]) }

  function OfGen(m: map<Oid, nat>): map<Oid, nat> { map o | o in m :: 0 }

  function OfCb(m: map<Oid, Option<nat>>): map<Oid, Option<nat>> {
    map o | o in m :: if m[o].None? then None else Some(0)
  }

  ghost function OfLog(l: Log): Log {
    l.(sent := OfItems(l.sent), got := OfItems(l.got), calls := OfCalls(l.calls), muted := OfMuted(l.muted))
  }

  ghost function OfNode(n: Node): Node {
    n.(gen := OfGen(n.gen), cb := OfCb(n.cb), live := OfLive(n.live), handles := OfHandles(n.handles),
       rxch := OfItems(n.rxch), out := OfItems(n.out), log := OfLog(n.log))
  }

  function OfAction(a: Action): Action {
    match a
    case Respond(h, msg) => Respond(OfHandle(h), msg)
    case RemoteSend(h, msg) => RemoteSend(OfHandle(h), msg)
    case RemoteClose(h) => RemoteClose(OfHandle(h))
    case _ => a
  }

  // ---- the pieces

  lemma ItemsSnoc(q: seq<Item>, i: Item)
    ensures OfItems(q + [i]) == OfItems(q) + [OfItem(i)]
  {}

  lemma ItemsRest(q: seq<Item>)
    requires q != []
    ensures OfItems(q[1..]) == OfItems(q)[1..] && OfItems(q)[0] == OfItem(q[0])
  {}

  lemma CallsSnoc(q: seq<Call>, c: Call)
    ensures OfCalls(q + [c]) == OfCalls(q) + [OfCall(c)]
  {}

  lemma HandlesAdd(hs: set<Handle>, h: Handle)
    ensures OfHandles(hs + {h}) == OfHandles(hs) + {OfHandle(h)}
  {}

  /** No other handle differs from `h` in its generation only. */
  ghost predicate Alone(hs: set<Handle>, h: Handle) { forall x | x in hs && OfHandle(x) == OfHandle(h) :: x == h }

  lemma HandlesDrop(hs: set<Handle>, h: Handle)
    requires h in hs && Alone(hs, h)
    ensures OfHandles(hs - {h}) == OfHandles(hs) - {OfHandle(h)}
  {
    forall y | y in OfHandles(hs) - {OfHandle(h)} ensures y in OfHandles(hs - {h}) {
      var x :| x in hs && OfHandle(x) == y;
      assert x in hs - {h};
    }
  }

  lemma MutedAdd(m: set<(Oid, nat)>, o: Oid, g: nat)
    ensures OfMuted(m + {(o, g)}) == OfMuted(m) + {(o, 0)}
  {}

  lemma LivePut(m: map<Oid, Entry>, o: Oid, e: Entry)
    ensures OfLive(m[o := e]) == OfLive(m)[o := OfEntry(e)]
  {}

  lemma LiveDrop(m: map<Oid, Entry>, o: Oid)
    ensures OfLive(m - {o}) == OfLive(m) - {o}
  {}

  lemma LiveAt(m: map<Oid, Entry>, m': map<Oid, Entry>, o: Oid)
    requires OfLive(m) == OfLive(m')
    ensures (o in m <==> o in m') && (o in m ==> OfEntry(m[o]) == OfEntry(m'[o]))
  {
    assert o in OfLive(m) <==> o in m;
    assert o in OfLive(m') <==> o in m';
    if o in m { assert OfLive(m)[o] == OfLive(m')[o]; }
  }

  lemma CbAt(m: map<Oid, Option<nat>>, m': map<Oid, Option<nat>>, o: Oid)
    requires OfCb(m) == OfCb(m')
    ensures (o in m <==> o in m') && (o in m ==> m[o].None? == m'[o].None?)
  {
    assert o in OfCb(m) <==> o in m;
    assert o in OfCb(m') <==> o in m';
    if o in m { assert OfCb(m)[o] == OfCb(m')[o]; }
  }

  lemma GenAt(m: map<Oid, nat>, m': map<Oid, nat>, o: Oid)
    requires OfGen(m) == OfGen(m')
    ensures o in m <==> o in m'
  {
    assert o in OfGen(m) <==> o in m;
    assert o in OfGen(m') <==> o in m';
  }

  lemma GenPut(m: map<Oid, nat>, o: Oid, g: nat)
    ensures OfGen(m[o := g]) == OfGen(m)[o := 0]
  {}

  lemma CbPut(m: map<Oid, Option<nat>>, o: Oid, c: Option<nat>)
    ensures OfCb(m[o := c]) == OfCb(m)[o := if c.None? then None else Some(0)]
  {}

  // ---- the steps respect it

  /** Equal but for generations. */
  ghost predicate Alike(n: Node, n': Node) { (OfNode(n) == OfNode(n')) == true }

  lemma EmitAlike(n: Node, n': Node, f: Frame, f': Frame)
    requires Alike(n, n') && OfFrame(f) == OfFrame(f')
    ensures Alike(Emit(n, f), Emit(n', f'))
  {
    ItemsSnoc(n.out, Packet(f));
    ItemsSnoc(n'.out, Packet(f'));
    ItemsSnoc(n.log.sent, Packet(f));
    ItemsSnoc(n'.log.sent, Packet(f'));
  }

  /** Taking a stream, without the generation. */
  function Taken(n: Node, o: Oid, c: Caller): Node
    requires n.pool != []
  {
    n.(pool := n.pool[1..], gen := n.gen[o := 0], callers := n.callers[o := c],
       cb := n.cb[o := if c.PostTaken? then None else Some(0)])
  }

  lemma FieldsForgotten(n: Node, q: seq<Oid>, g: map<Oid, nat>, c: map<Oid, Caller>, b: map<Oid, Option<nat>>)
    ensures OfNode(n.(pool := q, gen := g, callers := c, cb := b))
         == OfNode(n).(pool := q, gen := OfGen(g), callers := c, cb := OfCb(b))
  {}

  lemma TakeFields(n: Node, o: Oid, c: Caller)
    requires n.pool != [] && n.pool[0] == o && o in n.gen
    ensures var g := n.gen[o] + 1;
            Take(n, c) == n.(pool := n.pool[1..], gen := n.gen[o := g], callers := n.callers[o := c],
                             cb := n.cb[o := if c.PostTaken? then None else Some(g)])
  {}

  lemma TakeForgotten(n: Node, o: Oid, c: Caller)
    requires n.pool != [] && n.pool[0] == o && o in n.gen
    ensures OfNode(Take(n, c)) == Taken(OfNode(n), o, c)
  {
    var g, b := n.gen[o] + 1, if c.PostTaken? then None else Some(n.gen[o] + 1);
    GenPut(n.gen, o, g);
    CbPut(n.cb, o, b);
    TakeFields(n, o, c);
    FieldsForgotten(n, n.pool[1..], n.gen[o := g], n.callers[o := c], n.cb[o := b]);
  }

  lemma SamePool(n: Node, n': Node, o: Oid)
    requires Alike(n, n') && o in n.gen
    ensures n'.pool == n.pool && o in n'.gen
  {
    GenAt(n.gen, n'.gen, o);
  }

  lemma TakeAlike(n: Node, n': Node, o: Oid, c: Caller)
    requires Alike(n, n') && n.pool != [] && n.pool[0] == o && n'.pool == n.pool && o in n.gen && o in n'.gen
    ensures Alike(Take(n, c), Take(n', c))
  {
    TakeForgotten(n, o, c);
    TakeForgotten(n', o, c);
  }

  lemma NoticeAlike(n: Node, n': Node, o: Oid, c: Caller)
    requires Alike(n, n')
    ensures Alike(PutNotice(n, o, c), PutNotice(n', o, c))
  {
    ItemsSnoc(n.rxch, Notice(o));
    ItemsSnoc(n'.rxch, Notice(o));
  }

  lemma CalledAlike(n: Node, n': Node, c: Call, c': Call)
    requires Alike(n, n') && OfCall(c) == OfCall(c')
    ensures Alike(n.(log := n.log.(calls := n.log.calls + [c])), n'.(log := n'.log.(calls := n'.log.calls + [c'])))
  {
    CallsSnoc(n.log.calls, c);
    CallsSnoc(n'.log.calls, c');
  }

  lemma CallersAlike(n: Node, n': Node, cs: map<Oid, Caller>)
    requires Alike(n, n')
    ensures Alike(n.(callers := cs), n'.(callers := cs))
  {}

  lemma ReleaseAlike(n: Node, n': Node, o: Oid)
    requires Alike(n, n')
    ensures Alike(Release(n, o), Release(n', o))
  {}

  lemma LivePutAlike(n: Node, n': Node, o: Oid, e: Entry, e': Entry)
    requires Alike(n, n') && OfEntry(e) == OfEntry(e')
    ensures Alike(n.(live := n.live[o := e]), n'.(live := n'.live[o := e']))
  {
    LivePut(n.live, o, e);
    LivePut(n'.live, o, e');
  }

  lemma LiveDropAlike(n: Node, n': Node, o: Oid)
    requires Alike(n, n')
    ensures Alike(n.(live := n.live - {o}), n'.(live := n'.live - {o}))
  {
    LiveDrop(n.live, o);
    LiveDrop(n'.live, o);
  }

  lemma HandleAddAlike(n: Node, n': Node, h: Handle, h': Handle)
    requires Alike(n, n') && OfHandle(h) == OfHandle(h')
    ensures Alike(n.(handles := n.handles + {h}), n'.(handles := n'.handles + {h'}))
  {
    HandlesAdd(n.handles, h);
    HandlesAdd(n'.handles, h');
  }

  lemma HandleDropAlike(n: Node, n': Node, h: Handle, h': Handle)
    requires Alike(n, n') && OfHandle(h) == OfHandle(h')
    requires h in n.handles && Alone(n.handles, h) && h' in n'.handles && Alone(n'.handles, h')
    ensures Alike(n.(handles := n.handles - {h}), n'.(handles := n'.handles - {h'}))
  {
    HandlesDrop(n.handles, h);
    HandlesDrop(n'.handles, h');
  }

  lemma MutedAlike(n: Node, n': Node, o: Oid, g: nat, g': nat)
    requires Alike(n, n')
    ensures Alike(n.(log := n.log.(muted := n.log.muted + {(o, g)})),
                  n'.(log := n'.log.(muted := n'.log.muted + {(o, g')})))
  {
    MutedAdd(n.log.muted, o, g);
    MutedAdd(n'.log.muted, o, g');
  }

  lemma CountAlike(n: Node, n': Node, r: Role)
    requires Alike(n, n')
    ensures Alike(Count(n, r), Count(n', r)) && Alike(Drop(n), Drop(n'))
  {}

  lemma HandledAlike(n: Node, n': Node, f: Frame, f': Frame, r: Role)
    requires Alike(n, n') && OfFrame(f) == OfFrame(f')
    ensures Alike(Handled(n, f, r), Handled(n', f', r))
  {
    var c, c' := ToHandler(f.oid, f.gen, r, f.msg), ToHandler(f'.oid, f'.gen, r, f'.msg);
    CalledAlike(n, n', c, c');
    CountAlike(n.(log := n.log.(calls := n.log.calls + [c])), n'.(log := n'.log.(calls := n'.log.calls + [c'])), r);
  }

  /** The part of Callback that follows a call heard on a local stream. */
  function Reacted(n: Node, o: Oid, ok: bool): Node
    requires o in n.gen
  {
    if o !in n.callers then n
    else if n.callers[o].ReqSent? then n.(callers := n.callers[o := ReqDone])
    else if n.callers[o].StrOpen? && !ok then
      Emit(n.(callers := n.callers[o := StrClosed]), Frame(Finish, o, NO_MESSAGE, n.gen[o]))
    else n
  }

  lemma ReactedAlike(n: Node, n': Node, o: Oid, ok: bool)
    requires Alike(n, n') && o in n.gen && o in n'.gen
    ensures Alike(Reacted(n, o, ok), Reacted(n', o, ok))
  {
    if CallerIs(n, o, {StrOpen}) && !ok {
      CallersAlike(n, n', n.callers[o := StrClosed]);
      EmitAlike(n.(callers := n.callers[o := StrClosed]), n'.(callers := n'.callers[o := StrClosed]),
                Frame(Finish, o, NO_MESSAGE, n.gen[o]), Frame(Finish, o, NO_MESSAGE, n'.gen[o]));
    } else if CallerIs(n, o, {ReqSent}) {
      CallersAlike(n, n', n.callers[o := ReqDone]);
    }
  }

  lemma CallbackAlike(n: Node, n': Node, o: Oid, msg: BinMessage, ok: bool)
    requires Alike(n, n') && o in n.live && (n.live[o].Local? ==> o in n.cb && o in n.gen)
    ensures o in n'.live && (n'.live[o].Local? ==> o in n'.cb && o in n'.gen)
    ensures Alike(Callback(n, o, msg, ok), Callback(n', o, msg, ok))
  {
    LiveAt(n.live, n'.live, o);
    CbAt(n.cb, n'.cb, o);
    GenAt(n.gen, n'.gen, o);
    if n.live[o].Remote? {
      CalledAlike(n, n', ToStream(o, n.live[o].gen, msg, ok, n.live[o].callb),
                  ToStream(o, n'.live[o].gen, msg, ok, n'.live[o].callb));
    } else if n.cb[o].None? {
      CalledAlike(n, n', ToStream(o, n.gen[o], msg, ok, false), ToStream(o, n'.gen[o], msg, ok, false));
    } else {
      var c, c' := ToStream(o, n.cb[o].value, msg, ok, true), ToStream(o, n'.cb[o].value, msg, ok, true);
      CalledAlike(n, n', c, c');
      ReactedAlike(n.(log := n.log.(calls := n.log.calls + [c])), n'.(log := n'.log.(calls := n'.log.calls + [c'])),
                   o, ok);
    }
  }

  lemma FinishAlike(n: Node, n': Node, f: Frame, f': Frame, hcb: bool)
    requires Linked(n) && Linked(n') && Alike(n, n') && OfFrame(f) == OfFrame(f') && f.kind.Finish?
    ensures Alike(HandlePkt(n, f, hcb), HandlePkt(n', f', hcb))
  {
    var o := f.oid;
    LiveAt(n.live, n'.live, o);
    if o in n.live {
      CallbackAlike(n, n', o, NO_MESSAGE, false);
      var m, m' := Callback(n, o, NO_MESSAGE, false), Callback(n', o, NO_MESSAGE, false);
      ReleaseAlike(m, m', o);
      if n.live[o].Local? { m, m' := Release(m, o), Release(m', o); }
      LiveDropAlike(m, m', o);
      SameLive(n, o);
      SameLive(n', o);
      CountAlike(m.(live := m.live - {o}), m'.(live := m'.live - {o}), RFin);
    } else {
      CountAlike(n, n', RFin);
    }
  }

  lemma SameLive(n: Node, o: Oid)
    requires o in n.live && (n.live[o].Local? ==> o in n.cb && o in n.gen)
    ensures Callback(n, o, NO_MESSAGE, false).live == n.live
  {}

  lemma NewAlike(n: Node, n': Node, f: Frame, f': Frame, hcb: bool)
    requires Linked(n) && Linked(n') && Alike(n, n') && OfFrame(f) == OfFrame(f') && !f.kind.Finish? && f.oid !in n.live
    ensures Alike(HandlePkt(n, f, hcb), HandlePkt(n', f', hcb))
  {
    var o := f.oid;
    LiveAt(n.live, n'.live, o);
    if f.kind.Post? {
      HandledAlike(n, n', f, f', RPost);
    } else if f.kind.Request? {
      var h, h' := Handle(o, f.gen, Request), Handle(o, f'.gen, Request);
      HandleAddAlike(n, n', h, h');
      HandledAlike(n.(handles := n.handles + {h}), n'.(handles := n'.handles + {h'}), f, f', RReq);
    } else if f.kind.Start? {
      StartAlike(n, n', f, f', hcb);
    } else {
      CountAlike(n, n', RFin);
    }
  }

  function Started(n: Node, f: Frame, hcb: bool): Node {
    n.(handles := n.handles + {Handle(f.oid, f.gen, Start)}, live := n.live[f.oid := Remote(f.gen, hcb)],
       log := n.log.(muted := n.log.muted + if hcb then {} else {(f.oid, f.gen)}))
  }

  lemma StartAlike(n: Node, n': Node, f: Frame, f': Frame, hcb: bool)
    requires Linked(n) && Linked(n') && Alike(n, n') && OfFrame(f) == OfFrame(f') && f.kind.Start? && f.oid !in n.live
    requires f'.oid !in n'.live
    ensures Alike(HandlePkt(n, f, hcb), HandlePkt(n', f', hcb))
  {
    StartedAlike(n, n', f, f', hcb);
    HandledAlike(Started(n, f, hcb), Started(n', f', hcb), f, f', RStart);
  }

  lemma StartedAlike(n: Node, n': Node, f: Frame, f': Frame, hcb: bool)
    requires Alike(n, n') && OfFrame(f) == OfFrame(f')
    ensures Alike(Started(n, f, hcb), Started(n', f', hcb))
  {
    var h, h' := Handle(f.oid, f.gen, Start), Handle(f'.oid, f'.gen, Start);
    HandleAddAlike(n, n', h, h');
    var m, m' := n.(handles := n.handles + {h}), n'.(handles := n'.handles + {h'});
    LivePutAlike(m, m', f.oid, Remote(f.gen, hcb), Remote(f'.gen, hcb));
    m, m' := m.(live := m.live[f.oid := Remote(f.gen, hcb)]), m'.(live := m'.live[f.oid := Remote(f'.gen, hcb)]);
    if hcb {
      assert Started(n, f, hcb) == m && Started(n', f', hcb) == m';
    } else {
      MutedAlike(m, m', f.oid, f.gen, f'.gen);
    }
  }

  /** How a packet on a live stream is counted, its callback done. */
  function Tallied(n: Node, f: Frame): Node {
    match f.kind
    case Request => Count(n, RResp)
    case StreamMsg => Count(n, RStream)
    case _ => Drop(n)
  }

  lemma LiveParts(n: Node, f: Frame, hcb: bool)
    requires Linked(n) && !f.kind.Finish? && f.oid in n.live
    ensures HandlePkt(n, f, hcb) == Tallied(Callback(n, f.oid, f.msg, !f.kind.Request?), f)
  {}

  lemma LiveAlike(n: Node, n': Node, f: Frame, f': Frame, hcb: bool)
    requires Linked(n) && Linked(n') && Alike(n, n') && OfFrame(f) == OfFrame(f') && !f.kind.Finish? && f.oid in n.live
    ensures Alike(HandlePkt(n, f, hcb), HandlePkt(n', f', hcb))
  {
    var ok := !f.kind.Request?;
    CallbackAlike(n, n', f.oid, f.msg, ok);
    LiveParts(n, f, hcb);
    LiveParts(n', f', hcb);
    TalliedAlike(Callback(n, f.oid, f.msg, ok), Callback(n', f.oid, f.msg, ok), f, f');
  }

  lemma TalliedAlike(n: Node, n': Node, f: Frame, f': Frame)
    requires Alike(n, n') && f.kind == f'.kind
    ensures Alike(Tallied(n, f), Tallied(n', f'))
  {
    CountAlike(n, n', RResp);
    CountAlike(n, n', RStream);
  }

  lemma UpdateAlike(n: Node, n': Node, o: Oid)
    requires Alike(n, n') && o in n.cb
    ensures o in n'.cb && Alike(StreamUpdate(n, o), StreamUpdate(n', o))
  {
    LiveAt(n.live, n'.live, o);
    CbAt(n.cb, n'.cb, o);
    LiveDropAlike(n, n', o);
    ReleaseAlike(n.(live := n.live - {o}), n'.(live := n'.live - {o}), o);
    LivePutAlike(n, n', o, Local, Local);
  }

  lemma PopAlike(n: Node, n': Node)
    requires Alike(n, n') && n.rxch != []
    ensures n'.rxch != [] && OfItem(n.rxch[0]) == OfItem(n'.rxch[0])
    ensures Alike(n.(rxch := n.rxch[1..]), n'.(rxch := n'.rxch[1..]))
  {
    assert |OfItems(n.rxch)| == |OfItems(n'.rxch)|;
    ItemsRest(n.rxch);
    ItemsRest(n'.rxch);
  }

  /** The end of a turn: the packet is among those handled. */
  function Got(n: Node, i: Item): Node { n.(log := n.log.(got := n.log.got + [i], nrx := n.log.nrx + 1)) }

  lemma GotAlike(n: Node, n': Node, i: Item, i': Item)
    requires Alike(n, n') && OfItem(i) == OfItem(i')
    ensures Alike(Got(n, i), Got(n', i'))
  {
    ItemsSnoc(n.log.got, i);
    ItemsSnoc(n'.log.got, i');
  }

  lemma PacketSync(n: Node, hcb: bool, f: Frame)
    requires Linked(n) && n.rxch != [] && n.rxch[0] == Packet(f)
    ensures var m := n.(rxch := n.rxch[1..]); Linked(m) && SyncRx(n, hcb) == Got(HandlePkt(m, f, hcb), Packet(f))
  {}

  lemma HandleAlike(n: Node, n': Node, f: Frame, f': Frame, hcb: bool)
    requires Linked(n) && Linked(n') && Alike(n, n') && OfFrame(f) == OfFrame(f')
    ensures Alike(HandlePkt(n, f, hcb), HandlePkt(n', f', hcb))
  {
    if f.kind.Finish? { FinishAlike(n, n', f, f', hcb); }
    else if f.oid in n.live { LiveAlike(n, n', f, f', hcb); }
    else { NewAlike(n, n', f, f', hcb); }
  }

  lemma HeadOk(n: Node)
    requires NodeOk(n) && n.rxch != []
    ensures Linked(n) && (n.rxch[0].Notice? ==> n.rxch[0].stream in n.range)
  {
    assert n.rxch[0] in n.rxch;
  }

  lemma NoticeSyncAlike(n: Node, n': Node, hcb: bool, o: Oid)
    requires NodeOk(n) && NodeOk(n') && Alike(n, n') && n.rxch != [] && n'.rxch != []
    requires n.rxch[0] == Notice(o) && n'.rxch[0] == Notice(o) && o in n.range && o in n'.range
    requires Alike(n.(rxch := n.rxch[1..]), n'.(rxch := n'.rxch[1..]))
    ensures Alike(SyncRx(n, hcb), SyncRx(n', hcb))
  {
    UpdateAlike(n.(rxch := n.rxch[1..]), n'.(rxch := n'.rxch[1..]), o);
  }

  lemma PacketSyncAlike(n: Node, n': Node, hcb: bool, f: Frame, f': Frame)
    requires NodeOk(n) && NodeOk(n') && n.rxch != [] && n'.rxch != []
    requires n.rxch[0] == Packet(f) && n'.rxch[0] == Packet(f') && OfFrame(f) == OfFrame(f')
    requires Alike(n.(rxch := n.rxch[1..]), n'.(rxch := n'.rxch[1..]))
    ensures Alike(SyncRx(n, hcb), SyncRx(n', hcb))
  {
    var m, m' := n.(rxch := n.rxch[1..]), n'.(rxch := n'.rxch[1..]);
    PacketSync(n, hcb, f);
    PacketSync(n', hcb, f');
    HandleAlike(m, m', f, f', hcb);
    GotAlike(HandlePkt(m, f, hcb), HandlePkt(m', f', hcb), Packet(f), Packet(f'));
  }

  lemma SyncAlike(n: Node, n': Node, hcb: bool)
    requires NodeOk(n) && NodeOk(n') && Alike(n, n') && n.rxch != [] && n'.rxch != []
    ensures Linked(n) && (n.rxch[0].Notice? ==> n.rxch[0].stream in n.range)
    ensures Linked(n') && (n'.rxch[0].Notice? ==> n'.rxch[0].stream in n'.range)
    ensures Alike(SyncRx(n, hcb), SyncRx(n', hcb))
  {
    HeadOk(n);
    HeadOk(n');
    PopAlike(n, n');
    if n.rxch[0].Notice? { NoticeSyncAlike(n, n', hcb, n.rxch[0].stream); }
    else { PacketSyncAlike(n, n', hcb, n.rxch[0].frame, n'.rxch[0].frame); }
  }

  // ---- whole moves

  /** The handle a move gives up is told from the others without its generation. */
  ghost predicate OwnHandle(n: Node, a: Action) {
    match a case Respond(h, _) => Alone(n.handles, h) case RemoteClose(h) => Alone(n.handles, h) case _ => true
  }

  lemma GiveUpAlike(n: Node, n': Node, h: Handle, h': Handle, f: Frame, f': Frame)
    requires Alike(n, n') && OfHandle(h) == OfHandle(h') && OfFrame(f) == OfFrame(f')
    requires h in n.handles && Alone(n.handles, h) && h' in n'.handles && Alone(n'.handles, h')
    ensures Alike(Emit(n.(handles := n.handles - {h}), f), Emit(n'.(handles := n'.handles - {h'}), f'))
  {
    HandleDropAlike(n, n', h, h');
    EmitAlike(n.(handles := n.handles - {h}), n'.(handles := n'.handles - {h'}), f, f');
  }

  lemma FirstAlike(n: Node, n': Node, o: Oid, msg: BinMessage)
    requires Alike(n, n') && o in n.callers && o in n.gen && o in n'.gen
    ensures var c := n.callers[o];
            Alike(Emit(n.(callers := n.callers[o := AfterFirst(c)]), Frame(FirstKind(c), o, msg, n.gen[o])),
                  Emit(n'.(callers := n'.callers[o := AfterFirst(c)]), Frame(FirstKind(c), o, msg, n'.gen[o])))
  {
    var c := n.callers[o];
    CallersAlike(n, n', n.callers[o := AfterFirst(c)]);
    EmitAlike(n.(callers := n.callers[o := AfterFirst(c)]), n'.(callers := n'.callers[o := AfterFirst(c)]),
              Frame(FirstKind(c), o, msg, n.gen[o]), Frame(FirstKind(c), o, msg, n'.gen[o]));
  }

  lemma CloseAlike(n: Node, n': Node, o: Oid)
    requires Alike(n, n') && o in n.gen && o in n'.gen
    ensures Alike(Emit(n.(callers := n.callers[o := StrClosed]), Frame(Finish, o, NO_MESSAGE, n.gen[o])),
                  Emit(n'.(callers := n'.callers[o := StrClosed]), Frame(Finish, o, NO_MESSAGE, n'.gen[o])))
  {
    CallersAlike(n, n', n.callers[o := StrClosed]);
    EmitAlike(n.(callers := n.callers[o := StrClosed]), n'.(callers := n'.callers[o := StrClosed]),
              Frame(Finish, o, NO_MESSAGE, n.gen[o]), Frame(Finish, o, NO_MESSAGE, n'.gen[o]));
  }

  lemma ClearAlike(n: Node, n': Node, o: Oid)
    requires Alike(n, n')
    ensures Alike(n.(cb := n.cb[o := None], callers := n.callers[o := ReqCleared]),
                  n'.(cb := n'.cb[o := None], callers := n'.callers[o := ReqCleared]))
  {
    CbPut(n.cb, o, None);
    CbPut(n'.cb, o, None);
  }

  lemma DoRxAlike(n: Node, n': Node, p: Node, p': Node)
    requires Alike(n, n') && Alike(p, p') && p.out != []
    ensures p'.out != []
    ensures Alike(n.(rxch := n.rxch + [p.out[0]]), n'.(rxch := n'.rxch + [p'.out[0]]))
    ensures Alike(p.(out := p.out[1..]), p'.(out := p'.out[1..]))
  {
    assert |OfItems(p.out)| == |OfItems(p'.out)|;
    ItemsRest(p.out);
    ItemsRest(p'.out);
    ItemsSnoc(n.rxch, p.out[0]);
    ItemsSnoc(n'.rxch, p'.out[0]);
  }

  predicate ByHandle(a: Action) { a.Respond? || a.RemoteSend? || a.RemoteClose? }

  lemma RemoteAlike(n: Node, n': Node, p: Node, p': Node, a: Action, a': Action)
    requires NodeOk(n) && NodeOk(n') && Alike(n, n') && Alike(p, p') && OfAction(a) == OfAction(a') && ByHandle(a)
    requires Enabled(n, p, a) && Enabled(n', p', a') && OwnHandle(n, a) && OwnHandle(n', a')
    ensures Alike(Act(n, p, a).0, Act(n', p', a').0) && Alike(Act(n, p, a).1, Act(n', p', a').1)
  {
    var h, h' := a.h, a'.h;
    if a.Respond? {
      GiveUpAlike(n, n', h, h', Frame(Request, h.oid, a.msg, h.gen), Frame(Request, h'.oid, a'.msg, h'.gen));
    } else if a.RemoteSend? {
      EmitAlike(n, n', Frame(StreamMsg, h.oid, a.msg, h.gen), Frame(StreamMsg, h'.oid, a'.msg, h'.gen));
    } else {
      GiveUpAlike(n, n', h, h', Frame(Finish, h.oid, NO_MESSAGE, h.gen), Frame(Finish, h'.oid, NO_MESSAGE, h'.gen));
    }
  }

  lemma LocalAlike(n: Node, n': Node, p: Node, p': Node, a: Action)
    requires NodeOk(n) && NodeOk(n') && Alike(n, n') && Alike(p, p') && !ByHandle(a)
    requires Enabled(n, p, a) && Enabled(n', p', a)
    ensures Alike(Act(n, p, a).0, Act(n', p', a).0) && Alike(Act(n, p, a).1, Act(n', p', a).1)
  {
    if a.TakeFor? {
      assert n.pool[0] in n.pool;
      SamePool(n, n', n.pool[0]);
      TakeAlike(n, n', n.pool[0], a.c);
    } else if a.Tell? { NoticeAlike(n, n', a.o, AfterTell(n.callers[a.o])); }
    else if a.SendFirst? { FirstAlike(n, n', a.o, a.msg); }
    else if a.PostReturn? { ReleaseAlike(n, n', a.o); }
    else if a.Clear? { ClearAlike(n, n', a.o); }
    else if a.Send? {
      EmitAlike(n, n', Frame(StreamMsg, a.o, a.msg, n.gen[a.o]), Frame(StreamMsg, a.o, a.msg, n'.gen[a.o]));
    } else if a.Close? { CloseAlike(n, n', a.o); }
    else if a.DoRx? { DoRxAlike(n, n', p, p'); }
    else { SyncAlike(n, n', a.hcb); }
  }

  /** Moves that are the same but for generations, of nodes that are, have results that are. */
  lemma ActAlike(n: Node, n': Node, p: Node, p': Node, a: Action, a': Action)
    requires NodeOk(n) && NodeOk(n') && Alike(n, n') && Alike(p, p') && OfAction(a) == OfAction(a')
    requires Enabled(n, p, a) && Enabled(n', p', a') && OwnHandle(n, a) && OwnHandle(n', a')
    ensures Alike(Act(n, p, a).0, Act(n', p', a').0) && Alike(Act(n, p, a).1, Act(n', p', a').1)
  {
    if ByHandle(a) { RemoteAlike(n, n', p, p', a, a'); } else { LocalAlike(n, n', p, p', a); }
  }

  // ---- what is enabled

  lemma Forgotten(n: Node)
    ensures Alike(n, OfNode(n))
  {
    var m := OfNode(n);
    assert OfItems(m.rxch) == m.rxch && OfItems(m.out) == m.out;
    assert OfItems(m.log.sent) == m.log.sent && OfItems(m.log.got) == m.log.got && OfCalls(m.log.calls) == m.log.calls;
    assert OfHandles(m.handles) == m.handles && OfMuted(m.log.muted) == m.log.muted;
    assert OfLive(m.live) == m.live && OfGen(m.gen) == m.gen && OfCb(m.cb) == m.cb;
  }

  lemma ForgottenOk(n: Node)
    requires NodeOk(n)
    ensures NodeOk(OfNode(n))
  {
    var m := OfNode(n);
    assert m.gen.Keys == n.gen.Keys && m.cb.Keys == n.cb.Keys && m.live.Keys == n.live.Keys;
    forall i | i in m.rxch && i.Notice? ensures i.stream in m.range {
      var k :| 0 <= k < |m.rxch| && m.rxch[k] == i;
      assert n.rxch[k] in n.rxch;
    }
    forall i | i in m.out ensures i.Packet? {
      var k :| 0 <= k < |m.out| && m.out[k] == i;
      assert n.out[k] in n.out;
    }
  }

  lemma HandleKept(hs: set<Handle>, h: Handle)
    requires h in hs
    ensures OfHandle(h) in OfHandles(hs)
  {}

  lemma EnabledForgotten(n: Node, p: Node, a: Action)
    requires Enabled(n, p, a)
    ensures Enabled(OfNode(n), OfNode(p), OfAction(a)) && OwnHandle(OfNode(n), OfAction(a))
  {
    if ByHandle(a) { HandleKept(n.handles, a.h); }
    OneZero(n);
  }

  lemma OneZero(n: Node)
    ensures forall h | h in OfNode(n).handles :: Alone(OfNode(n).handles, h)
  {}

  /** A move of the forgetful machine comes from one that remembers. */
  lemma EnabledRemembered(n: Node, p: Node, a: Action) returns (b: Action)
    requires Enabled(OfNode(n), OfNode(p), a)
    ensures OfAction(b) == a && Enabled(n, p, b)
  {
    b := a;
    if ByHandle(a) {
      var h :| h in n.handles && OfHandle(h) == a.h;
      b := if a.Respond? then Respond(h, a.msg) else if a.RemoteSend? then RemoteSend(h, a.msg) else RemoteClose(h);
    }
  }

  lemma OnlyHandle(n: Node, p: Node, h: Handle)
    requires SysInv(n, p) && h in n.handles
    ensures HandlesOn(n.handles, h.oid) == {h}
  {
    HandleOwner(n, p, h);
    assert h in HandlesOn(n.handles, h.oid);
    OwedMeans(ViewOf(p, n, h.oid), h.oid, h);
  }

  lemma HandleOwner(n: Node, p: Node, h: Handle)
    requires SysInv(n, p) && h in n.handles
    ensures Good(ViewOf(p, n, h.oid), h.oid)
  {}

  lemma HandleAlone(n: Node, p: Node, h: Handle)
    requires SysInv(n, p) && h in n.handles
    ensures Alone(n.handles, h)
  {
    OnlyHandle(n, p, h);
    SameOidSame(n.handles, h);
  }

  lemma SameOidSame(hs: set<Handle>, h: Handle)
    requires HandlesOn(hs, h.oid) == {h}
    ensures Alone(hs, h)
  {
    forall x | x in hs && OfHandle(x) == OfHandle(h) ensures x == h { assert x in HandlesOn(hs, h.oid); }
  }

  // ---- runs

  ghost function OfState(s: State): State { State(OfNode(s.a), OfNode(s.b)) }

  function OfMove(m: Move): Move { m.(act := OfAction(m.act)) }

  function OfMoves(ms: seq<Move>): seq<Move> { if ms == [] then [] else [OfMove(ms[0])] + OfMoves(ms[1..]) }

  /** A run of the machine that forgets all generations after every step. */
  ghost predicate ForgetfulRun(s: State, ms: seq<Move>, t: State)
    decreases |ms|
  {
    if ms == [] then s == t else CanStep(s, ms[0]) && ForgetfulRun(OfState(Step(s, ms[0])), ms[1..], t)
  }

  /** In a good state no two handles differ in their generations only. */
  lemma AllAlone(n: Node, p: Node)
    requires SysInv(n, p)
    ensures forall h | h in n.handles :: Alone(n.handles, h)
  {
    forall h | h in n.handles ensures Alone(n.handles, h) { HandleAlone(n, p, h); }
  }

  lemma OwnHandles(n: Node, p: Node, a: Action)
    requires Enabled(n, p, a) && forall h | h in n.handles :: Alone(n.handles, h)
    ensures OwnHandle(n, a)
  {}

  lemma ActForgets(n: Node, p: Node, a: Action)
    requires NodeOk(n) && NodeOk(p) && Enabled(n, p, a) && OwnHandle(n, a)
    ensures NodeOk(OfNode(n)) && Enabled(OfNode(n), OfNode(p), OfAction(a))
    ensures var m, q, b := OfNode(n), OfNode(p), OfAction(a);
            Alike(Act(n, p, a).0, Act(m, q, b).0) && Alike(Act(n, p, a).1, Act(m, q, b).1)
  {
    Forgotten(n);
    Forgotten(p);
    ForgottenOk(n);
    EnabledForgotten(n, p, a);
    SameAction(a);
    ActAlike(n, OfNode(n), p, OfNode(p), a, OfAction(a));
  }

  lemma SameAction(a: Action)
    ensures OfAction(OfAction(a)) == OfAction(a)
  {}

  lemma MoveForgets(n: Node, p: Node, a: Action)
    requires SysInv(n, p) && NodeOk(n) && NodeOk(p) && Enabled(n, p, a)
    ensures NodeOk(OfNode(n)) && Enabled(OfNode(n), OfNode(p), OfAction(a))
    ensures var m, q, b := OfNode(n), OfNode(p), OfAction(a);
            Alike(Act(n, p, a).0, Act(m, q, b).0) && Alike(Act(n, p, a).1, Act(m, q, b).1)
  {
    AllAlone(n, p);
    OwnHandles(n, p, a);
    ActForgets(n, p, a);
  }

  lemma StepForgets(s: State, m: Move)
    requires SysInv(s.a, s.b) && CanStep(s, m)
    ensures CanStep(OfState(s), OfMove(m)) && OfState(Step(OfState(s), OfMove(m))) == OfState(Step(s, m))
  {
    ForgottenOk(s.a);
    ForgottenOk(s.b);
    if m.left { MoveForgets(s.a, s.b, m.act); } else { SysSym(s.a, s.b); MoveForgets(s.b, s.a, m.act); }
  }

  /** Every run is, with its generations forgotten, a run of the forgetful machine. */
  lemma {:induction false} RunForgets(s: State, ms: seq<Move>, t: State)
    requires SysInv(s.a, s.b) && Run(s, ms, t)
    ensures ForgetfulRun(OfState(s), OfMoves(ms), OfState(t))
    decreases |ms|
  {
    if ms != [] {
      StepForgets(s, ms[0]);
      SysStep(s, ms[0]);
      RunForgets(Step(s, ms[0]), ms[1..], t);
      assert OfMoves(ms)[0] == OfMove(ms[0]) && OfMoves(ms)[1..] == OfMoves(ms[1..]);
    }
  }

  lemma StepRemembered(s: State, x: Move) returns (m: Move)
    requires NodeOk(s.a) && NodeOk(s.b) && CanStep(OfState(s), x)
    ensures OfMove(m) == x && CanStep(s, m)
  {
    var b: Action;
    if x.left { b := EnabledRemembered(s.a, s.b, x.act); } else { b := EnabledRemembered(s.b, s.a, x.act); }
    m := Move(x.left, b);
  }

  lemma OkNodes(s: State)
    requires SysInv(s.a, s.b)
    ensures NodeOk(s.a) && NodeOk(s.b)
  {}

  /** And every run of the forgetful machine is one of those. */
  lemma {:induction false} RunRemembers(s: State, xs: seq<Move>, y: State) returns (ms: seq<Move>, t: State)
    requires SysInv(s.a, s.b) && ForgetfulRun(OfState(s), xs, y)
    ensures Recalls(s, ms, t, xs, y)
    decreases |xs|
  {
    if xs == [] {
      ms, t := [], s;
    } else {
      OkNodes(s);
      var m := StepRemembered(s, xs[0]);
      StepForgets(s, m);
      SysStep(s, m);
      var more;
      more, t := RunRemembers(Step(s, m), xs[1..], y);
      ms := [m] + more;
      RecallsOne(s, m, more, t, xs, y);
    }
  }

  /** The run `ms` to `t` is what the forgetful run `xs` to `y` forgot. */
  ghost predicate Recalls(s: State, ms: seq<Move>, t: State, xs: seq<Move>, y: State) {
    Run(s, ms, t) && OfMoves(ms) == xs && OfState(t) == y
  }

  lemma RecallsOne(s: State, m: Move, ms: seq<Move>, t: State, xs: seq<Move>, y: State)
    requires xs != [] && CanStep(s, m) && OfMove(m) == xs[0] && Recalls(Step(s, m), ms, t, xs[1..], y)
    ensures Recalls(s, [m] + ms, t, xs, y)
  {
    assert ([m] + ms)[1..] == ms && xs == [xs[0]] + xs[1..];
  }

  /** From a fresh pair of transports the two machines have the same runs: the same moves are enabled,
      and they lead to states that differ in generations only. */
  lemma ForgettingChangesNothing(s: State)
    requires Init(s)
    ensures OfState(s) == s
    ensures forall ms, t | Run(s, ms, t) :: ForgetfulRun(s, OfMoves(ms), OfState(t))
    ensures forall xs, y | ForgetfulRun(s, xs, y) :: exists ms, t :: Recalls(s, ms, t, xs, y)
  {
    FreshForgotten(s.a);
    FreshForgotten(s.b);
    InitInv(s.a, s.b);
    forall ms, t | Run(s, ms, t) ensures ForgetfulRun(s, OfMoves(ms), OfState(t)) { RunForgets(s, ms, t); }
    forall xs, y | ForgetfulRun(s, xs, y)
      ensures exists ms, t :: Recalls(s, ms, t, xs, y)
    {
      var ms, t := RunRemembers(s, xs, y);
    }
  }

  lemma FreshForgotten(n: Node)
    requires n == Fresh(n.range, n.pool)
    ensures OfNode(n) == n
  {
    assert OfItems([]) == [] && OfCalls([]) == [] && OfHandles({}) == {} && OfMuted({}) == {};
    assert OfGen(n.gen) == n.gen && OfCb(n.cb) == n.cb && OfLive(n.live) == n.live;
  }
}
