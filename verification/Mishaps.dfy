/**
  What happens without the discipline of answering and closing.  From any good state, a frame too many
  does harm when its turn comes.  And from a fresh pair of transports there are runs with a single
  undisciplined step in which a close too many ends the next stream, a close callback that does not close
  leaves the old stream in the way of the next one, and a stream opened without a callback is lost.
*/
module Mishaps {
  import opened Wire
  import opened Exchange
  import opened ExchangeView
  import opened ExchangeProof
  import opened ExchangeDispatch
  import opened ExchangeLog
  import opened Indiscipline

  // ---- runs, one move at a time

  /** The move `a` of a node `n` with peer `p` leads to `n'` and `p'`. */
  ghost predicate Leads(n: Node, p: Node, a: Action, n': Node, p': Node) {
    NodeOk(n) && NodeOk(p) && Enabled(n, p, a) && Act(n, p, a) == (n', p') && NodeOk(n') && NodeOk(p')
  }

  lemma GoLeft(s: State, ms: seq<Move>, n: Node, p: Node, a: Action, n': Node, p': Node) returns (ms': seq<Move>)
    requires Run(s, ms, State(n, p)) && Leads(n, p, a, n', p')
    ensures Run(s, ms', State(n', p'))
  {
    ms' := ms + [Move(true, a)];
    RunSnoc(s, ms, State(n, p), Move(true, a));
  }

  lemma GoRight(s: State, ms: seq<Move>, n: Node, p: Node, a: Action, n': Node, p': Node) returns (ms': seq<Move>)
    requires Run(s, ms, State(n, p)) && Leads(p, n, a, p', n')
    ensures Run(s, ms', State(n', p')) && ms' == ms + [Move(false, a)]
  {
    ms' := ms + [Move(false, a)];
    RunSnoc(s, ms, State(n, p), Move(false, a));
  }

  // ---- what each move does

  /** Nothing waits at `n` or on its way from there. */
  predicate Still(n: Node) { n.rxch == [] && n.out == [] }

  lemma TakeNext(n: Node, p: Node)
    requires NodeOk(n) && NodeOk(p) && n.pool != []
    ensures n.pool[0] in n.gen && Leads(n, p, TakeFor(StrTaken), Take(n, StrTaken), p)
  {
    assert n.pool[0] in n.pool;
    TakeOk(n, StrTaken);
  }

  lemma NoticedOk(n: Node, o: Oid)
    requires NodeOk(n) && o in n.range
    ensures NodeOk(PutNotice(n, o, StrNoticed))
  {}

  lemma TellNext(n: Node, p: Node, o: Oid)
    requires NodeOk(n) && NodeOk(p) && CallerIs(n, o, {StrTaken})
    ensures Leads(n, p, Tell(o), PutNotice(n, o, StrNoticed), p)
  {
    NoticedOk(n, o);
  }

  lemma HandledOk(n: Node, o: Oid)
    requires NodeOk(n) && o in n.range
    ensures NodeOk(n.(rxch := [])) && NodeOk(n.(rxch := [], live := n.live[o := Local]))
  {}

  /** An open notice registers the stream if it has a callback, and does nothing otherwise. */
  lemma NoticeNext(n: Node, p: Node, o: Oid)
    requires NodeOk(n) && NodeOk(p) && n.rxch == [Notice(o)] && o in n.cb && o !in n.live
    ensures var n' := if n.cb[o].Some? then n.(rxch := [], live := n.live[o := Local]) else n.(rxch := []);
            Leads(n, p, Dispatch(true), n', p)
  {
    assert n.rxch[0] in n.rxch && n.rxch[1..] == [];
    HandledOk(n, o);
  }

  lemma StartNext(n: Node, p: Node, o: Oid, msg: BinMessage)
    requires NodeOk(n) && NodeOk(p) && CallerIs(n, o, {StrNoticed}) && o in n.gen
    ensures Leads(n, p, SendFirst(o, msg), Emit(SetCaller(n, o, StrOpen), Frame(Start, o, msg, n.gen[o])), p)
  {
    StartOk(n, o);
    EmitViews(SetCaller(n, o, StrOpen), p, Frame(Start, o, msg, n.gen[o]));
  }

  lemma StartOk(n: Node, o: Oid)
    requires NodeOk(n) && o in n.range
    ensures NodeOk(SetCaller(n, o, StrOpen))
  {}

  /** The one frame that `p` has on its way reaches the empty queue of `n`. */
  lemma DoRxNext(n: Node, p: Node, i: Item)
    requires NodeOk(n) && NodeOk(p) && p.out == [i] && n.rxch == []
    ensures Leads(n, p, DoRx, n.(rxch := [i]), p.(out := []))
  {
    ArrivedOk(n, p, i);
    assert p.out[1..] == [] && n.rxch + [p.out[0]] == [i];
  }

  lemma ArrivedOk(n: Node, p: Node, i: Item)
    requires NodeOk(n) && NodeOk(p) && p.out == [i]
    ensures NodeOk(n.(rxch := [i])) && NodeOk(p.(out := []))
  {
    assert i in p.out;
  }

  lemma DispatchNext(n: Node, p: Node, f: Frame)
    requires NodeOk(n) && NodeOk(p) && n.rxch == [Packet(f)] && NodeOk(SyncRx(n, true))
    ensures Leads(n, p, Dispatch(true), SyncRx(n, true), p)
  {}

  // ---- opening a stream

  /** The next pooled stream, opened as far as its start frame on the wire. */
  function Asked(n: Node, o: Oid, msg: BinMessage): Node
    requires o in n.gen && n.pool != []
  {
    var g := n.gen[o] + 1;
    Emit(n.(pool := n.pool[1..], gen := n.gen[o := g], cb := n.cb[o := Some(g)], callers := n.callers[o := StrOpen],
            live := n.live[o := Local]), Frame(Start, o, msg, g))
  }

  /** Its stations: taken from the pool, announced to syncRx, registered there. */
  lemma AskedStations(n: Node, o: Oid, msg: BinMessage)
    requires NodeOk(n) && Still(n) && n.pool != [] && n.pool[0] == o && o !in n.live
    ensures o in n.gen
    ensures var n1 := Take(n, StrTaken);
            && CallerIs(n1, o, {StrTaken})
            && var n2 := PutNotice(n1, o, StrNoticed);
               && n2.rxch == [Notice(o)] && o in n2.cb && n2.cb[o].Some? && o !in n2.live
               && var n3 := n2.(rxch := [], live := n2.live[o := Local]);
                  && CallerIs(n3, o, {StrNoticed}) && o in n3.gen
                  && Emit(SetCaller(n3, o, StrOpen), Frame(Start, o, msg, n3.gen[o])) == Asked(n, o, msg)
  {
    assert n.pool[0] in n.pool;
    assert n.callers[o := StrTaken][o := StrNoticed][o := StrOpen] == n.callers[o := StrOpen];
  }

  lemma Ask(s: State, ms: seq<Move>, n: Node, p: Node, o: Oid, msg: BinMessage) returns (ms': seq<Move>)
    requires Run(s, ms, State(n, p)) && NodeOk(n) && NodeOk(p) && Still(n)
    requires n.pool != [] && n.pool[0] == o && o !in n.live
    ensures o in n.gen && Run(s, ms', State(Asked(n, o, msg), p)) && NodeOk(Asked(n, o, msg))
  {
    AskedStations(n, o, msg);
    TakeNext(n, p);
    var n1 := Take(n, StrTaken);
    ms' := GoLeft(s, ms, n, p, TakeFor(StrTaken), n1, p);
    ms' := AskTaken(s, ms', n1, p, o, msg);
  }

  /** What follows the receive from the pool. */
  lemma AskTaken(s: State, ms: seq<Move>, n: Node, p: Node, o: Oid, msg: BinMessage) returns (ms': seq<Move>)
    requires Run(s, ms, State(n, p)) && NodeOk(n) && NodeOk(p) && Still(n)
    requires CallerIs(n, o, {StrTaken}) && o in n.gen && o in n.cb && o !in n.live
    ensures var live := if n.cb[o].Some? then n.live[o := Local] else n.live;
            var n3 := PutNotice(n, o, StrNoticed).(rxch := [], live := live);
            var n' := Emit(SetCaller(n3, o, StrOpen), Frame(Start, o, msg, n.gen[o]));
            Run(s, ms', State(n', p)) && NodeOk(n')
  {
    var n2 := PutNotice(n, o, StrNoticed);
    TellNext(n, p, o);
    ms' := GoLeft(s, ms, n, p, Tell(o), n2, p);
    NoticeNext(n2, p, o);
    var n3 := if n2.cb[o].Some? then n2.(rxch := [], live := n2.live[o := Local]) else n2.(rxch := []);
    ms' := GoLeft(s, ms', n2, p, Dispatch(true), n3, p);
    StartNext(n3, p, o, msg);
    var n4 := Emit(SetCaller(n3, o, StrOpen), Frame(Start, o, msg, n3.gen[o]));
    ms' := GoLeft(s, ms', n3, p, SendFirst(o, msg), n4, p);
  }

  // ---- the remote end

  /** A start frame on an opaque that is not live opens a remote stream. */
  lemma HostShape(p: Node, f: Frame)
    requires NodeOk(p) && p.rxch == [Packet(f)] && f.kind.Start? && f.oid !in p.live && f.oid !in p.range
    ensures var p' := SyncRx(p, true);
            && NodeOk(p') && p'.log.mdrops == p.log.mdrops
            && p'.log.calls == p.log.calls + [ToHandler(f.oid, f.gen, RStart, f.msg)]
            && p' == p.(rxch := [], live := p.live[f.oid := Remote(f.gen, true)],
                        handles := p.handles + {Handle(f.oid, f.gen, Start)}, log := p'.log)
  {}

  /** The same frame on a live remote stream goes to that stream's callback, and counts as dropped. */
  lemma SwallowShape(p: Node, f: Frame, g: nat)
    requires NodeOk(p) && p.rxch == [Packet(f)] && f.kind.Start? && f.oid in p.live && p.live[f.oid] == Remote(g, true)
    ensures var p' := SyncRx(p, true);
            && NodeOk(p') && p'.log.mdrops == p.log.mdrops + 1
            && p'.log.calls == p.log.calls + [ToStream(f.oid, g, f.msg, true, true)]
  {}

  /** A finish frame ends whatever remote stream it meets. */
  lemma EndShape(p: Node, f: Frame, g: nat)
    requires NodeOk(p) && p.rxch == [Packet(f)] && f.kind.Finish? && f.oid in p.live && p.live[f.oid] == Remote(g, true)
    ensures var p' := SyncRx(p, true);
            && NodeOk(p') && p' == p.(rxch := [], live := p.live - {f.oid}, log := p'.log)
            && p'.log.mdrops == p.log.mdrops
            && p'.log.calls == p.log.calls + [ToStream(f.oid, g, NO_MESSAGE, false, true)]
  {}

  /** The peer reads the one frame on its way and dispatches it. */
  lemma GoAcross(s: State, ms: seq<Move>, n: Node, p: Node, f: Frame) returns (ms': seq<Move>)
    requires Run(s, ms, State(n, p)) && NodeOk(n) && NodeOk(p) && n.out == [Packet(f)] && p.rxch == []
    requires var p1 := p.(rxch := [Packet(f)]); NodeOk(p1) ==> NodeOk(SyncRx(p1, true))
    ensures var n', p1 := n.(out := []), p.(rxch := [Packet(f)]);
            NodeOk(n') && NodeOk(p1) && Run(s, ms', State(n', SyncRx(p1, true)))
    ensures ms' == ms + [Move(false, DoRx)] + [Move(false, Dispatch(true))]
  {
    var n', p1 := n.(out := []), p.(rxch := [Packet(f)]);
    DoRxNext(p, n, Packet(f));
    ms' := GoRight(s, ms, n, p, DoRx, n', p1);
    DispatchNext(p1, n', f);
    ms' := GoRight(s, ms', n', p1, Dispatch(true), n', SyncRx(p1, true));
  }

  lemma CloseNext(p: Node, n: Node, o: Oid, g: nat)
    requires NodeOk(n) && NodeOk(p) && Still(p) && Handle(o, g, Start) in p.handles
    ensures var h, f := Handle(o, g, Start), Frame(Finish, o, NO_MESSAGE, g);
            var p' := Emit(p.(handles := p.handles - {h}), f);
            Leads(p, n, RemoteClose(h), p', n) && p'.out == [Packet(f)]
  {
    var h, f := Handle(o, g, Start), Frame(Finish, o, NO_MESSAGE, g);
    PaidOk(p, h);
    EmitViews(p.(handles := p.handles - {h}), n, f);
  }

  lemma PaidOk(p: Node, h: Handle)
    requires NodeOk(p)
    ensures NodeOk(p.(handles := p.handles - {h}))
  {}

  /** The remote closes its stream, and its finish frame reaches the initiator's rxch. */
  lemma GoRemoteClose(s: State, ms: seq<Move>, n: Node, p: Node, o: Oid, g: nat) returns (ms': seq<Move>, p': Node)
    requires Run(s, ms, State(n, p)) && NodeOk(n) && NodeOk(p) && Still(n) && Still(p)
    requires Handle(o, g, Start) in p.handles
    ensures var m := n.(rxch := [Packet(Frame(Finish, o, NO_MESSAGE, g))]);
            NodeOk(m) && NodeOk(p') && Run(s, ms', State(m, p'))
    ensures p' == p.(handles := p.handles - {Handle(o, g, Start)}, log := p'.log)
    ensures p'.log.mdrops == p.log.mdrops && p'.log.calls == p.log.calls
  {
    var h, f := Handle(o, g, Start), Frame(Finish, o, NO_MESSAGE, g);
    var p1 := Emit(p.(handles := p.handles - {h}), f);
    CloseNext(p, n, o, g);
    ms' := GoRight(s, ms, n, p, RemoteClose(h), n, p1);
    DoRxNext(n, p1, Packet(f));
    p' := p1.(out := []);
    ms' := GoLeft(s, ms', n, p1, DoRx, n.(rxch := [Packet(f)]), p');
  }

  // ---- an open stream, from a fresh start

  function Alone(o: Oid): Node { Fresh({o}, [o]) }

  function Nobody(): Node { Fresh({}, []) }

  /** The initiator `n` holds the stream open that the remote `p` serves, and nothing is on its way. */
  ghost predicate Open(n: Node, p: Node, o: Oid, g: nat) { OpenParts(n, p, o, g) == true }

  predicate OpenParts(n: Node, p: Node, o: Oid, g: nat) {
    && Still(n) && Still(p) && o in n.range && o !in p.range && n.pool == []
    && CallerIs(n, o, {StrOpen}) && o in n.gen && n.gen[o] == g && o in n.cb && n.cb[o] == Some(g)
    && o in n.live && n.live[o] == Local
    && o in p.live && p.live[o] == Remote(g, true) && Handle(o, g, Start) in p.handles && p.log.mdrops == 0
  }

  /** Nothing of the last exchange is left, and the one stream is in the pool. */
  ghost predicate Idle(n: Node, p: Node, o: Oid, g: nat) { IdleParts(n, p, o, g) == true }

  predicate IdleParts(n: Node, p: Node, o: Oid, g: nat) {
    && Still(n) && Still(p) && n.pool == [o] && o in n.range && o in n.gen && n.gen[o] == g && o !in n.live
    && o !in p.live && o !in p.range && p.log.mdrops == 0
  }

  lemma FreshStart(o: Oid)
    ensures Init(State(Alone(o), Nobody())) && NodeOk(Alone(o)) && NodeOk(Nobody()) && Idle(Alone(o), Nobody(), o, 0)
  {}

  lemma IdleMeans(n: Node, p: Node, o: Oid, g: nat)
    requires Idle(n, p, o, g)
    ensures Still(n) && Still(p) && n.pool == [o] && o in n.gen && n.gen[o] == g && o !in n.live
    ensures o !in p.live && o !in p.range
  {}

  lemma GoOpen(s: State, ms: seq<Move>, n: Node, p: Node, o: Oid, g: nat, msg: BinMessage)
      returns (ms': seq<Move>, n': Node, p': Node)
    requires Run(s, ms, State(n, p)) && NodeOk(n) && NodeOk(p) && Idle(n, p, o, g)
    ensures Run(s, ms', State(n', p')) && NodeOk(n') && NodeOk(p') && Open(n', p', o, g + 1)
  {
    IdleMeans(n, p, o, g);
    ms' := Ask(s, ms, n, p, o, msg);
    ms', n', p' := GoHosted(s, ms', n, p, o, g, msg);
  }

  lemma GoHosted(s: State, ms: seq<Move>, n: Node, p: Node, o: Oid, g: nat, msg: BinMessage)
      returns (ms': seq<Move>, n': Node, p': Node)
    requires NodeOk(p) && Idle(n, p, o, g) && n.pool != [] && o in n.gen
    requires NodeOk(Asked(n, o, msg)) && Run(s, ms, State(Asked(n, o, msg), p))
    ensures Run(s, ms', State(n', p')) && NodeOk(n') && NodeOk(p') && Open(n', p', o, g + 1)
  {
    var f := Frame(Start, o, msg, g + 1);
    IdleMeans(n, p, o, g);
    AskedOut(n, o, msg, f);
    ms', p' := GoHost(s, ms, Asked(n, o, msg), p, f);
    n' := Asked(n, o, msg).(out := []);
    OpenNow(n, p, o, g, msg, p');
  }

  /** The remote end gets the start frame and serves the stream. */
  lemma GoHost(s: State, ms: seq<Move>, n: Node, p: Node, f: Frame) returns (ms': seq<Move>, p': Node)
    requires Run(s, ms, State(n, p)) && NodeOk(n) && NodeOk(p) && n.out == [Packet(f)] && p.rxch == []
    requires f.kind.Start? && f.oid !in p.live && f.oid !in p.range
    ensures NodeOk(n.(out := [])) && NodeOk(p') && Run(s, ms', State(n.(out := []), p'))
    ensures p' == p.(live := p.live[f.oid := Remote(f.gen, true)],
                     handles := p.handles + {Handle(f.oid, f.gen, Start)}, log := p'.log)
    ensures p'.log.mdrops == p.log.mdrops
    ensures p'.log.calls == p.log.calls + [ToHandler(f.oid, f.gen, RStart, f.msg)]
  {
    var p1 := p.(rxch := [Packet(f)]);
    if NodeOk(p1) { HostShape(p1, f); }
    ms' := GoAcross(s, ms, n, p, f);
    p' := SyncRx(p1, true);
    HostShape(p1, f);
  }

  lemma AskedOut(n: Node, o: Oid, msg: BinMessage, f: Frame)
    requires n.pool != [] && o in n.gen && n.out == [] && f == Frame(Start, o, msg, n.gen[o] + 1)
    ensures Asked(n, o, msg).out == [Packet(f)]
  {}

  lemma OpenNow(n: Node, p: Node, o: Oid, g: nat, msg: BinMessage, p': Node)
    requires Idle(n, p, o, g)
    requires p' == p.(live := p.live[o := Remote(g + 1, true)], handles := p.handles + {Handle(o, g + 1, Start)},
                      log := p'.log)
    requires p'.log.mdrops == p.log.mdrops && n.pool != [] && o in n.gen
    ensures Open(Asked(n, o, msg).(out := []), p', o, g + 1)
  {
    assert n.pool[1..] == [];
  }

  lemma OpenAwaits(n: Node, p: Node, o: Oid, g: nat, f: Frame)
    requires Open(n, p, o, g) && f == Frame(Finish, o, NO_MESSAGE, g)
    ensures var m := n.(rxch := [Packet(f)]); HeadIs(m, f) && Awaits(m, f) && CallerIs(m, o, {StrOpen})
    ensures Still(n) && Still(p) && n.pool == [] && Handle(o, g, Start) in p.handles && o in n.range && o !in p.range
    ensures o in p.live && p.live[o] == Remote(g, true) && p.log.mdrops == 0
  {}

  // ---- the whole life of a stream

  /** The initiator handles the remote's close, closing in its callback; its stream is pooled again. */
  lemma ClosedShape(n: Node, o: Oid, g: nat, f: Frame)
    requires f == Frame(Finish, o, NO_MESSAGE, g) && n.rxch == [Packet(f)] && n.out == [] && n.pool == []
    requires NodeOk(n) && Awaits(n, f) && CallerIs(n, o, {StrOpen})
    ensures var n' := SyncRx(n, true);
            && NodeOk(n') && n'.pool == [o] && n'.rxch == [] && n'.out == [Packet(f)]
            && n'.range == n.range && o in n'.gen && n'.gen[o] == g && o !in n'.live
  {
    assert n.rxch[1..] == [];
    var c := FinShape(n, f, true);
    FinishedOk(n, o);
  }

  lemma FinishedOk(n: Node, o: Oid)
    requires NodeOk(n) && n.rxch != [] && o in n.range && CallerIs(n, o, {StrOpen})
    ensures o in n.gen && forall l: Log :: NodeOk(Finished(n, o).(log := l))
  {
    forall l: Log ensures NodeOk(Finished(n, o).(log := l)) {
      assert forall i | i in n.rxch[1..] :: i in n.rxch;
    }
  }

  /** Closed by the remote first. */
  lemma GoThrough(s: State, ms: seq<Move>, n: Node, p: Node, o: Oid, g: nat)
      returns (ms': seq<Move>, n': Node, p': Node)
    requires Run(s, ms, State(n, p)) && NodeOk(n) && NodeOk(p) && Open(n, p, o, g)
    ensures Run(s, ms', State(n', p')) && NodeOk(n') && NodeOk(p') && Idle(n', p', o, g)
  {
    var f, p1 := Frame(Finish, o, NO_MESSAGE, g), p;
    OpenAwaits(n, p, o, g, f);
    ms', p1 := GoRemoteClose(s, ms, n, p, o, g);
    ms', n', p' := GoBack(s, ms', n.(rxch := [Packet(f)]), p1, o, g, f);
  }

  lemma GoBack(s: State, ms: seq<Move>, n: Node, p: Node, o: Oid, g: nat, f: Frame)
      returns (ms': seq<Move>, n': Node, p': Node)
    requires Run(s, ms, State(n, p)) && NodeOk(n) && NodeOk(p) && f == Frame(Finish, o, NO_MESSAGE, g)
    requires n.rxch == [Packet(f)] && n.out == [] && n.pool == [] && Awaits(n, f) && CallerIs(n, o, {StrOpen})
    requires Still(p) && o !in p.range && o in p.live && p.live[o] == Remote(g, true) && p.log.mdrops == 0
    ensures Run(s, ms', State(n', p')) && NodeOk(n') && NodeOk(p') && Idle(n', p', o, g)
  {
    var n1 := SyncRx(n, true);
    ClosedShape(n, o, g, f);
    DispatchNext(n, p, f);
    ms' := GoLeft(s, ms, n, p, Dispatch(true), n1, p);
    ms', n', p' := GoEnded(s, ms', n1, p, f, g);
    IdleNow(n1, p, o, g, p');
  }

  lemma IdleNow(n: Node, p: Node, o: Oid, g: nat, p': Node)
    requires n.pool == [o] && n.rxch == [] && o in n.range && o in n.gen && n.gen[o] == g && o !in n.live
    requires Still(p) && o !in p.range && p.log.mdrops == 0
    requires p' == p.(live := p.live - {o}, log := p'.log) && p'.log.mdrops == p.log.mdrops
    ensures Idle(n.(out := []), p', o, g)
  {}

  /** The initiator's finish ends the remote stream it meets, of whatever generation. */
  lemma GoEnded(s: State, ms: seq<Move>, n: Node, p: Node, f: Frame, g: nat)
      returns (ms': seq<Move>, n': Node, p': Node)
    requires Run(s, ms, State(n, p)) && NodeOk(n) && NodeOk(p) && n.out == [Packet(f)] && Still(p)
    requires f.kind.Finish? && f.oid in p.live && p.live[f.oid] == Remote(g, true)
    ensures ms' == ms + [Move(false, DoRx)] + [Move(false, Dispatch(true))]
    ensures Run(s, ms', State(n', p')) && n' == n.(out := []) && NodeOk(n') && NodeOk(p')
    ensures p' == p.(live := p.live - {f.oid}, log := p'.log) && p'.log.mdrops == p.log.mdrops
    ensures p'.log.calls == p.log.calls + [ToStream(f.oid, g, NO_MESSAGE, false, true)]
  {
    var p1 := p.(rxch := [Packet(f)]);
    if NodeOk(p1) { EndShape(p1, f, g); }
    ms' := GoAcross(s, ms, n, p, f);
    EndShape(p1, f, g);
    n', p' := n.(out := []), SyncRx(p1, true);
  }

  // ---- what goes wrong

  /** A second close, by the former holder of an opaque, ends the stream that uses it now: there is a
      disciplined run to an open stream of generation 2, and after one close by the holder of
      generation 1 the remote is told that the other end has closed, though its initiator has not. */
  lemma SecondCloseEndsNextStream(o: Oid, m1: BinMessage, m2: BinMessage)
      returns (s: State, ms: seq<Move>, t: State, u: State)
    ensures Init(s) && Run(s, ms, t) && CallerIs(t.a, o, {StrOpen}) && o in t.a.gen && t.a.gen[o] == 2
    ensures Run(State(CloseBy(t.a, o, 1), t.b), [Move(false, DoRx), Move(false, Dispatch(true))], u)
    ensures o in t.b.live && o !in u.b.live && CallerIs(u.a, o, {StrOpen})
    ensures u.b.log.calls == t.b.log.calls + [ToStream(o, 2, NO_MESSAGE, false, true)]
  {
    FreshStart(o);
    s := State(Alone(o), Nobody());
    ms, t := GoTwice(s, o, m1, m2);
    var ms2, n, p := StrayClose(t.a, t.b, o);
    u := State(n, p);
  }

  /** One stream opened and closed by both ends, and a second one opened. */
  lemma GoTwice(s: State, o: Oid, m1: BinMessage, m2: BinMessage) returns (ms: seq<Move>, t: State)
    requires s == State(Alone(o), Nobody()) && NodeOk(s.a) && NodeOk(s.b)
    ensures Run(s, ms, t) && NodeOk(t.a) && NodeOk(t.b) && Open(t.a, t.b, o, 2)
  {
    var n1, p1, n2, p2, n3, p3;
    ms, n1, p1 := GoOpen(s, [], Alone(o), Nobody(), o, 0, m1);
    ms, n2, p2 := GoThrough(s, ms, n1, p1, o, 1);
    ms, n3, p3 := GoOpen(s, ms, n2, p2, o, 1, m2);
    t := State(n3, p3);
  }

  lemma StrayClose(n: Node, p: Node, o: Oid) returns (ms: seq<Move>, n': Node, p': Node)
    requires NodeOk(n) && NodeOk(p) && Open(n, p, o, 2)
    ensures CallerIs(n, o, {StrOpen}) && o in n.gen && n.gen[o] == 2 && o in p.live
    ensures ms == [Move(false, DoRx), Move(false, Dispatch(true))]
    ensures Run(State(CloseBy(n, o, 1), p), ms, State(n', p'))
    ensures o !in p'.live && CallerIs(n', o, {StrOpen})
    ensures p'.log.calls == p.log.calls + [ToStream(o, 2, NO_MESSAGE, false, true)]
  {
    var f := Frame(Finish, o, NO_MESSAGE, 1);
    EmitViews(n, p, f);
    var m := CloseBy(n, o, 1);
    ms, n', p' := GoEnded(State(m, p), [], m, p, f, 2);
    assert [] + [Move(false, DoRx)] + [Move(false, Dispatch(true))] == [Move(false, DoRx), Move(false, Dispatch(true))];
  }

  /** A close that comes only after the callback leaves the old stream in the way of the next one:
      there is a disciplined run to the remote's finish, and if the callback then returns without
      closing, the next start on the opaque is handed to the old stream's callback and dropped. */
  lemma LateCloseSwallowsNextStart(o: Oid, m1: BinMessage, m2: BinMessage)
      returns (s: State, ms: seq<Move>, t: State, f: Frame, ms2: seq<Move>, u: State)
    ensures Init(s) && Run(s, ms, t) && Linked(t.a) && HeadIs(t.a, f) && f.kind.Finish? && f.oid == o
    ensures CallerIs(t.a, o, {StrOpen})
    ensures Run(State(Unclosed(t.a, f), t.b), ms2, u) && t.b.log.mdrops == 0 && u.b.log.mdrops == 1
    ensures u.b.log.calls == t.b.log.calls + [ToStream(o, 1, m2, true, true)]
    ensures CallerIs(u.a, o, {StrOpen}) && o in u.a.gen && u.a.gen[o] == 2
  {
    s := State(Alone(o), Nobody());
    FreshStart(o);
    ms, t, f := GoFinished(s, o, m1);
    FinishingMeans(t.a, t.b, o, f);
    ms2, u := Swallow(t.a, t.b, o, m2, f);
  }

  /** One stream opened, closed by the remote, and its finish waiting in the initiator's rxch. */
  lemma GoFinished(s: State, o: Oid, m1: BinMessage) returns (ms: seq<Move>, t: State, f: Frame)
    requires s == State(Alone(o), Nobody()) && NodeOk(s.a) && NodeOk(s.b)
    ensures Run(s, ms, t) && Finishing(t.a, t.b, o, f)
  {
    f := Frame(Finish, o, NO_MESSAGE, 1);
    var n1, p1, p2;
    ms, n1, p1 := GoOpen(s, [], Alone(o), Nobody(), o, 0, m1);
    OpenAwaits(n1, p1, o, 1, f);
    ms, p2 := GoRemoteClose(s, ms, n1, p1, o, 1);
    t := State(n1.(rxch := [Packet(f)]), p2);
    FinishingNow(n1, p1, o, f, p2);
  }

  ghost predicate Finishing(n: Node, p: Node, o: Oid, f: Frame) { FinishingParts(n, p, o, f) == true }

  ghost predicate FinishingParts(n: Node, p: Node, o: Oid, f: Frame) {
    && NodeOk(n) && NodeOk(p) && f == Frame(Finish, o, NO_MESSAGE, 1) && n.rxch == [Packet(f)] && Awaits(n, f)
    && CallerIs(n, o, {StrOpen}) && n.out == [] && n.pool == []
    && Still(p) && o in p.live && p.live[o] == Remote(1, true) && p.log.mdrops == 0
  }

  lemma FinishingNow(n: Node, p: Node, o: Oid, f: Frame, p': Node)
    requires Open(n, p, o, 1) && f == Frame(Finish, o, NO_MESSAGE, 1)
    requires NodeOk(n.(rxch := [Packet(f)])) && NodeOk(p') && p'.log.mdrops == p.log.mdrops
    requires p' == p.(handles := p'.handles, log := p'.log)
    ensures Finishing(n.(rxch := [Packet(f)]), p', o, f)
  {
    OpenAwaits(n, p, o, 1, f);
  }

  lemma FinishingMeans(n: Node, p: Node, o: Oid, f: Frame)
    requires Finishing(n, p, o, f)
    ensures NodeOk(n) && NodeOk(p) && Linked(n) && HeadIs(n, f) && f.oid == o && f.kind.Finish?
    ensures CallerIs(n, o, {StrOpen})
    ensures p.rxch == [] && o in p.live && p.live[o] == Remote(1, true) && p.log.mdrops == 0
  {}

  lemma PooledAgain(n: Node, p: Node, o: Oid, f: Frame, msg: BinMessage)
    requires Finishing(n, p, o, f) && Linked(n) && HeadIs(n, f)
    ensures var m := Unclosed(n, f);
            && NodeOk(m) && Still(m) && m.pool != [] && m.pool[0] == o && o !in m.live && o in m.gen
            && var q := Asked(m, o, msg);
               q.out == [Packet(Frame(Start, o, msg, 2))] && CallerIs(q, o, {StrOpen}) && o in q.gen && q.gen[o] == 2
  {
    UnclosedShape(n, f);
    assert n.rxch[1..] == [];
  }

  lemma Swallow(n: Node, p: Node, o: Oid, msg: BinMessage, f: Frame) returns (ms: seq<Move>, u: State)
    requires Finishing(n, p, o, f) && Linked(n) && HeadIs(n, f)
    ensures Run(State(Unclosed(n, f), p), ms, u)
    ensures u.b.log.mdrops == 1 && u.b.log.calls == p.log.calls + [ToStream(o, 1, msg, true, true)]
    ensures CallerIs(u.a, o, {StrOpen}) && o in u.a.gen && u.a.gen[o] == 2
  {
    PooledAgain(n, p, o, f, msg);
    FinishingMeans(n, p, o, f);
    ms, u := AskInVain(Unclosed(n, f), p, o, msg, Frame(Start, o, msg, 2));
  }

  lemma AskInVain(n: Node, p: Node, o: Oid, msg: BinMessage, f: Frame) returns (ms: seq<Move>, u: State)
    requires NodeOk(n) && NodeOk(p) && Still(n) && n.pool != [] && n.pool[0] == o && o !in n.live && o in n.gen
    requires Asked(n, o, msg).out == [Packet(f)] && f == Frame(Start, o, msg, 2)
    requires p.rxch == [] && o in p.live && p.live[o] == Remote(1, true)
    ensures Run(State(n, p), ms, u) && u.a == Asked(n, o, msg).(out := [])
    ensures u.b.log.mdrops == p.log.mdrops + 1
    ensures u.b.log.calls == p.log.calls + [ToStream(o, 1, msg, true, true)]
  {
    ms := Ask(State(n, p), [], n, p, o, msg);
    ms, u := GoSwallowed(State(n, p), ms, Asked(n, o, msg), p, f);
  }

  /** A start frame finds the last stream of its opaque still live. */
  lemma GoSwallowed(s: State, ms: seq<Move>, n: Node, p: Node, f: Frame) returns (ms': seq<Move>, u: State)
    requires Run(s, ms, State(n, p)) && NodeOk(n) && NodeOk(p) && n.out == [Packet(f)] && p.rxch == []
    requires f.kind.Start? && f.oid in p.live && p.live[f.oid] == Remote(1, true)
    ensures Run(s, ms', u) && u.a == n.(out := []) && u.b.log.mdrops == p.log.mdrops + 1
    ensures u.b.log.calls == p.log.calls + [ToStream(f.oid, 1, f.msg, true, true)]
  {
    var p1 := p.(rxch := [Packet(f)]);
    if NodeOk(p1) { SwallowShape(p1, f, 1); }
    ms' := GoAcross(s, ms, n, p, f);
    SwallowShape(p1, f, 1);
    u := State(n.(out := []), SyncRx(p1, true));
  }

  // ---- a frame too many, in any state

  lemma RunCons(s: State, m: Move, ms: seq<Move>, t: State)
    requires CanStep(s, m) && Run(Step(s, m), ms, t)
    ensures Run(s, [m] + ms, t)
  {
    assert ([m] + ms)[0] == m && ([m] + ms)[1..] == ms;
  }

  lemma ConsRight(n: Node, p: Node, a: Action, n': Node, p': Node, ms: seq<Move>, t: State)
    requires Leads(p, n, a, p', n') && Run(State(n', p'), ms, t)
    ensures Run(State(n, p), [Move(false, a)] + ms, t)
  {
    RunCons(State(n, p), Move(false, a), ms, t);
  }

  /** `n` sends one frame of a stream that it may not send: it is not the holder of the open stream. */
  ghost predicate Stray(n: Node, f: Frame) {
    && f.oid in n.range && f.oid in n.gen && (f.kind.Finish? || f.kind.StreamMsg?)
    && !(CallerIs(n, f.oid, {StrOpen}) && f.gen == n.gen[f.oid])
  }

  /** What the dispatch of the stray frame does to the peer, while the exchange in progress has generation
      `g`: if that one is an open stream, the frame goes to it, though it belongs to another exchange, and
      a finish ends it; otherwise the frame is dropped. */
  ghost predicate Harm(open: bool, g: nat, p: Node, p': Node, f: Frame) {
    if open then
      && g != f.gen && f.oid in p.live && p.live[f.oid].Remote? && p.live[f.oid].gen == g
      && p'.log.calls == p.log.calls + [ToStream(f.oid, g, if f.kind.Finish? then NO_MESSAGE else f.msg,
                                                 f.kind.StreamMsg?, p.live[f.oid].callb)]
      && (f.kind.Finish? ==> p'.live == p.live - {f.oid})
    else
      p'.log.mdrops == p.log.mdrops + 1 && p'.log.calls == p.log.calls && p'.live == p.live
  }

  /** The frame is next at the peer `p`, nothing was dropped so far, and now it does harm. */
  ghost predicate Harmful(open: bool, g: nat, p: Node, f: Frame) {
    && NodeOk(p) && Linked(p) && p.log.mdrops == 0 && HeadIs(p, f)
    && forall hcb :: Harm(open, g, p, SyncRx(p, hcb), f)
  }

  /** With nothing on its way, the peer's entry is the one of the exchange in progress. */
  lemma EarNow(n: Node, p: Node, o: Oid)
    requires SysInv(n, p) && o in n.range && p.rxch == [] && n.out == []
    ensures o in n.gen && (o in p.live <==> CallerIs(n, o, {StrOpen}))
    ensures o in p.live ==> p.live[o].Remote? && p.live[o].gen == n.gen[o]
  {
    SysOk(n, p);
    OwnGen(n, o);
    SysGood(n, p, o);
    EarOnly(ViewOf(n, p, o), o);
  }

  lemma EarOnly(v: View, o: Oid)
    requires Good(v, o) && v.fwd == []
    ensures if IsIn(v.caller, {StrOpen}) then v.ear.Some? && v.ear.value.Remote? && v.ear.value.gen == v.gen
            else v.ear.None?
  {}

  lemma HarmNow(p: Node, f: Frame, open: bool, g: nat)
    requires NodeOk(p) && p.rxch == [Packet(f)] && p.log.mdrops == 0 && (f.kind.Finish? || f.kind.StreamMsg?)
    requires f.oid in p.live <==> open
    requires open ==> g != f.gen && p.live[f.oid].Remote? && p.live[f.oid].gen == g
    ensures Harmful(open, g, p, f)
  {
    forall hcb ensures Harm(open, g, p, SyncRx(p, hcb), f) {}
  }

  lemma NoDrops(n: Node, p: Node)
    requires SysInv(n, p)
    ensures p.log.mdrops == 0
  {}

  /** None of these frames opens the exchange of generation `g` on `o`. */
  ghost predicate NoOpener(q: seq<Item>, o: Oid, g: nat) {
    forall i | i in q && i.Packet? && i.frame.oid == o && i.frame.gen == g ::
      !i.frame.kind.Request? && !i.frame.kind.Start?
  }

  /** The peer reads and handles all that was on its way before one more frame `f`. */
  lemma {:induction false} Drain(n: Node, p: Node, f: Frame) returns (ms: seq<Move>, p': Node)
    requires SysInv(n, p)
    ensures SysInv(n.(out := []), p') && p'.rxch == [] && p'.range == p.range
    ensures Run(State(Emit(n, f), p), ms, State(Emit(n.(out := []), f), p'))
    ensures NoOpener(p.out, f.oid, f.gen) ==> NoOpener(p'.out, f.oid, f.gen)
    decreases |p.rxch| + 2 * |n.out|, 1
  {
    if p.rxch != [] {
      ms, p' := DrainHandled(n, p, f);
    } else if n.out != [] {
      ms, p' := DrainRead(n, p, f);
    } else {
      assert n.(out := []) == n;
      ms, p' := [], p;
    }
  }

  lemma {:induction false} DrainHandled(n: Node, p: Node, f: Frame) returns (ms: seq<Move>, p': Node)
    requires SysInv(n, p) && p.rxch != []
    ensures SysInv(n.(out := []), p') && p'.rxch == [] && p'.range == p.range
    ensures Run(State(Emit(n, f), p), ms, State(Emit(n.(out := []), f), p'))
    ensures NoOpener(p.out, f.oid, f.gen) ==> NoOpener(p'.out, f.oid, f.gen)
    decreases |p.rxch| + 2 * |n.out|, 0
  {
    SysHandled(n, p, f);
    var p1 := SyncRx(p, true);
    if NoOpener(p.out, f.oid, f.gen) { OpensNothing(p.out, p1.out, f.oid, f.gen); }
    ms, p' := Drain(n, p1, f);
    ConsRight(Emit(n, f), p, Dispatch(true), Emit(n, f), p1, ms, State(Emit(n.(out := []), f), p'));
    ms := [Move(false, Dispatch(true))] + ms;
  }

  lemma {:induction false} DrainRead(n: Node, p: Node, f: Frame) returns (ms: seq<Move>, p': Node)
    requires SysInv(n, p) && n.out != []
    ensures SysInv(n.(out := []), p') && p'.rxch == [] && p'.range == p.range
    ensures Run(State(Emit(n, f), p), ms, State(Emit(n.(out := []), f), p'))
    ensures NoOpener(p.out, f.oid, f.gen) ==> NoOpener(p'.out, f.oid, f.gen)
    decreases |p.rxch| + 2 * |n.out|, 0
  {
    var n1, p1 := Shift(n), Deliver(p, n.out[0]);
    SysRead(n, p, f);
    ms, p' := Drain(n1, p1, f);
    ConsRight(Emit(n, f), p, DoRx, Emit(n1, f), p1, ms, State(Emit(n.(out := []), f), p'));
    ms := [Move(false, DoRx)] + ms;
  }

  /** A dispatch opens nothing. */
  lemma OpensNothing(q: seq<Item>, r: seq<Item>, o: Oid, g: nat)
    requires NoOpener(q, o, g) && MayFinish(q, r)
    ensures NoOpener(r, o, g)
  {
    FinishOnly(q, r);
  }

  lemma SysHandled(n: Node, p: Node, f: Frame)
    requires SysInv(n, p) && p.rxch != []
    ensures NodeOk(p) && Linked(p) && (p.rxch[0].Notice? ==> p.rxch[0].stream in p.range)
    ensures var p' := SyncRx(p, true);
            && SysInv(n, p') && p'.rxch == p.rxch[1..] && p'.range == p.range && MayFinish(p.out, p'.out)
            && Leads(p, Emit(n, f), Dispatch(true), p', Emit(n, f))
  {
    SysOk(n, p);
    SyncFinishes(p, true);
    SysSym(n, p);
    SysDispatch(p, n, true);
    SysSym(SyncRx(p, true), n);
    SysOk(n, SyncRx(p, true));
    HandledNext(p, n, f);
  }

  lemma SysRead(n: Node, p: Node, f: Frame)
    requires SysInv(n, p) && n.out != []
    ensures var n', p' := Shift(n), Deliver(p, n.out[0]);
            SysInv(n', p') && Leads(p, Emit(n, f), DoRx, p', Emit(n', f))
  {
    var n', p' := Shift(n), Deliver(p, n.out[0]);
    SysSym(n, p);
    SysDoRx(p, n);
    SysSym(p', n');
    SysOk(n, p);
    SysOk(n', p');
    ReadNext(p, n, f);
  }

  lemma HandledNext(p: Node, n: Node, f: Frame)
    requires NodeOk(p) && NodeOk(n) && p.rxch != [] && Linked(p)
    requires (p.rxch[0].Notice? ==> p.rxch[0].stream in p.range) && NodeOk(SyncRx(p, true))
    ensures Leads(p, Emit(n, f), Dispatch(true), SyncRx(p, true), Emit(n, f))
  {
    EmitViews(n, p, f);
  }

  lemma ReadNext(p: Node, n: Node, f: Frame)
    requires NodeOk(p) && NodeOk(n) && n.out != [] && NodeOk(Deliver(p, n.out[0])) && NodeOk(Shift(n))
    ensures Leads(p, Emit(n, f), DoRx, Deliver(p, n.out[0]), Emit(Shift(n), f))
  {
    EmitViews(n, p, f);
    EmitViews(Shift(n), p, f);
    assert (n.out + [Packet(f)])[1..] == n.out[1..] + [Packet(f)];
  }

  /** Whatever is on its way: once the peer has handled what came before it, a stray frame of an
      initiator does harm, and no frame before it did. */
  lemma StrayDoesHarm(n: Node, p: Node, f: Frame) returns (ms: seq<Move>, t: State)
    requires SysInv(n, p) && Stray(n, f)
    ensures Run(State(Emit(n, f), p), ms, t)
    ensures Harmful(CallerIs(n, f.oid, {StrOpen}), n.gen[f.oid], t.b, f)
  {
    var p1;
    ms, p1 := Drain(n, p, f);
    var n1 := n.(out := []);
    ms := GoArrive(State(Emit(n, f), p), ms, n1, p1, f);
    t := State(Emit(n1, f).(out := []), p1.(rxch := [Packet(f)]));
    EarNow(n1, p1, f.oid);
    NoDrops(n1, p1);
    HarmNow(t.b, f, CallerIs(n, f.oid, {StrOpen}), n.gen[f.oid]);
  }

  lemma GoArrive(s: State, ms: seq<Move>, n: Node, p: Node, f: Frame) returns (ms': seq<Move>)
    requires Run(s, ms, State(Emit(n, f), p)) && SysInv(n, p) && n.out == [] && p.rxch == []
    ensures Run(s, ms', State(Emit(n, f).(out := []), p.(rxch := [Packet(f)]))) && NodeOk(p.(rxch := [Packet(f)]))
  {
    SysOk(n, p);
    EmitViews(n, p, f);
    DoRxNext(p, Emit(n, f), Packet(f));
    ms' := GoRight(s, ms, Emit(n, f), p, DoRx, Emit(n, f).(out := []), p.(rxch := [Packet(f)]));
  }

  /** The remote end sends a response, a message or a close without the handle for it, though it has
      heard all about that exchange: it has answered or closed before, or never was asked. */
  ghost predicate StrayReply(n: Node, p: Node, f: Frame) {
    && f.oid in p.range && (f.kind.Request? || f.kind.StreamMsg? || f.kind.Finish?) && Serving(f) !in n.handles
    && NoOpener(n.rxch, f.oid, f.gen) && NoOpener(p.out, f.oid, f.gen)
  }

  /** How the entry at `o` is told of a message, whichever exchange that entry belongs to. */
  function ToldAt(p: Node, o: Oid, msg: BinMessage, ok: bool): Call
    requires Linked(p) && o in p.live
  {
    var e := p.live[o];
    if e.Remote? then ToStream(o, e.gen, msg, ok, e.callb)
    else if p.cb[o].None? then ToStream(o, p.gen[o], msg, ok, false)
    else ToStream(o, p.cb[o].value, msg, ok, true)
  }

  function Misheard(p: Node, f: Frame): Call
    requires Linked(p) && f.oid in p.live
  {
    ToldAt(p, f.oid, if f.kind.Finish? then NO_MESSAGE else f.msg, f.kind.StreamMsg?)
  }

  /** What its dispatch does: the exchange in progress is told what was not meant for it; or, with none,
      a second response is taken for a new request, and anything else is dropped. */
  ghost predicate Astray(p: Node, p': Node, f: Frame)
    requires Linked(p)
  {
    if f.oid in p.live then p'.log.calls == p.log.calls + [Misheard(p, f)]
    else if f.kind.Request? then p'.log.calls == p.log.calls + [ToHandler(f.oid, f.gen, RReq, f.msg)]
    else p'.log.mdrops == p.log.mdrops + 1 && p'.log.calls == p.log.calls && p'.live == p.live
  }

  predicate Awaiting(v: View, f: Frame) {
    && v.live && v.gen == f.gen
    && if f.kind.Request? then v.caller == Some(ReqSent) else IsIn(v.caller, {StrOpen, StrClosed})
  }

  /** What is awaited has its handle at the other end, or its opener on the way there. */
  lemma AwaitedIsOwed(v: View, o: Oid, f: Frame)
    requires Good(v, o) && v.bwd == [] && f.oid == o
    requires var w := Openers(v.fwd); w != [] ==> w[0].Packet? && w[0].frame.gen != f.gen
    ensures Awaiting(v, f) ==> Serving(f) in v.owed
  {}

  lemma FlightOpensNothing(q: seq<Item>, r: seq<Item>, o: Oid, g: nat)
    requires NoOpener(q, o, g) && NoOpener(r, o, g)
    ensures var w := Openers(On(q, o) + On(r, o)); w != [] ==> w[0].Packet? && w[0].frame.gen != g
  {
    var v := On(q, o) + On(r, o);
    OnIn(q, o);
    OnIn(r, o);
    OpenersIn(v);
    if Openers(v) != [] { assert Openers(v)[0] in Openers(v) && Openers(v)[0] in v; }
  }

  lemma NobodyAwaits(n: Node, p: Node, f: Frame)
    requires SysInv(n, p) && StrayReply(n, p, f) && p.rxch == [] && n.out == []
    ensures !Awaiting(ViewOf(p, n, f.oid), f)
  {
    GoodPeer(n, p, f.oid);
    FlightOpensNothing(n.rxch, p.out, f.oid, f.gen);
    AwaitedIsOwed(ViewOf(p, n, f.oid), f.oid, f);
  }

  lemma AwaitsSeen(p: Node, n: Node, f: Frame, p': Node)
    requires Awaits(p', f) && (f.kind.Request? || f.kind.StreamMsg? || f.kind.Finish?) && p' == p.(rxch := p'.rxch)
    ensures Awaiting(ViewOf(p, n, f.oid), f)
  {}

  lemma AstrayNow(p: Node, f: Frame, hcb: bool)
    requires Linked(p) && p.rxch == [Packet(f)] && (f.kind.Request? || f.kind.StreamMsg? || f.kind.Finish?)
    ensures Astray(p, SyncRx(p, hcb), f)
  {
    if f.oid in p.live { AstrayLive(p, f, hcb); }
  }

  lemma AstrayLive(p: Node, f: Frame, hcb: bool)
    requires Linked(p) && p.rxch == [Packet(f)] && (f.kind.Request? || f.kind.StreamMsg? || f.kind.Finish?)
    requires f.oid in p.live
    ensures SyncRx(p, hcb).log.calls == p.log.calls + [Misheard(p, f)]
  {
    var n := p.(rxch := p.rxch[1..]);
    TellsAt(n, f.oid, if f.kind.Finish? then NO_MESSAGE else f.msg, f.kind.StreamMsg?);
    assert Misheard(n, f) == Misheard(p, f);
  }

  lemma TellsAt(n: Node, o: Oid, msg: BinMessage, ok: bool)
    requires Linked(n) && o in n.live
    ensures Callback(n, o, msg, ok).log.calls == n.log.calls + [ToldAt(n, o, msg, ok)]
  {}

  /** Whatever is on its way: once the initiator has handled what came before it, a stray frame of the
      remote end finds no exchange that awaits it. */
  lemma StrayReplyDoesHarm(n: Node, p: Node, f: Frame) returns (ms: seq<Move>, t: State)
    requires SysInv(n, p) && StrayReply(n, p, f)
    ensures Run(State(Emit(n, f), p), ms, t)
    ensures Linked(t.b) && HeadIs(t.b, f) && t.b.log.mdrops == 0 && !Awaits(t.b, f)
    ensures forall hcb :: Astray(t.b, SyncRx(t.b, hcb), f)
  {
    var p1;
    ms, p1 := Drain(n, p, f);
    var n1 := n.(out := []);
    ms := GoArrive(State(Emit(n, f), p), ms, n1, p1, f);
    t := State(Emit(n1, f).(out := []), p1.(rxch := [Packet(f)]));
    NobodyAwaits(n1, p1, f);
    if Awaits(t.b, f) { AwaitsSeen(p1, n1, f, t.b); }
    NoDrops(n1, p1);
    forall hcb ensures Astray(t.b, SyncRx(t.b, hcb), f) { AstrayNow(t.b, f, hcb); }
  }

  // ---- a stream without a callback

  /** getlocalstream, as Stream does it without a callback. */
  function TakeNil(n: Node, o: Oid): Node
    requires n.pool != [] && n.pool[0] in n.gen
  {
    var n1 := Take(n, StrTaken);
    n1.(cb := n1.cb[o := None])
  }

  /** No item of the queue can make the stream on `o` live. */
  ghost predicate NoOpening(q: seq<Item>, o: Oid) {
    forall i | i in q && i.Id() == o :: i.Packet? && !i.frame.kind.Start?
  }

  /** The stream on `o` is in somebody's hands, and syncRx does not know of it. */
  ghost predicate Lost(n: Node, p: Node, o: Oid) { LostParts(n, p, o) == true }

  ghost predicate LostParts(n: Node, p: Node, o: Oid) {
    && o !in p.range && o !in n.pool && o !in n.live && CallerIs(n, o, {StrOpen, StrClosed})
    && NoOpening(n.rxch, o) && NoOpening(p.out, o)
  }

  lemma NoOpeningRest(q: seq<Item>, o: Oid)
    requires NoOpening(q, o) && q != []
    ensures NoOpening(q[1..], o) && (q[0].Id() == o ==> q[0].Packet? && !q[0].frame.kind.Start?)
  {
    assert q[0] in q && forall i | i in q[1..] :: i in q;
  }

  lemma LostInSync(n: Node, p: Node, o: Oid, hcb: bool)
    requires Lost(n, p, o) && NodeOk(n) && n.rxch != []
    ensures Linked(n) && (n.rxch[0].Notice? ==> n.rxch[0].stream in n.range) && Lost(SyncRx(n, hcb), p, o)
  {
    assert n.rxch[0] in n.rxch;
    NoOpeningRest(n.rxch, o);
    var rest := n.(rxch := n.rxch[1..]);
    if n.rxch[0].Packet? { LostInHandle(rest, p, n.rxch[0].frame, o, hcb); }
  }

  lemma LostInHandle(n: Node, p: Node, f: Frame, o: Oid, hcb: bool)
    requires Lost(n, p, o) && Linked(n) && (f.oid == o ==> !f.kind.Start?)
    ensures Lost(HandlePkt(n, f, hcb), p, o)
  {
    if f.oid in n.live {
      LostInCallback(n, p, f.oid, if f.kind.Finish? then NO_MESSAGE else f.msg, !f.kind.Finish? && !f.kind.Request?, o);
    }
  }

  lemma LostInCallback(n: Node, p: Node, x: Oid, msg: BinMessage, ok: bool, o: Oid)
    requires Lost(n, p, o) && Linked(n) && x in n.live
    ensures Lost(Callback(n, x, msg, ok), p, o) && x != o
  {}

  /** It stays so, whatever its own node does next, */
  lemma LostOwn(n: Node, p: Node, o: Oid, a: Action)
    requires Lost(n, p, o) && NodeOk(n) && NodeOk(p) && Enabled(n, p, a)
    ensures Lost(Act(n, p, a).0, Act(n, p, a).1, o)
  {
    if a.Dispatch? {
      LostInSync(n, p, o, a.hcb);
    } else if a.DoRx? {
      NoOpeningRest(p.out, o);
    } else if a.TakeFor? || a.Tell? || a.PostReturn? || a.Clear? {
      LostInPool(n, p, o, a);
    } else {
      LostInSending(n, p, o, a);
    }
  }

  lemma LostInSending(n: Node, p: Node, o: Oid, a: Action)
    requires Lost(n, p, o) && NodeOk(n) && Enabled(n, p, a) && !a.Dispatch? && !a.DoRx?
    requires !a.TakeFor? && !a.Tell? && !a.PostReturn? && !a.Clear?
    ensures Lost(Act(n, p, a).0, p, o) && Act(n, p, a).1 == p
  {}

  lemma LostInPool(n: Node, p: Node, o: Oid, a: Action)
    requires Lost(n, p, o) && NodeOk(n) && Enabled(n, p, a) && (a.TakeFor? || a.Tell? || a.PostReturn? || a.Clear?)
    ensures Lost(Act(n, p, a).0, p, o) && Act(n, p, a).1 == p
  {}

  /** and whatever the peer does. */
  lemma LostPeer(n: Node, p: Node, o: Oid, a: Action)
    requires Lost(n, p, o) && NodeOk(n) && NodeOk(p) && Enabled(p, n, a)
    ensures Lost(Act(p, n, a).1, Act(p, n, a).0, o)
  {
    if !a.DoRx? {
      OutGrows(p, n, a, o);
      LostBeside(n, p, Act(p, n, a).0, o);
    }
  }

  lemma LostBeside(n: Node, p: Node, p': Node, o: Oid)
    requires Lost(n, p, o) && p'.range == p.range && NoOpening(p'.out, o)
    ensures Lost(n, p', o)
  {}

  lemma StillNoOpening(q: seq<Item>, r: seq<Item>, o: Oid)
    requires NoOpening(q, o) && MayFinish(q, r)
    ensures NoOpening(r, o)
  {
    FinishOnly(q, r);
  }

  /** A node starts no stream on an opaque that is not its own. */
  lemma OutGrows(n: Node, p: Node, a: Action, o: Oid)
    requires NodeOk(n) && NodeOk(p) && Enabled(n, p, a) && !a.DoRx? && o !in n.range && NoOpening(n.out, o)
    ensures Act(n, p, a).0.range == n.range && Act(n, p, a).1 == p && NoOpening(Act(n, p, a).0.out, o)
  {
    if a.Dispatch? {
      SyncFinishes(n, a.hcb);
      StillNoOpening(n.out, SyncRx(n, a.hcb).out, o);
    }
  }

  lemma {:induction false} LostForEver(s: State, ms: seq<Move>, t: State, o: Oid)
    requires Run(s, ms, t) && Lost(s.a, s.b, o)
    ensures Lost(t.a, t.b, o)
    decreases |ms|
  {
    if ms != [] {
      var m := ms[0];
      if m.left { LostOwn(s.a, s.b, o, m.act); } else { LostPeer(s.a, s.b, o, m.act); }
      LostForEver(Step(s, m), ms[1..], t, o);
    }
  }

  /** The initiator's side of a remote's finish that finds no stream: it is dropped. */
  lemma DroppedShape(n: Node, f: Frame)
    requires NodeOk(n) && n.rxch == [Packet(f)] && f.kind.Finish? && f.oid !in n.live
    ensures var n' := SyncRx(n, true);
            && NodeOk(n') && n' == n.(rxch := [], log := n'.log)
            && n'.log.mdrops == n.log.mdrops + 1 && n'.log.calls == n.log.calls
  {
    assert n.rxch[1..] == [];
  }

  /** Opened without a callback, as far as the start frame on the wire. */
  function NilAsked(n: Node, o: Oid, msg: BinMessage): Node
    requires o in n.gen
  {
    Emit(SetCaller(PutNotice(n, o, StrNoticed).(rxch := []), o, StrOpen), Frame(Start, o, msg, n.gen[o]))
  }

  ghost predicate NilTaken(n: Node, o: Oid) {
    && NodeOk(n) && Still(n) && CallerIs(n, o, {StrTaken}) && o in n.gen && n.gen[o] == 1 && o in n.cb && n.cb[o].None?
    && o !in n.live && o !in n.pool && n.log.mdrops == 0 && n.log.calls == []
  }

  lemma NilTakenNow(o: Oid)
    ensures Alone(o).pool != [] && Alone(o).pool[0] in Alone(o).gen && NilTaken(TakeNil(Alone(o), o), o)
  {}

  /** What the application has been told, at either end. */
  ghost predicate ToldOf(n: Node, p: Node, o: Oid, msg: BinMessage) {
    && p.log.calls == [ToHandler(o, 1, RStart, msg)] && p.handles == {}
    && n.log.mdrops == 1 && n.log.calls == [] && CallerIs(n, o, {StrOpen})
  }

  lemma NilRun(n: Node, p: Node, o: Oid, msg: BinMessage) returns (ms: seq<Move>, u: State)
    requires NilTaken(n, o) && p == Nobody() && NodeOk(p)
    ensures Run(State(n, p), ms, u) && Lost(u.a, u.b, o) && ToldOf(u.a, u.b, o, msg)
  {
    var f := Frame(Start, o, msg, 1);
    ms := AskTaken(State(n, p), [], n, p, o, msg);
    var n1 := NilAsked(n, o, msg);
    NilAskedShape(n, o, msg);
    ms, u := NilEnd(State(n, p), ms, n1, p, f);
  }

  lemma NilAskedShape(n: Node, o: Oid, msg: BinMessage)
    requires NilTaken(n, o)
    ensures PutNotice(n, o, StrNoticed).(rxch := [], live := n.live) == PutNotice(n, o, StrNoticed).(rxch := [])
    ensures NilAskedNow(NilAsked(n, o, msg), Frame(Start, o, msg, 1))
  {}

  ghost predicate NilAskedNow(n: Node, f: Frame) {
    && n.out == [Packet(f)] && n.rxch == [] && CallerIs(n, f.oid, {StrOpen}) && f.oid !in n.live && f.oid !in n.pool
    && n.log.mdrops == 0 && n.log.calls == []
  }

  /** The remote serves the stream and closes it, and the initiator drops its finish. */
  lemma NilEnd(s: State, ms: seq<Move>, n: Node, p: Node, f: Frame) returns (ms': seq<Move>, u: State)
    requires Run(s, ms, State(n, p)) && NodeOk(n) && NilAskedNow(n, f) && p == Nobody() && NodeOk(p)
    requires f.kind.Start? && f.gen == 1
    ensures Run(s, ms', u) && Lost(u.a, u.b, f.oid) && ToldOf(u.a, u.b, f.oid, f.msg)
  {
    var p1;
    ms', p1 := NilServed(s, ms, n, p, f, Frame(Finish, f.oid, NO_MESSAGE, 1));
    ms', u := NilDropped(s, ms', n, p1, f, Frame(Finish, f.oid, NO_MESSAGE, 1));
  }

  lemma NilServed(s: State, ms: seq<Move>, n: Node, p: Node, f: Frame, g: Frame) returns (ms': seq<Move>, p': Node)
    requires Run(s, ms, State(n, p)) && NodeOk(n) && n.rxch == [] && n.out == [Packet(f)] && p == Nobody() && NodeOk(p)
    requires f.kind.Start? && f.gen == 1 && g == Frame(Finish, f.oid, NO_MESSAGE, 1)
    ensures var n1 := n.(out := []).(rxch := [Packet(g)]); NodeOk(n1) && NodeOk(p') && Run(s, ms', State(n1, p'))
    ensures p'.out == [] && p'.range == {} && p'.log.calls == [ToHandler(f.oid, 1, RStart, f.msg)] && p'.handles == {}
  {
    var p1;
    ms', p1 := GoHost(s, ms, n, p, f);
    ms', p' := GoRemoteClose(s, ms', n.(out := []), p1, f.oid, 1);
  }

  lemma NilDropped(s: State, ms: seq<Move>, n: Node, p: Node, f: Frame, g: Frame) returns (ms': seq<Move>, u: State)
    requires NilAskedNow(n, f) && g == Frame(Finish, f.oid, NO_MESSAGE, 1) && NodeOk(p) && f.oid !in p.range
    requires var n1 := n.(out := []).(rxch := [Packet(g)]); NodeOk(n1) && Run(s, ms, State(n1, p))
    requires p.out == [] && p.log.calls == [ToHandler(f.oid, 1, RStart, f.msg)] && p.handles == {}
    ensures Run(s, ms', u) && Lost(u.a, u.b, f.oid) && ToldOf(u.a, u.b, f.oid, f.msg)
  {
    var n1 := n.(out := []).(rxch := [Packet(g)]);
    DroppedShape(n1, g);
    DispatchNext(n1, p, g);
    u := State(SyncRx(n1, true), p);
    ms' := GoLeft(s, ms, n1, p, Dispatch(true), u.a, u.b);
  }

  /** A stream opened without a callback is never registered: its open notice does nothing.  From a fresh
      start, the remote serves the stream and closes it, its finish is dropped, the initiator is told
      nothing, and whatever happens from then on, the stream is never in the pool again. */
  lemma NilCallbackLosesStream(o: Oid, msg: BinMessage) returns (s: State, ms: seq<Move>, u: State)
    ensures Init(s) && s.a.pool != [] && s.a.pool[0] == o && o in s.a.gen
    ensures Run(State(TakeNil(s.a, o), s.b), ms, u)
    ensures u.b.log.calls == [ToHandler(o, 1, RStart, msg)] && u.b.handles == {}
    ensures u.a.log.mdrops == 1 && u.a.log.calls == [] && CallerIs(u.a, o, {StrOpen})
    ensures forall ms', v :: Run(u, ms', v) ==> o !in v.a.pool && o !in v.a.live
  {
    FreshStart(o);
    s := State(Alone(o), Nobody());
    NilTakenNow(o);
    ms, u := NilRun(TakeNil(s.a, o), s.b, o, msg);
    forall ms', v | Run(u, ms', v) ensures o !in v.a.pool && o !in v.a.live {
      LostForEver(u, ms', v, o);
    }
  }
}
