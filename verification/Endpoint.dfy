/**
  syncRx, stream.go and the pool of local streams as the code has them.  Stream objects live on the
  heap and are shared: one object is in turn in the pool, in livestreams and behind a notice, and a
  notice is read through its `rxcallb` field as it is when syncRx gets there.  Each method is proved
  equal to the step of module Exchange that the theorems are about.
*/
module Endpoint {
  import opened Wire
  import opened Exchange
  import ExchangeLog

  /** A stream.  `gen` is history: the exchange that a remote stream belongs to. */
  class Stream {
    const oid: Oid
    const remote: bool
    const gen: nat
    var rxcallb: Option<nat>     // the callback, known by the exchange that installed it

    constructor (oid: Oid, remote: bool, gen: nat, rxcallb: Option<nat>)
      ensures this.oid == oid && this.remote == remote && this.gen == gen && this.rxcallb == rxcallb
    {
      this.oid, this.remote, this.gen, this.rxcallb := oid, remote, gen, rxcallb;
    }

    ghost function Entry(): Entry
      reads this
    {
      if remote then Remote(gen, rxcallb.Some?) else Local
    }
  }

  /** An rxpacket: a packet from the wire, or a pointer to a local stream. */
  datatype RxPacket = Net(frame: Frame) | Told(stream: Stream)

  ghost function Ids(q: seq<Stream>): (r: seq<Oid>)
    ensures |r| == |q| && forall i | 0 <= i < |q| :: r[i] == q[i].oid
  {
    seq(|q|, i requires 0 <= i < |q| => q[i].oid)
  }

  ghost function ItemOf(x: RxPacket): Item { match x case Net(f) => Packet(f) case Told(s) => Notice(s.oid) }

  ghost function Items(q: seq<RxPacket>): (r: seq<Item>)
    ensures |r| == |q| && forall i | 0 <= i < |q| :: r[i] == ItemOf(q[i])
  {
    seq(|q|, i requires 0 <= i < |q| => ItemOf(q[i]))
  }

  function Reaction(n: Node, o: Oid, ok: bool): Node
    requires o in n.gen
  {
    if CallerIs(n, o, {ReqSent}) then n.(callers := n.callers[o := ReqDone])
    else if CallerIs(n, o, {StrOpen}) && !ok then
      Emit(n.(callers := n.callers[o := StrClosed]), Frame(Finish, o, NO_MESSAGE, n.gen[o]))
    else n
  }

  /** One local stream for each opaque. */
  method MakeStreams(range: set<Oid>) returns (made: map<Oid, Stream>)
    ensures made.Keys == range
    ensures forall o | o in made :: fresh(made[o]) && made[o].oid == o && !made[o].remote && made[o].rxcallb == None
  {
    made := map[];
    var left := range;
    while left != {}
      invariant left <= range && made.Keys == range - left
      invariant forall o | o in made :: fresh(made[o]) && made[o].oid == o && !made[o].remote && made[o].rxcallb == None
      decreases |left|
    {
      var o :| o in left;
      var s := new Stream(o, false, 0, None);
      made, left := made[o := s], left - {o};
    }
  }

  method InOrder(order: seq<Oid>, made: map<Oid, Stream>) returns (q: seq<Stream>)
    requires forall o | o in order :: o in made && made[o].oid == o
    ensures Ids(q) == order && forall s | s in q :: s.oid in made && s == made[s.oid]
  {
    q := [];
    for i := 0 to |order|
      invariant |q| == i && forall j | 0 <= j < i :: q[j].oid == order[j] && order[j] in made && q[j] == made[order[j]]
    {
      assert order[i] in order;
      q := q + [made[order[i]]];
    }
  }

  lemma FreshOk(range: set<Oid>, order: seq<Oid>)
    requires forall o | o in order :: o in range
    ensures NodeOk(Fresh(range, order))
  {}

  lemma RestOk(n: Node)
    requires NodeOk(n) && n.rxch != []
    ensures NodeOk(n.(rxch := n.rxch[1..])) && (n.rxch[0].Notice? ==> n.rxch[0].stream in n.range)
  {
    assert n.rxch[0] in n.rxch && forall i | i in n.rxch[1..] :: i in n.rxch;
  }

  lemma HeardLocally(n: Node, o: Oid, msg: BinMessage, ok: bool)
    requires o in n.live && n.live[o].Local? && o in n.cb && o in n.gen && n.cb[o].Some?
    ensures Callback(n, o, msg, ok)
         == Reaction(n.(log := n.log.(calls := n.log.calls + [ToStream(o, n.cb[o].value, msg, ok, true)])), o, ok)
  {}

  lemma TakeInSteps(n: Node, c: Caller)
    requires n.pool != [] && n.pool[0] in n.gen
    ensures var o, g := n.pool[0], n.gen[n.pool[0]] + 1;
            Take(n, c) == n.(pool := n.pool[1..]).(gen := n.gen[o := g], callers := n.callers[o := c])
                           .(cb := n.cb[o := if c.PostTaken? then None else Some(g)])
  {}

  /** As many dispatches by the left node. */
  function Dispatches(hcbs: seq<bool>): (ms: seq<Move>)
    ensures |ms| == |hcbs|
  {
    if hcbs == [] then [] else Dispatches(hcbs[..|hcbs| - 1]) + [Move(true, Dispatch(hcbs[|hcbs| - 1]))]
  }

  lemma DispatchesNext(hcbs: seq<bool>, k: nat)
    requires k < |hcbs|
    ensures Dispatches(hcbs[..k + 1]) == Dispatches(hcbs[..k]) + [Move(true, Dispatch(hcbs[k]))]
  {
    assert hcbs[..k + 1][..k] == hcbs[..k];
  }

  class Endpoint {
    const range: set<Oid>
    const locals: map<Oid, Stream>    // every local stream, made once
    var pool: seq<Stream>
    var livestreams: map<Oid, Stream>
    var rxch: seq<RxPacket>
    var gen: map<Oid, nat>
    var callers: map<Oid, Caller>
    var handles: set<Handle>
    var out: seq<Item>
    var log: Log

    /** setOpaqueRange: a stream for every acceptable opaque, pooled in the order given. */
    constructor (range: set<Oid>, order: seq<Oid>)
      requires forall o | o in order :: o in range
      ensures Valid() && State() == Fresh(range, order)
    {
      var made := MakeStreams(range);
      var q := InOrder(order, made);
      this.range, locals, pool, livestreams, rxch := range, made, q, map[], [];
      gen, callers, handles, out := map o | o in range :: 0, map[], {}, [];
      log := Log([], [], [], {}, ZERO, ZERO, 0, 0);
      new;
      FreshParts();
      FreshOk(range, order);
    }

    lemma FreshParts()
      requires livestreams == map[] && rxch == [] && locals.Keys == range
      requires forall o | o in locals :: locals[o].rxcallb == None
      ensures Callbacks() == (map o | o in range :: None) && Live() == map[] && Items(rxch) == []
    {}

    ghost function Callbacks(): map<Oid, Option<nat>>
      reads locals.Values
    {
      map o | o in locals :: locals[o].rxcallb
    }

    ghost function Live(): map<Oid, Entry>
      reads this, livestreams.Values
    {
      map o | o in livestreams :: livestreams[o].Entry()
    }

    /** The node of the model that these objects make up. */
    ghost function State(): Node
      reads this, locals.Values, livestreams.Values
    {
      Node(range, Ids(pool), gen, Callbacks(), callers, Live(), handles, Items(rxch), out, log)
    }

    /** Streams are where they belong: local ones are the ones made at the start, others are remote. */
    ghost predicate Placed()
      reads this
    {
      PlacedParts() == true
    }

    ghost predicate PlacedParts()
      reads this
    {
      && locals.Keys == range && (forall o | o in locals :: locals[o].oid == o && !locals[o].remote)
      && (forall s | s in pool :: s.oid in locals && s == locals[s.oid])
      && (forall x | x in rxch && x.Told? :: x.stream.oid in locals && x.stream == locals[x.stream.oid])
      && forall o | o in livestreams :: livestreams[o].oid == o &&
           (!livestreams[o].remote ==> o in locals && livestreams[o] == locals[o])
    }

    ghost predicate Valid()
      reads this, locals.Values, livestreams.Values
    {
      Placed() && NodeOk(State())
    }

    // ---- one object, one field at a time

    ghost predicate IsLocal(s: Stream) { s.oid in locals && s == locals[s.oid] }

    /** stream.rxcallb = callb.  Notices of this stream that wait already will be read with it. */
    method SetCallback(s: Stream, callb: Option<nat>)
      requires Placed() && IsLocal(s)
      modifies s
      ensures Placed() && State() == old(State()).(cb := old(State()).cb[s.oid := callb]) && s.rxcallb == callb
    {
      s.rxcallb := callb;
      LiveSame();
    }

    twostate lemma LiveSame()
      requires Placed() && old(Placed()) && livestreams == old(livestreams)
      requires forall o | o in livestreams && livestreams[o].remote ::
                 livestreams[o].rxcallb == old(livestreams[o].rxcallb)
      ensures Live() == old(Live())
    {}

    /** Where streams are depends on three fields only. */
    twostate lemma PlacedSame()
      requires pool == old(pool) && livestreams == old(livestreams) && rxch == old(rxch)
      ensures Placed() == old(Placed())
    {
      assert PlacedParts() == old(PlacedParts()) by {
        if old(PlacedParts()) { assert PlacedParts(); } else { assert !PlacedParts(); }
      }
    }

    /** A receive from pStrms. */
    method FromPool() returns (s: Stream)
      requires Placed() && pool != []
      modifies `pool
      ensures Placed() && s == old(pool[0]) && IsLocal(s)
      ensures State() == old(State()).(pool := old(State()).pool[1..]) && s.oid == old(State()).pool[0]
    {
      s := pool[0];
      assert s in pool && forall x | x in pool[1..] :: x in pool;
      pool := pool[1..];
    }

    method ToPool(s: Stream)
      requires Placed() && IsLocal(s)
      modifies `pool
      ensures Placed() && State() == old(State()).(pool := old(State()).pool + [s.oid])
    {
      pool := pool + [s];
      assert Ids(pool) == old(Ids(pool)) + [s.oid];
    }

    method PutCh(s: Stream)
      requires Placed() && IsLocal(s)
      modifies `rxch
      ensures Placed() && State() == old(State()).(rxch := old(State()).rxch + [Notice(s.oid)])
    {
      rxch := rxch + [Told(s)];
      assert Items(rxch) == old(Items(rxch)) + [Notice(s.oid)];
    }

    method PutLive(s: Stream)
      requires Placed() && (IsLocal(s) || s.remote)
      modifies `livestreams
      ensures Placed() && State() == old(State()).(live := old(State()).live[s.oid := old(s.Entry())])
      ensures livestreams == old(livestreams)[s.oid := s]
    {
      livestreams := livestreams[s.oid := s];
      assert Live() == old(Live())[s.oid := s.Entry()];
    }

    method Delete(o: Oid)
      requires Placed()
      modifies `livestreams
      ensures Placed() && State() == old(State()).(live := old(State()).live - {o})
      ensures livestreams == old(livestreams) - {o}
    {
      livestreams := livestreams - {o};
    }

    // ---- stream.go

    /** getlocalstream: receive from the pool, set the callback, and tell syncRx if asked to. */
    method GetLocalStream(c: Caller) returns (s: Stream)
      requires Valid() && pool != [] && c in {PostTaken, ReqTaken, StrTaken}
      modifies this, locals.Values
      ensures Placed() && s == old(pool[0]) && IsLocal(s)
      ensures State() == if c.PostTaken? then Take(old(State()), c)
                         else PutNotice(Take(old(State()), c), s.oid, AfterTell(c))
    {
      s := FromPool();
      Held(s, gen[s.oid] + 1, c);
      SetCallback(s, if c.PostTaken? then None else Some(gen[s.oid]));
      TakeInSteps(old(State()), c);
      if !c.PostTaken? { Tell(s, AfterTell(c)); }
    }

    /** History, and who holds the stream now. */
    method Held(s: Stream, g: nat, c: Caller)
      requires Placed()
      modifies `gen, `callers
      ensures Placed() && gen == old(gen)[s.oid := g]
      ensures State() == old(State()).(gen := old(gen)[s.oid := g], callers := old(callers)[s.oid := c])
    {
      gen, callers := gen[s.oid := g], callers[s.oid := c];
    }

    method Tell(s: Stream, c: Caller)
      requires Placed() && IsLocal(s)
      modifies `rxch, `callers
      ensures Placed() && State() == PutNotice(old(State()), s.oid, c)
    {
      PutCh(s);
      callers := callers[s.oid := c];
    }

    /** putstream: through syncRx for a request, directly to the pool otherwise. */
    method PutStream(s: Stream, tellrx: bool)
      requires Placed() && IsLocal(s)
      modifies `rxch, `pool, `callers
      ensures Placed()
      ensures State() == if tellrx then PutNotice(old(State()), s.oid, ReqReturned) else Release(old(State()), s.oid)
    {
      if tellrx {
        Tell(s, ReqReturned);
      } else {
        ToPool(s);
        callers := callers - {s.oid};
      }
    }

    /** Request, woken up, forgets its callback before it returns the stream. */
    method Clear(s: Stream)
      requires Placed() && IsLocal(s)
      modifies s, `callers
      ensures Placed() && s.rxcallb == None
      ensures State() == old(State()).(cb := old(State()).cb[s.oid := None],
                                       callers := old(callers)[s.oid := ReqCleared])
    {
      SetCallback(s, None);
      callers := callers[s.oid := ReqCleared];
    }

    /** txasync of a frame just built. */
    method Transmit(f: Frame)
      modifies `out, `log
      ensures Placed() == old(Placed())
      ensures State() == Emit(old(State()), f)
    {
      out := out + [Packet(f)];
      log := log.(sent := log.sent + [Packet(f)], tx := log.tx.Bump(RoleOf(f, f.oid in range)));
      PlacedSame();
    }

    // ---- syncRx

    /** The handling of a notice; the stream it points to is read as it is now. */
    method StreamUpdate(s: Stream)
      requires Valid() && IsLocal(s)
      modifies `livestreams, `pool, `callers, `rxch
      ensures Placed() && State() == Exchange.StreamUpdate(old(State()), s.oid)
    {
      var ok := s.oid in livestreams;
      if ok && s.rxcallb.None? {
        Delete(s.oid);
        PutStream(s, false);
      } else if s.rxcallb.Some? {
        PutLive(s);
      }
    }

    /** One call more in the history. */
    method Called(c: Call)
      modifies `log
      ensures Placed() == old(Placed())
      ensures State() == old(State()).(log := old(log).(calls := old(log).calls + [c]))
    {
      log := log.(calls := log.calls + [c]);
      PlacedSame();
    }

    /** The stream callback, run in syncRx, with the reaction the discipline asks of it. */
    method RunCallback(s: Stream, msg: BinMessage, ok: bool)
      requires Valid() && s.oid in livestreams && livestreams[s.oid] == s
      modifies `out, `log, `callers
      ensures Placed() && State() == Exchange.Callback(old(State()), s.oid, msg, ok)
    {
      if s.remote {
        Called(ToStream(s.oid, s.gen, msg, ok, s.rxcallb.Some?));
      } else if s.rxcallb.None? {
        Called(ToStream(s.oid, gen[s.oid], msg, ok, false));
      } else {
        Called(ToStream(s.oid, s.rxcallb.value, msg, ok, true));
        React(s.oid, ok);
        HeardLocally(old(State()), s.oid, msg, ok);
      }
    }

    /** What the application does when it is called: a requester wakes up, an initiator closes. */
    method React(o: Oid, ok: bool)
      requires Placed() && o in gen
      modifies `out, `log, `callers
      ensures Placed()
      ensures State() == Reaction(old(State()), o, ok)
    {
      if o in callers {
        if callers[o].ReqSent? {
          callers := callers[o := ReqDone];
        } else if callers[o].StrOpen? && !ok {
          callers := callers[o := StrClosed];
          Transmit(Frame(Finish, o, NO_MESSAGE, gen[o]));
        }
      }
    }

    method Counted(r: Role)
      modifies `log
      ensures Placed() == old(Placed())
      ensures State() == Count(old(State()), r)
    {
      log := log.(rx := log.rx.Bump(r));
      PlacedSame();
    }

    method Dropped()
      modifies `log
      ensures Placed() == old(Placed())
      ensures State() == Drop(old(State()))
    {
      log := log.(mdrops := log.mdrops + 1);
      PlacedSame();
    }

    method RunHandler(f: Frame, r: Role)
      modifies `log
      ensures Placed() == old(Placed())
      ensures State() == Handled(old(State()), f, r)
    {
      Called(ToHandler(f.oid, f.gen, r, f.msg));
      Counted(r);
    }

    method HandleFinish(f: Frame)
      requires Valid() && f.kind.Finish?
      modifies `out, `log, `callers, `livestreams, `pool, `rxch
      ensures Placed() && State() == Exchange.HandlePkt(old(State()), f, false)
    {
      if f.oid in livestreams {
        var s := livestreams[f.oid];
        RunCallback(s, NO_MESSAGE, false);
        if !s.remote { PutStream(s, false); }
        Delete(f.oid);
        Counted(RFin);
      } else {
        Dropped();
      }
    }

    /** newremotestream, put into livestreams with the callback the handler returned, if any. */
    method StartRemote(f: Frame, hcb: bool)
      requires Placed()
      modifies `livestreams
      ensures Placed() && State() == old(State()).(live := old(State()).live[f.oid := Remote(f.gen, hcb)])
    {
      var s := new Stream(f.oid, true, f.gen, if hcb then Some(f.gen) else None);
      PutLive(s);
    }

    /** The application gets hold of a remote stream, to answer a request or to take part in a stream. */
    method HandOut(f: Frame, hcb: bool)
      modifies `handles, `log
      ensures Placed() == old(Placed())
      ensures State() == old(State()).(handles := old(handles) + {Handle(f.oid, f.gen, f.kind)},
                                       log := old(log).(muted := old(log).muted + if hcb then {} else {(f.oid, f.gen)}))
    {
      handles := handles + {Handle(f.oid, f.gen, f.kind)};
      log := log.(muted := log.muted + if hcb then {} else {(f.oid, f.gen)});
      PlacedSame();
    }

    /** A packet on an opaque with no live stream: post, request or stream-start. */
    method HandleNew(f: Frame, hcb: bool)
      requires Valid() && !f.kind.Finish? && f.oid !in livestreams
      modifies `handles, `log, `livestreams
      ensures Placed() && State() == Exchange.HandlePkt(old(State()), f, hcb)
    {
      if f.kind.Post? {
        RunHandler(f, RPost);
      } else if f.kind.Request? {
        HandOut(f, true);
        RunHandler(f, RReq);
      } else if f.kind.Start? {
        HandOut(f, hcb);
        StartRemote(f, hcb);
        RunHandler(f, RStart);
      } else {
        Dropped();
      }
    }

    /** A packet on a live stream: response, stream message, or a duplicate. */
    method HandleLive(f: Frame)
      requires Valid() && !f.kind.Finish? && f.oid in livestreams
      modifies `out, `log, `callers
      ensures Placed() && State() == Exchange.HandlePkt(old(State()), f, false)
    {
      RunCallback(livestreams[f.oid], f.msg, !f.kind.Request?);
      if f.kind.Request? {
        Counted(RResp);
      } else if f.kind.StreamMsg? {
        Counted(RStream);
      } else {
        Dropped();
      }
    }

    method HandlePkt(f: Frame, hcb: bool)
      requires Valid()
      modifies this
      ensures Placed() && State() == Exchange.HandlePkt(old(State()), f, hcb)
    {
      if f.kind.Finish? {
        HandleFinish(f);
      } else if f.oid !in livestreams {
        HandleNew(f, hcb);
      } else {
        HandleLive(f);
      }
    }

    /** A receive from rxch. */
    method FromCh() returns (x: RxPacket)
      requires Placed() && rxch != []
      modifies `rxch
      ensures Placed() && x == old(rxch[0]) && (x.Told? ==> IsLocal(x.stream))
      ensures State() == old(State()).(rxch := old(State()).rxch[1..])
    {
      x := rxch[0];
      assert x in rxch && forall y | y in rxch[1..] :: y in rxch;
      rxch := rxch[1..];
      assert Items(rxch) == old(Items(rxch))[1..];
    }

    /** One turn of the event loop. */
    method Turn(hcb: bool)
      requires Valid() && rxch != []
      modifies this
      ensures Placed() && Linked(old(State()))
      ensures old(State()).rxch[0].Notice? ==> old(State()).rxch[0].stream in range
      ensures State() == SyncRx(old(State()), hcb)
    {
      RestOk(State());
      var x := FromCh();
      match x
      case Told(s) =>
        StreamUpdate(s);
      case Net(f) =>
        HandlePkt(f, hcb);
        Received(f);
    }

    /** The endpoint and its peer are in a good state: the invariant of every run of the model holds. */
    ghost predicate Good(peer: Node)
      reads this, locals.Values, livestreams.Values
    {
      (Placed() && ExchangeLog.SysInv(State(), peer)) == true
    }

    lemma GoodMeans(peer: Node)
      requires Good(peer)
      ensures Valid() && NodeOk(peer) && ExchangeLog.SysInv(State(), peer)
    {}

    /** In a good state, facing any peer, the turn leads to a good state again: turns can be chained. */
    method GoodTurn(ghost peer: Node, hcb: bool)
      requires Good(peer) && rxch != []
      modifies this
      ensures Good(peer) && CanStep(Exchange.State(old(State()), peer), Move(true, Dispatch(hcb)))
      ensures Exchange.State(State(), peer) == Step(Exchange.State(old(State()), peer), Move(true, Dispatch(hcb)))
    {
      GoodMeans(peer);
      ExchangeLog.SysDispatch(State(), peer, hcb);
      Turn(hcb);
    }

    /** A run of the model led here, and the state is good. */
    ghost predicate Arrived(s: Exchange.State, ms: seq<Move>, peer: Node)
      reads this, locals.Values, livestreams.Values
    {
      (Good(peer) && Run(s, ms, Exchange.State(State(), peer))) == true
    }

    lemma NoTurnYet(peer: Node, hcbs: seq<bool>)
      requires Good(peer)
      ensures Arrived(Exchange.State(State(), peer), Dispatches(hcbs[..0]), peer)
    {
      assert hcbs[..0] == [] && Dispatches(hcbs[..0]) == [];
    }

    /** The next turn, when a run of the model has led here. */
    method NextTurn(ghost peer: Node, hcbs: seq<bool>, k: nat, ghost s: Exchange.State)
      requires k < |hcbs| && Arrived(s, Dispatches(hcbs[..k]), peer) && rxch != []
      modifies this
      ensures Arrived(s, Dispatches(hcbs[..k + 1]), peer)
    {
      ghost var ms, now := Dispatches(hcbs[..k]), Exchange.State(State(), peer);
      GoodTurn(peer, hcbs[k]);
      RunSnoc(s, ms, now, Move(true, Dispatch(hcbs[k])));
      DispatchesNext(hcbs, k);
    }

    /** The event loop, while something waits and there is an answer in `hcbs` of what a handler would
        return: what it does to the heap is a run of the model, and it never leaves the good states. */
    method SyncLoop(ghost peer: Node, hcbs: seq<bool>) returns (k: nat)
      requires Good(peer)
      modifies this
      ensures k <= |hcbs| && (k == |hcbs| || rxch == [])
      ensures Arrived(Exchange.State(old(State()), peer), Dispatches(hcbs[..k]), peer)
    {
      ghost var s := Exchange.State(State(), peer);
      k := 0;
      NoTurnYet(peer, hcbs);
      while k < |hcbs| && rxch != []
        invariant k <= |hcbs| && Arrived(s, Dispatches(hcbs[..k]), peer)
      {
        NextTurn(peer, hcbs, k, s);
        k := k + 1;
      }
    }

    method Received(f: Frame)
      modifies `log
      ensures Placed() == old(Placed())
      ensures State() == old(State()).(log := old(log).(got := old(log).got + [Packet(f)], nrx := old(log).nrx + 1))
    {
      log := log.(got := log.got + [Packet(f)], nrx := log.nrx + 1);
      PlacedSame();
    }
  }
}
