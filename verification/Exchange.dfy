/**
  The exchange protocol as a two-node step machine.

  A node owns a range of opaque ids.  Posts, requests and streams draw their id from one pool and
  share one dispatch function.  Each step below is one atomic action of one goroutine; `Act` is the
  whole transition function and a run is any sequence of enabled moves by either node.

  Every use of an opaque id is one *exchange*, identified by the id and a generation number.
  Generations are history variables: they ride on frames and callbacks so that theorems can speak
  about exchanges, and no branch of the dispatch code reads them.
*/
module Exchange {
  import opened Wire

  /** An opaque id. */
  type Oid = nat

  datatype Frame = Frame(kind: Kind, oid: Oid, msg: BinMessage, gen: nat)

  /** An element of `rxch`: a network packet, or a local notice carrying a stream pointer.  The
      notice does not say whether it opens or closes; that is read off the stream's callback. */
  datatype Item = Packet(frame: Frame) | Notice(stream: Oid) {
    function Id(): Oid {
      match this case Packet(f) => f.oid case Notice(o) => o
    }
  }

  /** What a frame turns out to be once the direction is known. */
  datatype Role = RPost | RReq | RResp | RStart | RStream | RFin

  datatype Counts = Counts(post: nat, req: nat, resp: nat, start: nat, stream: nat, fin: nat) {
    function Bump(r: Role): Counts {
      match r
      case RPost => this.(post := post + 1)
      case RReq => this.(req := req + 1)
      case RResp => this.(resp := resp + 1)
      case RStart => this.(start := start + 1)
      case RStream => this.(stream := stream + 1)
      case RFin => this.(fin := fin + 1)
    }

    function Sum(): nat { post + req + resp + start + stream + fin }
  }

  const ZERO := Counts(0, 0, 0, 0, 0, 0)

  /** Where the goroutine that holds a local stream stands. */
  datatype Caller =
    | PostTaken | PostSent
    | ReqTaken | ReqNoticed | ReqSent | ReqDone | ReqCleared | ReqReturned
    | StrTaken | StrNoticed | StrOpen | StrClosed

  /** An entry of `livestreams`: a pointer to a local stream, or a remote stream. */
  datatype Entry = Local | Remote(gen: nat, callb: bool)

  /** A remote stream in the hands of the application: a request to answer (kind Request) or a
      stream not closed yet (kind Start). */
  datatype Handle = Handle(oid: Oid, gen: nat, kind: Kind)

  /** One dispatch, as the application saw it. */
  datatype Call =
    | ToHandler(oid: Oid, gen: nat, role: Role, msg: BinMessage)
    | ToStream(oid: Oid, gen: nat, msg: BinMessage, ok: bool, heard: bool)

  /** History and statistics of one node. */
  datatype Log = Log(
    sent: seq<Item>,              // frames emitted, in order
    got: seq<Item>,               // packets handled, in order
    calls: seq<Call>,             // callbacks made, in order
    muted: set<(Oid, nat)>,    // streams whose handler returned no callback
    tx: Counts, rx: Counts, nrx: nat, mdrops: nat)

  datatype Node = Node(
    range: set<Oid>,           // local opaques
    pool: seq<Oid>,            // pStrms
    gen: map<Oid, nat>,        // exchanges started so far on each local opaque
    cb: map<Oid, Option<nat>>, // rxcallb of each local stream: the exchange it serves
    callers: map<Oid, Caller>,
    live: map<Oid, Entry>,     // livestreams
    handles: set<Handle>,
    rxch: seq<Item>,
    out: seq<Item>,               // txch, batch and socket towards the peer: one FIFO
    log: Log)

  // ---- transmit side

  function RoleOf(f: Frame, senderOwns: bool): Role {
    match f.kind
    case Post => RPost
    case Request => if senderOwns then RReq else RResp
    case Start => RStart
    case StreamMsg => RStream
    case Finish => RFin
  }

  function Emit(n: Node, f: Frame): Node {
    n.(out := n.out + [Packet(f)],
       log := n.log.(sent := n.log.sent + [Packet(f)],
                     tx := n.log.tx.Bump(RoleOf(f, f.oid in n.range))))
  }

  /** getlocalstream, up to installing the callback. */
  function Take(n: Node, c: Caller): Node
    requires n.pool != [] && n.pool[0] in n.gen
  {
    var o := n.pool[0];
    var g := n.gen[o] + 1;
    n.(pool := n.pool[1..],
       gen := n.gen[o := g],
       callers := n.callers[o := c],
       cb := n.cb[o := if c.PostTaken? then None else Some(g)])
  }

  /** putch of a notice for a local stream. */
  function PutNotice(n: Node, o: Oid, c: Caller): Node {
    n.(rxch := n.rxch + [Notice(o)], callers := n.callers[o := c])
  }

  /** A local stream goes back to the pool. */
  function Release(n: Node, o: Oid): Node {
    n.(pool := n.pool + [o], callers := n.callers - {o})
  }

  // ---- receive side

  /** rxcallb(msg, ok) on the entry at `o`, with the application's reaction: a response wakes the
      requester, and an initiator that has not closed its stream closes it in its close callback. */
  function Callback(n: Node, o: Oid, msg: BinMessage, ok: bool): Node
    requires o in n.live && (n.live[o].Local? ==> o in n.cb && o in n.gen)
  {
    match n.live[o]
    case Remote(g, callb) =>
      n.(log := n.log.(calls := n.log.calls + [ToStream(o, g, msg, ok, callb)]))
    case Local =>
      if n.cb[o].None? then
        n.(log := n.log.(calls := n.log.calls + [ToStream(o, n.gen[o], msg, ok, false)]))
      else
        var n1 := n.(log := n.log.(calls := n.log.calls + [ToStream(o, n.cb[o].value, msg, ok, true)]));
        if o !in n.callers then n1
        else if n.callers[o].ReqSent? then n1.(callers := n1.callers[o := ReqDone])
        else if n.callers[o].StrOpen? && !ok then
          Emit(n1.(callers := n1.callers[o := StrClosed]), Frame(Finish, o, NO_MESSAGE, n.gen[o]))
        else n1
  }

  function Count(n: Node, r: Role): Node { n.(log := n.log.(rx := n.log.rx.Bump(r))) }

  function Drop(n: Node): Node { n.(log := n.log.(mdrops := n.log.mdrops + 1)) }

  function Handled(n: Node, f: Frame, r: Role): Node {
    Count(n.(log := n.log.(calls := n.log.calls + [ToHandler(f.oid, f.gen, r, f.msg)])), r)
  }

  ghost predicate Linked(n: Node) {
    n.gen.Keys == n.range && n.cb.Keys == n.range &&
    forall o | o in n.live :: n.live[o].Local? <==> o in n.range
  }

  /** The dispatch of one packet; `hcb` says whether the request handler returns a callback. */
  function HandlePkt(n: Node, f: Frame, hcb: bool): Node
    requires Linked(n)
  {
    var o := f.oid;
    if o in n.live && f.kind.Finish? then
      var n1 := Callback(n, o, NO_MESSAGE, false);
      var n2 := if n.live[o].Local? then Release(n1, o) else n1;
      Count(n2.(live := n2.live - {o}), RFin)
    else if f.kind.Finish? then
      Drop(n)
    else if o !in n.live then
      match f.kind
      case Post => Handled(n, f, RPost)
      case Request => Handled(n.(handles := n.handles + {Handle(o, f.gen, Request)}), f, RReq)
      case Start =>
        var n1 := n.(handles := n.handles + {Handle(o, f.gen, Start)},
                     live := n.live[o := Remote(f.gen, hcb)],
                     log := n.log.(muted := n.log.muted + if hcb then {} else {(o, f.gen)}));
        Handled(n1, f, RStart)
      case _ => Drop(n)
    else
      var n1 := Callback(n, o, f.msg, !f.kind.Request?);
      match f.kind
      case Request => Count(n1, RResp)
      case StreamMsg => Count(n1, RStream)
      case _ => Drop(n1)
  }

  /** The handling of a notice: the stream's callback tells an open from a close. */
  function StreamUpdate(n: Node, o: Oid): Node
    requires o in n.cb
  {
    if o in n.live && n.cb[o].None? then
      Release(n.(live := n.live - {o}), o)
    else if n.cb[o].Some? then
      n.(live := n.live[o := Local])
    else n
  }

  /** One turn of syncRx's loop on the head of `rxch`. */
  function SyncRx(n: Node, hcb: bool): Node
    requires n.rxch != [] && Linked(n) && (n.rxch[0].Notice? ==> n.rxch[0].stream in n.range)
  {
    var rest := n.(rxch := n.rxch[1..]);
    match n.rxch[0]
    case Notice(o) => StreamUpdate(rest, o)
    case Packet(f) =>
      var n1 := HandlePkt(rest, f, hcb);
      n1.(log := n1.log.(got := n1.log.got + [n.rxch[0]], nrx := n1.log.nrx + 1))
  }

  // ---- moves

  datatype Action =
    | TakeFor(c: Caller)                    // Post, Request or Stream takes a stream from the pool
    | Tell(o: Oid)                       // puts the open or close notice
    | SendFirst(o: Oid, msg: BinMessage) // post, request or start frame
    | PostReturn(o: Oid)                 // Post gives its stream back
    | Clear(o: Oid)                      // Request, woken up, sets rxcallb to nil
    | Send(o: Oid, msg: BinMessage)      // Stream on a local stream
    | Close(o: Oid)                      // Close on a local stream
    | Respond(h: Handle, msg: BinMessage)   // Response
    | RemoteSend(h: Handle, msg: BinMessage)
    | RemoteClose(h: Handle)
    | DoRx                                  // doRx moves one frame from the connection to rxch
    | Dispatch(hcb: bool)                   // syncRx

  predicate CallerIs(n: Node, o: Oid, cs: set<Caller>) {
    o in n.callers && n.callers[o] in cs
  }

  /** The discipline: what an application may do when. */
  ghost predicate Enabled(n: Node, p: Node, a: Action) {
    match a
    case TakeFor(c) => n.pool != [] && c in {PostTaken, ReqTaken, StrTaken}
    case Tell(o) => CallerIs(n, o, {ReqTaken, StrTaken, ReqCleared})
    case SendFirst(o, _) => CallerIs(n, o, {PostTaken, ReqNoticed, StrNoticed})
    case PostReturn(o) => CallerIs(n, o, {PostSent})
    case Clear(o) => CallerIs(n, o, {ReqDone})
    case Send(o, _) => CallerIs(n, o, {StrOpen})
    case Close(o) => CallerIs(n, o, {StrOpen})
    case Respond(h, _) => h in n.handles && h.kind.Request?
    case RemoteSend(h, _) => h in n.handles && h.kind.Start?
    case RemoteClose(h) => h in n.handles && h.kind.Start?
    case DoRx => p.out != []
    case Dispatch(_) => n.rxch != []
  }

  function AfterTell(c: Caller): Caller {
    match c case ReqTaken => ReqNoticed case StrTaken => StrNoticed case _ => ReqReturned
  }

  function AfterFirst(c: Caller): Caller {
    match c case PostTaken => PostSent case ReqNoticed => ReqSent case _ => StrOpen
  }

  function FirstKind(c: Caller): Kind {
    match c case PostTaken => Post case ReqNoticed => Request case _ => Start
  }

  /** What every node keeps about itself, whatever the peer does.  (Compared with `true` so that the
      verifier treats it as one atom where it is used.) */
  ghost predicate NodeOk(n: Node) { NodeParts(n) == true }

  ghost predicate NodeParts(n: Node) {
    && Linked(n)
    && (forall o | o in n.pool :: o in n.range)
    && n.callers.Keys <= n.range
    && (forall h | h in n.handles :: h.oid !in n.range)
    && (forall i | i in n.rxch && i.Notice? :: i.stream in n.range)
    && (forall i | i in n.out :: i.Packet?)
  }

  function Act(n: Node, p: Node, a: Action): (r: (Node, Node))
    requires NodeOk(n) && Enabled(n, p, a)
  {
    match a
    case TakeFor(c) => (Take(n, c), p)
    case Tell(o) => (PutNotice(n, o, AfterTell(n.callers[o])), p)
    case SendFirst(o, msg) =>
      (Emit(n.(callers := n.callers[o := AfterFirst(n.callers[o])]),
            Frame(FirstKind(n.callers[o]), o, msg, n.gen[o])), p)
    case PostReturn(o) => (Release(n, o), p)
    case Clear(o) => (n.(cb := n.cb[o := None], callers := n.callers[o := ReqCleared]), p)
    case Send(o, msg) => (Emit(n, Frame(StreamMsg, o, msg, n.gen[o])), p)
    case Close(o) =>
      (Emit(n.(callers := n.callers[o := StrClosed]), Frame(Finish, o, NO_MESSAGE, n.gen[o])), p)
    case Respond(h, msg) =>
      (Emit(n.(handles := n.handles - {h}), Frame(Request, h.oid, msg, h.gen)), p)
    case RemoteSend(h, msg) => (Emit(n, Frame(StreamMsg, h.oid, msg, h.gen)), p)
    case RemoteClose(h) =>
      (Emit(n.(handles := n.handles - {h}), Frame(Finish, h.oid, NO_MESSAGE, h.gen)), p)
    case DoRx => (n.(rxch := n.rxch + [p.out[0]]), p.(out := p.out[1..]))
    case Dispatch(hcb) => (SyncRx(n, hcb), p)
  }

  datatype State = State(a: Node, b: Node)

  datatype Move = Move(left: bool, act: Action)

  function Fresh(range: set<Oid>, pool: seq<Oid>): Node {
    Node(range, pool, map o | o in range :: 0, map o | o in range :: None, map[], map[], {}, [], [],
         Log([], [], [], {}, ZERO, ZERO, 0, 0))
  }

  /** Two fresh transports with disjoint ranges; each pool holds every local stream once. */
  ghost predicate Init(s: State) {
    && s.a.range !! s.b.range
    && s.a == Fresh(s.a.range, s.a.pool) && Pooled(s.a)
    && s.b == Fresh(s.b.range, s.b.pool) && Pooled(s.b)
  }

  ghost predicate Pooled(n: Node) {
    (forall o | o in n.pool :: o in n.range) &&
    forall o | o in n.range :: multiset(n.pool)[o] == 1
  }

  ghost predicate CanStep(s: State, m: Move) {
    NodeOk(s.a) && NodeOk(s.b) && if m.left then Enabled(s.a, s.b, m.act) else Enabled(s.b, s.a, m.act)
  }

  ghost function Step(s: State, m: Move): State
    requires CanStep(s, m)
  {
    if m.left then var (n, p) := Act(s.a, s.b, m.act); State(n, p)
    else var (n, p) := Act(s.b, s.a, m.act); State(p, n)
  }

  /** `t` is reached from `s` by the moves `ms`, each enabled when it is made. */
  ghost predicate Run(s: State, ms: seq<Move>, t: State)
    decreases |ms|
  {
    if ms == [] then s == t
    else CanStep(s, ms[0]) && Run(Step(s, ms[0]), ms[1..], t)
  }

  /** A run and one move more. */
  lemma {:induction false} RunSnoc(s: State, ms: seq<Move>, t: State, m: Move)
    requires Run(s, ms, t) && CanStep(t, m)
    ensures Run(s, ms + [m], Step(t, m))
    decreases |ms|
  {
    if ms == [] {
      assert [] + [m] == [m] && [m][1..] == [];
    } else {
      assert (ms + [m])[1..] == ms[1..] + [m];
      RunSnoc(Step(s, ms[0]), ms[1..], t, m);
    }
  }

  ghost predicate Reachable(t: State) {
    exists s: State, ms: seq<Move> :: Init(s) && Run(s, ms, t)
  }
}
