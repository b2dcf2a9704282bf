/**
  What the applications say and what they hear.  The theorems about frames are tied here to the
  arguments of the moves: the calls at one end of an exchange, followed by the frames still in
  flight, are in order what the other end's application has said.
*/
module Messages {
  import opened Wire
  import opened Exchange
  import opened ExchangeProof
  import opened ExchangeDispatch
  import opened ExchangeLog
  import opened ExchangeTheorems

  /** One utterance of an application in an exchange. */
  datatype Speech =
    | APost(msg: BinMessage) | ARequest(msg: BinMessage) | AResponse(msg: BinMessage)
    | AStart(msg: BinMessage) | AMessage(msg: BinMessage) | AClose

  function By(s: State, left: bool): Node { if left then s.a else s.b }

  /** The exchange in progress on one of the node's own opaques. */
  predicate Now(n: Node, o: Oid, g: nat) { o in n.gen && n.gen[o] == g }

  /** The first words of a stream, by what it was taken from the pool for. */
  function Opening(use: Caller, msg: BinMessage): seq<Speech> {
    match use
    case PostTaken => [APost(msg)]
    case ReqTaken => [ARequest(msg)]
    case StrTaken => [AStart(msg)]
    case _ => []
  }

  /** The head of rxch closes the stream `o`, which this end has open: its callback closes it too. */
  predicate ClosesBack(n: Node, o: Oid) {
    n.rxch != [] && n.rxch[0].Packet? && n.rxch[0].frame.oid == o && n.rxch[0].frame.kind.Finish?
    && CallerIs(n, o, {StrOpen})
  }

  /** What the application of `n` says in exchange `g` of `o` with the move `a`. */
  function Says(n: Node, a: Action, o: Oid, g: nat, use: Caller): seq<Speech> {
    match a
    case SendFirst(x, msg) => if x == o && Now(n, o, g) then Opening(use, msg) else []
    case Send(x, msg) => if x == o && Now(n, o, g) then [AMessage(msg)] else []
    case Close(x) => if x == o && Now(n, o, g) then [AClose] else []
    case Respond(h, msg) => if h.oid == o && h.gen == g then [AResponse(msg)] else []
    case RemoteSend(h, msg) => if h.oid == o && h.gen == g then [AMessage(msg)] else []
    case RemoteClose(h) => if h.oid == o && h.gen == g then [AClose] else []
    case Dispatch(_) => if ClosesBack(n, o) && Now(n, o, g) then [AClose] else []
    case _ => []
  }

  /** What exchange `g` of `o` is for, once it has begun. */
  function UseAfter(n: Node, a: Action, o: Oid, g: nat, use: Caller): Caller {
    if a.TakeFor? && n.pool != [] && n.pool[0] == o && o in n.gen && g == n.gen[o] + 1 then a.c else use
  }

  // ---- frames say what the application said

  function SpeechOf(f: Frame, senderOwns: bool): Speech {
    match f.kind
    case Post => APost(f.msg)
    case Request => if senderOwns then ARequest(f.msg) else AResponse(f.msg)
    case Start => AStart(f.msg)
    case StreamMsg => AMessage(f.msg)
    case Finish => AClose
  }

  function Speeches(q: seq<Item>, own: bool): (r: seq<Speech>)
    requires AllPackets(q)
    ensures |r| == |q|
  {
    seq(|q|, i requires 0 <= i < |q| => assert q[i] in q; SpeechOf(q[i].frame, own))
  }

  /** What a caller is for. */
  function Use(c: Caller): Caller {
    match c
    case PostTaken => PostTaken
    case PostSent => PostTaken
    case StrTaken => StrTaken
    case StrNoticed => StrTaken
    case StrOpen => StrTaken
    case StrClosed => StrTaken
    case _ => ReqTaken
  }

  ghost predicate InUse(n: Node, o: Oid, g: nat, use: Caller) {
    o in n.callers && Now(n, o, g) ==> Use(n.callers[o]) == use
  }

  /** A move that takes no stream from the pool leaves every use as it was. */
  predicate SameUse(n: Node, m: Node) {
    m.gen == n.gen && forall x | x in m.callers :: x in n.callers && Use(m.callers[x]) == Use(n.callers[x])
  }

  lemma UseKept(n: Node, m: Node, o: Oid, g: nat, use: Caller)
    requires InUse(n, o, g, use) && SameUse(n, m)
    ensures InUse(m, o, g, use)
  {}

  /** The move sends just the frames `fs`. */
  predicate Sends(n: Node, m: Node, fs: seq<Item>) { m.log.sent == n.log.sent + fs && m.range == n.range }

  // ---- what each move sends

  lemma QuietMove(n: Node, p: Node, a: Action)
    requires NodeOk(n) && Enabled(n, p, a) && (a.Tell? || a.PostReturn? || a.Clear? || a.DoRx?)
    ensures Sends(n, Act(n, p, a).0, []) && SameUse(n, Act(n, p, a).0)
  {
    if a.Tell? { TellMove(n, p, a, a.o); }
    else if a.PostReturn? { ReturnMove(n, p, a, a.o); }
    else if a.Clear? { ClearMove(n, p, a, a.o); }
  }

  lemma TellMove(n: Node, p: Node, a: Action, o: Oid)
    requires NodeOk(n) && a == Tell(o) && Enabled(n, p, a)
    ensures Sends(n, Act(n, p, a).0, []) && SameUse(n, Act(n, p, a).0)
  {}

  lemma ReturnMove(n: Node, p: Node, a: Action, o: Oid)
    requires NodeOk(n) && a == PostReturn(o) && Enabled(n, p, a)
    ensures Sends(n, Act(n, p, a).0, []) && SameUse(n, Act(n, p, a).0)
  {}

  lemma ClearMove(n: Node, p: Node, a: Action, o: Oid)
    requires NodeOk(n) && a == Clear(o) && Enabled(n, p, a)
    ensures Sends(n, Act(n, p, a).0, []) && SameUse(n, Act(n, p, a).0)
  {}

  lemma TakeMove(n: Node, p: Node, a: Action, c: Caller, o: Oid, g: nat, use: Caller)
    requires NodeOk(n) && a == TakeFor(c) && Enabled(n, p, a) && InUse(n, o, g, use)
    ensures Sends(n, Act(n, p, a).0, []) && InUse(Act(n, p, a).0, o, g, UseAfter(n, a, o, g, use))
  {}

  lemma FirstMove(n: Node, p: Node, a: Action, o: Oid, msg: BinMessage)
    requires NodeOk(n) && a == SendFirst(o, msg) && Enabled(n, p, a)
    ensures SameUse(n, Act(n, p, a).0) && o in n.gen
    ensures Sends(n, Act(n, p, a).0, [Packet(Frame(FirstKind(n.callers[o]), o, msg, n.gen[o]))])
  {}

  lemma SendMove(n: Node, p: Node, a: Action, o: Oid, msg: BinMessage)
    requires NodeOk(n) && a == Send(o, msg) && Enabled(n, p, a)
    ensures SameUse(n, Act(n, p, a).0) && o in n.gen
    ensures Sends(n, Act(n, p, a).0, [Packet(Frame(StreamMsg, o, msg, n.gen[o]))])
  {}

  lemma CloseMove(n: Node, p: Node, a: Action, o: Oid)
    requires NodeOk(n) && a == Close(o) && Enabled(n, p, a)
    ensures SameUse(n, Act(n, p, a).0) && o in n.gen
    ensures Sends(n, Act(n, p, a).0, [Packet(Frame(Finish, o, NO_MESSAGE, n.gen[o]))])
  {}

  lemma SayMove(n: Node, p: Node, a: Action)
    requires NodeOk(n) && Enabled(n, p, a) && (a.Respond? || a.RemoteSend? || a.RemoteClose?)
    ensures SameUse(n, Act(n, p, a).0) && a.h.oid !in n.range
    ensures Sends(n, Act(n, p, a).0, [Packet(Saying(a))])
  {
    ActIsSaying(n, p, a);
  }

  /** The frame with which a close callback closes an open stream, if the head of rxch calls for it. */
  function Reaction(n: Node): seq<Item>
    requires Linked(n)
  {
    if n.rxch != [] && n.rxch[0].Id() in n.gen && ClosesBack(n, n.rxch[0].Id())
    then [Packet(Frame(Finish, n.rxch[0].Id(), NO_MESSAGE, n.gen[n.rxch[0].Id()]))] else []
  }

  /** What a dispatch sends, and that it leaves every use as it was. */
  ghost predicate Reacts(n: Node, m: Node)
    requires Linked(n)
  {
    (Sends(n, m, Reaction(n)) && SameUse(n, m)) == true
  }

  lemma ReactsNot(n: Node, m: Node)
    requires Linked(n) && n.rxch != [] && Reaction(n) == []
    requires m == n.(rxch := m.rxch, live := m.live, pool := m.pool, callers := m.callers, handles := m.handles,
                     log := m.log)
    requires m.log.sent == n.log.sent
    requires forall x | x in m.callers :: x in n.callers && Use(m.callers[x]) == Use(n.callers[x])
    ensures Reacts(n, m)
  {}

  lemma ReactsNotice(n: Node, m: Node, o: Oid)
    requires Linked(n) && n.rxch != [] && n.rxch[0] == Notice(o) && o in n.range
    requires m == Opened(n, o) || m == Release(Unlinked(n, o), o)
    ensures Reacts(n, m)
  {}

  lemma ReactsReply(n: Node, m: Node, o: Oid)
    requires Linked(n) && n.rxch != [] && n.rxch[0].Packet? && n.rxch[0].frame.oid == o
    requires !n.rxch[0].frame.kind.Finish?
    requires m == n.(rxch := n.rxch[1..], callers := CallersAfter(n, o), log := m.log)
    requires m.log.sent == n.log.sent
    ensures Reacts(n, m)
  {}

  lemma ReactsFin(n: Node, m: Node, o: Oid)
    requires Linked(n) && n.rxch != [] && o in n.gen && n.rxch[0].Packet? && n.rxch[0].frame.oid == o
    requires n.rxch[0].frame.kind.Finish?
    requires m == Finished(n, o).(log := m.log) && m.log.sent == Finished(n, o).log.sent
    ensures Reacts(n, m)
  {}

  lemma NoticeMove(n: Node, p: Node, o: Oid, hcb: bool)
    requires PairInv(n, p) && n.rxch != [] && n.rxch[0] == Notice(o) && o in n.range
    ensures Reacts(n, SyncRx(n, hcb))
  {
    NoticeShape(n, p, o, hcb);
    ReactsNotice(n, SyncRx(n, hcb), o);
  }

  lemma HearMove(n: Node, p: Node, f: Frame, hcb: bool)
    requires PairInv(n, p) && HeadIs(n, f) && f.oid in p.range
    ensures Reacts(n, SyncRx(n, hcb))
  {
    ReadyNow(n, p, f, hcb);
    var c := HearShape(n, f, hcb);
    ReactsNot(n, SyncRx(n, hcb));
  }

  lemma ReplyMove(n: Node, p: Node, f: Frame, hcb: bool)
    requires PairInv(n, p) && HeadIs(n, f) && f.oid in n.range && !f.kind.Finish?
    ensures Reacts(n, SyncRx(n, hcb))
  {
    AwaitsNow(n, p, f);
    AwaitsMeans(n, p, f);
    var c := ReplyShape(n, f, hcb);
    ReactsReply(n, SyncRx(n, hcb), f.oid);
  }

  lemma FinMove(n: Node, p: Node, f: Frame, hcb: bool)
    requires PairInv(n, p) && HeadIs(n, f) && f.oid in n.range && f.kind.Finish?
    ensures Reacts(n, SyncRx(n, hcb))
  {
    AwaitsNow(n, p, f);
    AwaitsMeans(n, p, f);
    var c := FinShape(n, f, hcb);
    ReactsFin(n, SyncRx(n, hcb), f.oid);
  }

  lemma DispatchMove(n: Node, p: Node, hcb: bool)
    requires PairInv(n, p) && n.rxch != []
    ensures Linked(n) && (n.rxch[0].Notice? ==> n.rxch[0].stream in n.range)
    ensures Reacts(n, SyncRx(n, hcb))
  {
    assert n.rxch[0] in n.rxch;
    match n.rxch[0]
    case Notice(o) => NoticeMove(n, p, o, hcb);
    case Packet(f) =>
      if f.oid in p.range { HearMove(n, p, f, hcb); }
      else if f.kind.Finish? { FinMove(n, p, f, hcb); }
      else { ReplyMove(n, p, f, hcb); }
  }

  // ---- one exchange

  /** The frames `fs` say `w` in exchange `g` of `o`. */
  ghost predicate Say(fs: seq<Item>, o: Oid, g: nat, own: bool, w: seq<Speech>) {
    AllPackets(fs) && AllPackets(Of(fs, o, g)) && Speeches(Of(fs, o, g), own) == w
  }

  lemma SayNone(o: Oid, g: nat, own: bool)
    ensures Say([], o, g, own, [])
  {}

  lemma SayOne(f: Frame, o: Oid, g: nat, own: bool)
    ensures Say([Packet(f)], o, g, own, if f.oid == o && f.gen == g then [SpeechOf(f, own)] else [])
  {
    assert [Packet(f)][..0] == [];
    assert Of([], o, g) == [];
  }

  lemma SayMore(q: seq<Item>, fs: seq<Item>, o: Oid, g: nat, own: bool, w: seq<Speech>)
    requires AllPackets(q) && AllPackets(Of(q, o, g)) && Say(fs, o, g, own, w)
    ensures AllPackets(q + fs) && AllPackets(Of(q + fs, o, g))
    ensures Speeches(Of(q + fs, o, g), own) == Speeches(Of(q, o, g), own) + w
  {
    OfConcat(q, fs, o, g);
  }

  /** What the move of `n` sends is what its application says. */
  ghost predicate Spoke(n: Node, n': Node, a: Action, o: Oid, g: nat, use: Caller) {
    && InUse(n', o, g, UseAfter(n, a, o, g, use))
    && exists fs: seq<Item> :: Sends(n, n', fs) && Say(fs, o, g, o in n.range, Says(n, a, o, g, use))
  }

  /** A move that sends the one frame `f`. */
  lemma SpokeOne(n: Node, m: Node, a: Action, f: Frame, o: Oid, g: nat, use: Caller)
    requires Sends(n, m, [Packet(f)]) && SameUse(n, m) && InUse(n, o, g, use) && !a.TakeFor?
    requires Says(n, a, o, g, use) == if f.oid == o && f.gen == g then [SpeechOf(f, o in n.range)] else []
    ensures Spoke(n, m, a, o, g, use)
  {
    SayOne(f, o, g, o in n.range);
    UseKept(n, m, o, g, use);
  }

  /** A move that sends nothing. */
  lemma SpokeNone(n: Node, m: Node, a: Action, o: Oid, g: nat, use: Caller)
    requires Sends(n, m, []) && SameUse(n, m) && InUse(n, o, g, use) && !a.TakeFor?
    requires Says(n, a, o, g, use) == []
    ensures Spoke(n, m, a, o, g, use)
  {
    SayNone(o, g, o in n.range);
    UseKept(n, m, o, g, use);
  }

  lemma FirstSays(n: Node, a: Action, x: Oid, msg: BinMessage, f: Frame, o: Oid, g: nat, use: Caller)
    requires Linked(n) && a == SendFirst(x, msg) && CallerIs(n, x, {PostTaken, ReqNoticed, StrNoticed}) && x in n.range
    requires f == Frame(FirstKind(n.callers[x]), x, msg, n.gen[x]) && InUse(n, o, g, use)
    ensures Says(n, a, o, g, use) == if f.oid == o && f.gen == g then [SpeechOf(f, o in n.range)] else []
  {}

  lemma SpokeFirst(n: Node, p: Node, a: Action, x: Oid, msg: BinMessage, o: Oid, g: nat, use: Caller)
    requires NodeOk(n) && a == SendFirst(x, msg) && Enabled(n, p, a) && InUse(n, o, g, use)
    ensures Spoke(n, Act(n, p, a).0, a, o, g, use)
  {
    FirstMove(n, p, a, x, msg);
    var f := Frame(FirstKind(n.callers[x]), x, msg, n.gen[x]);
    FirstSays(n, a, x, msg, f, o, g, use);
    SpokeOne(n, Act(n, p, a).0, a, f, o, g, use);
  }

  lemma SpokeSend(n: Node, p: Node, a: Action, x: Oid, msg: BinMessage, o: Oid, g: nat, use: Caller)
    requires NodeOk(n) && a == Send(x, msg) && Enabled(n, p, a) && InUse(n, o, g, use)
    ensures Spoke(n, Act(n, p, a).0, a, o, g, use)
  {
    SendMove(n, p, a, x, msg);
    SpokeOne(n, Act(n, p, a).0, a, Frame(StreamMsg, x, msg, n.gen[x]), o, g, use);
  }

  lemma SpokeClose(n: Node, p: Node, a: Action, x: Oid, o: Oid, g: nat, use: Caller)
    requires NodeOk(n) && a == Close(x) && Enabled(n, p, a) && InUse(n, o, g, use)
    ensures Spoke(n, Act(n, p, a).0, a, o, g, use)
  {
    CloseMove(n, p, a, x);
    SpokeOne(n, Act(n, p, a).0, a, Frame(Finish, x, NO_MESSAGE, n.gen[x]), o, g, use);
  }

  lemma SayingSays(n: Node, a: Action, o: Oid, g: nat, use: Caller)
    requires (a.Respond? || a.RemoteSend? || a.RemoteClose?) && a.h.oid !in n.range
    ensures var f := Saying(a);
            Says(n, a, o, g, use) == if f.oid == o && f.gen == g then [SpeechOf(f, o in n.range)] else []
  {}

  lemma SpokeSaying(n: Node, p: Node, a: Action, o: Oid, g: nat, use: Caller)
    requires NodeOk(n) && Enabled(n, p, a) && InUse(n, o, g, use) && (a.Respond? || a.RemoteSend? || a.RemoteClose?)
    ensures Spoke(n, Act(n, p, a).0, a, o, g, use)
  {
    SayMove(n, p, a);
    SayingSays(n, a, o, g, use);
    SpokeOne(n, Act(n, p, a).0, a, Saying(a), o, g, use);
  }

  lemma SpokeQuiet(n: Node, p: Node, a: Action, o: Oid, g: nat, use: Caller)
    requires NodeOk(n) && Enabled(n, p, a) && InUse(n, o, g, use) && (a.Tell? || a.PostReturn? || a.Clear? || a.DoRx?)
    ensures Spoke(n, Act(n, p, a).0, a, o, g, use)
  {
    QuietMove(n, p, a);
    SpokeNone(n, Act(n, p, a).0, a, o, g, use);
  }

  lemma SpokeTake(n: Node, p: Node, a: Action, c: Caller, o: Oid, g: nat, use: Caller)
    requires NodeOk(n) && a == TakeFor(c) && Enabled(n, p, a) && InUse(n, o, g, use)
    ensures Spoke(n, Act(n, p, a).0, a, o, g, use)
  {
    TakeMove(n, p, a, c, o, g, use);
    SayNone(o, g, o in n.range);
  }

  lemma SpokeDispatch(n: Node, p: Node, a: Action, hcb: bool, o: Oid, g: nat, use: Caller)
    requires SysInv(n, p) && a == Dispatch(hcb) && Enabled(n, p, a) && InUse(n, o, g, use)
    ensures Spoke(n, Act(n, p, a).0, a, o, g, use)
  {
    DispatchMove(n, p, hcb);
    SpokeReaction(n, SyncRx(n, hcb), a, hcb, o, g, use);
  }

  lemma SpokeReaction(n: Node, m: Node, a: Action, hcb: bool, o: Oid, g: nat, use: Caller)
    requires Linked(n) && n.rxch != [] && Reacts(n, m) && InUse(n, o, g, use) && a == Dispatch(hcb)
    ensures Spoke(n, m, a, o, g, use)
  {
    var x := n.rxch[0].Id();
    if x in n.gen && ClosesBack(n, x) {
      SpokeOne(n, m, a, Frame(Finish, x, NO_MESSAGE, n.gen[x]), o, g, use);
    } else {
      SpokeNone(n, m, a, o, g, use);
    }
  }

  lemma SpokeOwn(n: Node, p: Node, a: Action, o: Oid, g: nat, use: Caller)
    requires NodeOk(n) && Enabled(n, p, a) && InUse(n, o, g, use) && (a.SendFirst? || a.Send? || a.Close?)
    ensures Spoke(n, Act(n, p, a).0, a, o, g, use)
  {
    if a.SendFirst? { SpokeFirst(n, p, a, a.o, a.msg, o, g, use); }
    else if a.Send? { SpokeSend(n, p, a, a.o, a.msg, o, g, use); }
    else { SpokeClose(n, p, a, a.o, o, g, use); }
  }

  lemma SpokeAny(n: Node, p: Node, a: Action, o: Oid, g: nat, use: Caller)
    requires SysInv(n, p) && Enabled(n, p, a) && InUse(n, o, g, use)
    ensures Spoke(n, Act(n, p, a).0, a, o, g, use)
  {
    if a.SendFirst? || a.Send? || a.Close? { SpokeOwn(n, p, a, o, g, use); }
    else if a.TakeFor? { SpokeTake(n, p, a, a.c, o, g, use); }
    else if a.Dispatch? { SpokeDispatch(n, p, a, a.hcb, o, g, use); }
    else if a.Respond? || a.RemoteSend? || a.RemoteClose? { SpokeSaying(n, p, a, o, g, use); }
    else { SpokeQuiet(n, p, a, o, g, use); }
  }

  // ---- runs

  /** The frames of one exchange sent so far. */
  function SentIn(n: Node, o: Oid, g: nat): seq<Item> { Of(n.log.sent, o, g) }

  ghost predicate Clean(n: Node, o: Oid, g: nat) {
    (AllPackets(n.log.sent) && AllPackets(SentIn(n, o, g))) == true
  }

  /** What the frames of one exchange sent so far say. */
  ghost function Words(n: Node, o: Oid, g: nat): seq<Speech>
    requires Clean(n, o, g)
  {
    Speeches(SentIn(n, o, g), o in n.range)
  }

  /** The system is in a state that a run can reach. */
  ghost predicate Sound(s: State) { SysInv(s.a, s.b) == true }

  lemma CleanNow(n: Node, p: Node, o: Oid, g: nat)
    requires LogInv(n, p)
    ensures Clean(n, o, g)
  {
    OfPackets(n.log.sent, o, g);
  }

  lemma CleanBy(s: State, left: bool, o: Oid, g: nat)
    requires Sound(s)
    ensures Clean(By(s, left), o, g)
  {
    if left { CleanNow(s.a, s.b, o, g); } else { CleanNow(s.b, s.a, o, g); }
  }

  lemma SpokeAdds(n: Node, m: Node, a: Action, o: Oid, g: nat, use: Caller)
    requires Clean(n, o, g) && Spoke(n, m, a, o, g, use)
    ensures Clean(m, o, g) && InUse(m, o, g, UseAfter(n, a, o, g, use))
    ensures Words(m, o, g) == Words(n, o, g) + Says(n, a, o, g, use)
  {
    var fs :| Sends(n, m, fs) && Say(fs, o, g, o in n.range, Says(n, a, o, g, use));
    SayMore(n.log.sent, fs, o, g, o in n.range, Says(n, a, o, g, use));
  }

  /** What one end does sends nothing in the name of the other. */
  lemma PeerSilent(n: Node, p: Node, a: Action)
    requires NodeOk(n) && Enabled(n, p, a)
    ensures var p' := Act(n, p, a).1; p' == p.(out := p'.out)
  {}

  lemma SpokenStep(s: State, m: Move, left: bool, o: Oid, g: nat, use: Caller)
    requires Sound(s) && CanStep(s, m) && m.left == left && InUse(By(s, left), o, g, use)
    ensures Spoke(By(s, left), By(Step(s, m), left), m.act, o, g, use)
  {
    if left { SpokeAny(s.a, s.b, m.act, o, g, use); }
    else {
      SysSym(s.a, s.b);
      SpokeAny(s.b, s.a, m.act, o, g, use);
    }
  }

  lemma SilentStep(s: State, m: Move, left: bool)
    requires CanStep(s, m) && m.left != left
    ensures By(Step(s, m), left) == By(s, left).(out := By(Step(s, m), left).out)
  {
    if left { PeerSilent(s.b, s.a, m.act); } else { PeerSilent(s.a, s.b, m.act); }
  }

  lemma SilentWords(n: Node, m: Node, o: Oid, g: nat, use: Caller)
    requires m == n.(out := m.out) && Clean(n, o, g) && InUse(n, o, g, use)
    ensures Clean(m, o, g) && Words(m, o, g) == Words(n, o, g) + [] && InUse(m, o, g, use)
  {}

  function SaysBy(s: State, m: Move, left: bool, o: Oid, g: nat, use: Caller): seq<Speech> {
    if m.left == left then Says(By(s, left), m.act, o, g, use) else []
  }

  function UseBy(s: State, m: Move, left: bool, o: Oid, g: nat, use: Caller): Caller {
    if m.left == left then UseAfter(By(s, left), m.act, o, g, use) else use
  }

  lemma SoundStep(s: State, m: Move)
    requires Sound(s) && CanStep(s, m)
    ensures Sound(Step(s, m))
  {
    SysStep(s, m);
  }

  lemma SpokenOnce(s: State, m: Move, left: bool, o: Oid, g: nat, use: Caller)
    requires Sound(s) && CanStep(s, m) && InUse(By(s, left), o, g, use)
    ensures var n, n' := By(s, left), By(Step(s, m), left);
            && Clean(n, o, g) && Clean(n', o, g) && InUse(n', o, g, UseBy(s, m, left, o, g, use))
            && Words(n', o, g) == Words(n, o, g) + SaysBy(s, m, left, o, g, use)
  {
    CleanBy(s, left, o, g);
    if m.left == left {
      SpokenStep(s, m, left, o, g, use);
      SpokeAdds(By(s, left), By(Step(s, m), left), m.act, o, g, use);
    } else {
      SilentStep(s, m, left);
      SilentWords(By(s, left), By(Step(s, m), left), o, g, use);
    }
  }

  /** All that the application of one end says in one exchange in the course of a run, in order. */
  ghost function Spoken(s: State, ms: seq<Move>, t: State, left: bool, o: Oid, g: nat, use: Caller): seq<Speech>
    requires Run(s, ms, t)
    decreases |ms|
  {
    if ms == [] then []
    else SaysBy(s, ms[0], left, o, g, use)
         + Spoken(Step(s, ms[0]), ms[1..], t, left, o, g, UseBy(s, ms[0], left, o, g, use))
  }

  /** In the course of a run one end's frames grow by what its application says. */
  lemma {:induction false} SpokenIsSent(s: State, ms: seq<Move>, t: State, left: bool, o: Oid, g: nat, use: Caller)
    requires Sound(s) && Run(s, ms, t) && InUse(By(s, left), o, g, use)
    ensures Clean(By(s, left), o, g) && Clean(By(t, left), o, g)
    ensures Words(By(t, left), o, g) == Words(By(s, left), o, g) + Spoken(s, ms, t, left, o, g, use)
    decreases |ms|
  {
    CleanBy(s, left, o, g);
    if ms != [] {
      var s1, use1 := Step(s, ms[0]), UseBy(s, ms[0], left, o, g, use);
      SoundStep(s, ms[0]);
      SpokenOnce(s, ms[0], left, o, g, use);
      SpokenIsSent(s1, ms[1..], t, left, o, g, use1);
      Regroup(Words(By(s, left), o, g), SaysBy(s, ms[0], left, o, g, use), Spoken(s1, ms[1..], t, left, o, g, use1));
    }
  }

  // ---- what is said is heard

  /** The application is told just this. */
  predicate Hears(c: Call, w: Speech, o: Oid, g: nat) {
    match w
    case APost(msg) => c == ToHandler(o, g, RPost, msg)
    case ARequest(msg) => c == ToHandler(o, g, RReq, msg)
    case AStart(msg) => c == ToHandler(o, g, RStart, msg)
    case AResponse(msg) => c.ToStream? && c.oid == o && c.gen == g && c.msg == msg && !c.ok
    case AMessage(msg) => c.ToStream? && c.oid == o && c.gen == g && c.msg == msg && c.ok
    case AClose => c.ToStream? && c.oid == o && c.gen == g && c.msg == NO_MESSAGE && !c.ok
  }

  /** The frame on the way says just this. */
  predicate Carries(f: Frame, w: Speech, o: Oid, g: nat) {
    f.oid == o && f.gen == g &&
    match w
    case APost(msg) => f.kind.Post? && f.msg == msg
    case ARequest(msg) => f.kind.Request? && f.msg == msg
    case AResponse(msg) => f.kind.Request? && f.msg == msg
    case AStart(msg) => f.kind.Start? && f.msg == msg
    case AMessage(msg) => f.kind.StreamMsg? && f.msg == msg
    case AClose => f.kind.Finish?
  }

  lemma HearsWhatIsSaid(c: Call, f: Frame, own: bool)
    requires Plain(c) == Expected(f, own)
    ensures Hears(c, SpeechOf(f, own), f.oid, f.gen)
  {}

  lemma CarriesWhatIsSaid(f: Frame, own: bool)
    ensures Carries(f, SpeechOf(f, own), f.oid, f.gen)
  {}

  lemma HeardAt(calls: seq<Call>, said: seq<Item>, fl: seq<Item>, owner: set<Oid>, o: Oid, g: nat, i: nat)
    requires AllPackets(said) && AllPackets(fl) && forall x | x in said :: x.Id() == o && x.frame.gen == g
    requires ExpectAll(said, owner) == PlainAll(calls) + ExpectAll(fl, owner) && i < |calls|
    ensures i < |said| && Hears(calls[i], Speeches(said, o in owner)[i], o, g)
  {
    ExpectLen(said, owner);
    assert Plain(calls[i]) == ExpectAll(said, owner)[i];
    ExpectAt(said, owner, i);
    assert said[i] in said;
    HearsWhatIsSaid(calls[i], said[i].frame, o in owner);
  }

  lemma FlyingAt(said: seq<Item>, k: nat, own: bool, o: Oid, g: nat)
    requires AllPackets(said) && k < |said| && forall x | x in said :: x.Id() == o && x.frame.gen == g
    ensures said[k].Packet? && Carries(said[k].frame, Speeches(said, own)[k], o, g)
  {
    assert said[k] in said;
    CarriesWhatIsSaid(said[k].frame, own);
  }

  /** The calls and then the frames in flight say `w`, one by one. */
  ghost predicate Arrived(calls: seq<Call>, fl: seq<Item>, w: seq<Speech>, o: Oid, g: nat) {
    && |w| == |calls| + |fl|
    && (forall i | 0 <= i < |calls| :: Hears(calls[i], w[i], o, g))
    && (forall i | 0 <= i < |fl| :: fl[i].Packet? && Carries(fl[i].frame, w[|calls| + i], o, g))
  }

  lemma Arrives(calls: seq<Call>, got: seq<Item>, fl: seq<Item>, owner: set<Oid>, o: Oid, g: nat)
    requires AllPackets(got + fl) && AllPackets(fl) && forall i | i in got + fl :: i.Id() == o && i.frame.gen == g
    requires ExpectAll(got + fl, owner) == PlainAll(calls) + ExpectAll(fl, owner)
    ensures Arrived(calls, fl, Speeches(got + fl, o in owner), o, g)
  {
    ExpectLen(got + fl, owner);
    ExpectLen(fl, owner);
    assert |ExpectAll(got + fl, owner)| == |calls| + |ExpectAll(fl, owner)|;
    forall i | 0 <= i < |calls| ensures Hears(calls[i], Speeches(got + fl, o in owner)[i], o, g) {
      HeardAt(calls, got + fl, fl, owner, o, g, i);
    }
    forall i | 0 <= i < |fl|
      ensures fl[i].Packet? && Carries(fl[i].frame, Speeches(got + fl, o in owner)[|calls| + i], o, g)
    {
      FlyingAt(got + fl, |got| + i, o in owner, o, g);
    }
  }

  lemma SentArrives(n: Node, p: Node, o: Oid, g: nat)
    requires ReachablePair(n, p)
    ensures Clean(n, o, g)
    ensures Arrived(CallsOf(p.log.calls, o, g), Of(Flight(n, p), o, g), Words(n, o, g), o, g)
  {
    ReachableInv(n, p);
    CleanNow(n, p, o, g);
    Delivery(n, p, o, g);
    OfConcat(p.log.got, Flight(n, p), o, g);
    OfIds(n.log.sent, o, g);
    Arrives(CallsOf(p.log.calls, o, g), Of(p.log.got, o, g), Of(Flight(n, p), o, g), n.range, o, g);
  }

  /** No use of a stream is known before it is taken. */
  const UNUSED := ReqReturned

  lemma NothingSaid(s: State, left: bool, o: Oid, g: nat)
    requires Init(s)
    ensures Sound(s) && InUse(By(s, left), o, g, UNUSED)
    ensures Clean(By(s, left), o, g) && Words(By(s, left), o, g) == []
  {
    InitInv(s.a, s.b);
  }

  lemma ReachedBy(s: State, ms: seq<Move>, t: State, left: bool)
    requires Init(s) && Run(s, ms, t)
    ensures ReachablePair(By(t, left), By(t, !left))
  {
    assert Reachable(t);
    if left { assert t == State(By(t, left), By(t, !left)); } else { assert t == State(By(t, !left), By(t, left)); }
  }

  lemma AllSaid(s: State, ms: seq<Move>, t: State, left: bool, o: Oid, g: nat)
    requires Init(s) && Run(s, ms, t)
    ensures Clean(By(t, left), o, g) && Words(By(t, left), o, g) == Spoken(s, ms, t, left, o, g, UNUSED)
  {
    NothingSaid(s, left, o, g);
    SpokenIsSent(s, ms, t, left, o, g, UNUSED);
  }

  lemma ArrivesAt(s: State, ms: seq<Move>, t: State, left: bool, o: Oid, g: nat)
    requires Init(s) && Run(s, ms, t)
    ensures var n, p := By(t, left), By(t, !left);
            && Clean(n, o, g)
            && Arrived(CallsOf(p.log.calls, o, g), Of(Flight(n, p), o, g), Words(n, o, g), o, g)
  {
    ReachedBy(s, ms, t, left);
    SentArrives(By(t, left), By(t, !left), o, g);
  }

  /** In every run, in each direction of each exchange: the calls at one end, and then the frames in
      flight to it, are in order, each with its own kind and message, what the application of the
      other end has said with its moves. */
  lemma EveryWordArrives(s: State, ms: seq<Move>, t: State, left: bool, o: Oid, g: nat)
    requires Init(s) && Run(s, ms, t)
    ensures var calls, fl := CallsOf(By(t, !left).log.calls, o, g), Of(Flight(By(t, left), By(t, !left)), o, g);
            Arrived(calls, fl, Spoken(s, ms, t, left, o, g, UNUSED), o, g)
  {
    AllSaid(s, ms, t, left, o, g);
    ArrivesAt(s, ms, t, left, o, g);
  }

  // ---- who hears it

  /** The handler's answer to the start that the node is about to dispatch, if it is of this exchange. */
  function AnswerTo(n: Node, a: Action, o: Oid, g: nat, was: Option<bool>): Option<bool> {
    if a.Dispatch? && n.rxch != [] && n.rxch[0].Packet? && n.rxch[0].frame.kind.Start?
       && n.rxch[0].frame.oid == o && n.rxch[0].frame.gen == g
    then Some(a.hcb) else was
  }

  /** Whether the handler that served the start of exchange `g` of `o` returned a callback. */
  ghost function Answer(s: State, ms: seq<Move>, t: State, left: bool, o: Oid, g: nat, was: Option<bool>): Option<bool>
    requires Run(s, ms, t)
    decreases |ms|
  {
    if ms == [] then was
    else Answer(Step(s, ms[0]), ms[1..], t, left, o, g,
                if ms[0].left == left then AnswerTo(By(s, left), ms[0].act, o, g, was) else was)
  }

  /** A stream callback is called if there is one: an initiator has one, and the other end has the one
      its handler returned. */
  ghost predicate Attentive(n: Node, o: Oid, g: nat, was: Option<bool>) {
    && (o in n.live && n.live[o].Remote? && n.live[o].gen == g ==> was == Some(n.live[o].callb))
    && (forall c | c in n.log.calls && c.ToStream? && c.oid == o && c.gen == g ::
          if o in n.range then c.heard else was == Some(c.heard))
  }

  lemma AttentiveSame(n: Node, m: Node, o: Oid, g: nat, was: Option<bool>)
    requires Attentive(n, o, g, was) && m.range == n.range && m.log.calls == n.log.calls
    requires o in m.live && m.live[o].Remote? ==> o in n.live && n.live[o] == m.live[o]
    ensures Attentive(m, o, g, was)
  {}

  lemma OtherMove(n: Node, p: Node, a: Action)
    requires NodeOk(n) && Enabled(n, p, a) && !a.Dispatch?
    ensures var n' := Act(n, p, a).0; n'.range == n.range && n'.log.calls == n.log.calls && n'.live == n.live
  {}

  lemma FlightHead(n: Node, p: Node, f: Frame)
    requires HeadIs(n, f)
    ensures var fl := Of(Flight(p, n), f.oid, f.gen); fl != [] && fl[0] == Packet(f)
  {
    var rest := Packets(n.rxch[1..]) + p.out;
    assert Flight(p, n) == [Packet(f)] + rest;
    OfConcat([Packet(f)], rest, f.oid, f.gen);
    assert [Packet(f)][..0] == [];
  }

  /** As many frames as calls have been handled. */
  lemma GotIsHeard(n: Node, p: Node, o: Oid, g: nat)
    requires LogInv(p, n)
    ensures |CallsOf(n.log.calls, o, g)| == |Of(n.log.got, o, g)|
  {
    OfPackets(n.log.got, o, g);
    ExpectOf(n.log.got, p.range, o, g);
    ExpectLen(Of(n.log.got, o, g), p.range);
    PlainOf(n.log.calls, o, g);
  }

  /** The start of an exchange is the first thing its receiver handles in it. */
  lemma StartIsFirst(n: Node, p: Node, f: Frame)
    requires ReachablePair(n, p) && HeadIs(n, f) && f.oid in p.range && f.kind.Start?
    ensures CallsOf(n.log.calls, f.oid, f.gen) == []
  {
    var o, g := f.oid, f.gen;
    OpensFirst(p, n, o, g);
    FlightHead(n, p, f);
    SentIsGotAndFlight(n, p, o, g);
    assert Of(p.log.sent, o, g)[|Of(n.log.got, o, g)|] == Packet(f);
  }

  lemma SentIsGotAndFlight(n: Node, p: Node, o: Oid, g: nat)
    requires ReachablePair(n, p)
    ensures Of(p.log.sent, o, g) == Of(n.log.got, o, g) + Of(Flight(p, n), o, g)
    ensures |CallsOf(n.log.calls, o, g)| == |Of(n.log.got, o, g)|
  {
    ReachableInv(p, n);
    OfConcat(n.log.got, Flight(p, n), o, g);
    GotIsHeard(n, p, o, g);
  }

  lemma {:induction false} NoCallsOf(cs: seq<Call>, o: Oid, g: nat)
    requires CallsOf(cs, o, g) == []
    ensures forall c | c in cs :: c.oid != o || c.gen != g
    decreases cs
  {
    if cs != [] {
      assert cs == cs[..|cs|-1] + [cs[|cs|-1]];
      NoCallsOf(cs[..|cs|-1], o, g);
    }
  }

  lemma AttentiveHear(n: Node, m: Node, f: Frame, hcb: bool, c: Call, o: Oid, g: nat, was: Option<bool>)
    requires Attentive(n, o, g, was) && HeadIs(n, f) && Ready(n, f) && f.oid !in n.range
    requires m.range == n.range && m.live == LiveAfter(n.live, f, hcb)
    requires Logged(n.log, m.log, f, true, c, n.live)
    requires f.kind.Start? ==> CallsOf(n.log.calls, f.oid, f.gen) == []
    ensures Attentive(m, o, g, AnswerTo(n, Dispatch(hcb), o, g, was))
  {
    if f.kind.Start? { NoCallsOf(n.log.calls, f.oid, f.gen); }
  }

  lemma AttentiveReply(n: Node, m: Node, f: Frame, hcb: bool, c: Call, o: Oid, g: nat, was: Option<bool>)
    requires Attentive(n, o, g, was) && HeadIs(n, f) && Linked(n) && Awaits(n, f)
    requires m.range == n.range && (m.live == n.live || m.live == n.live - {f.oid})
    requires Logged(n.log, m.log, f, false, c, n.live)
    ensures Attentive(m, o, g, AnswerTo(n, Dispatch(hcb), o, g, was))
  {}

  lemma AttentiveNotice(n: Node, m: Node, x: Oid, hcb: bool, o: Oid, g: nat, was: Option<bool>)
    requires Attentive(n, o, g, was) && n.rxch != [] && n.rxch[0] == Notice(x)
    requires m.range == n.range && m.log == n.log && (m.live == n.live[x := Local] || m.live == n.live - {x})
    ensures Attentive(m, o, g, AnswerTo(n, Dispatch(hcb), o, g, was))
  {}

  lemma AttentiveOwned(n: Node, p: Node, f: Frame, hcb: bool, o: Oid, g: nat, was: Option<bool>)
    requires ReachablePair(n, p) && SysInv(n, p) && HeadIs(n, f) && f.oid in p.range && Attentive(n, o, g, was)
    ensures Attentive(SyncRx(n, hcb), o, g, AnswerTo(n, Dispatch(hcb), o, g, was))
  {
    ReadyNow(n, p, f, hcb);
    if f.kind.Start? { StartIsFirst(n, p, f); }
    var c := HearShape(n, f, hcb);
    AttentiveHear(n, SyncRx(n, hcb), f, hcb, c, o, g, was);
  }

  lemma AttentiveLocal(n: Node, p: Node, f: Frame, hcb: bool, o: Oid, g: nat, was: Option<bool>)
    requires PairInv(n, p) && HeadIs(n, f) && f.oid in n.range && Attentive(n, o, g, was)
    ensures Attentive(SyncRx(n, hcb), o, g, AnswerTo(n, Dispatch(hcb), o, g, was))
  {
    AwaitsNow(n, p, f);
    AwaitsMeans(n, p, f);
    if f.kind.Finish? {
      var c := FinShape(n, f, hcb);
      AttentiveReply(n, SyncRx(n, hcb), f, hcb, c, o, g, was);
    } else {
      var c := ReplyShape(n, f, hcb);
      AttentiveReply(n, SyncRx(n, hcb), f, hcb, c, o, g, was);
    }
  }

  lemma AttentiveTold(n: Node, p: Node, x: Oid, hcb: bool, o: Oid, g: nat, was: Option<bool>)
    requires PairInv(n, p) && n.rxch != [] && n.rxch[0] == Notice(x) && x in n.range && Attentive(n, o, g, was)
    ensures Attentive(SyncRx(n, hcb), o, g, AnswerTo(n, Dispatch(hcb), o, g, was))
  {
    NoticeShape(n, p, x, hcb);
    AttentiveNotice(n, SyncRx(n, hcb), x, hcb, o, g, was);
  }

  lemma AttentiveDispatch(n: Node, p: Node, hcb: bool, o: Oid, g: nat, was: Option<bool>)
    requires ReachablePair(n, p) && SysInv(n, p) && n.rxch != [] && Attentive(n, o, g, was)
    ensures Attentive(SyncRx(n, hcb), o, g, AnswerTo(n, Dispatch(hcb), o, g, was))
  {
    assert n.rxch[0] in n.rxch;
    match n.rxch[0]
    case Notice(x) => AttentiveTold(n, p, x, hcb, o, g, was);
    case Packet(f) =>
      if f.oid in p.range { AttentiveOwned(n, p, f, hcb, o, g, was); } else { AttentiveLocal(n, p, f, hcb, o, g, was); }
  }

  lemma AttentiveOther(n: Node, p: Node, a: Action, o: Oid, g: nat, was: Option<bool>)
    requires NodeOk(n) && Enabled(n, p, a) && !a.Dispatch? && Attentive(n, o, g, was)
    ensures Attentive(Act(n, p, a).0, o, g, was)
  {
    OtherMove(n, p, a);
    AttentiveSame(n, Act(n, p, a).0, o, g, was);
  }

  lemma AttentiveMove(n: Node, p: Node, a: Action, hcb: bool, o: Oid, g: nat, was: Option<bool>)
    requires ReachablePair(n, p) && NodeOk(n) && a == Dispatch(hcb) && Enabled(n, p, a) && Attentive(n, o, g, was)
    ensures Attentive(Act(n, p, a).0, o, g, AnswerTo(n, a, o, g, was))
  {
    ReachableInv(n, p);
    AttentiveDispatch(n, p, hcb, o, g, was);
  }

  lemma AttentiveStep(s: State, m: Move, left: bool, o: Oid, g: nat, was: Option<bool>)
    requires Reachable(s) && CanStep(s, m) && m.left == left && Attentive(By(s, left), o, g, was)
    ensures Attentive(By(Step(s, m), left), o, g, AnswerTo(By(s, left), m.act, o, g, was))
  {
    var n, p := By(s, left), By(s, !left);
    assert ReachablePair(n, p) by { assert s == if left then State(n, p) else State(p, n); }
    if m.act.Dispatch? { AttentiveMove(n, p, m.act, m.act.hcb, o, g, was); }
    else { AttentiveOther(n, p, m.act, o, g, was); }
  }

  lemma {:induction false} AttentiveRun(s: State, ms: seq<Move>, t: State, left: bool, o: Oid, g: nat,
                                        was: Option<bool>)
    requires Reachable(s) && Run(s, ms, t) && Attentive(By(s, left), o, g, was)
    ensures Attentive(By(t, left), o, g, Answer(s, ms, t, left, o, g, was))
    decreases |ms|
  {
    if ms != [] {
      var m, s1 := ms[0], Step(s, ms[0]);
      ReachableStep(s, m);
      if m.left == left {
        AttentiveStep(s, m, left, o, g, was);
        AttentiveRun(s1, ms[1..], t, left, o, g, AnswerTo(By(s, left), m.act, o, g, was));
      } else {
        SilentStep(s, m, left);
        AttentiveSame(By(s, left), By(s1, left), o, g, was);
        AttentiveRun(s1, ms[1..], t, left, o, g, was);
      }
    }
  }

  /** In every run: what is said to a stream is heard by the callback of the end that started it, and
      at the other end exactly if the handler that served the start returned a callback. */
  lemma HeardIfAnswered(s: State, ms: seq<Move>, t: State, left: bool, o: Oid, g: nat, c: Call)
    requires Init(s) && Run(s, ms, t)
    requires c in By(t, left).log.calls && c.ToStream? && c.oid == o && c.gen == g
    ensures o !in By(t, left).range ==> Answer(s, ms, t, left, o, g, None).Some?
    ensures c.heard <==> o in By(t, left).range || Answer(s, ms, t, left, o, g, None) == Some(true)
  {
    assert Run(s, [], s);
    AttentiveRun(s, ms, t, left, o, g, None);
  }
}
