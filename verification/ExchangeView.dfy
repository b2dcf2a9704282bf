/**
  One opaque id in isolation.  A `View` is everything in a two-node state that concerns a single
  opaque: the owner's side, the peer's side, and the frames and notices in flight both ways.
  `ViewInv` is the inductive invariant of that small machine; the lemmas below say that every
  kind of step keeps it.
*/
module ExchangeView {
  import opened Wire
  import opened Exchange

  datatype View = View(
    pooled: nat,             // occurrences in the owner's pool
    caller: Option<Caller>,
    gen: nat,
    cb: Option<nat>,
    live: bool,              // has an entry in the owner's livestreams
    ear: Option<Entry>,      // the peer's livestreams entry
    owed: set<Handle>,       // the peer application's open handles
    fwd: seq<Item>,          // owner to peer, in flight
    bwd: seq<Item>,          // peer to owner, in flight, with the owner's own notices
    saidFwd: seq<Item>,      // everything the owner ever sent
    saidBwd: seq<Item>)      // everything the peer ever sent

  // ---- owner to peer: what the peer's dispatcher makes of a sequence of frames

  datatype Ear = Silent(last: nat) | Listening(gen: nat) | Wrong

  function StepEar(e: Ear, i: Item): Ear {
    if i.Notice? then Wrong
    else match i.frame.kind
      case Post => if e.Silent? && e.last < i.frame.gen then Silent(i.frame.gen) else Wrong
      case Request => if e.Silent? && e.last < i.frame.gen then Silent(i.frame.gen) else Wrong
      case Start => if e.Silent? && e.last < i.frame.gen then Listening(i.frame.gen) else Wrong
      case StreamMsg => if e == Listening(i.frame.gen) then e else Wrong
      case Finish => if e == Listening(i.frame.gen) then Silent(i.frame.gen) else Wrong
  }

  function RunEar(e: Ear, q: seq<Item>): Ear
    decreases q
  {
    if q == [] then e else RunEar(StepEar(e, q[0]), q[1..])
  }

  function EarOf(e: Option<Entry>): Ear {
    if e.None? then Silent(0) else if e.value.Remote? then Listening(e.value.gen) else Wrong
  }

  // ---- peer to owner: what the owner still expects

  datatype Wait = Quiet | AwaitResp(gen: nat) | AwaitStream(gen: nat) | Lost

  function StepWait(w: Wait, i: Item): Wait {
    if i.Notice? then Lost
    else match i.frame.kind
      case Request => if w == AwaitResp(i.frame.gen) then Quiet else Lost
      case StreamMsg => if w == AwaitStream(i.frame.gen) then w else Lost
      case Finish => if w == AwaitStream(i.frame.gen) then Quiet else Lost
      case _ => Lost
  }

  function RunWait(w: Wait, q: seq<Item>): Wait
    decreases q
  {
    if q == [] then w else RunWait(StepWait(w, q[0]), q[1..])
  }

  // ---- the shape of everything the peer ever says back

  datatype Talk = Said(last: nat) | Talking(gen: nat) | Babble

  predicate MayTalk(t: Talk, g: nat) { (t.Said? && t.last < g) || t == Talking(g) }

  function StepTalk(t: Talk, i: Item): Talk {
    if i.Notice? then Babble
    else match i.frame.kind
      case Request => if t.Said? && t.last < i.frame.gen then Said(i.frame.gen) else Babble
      case StreamMsg => if MayTalk(t, i.frame.gen) then Talking(i.frame.gen) else Babble
      case Finish => if MayTalk(t, i.frame.gen) then Said(i.frame.gen) else Babble
      case _ => Babble
  }

  function RunTalk(t: Talk, q: seq<Item>): Talk
    decreases q
  {
    if q == [] then t else RunTalk(StepTalk(t, q[0]), q[1..])
  }

  /** Request and Start frames. */
  function Openers(q: seq<Item>): seq<Item> {
    if q == [] then []
    else (if q[0].Packet? && (q[0].frame.kind.Request? || q[0].frame.kind.Start?) then [q[0]] else [])
         + Openers(q[1..])
  }

  // ---- the invariant

  predicate IsIn(c: Option<Caller>, cs: set<Caller>) { c.Some? && c.value in cs }

  predicate Unsent(c: Option<Caller>) { IsIn(c, {PostTaken, ReqTaken, ReqNoticed, StrTaken, StrNoticed}) }

  predicate Opening(c: Option<Caller>) { IsIn(c, {ReqNoticed, ReqSent, StrNoticed, StrOpen, StrClosed}) }

  function WaitOf(c: Option<Caller>, g: nat): Wait {
    if IsIn(c, {ReqSent}) then AwaitResp(g)
    else if IsIn(c, {StrOpen, StrClosed}) then AwaitStream(g)
    else Quiet
  }

  predicate NoticeDue(v: View) { (Opening(v.caller) && !v.live) || IsIn(v.caller, {ReqReturned}) }

  predicate FitsEar(e: Ear, v: View) {
    if IsIn(v.caller, {StrOpen}) then e == Listening(v.gen)
    else e.Silent? && if Unsent(v.caller) then e.last < v.gen else e.last <= v.gen
  }

  predicate FitsTalk(t: Talk, w: Wait, v: View) {
    match w
    case Quiet => t.Said? && if Unsent(v.caller) then t.last < v.gen else t.last <= v.gen
    case AwaitResp(g) => t.Said? && t.last < g
    case AwaitStream(g) => MayTalk(t, g)
    case Lost => false
  }

  predicate One(openers: seq<Item>, owed: set<Handle>, o: Oid, g: nat, k: Kind) {
    || (|openers| == 1 && openers[0].Packet? && openers[0].frame.kind == k && openers[0].frame.gen == g && owed == {})
    || (openers == [] && owed == {Handle(o, g, k)})
  }

  predicate Owes(w: Wait, openers: seq<Item>, owed: set<Handle>, o: Oid) {
    match w
    case Quiet => openers == [] && owed == {}
    case AwaitResp(g) => One(openers, owed, o, g, Request)
    case AwaitStream(g) => One(openers, owed, o, g, Start)
    case Lost => false
  }

  predicate LocalOk(v: View) {
    && v.pooled == (if v.caller.None? then 1 else 0)
    && (v.live ==> Opening(v.caller) || IsIn(v.caller, {ReqDone, ReqCleared, ReqReturned}))
    && (IsIn(v.caller, {ReqDone, ReqCleared, ReqReturned}) ==> v.live)
    && (Opening(v.caller) || IsIn(v.caller, {ReqTaken, ReqDone, StrTaken}) ==> v.cb == Some(v.gen))
    && (IsIn(v.caller, {ReqCleared, ReqReturned}) ==> v.cb == None)
    && (v.caller.Some? ==> v.gen > 0)
  }

  function Tail(v: View): seq<Item>
    requires NoticeDue(v) ==> v.bwd != []
  {
    if NoticeDue(v) then v.bwd[1..] else v.bwd
  }

  predicate ViewInv(v: View, o: Oid) {
    && LocalOk(v)
    && (v.ear.Some? ==> v.ear.value.Remote?)
    && FitsEar(RunEar(EarOf(v.ear), v.fwd), v)
    && FitsEar(RunEar(Silent(0), v.saidFwd), v)
    && (NoticeDue(v) ==> v.bwd != [] && v.bwd[0] == Notice(o))
    && var w := RunWait(WaitOf(v.caller, v.gen), Tail(v));
       Owes(w, Openers(v.fwd), v.owed, o) && FitsTalk(RunTalk(Said(0), v.saidBwd), w, v)
  }

  /** `ViewInv` as one atom: the comparison keeps the verifier from taking it apart at every use. */
  ghost predicate Good(v: View, o: Oid) { ViewInv(v, o) == true }

  // ---- folds

  lemma {:induction false} EarSnoc(e: Ear, q: seq<Item>, i: Item)
    ensures RunEar(e, q + [i]) == StepEar(RunEar(e, q), i)
    decreases q
  {
    if q == [] {
      assert RunEar(e, [i]) == RunEar(StepEar(e, i), [i][1..]);
    } else {
      assert (q + [i])[1..] == q[1..] + [i];
      EarSnoc(StepEar(e, q[0]), q[1..], i);
    }
  }

  lemma {:induction false} WaitSnoc(w: Wait, q: seq<Item>, i: Item)
    ensures RunWait(w, q + [i]) == StepWait(RunWait(w, q), i)
    decreases q
  {
    if q == [] {
      assert RunWait(w, [i]) == RunWait(StepWait(w, i), [i][1..]);
    } else {
      assert (q + [i])[1..] == q[1..] + [i];
      WaitSnoc(StepWait(w, q[0]), q[1..], i);
    }
  }

  lemma {:induction false} TalkSnoc(t: Talk, q: seq<Item>, i: Item)
    ensures RunTalk(t, q + [i]) == StepTalk(RunTalk(t, q), i)
    decreases q
  {
    if q == [] {
      assert RunTalk(t, [i]) == RunTalk(StepTalk(t, i), [i][1..]);
    } else {
      assert (q + [i])[1..] == q[1..] + [i];
      TalkSnoc(StepTalk(t, q[0]), q[1..], i);
    }
  }

  lemma {:induction false} OpenersSnoc(q: seq<Item>, i: Item)
    ensures Openers(q + [i]) == Openers(q) + Openers([i])
  {
    if q != [] {
      assert (q + [i])[1..] == q[1..] + [i];
      OpenersSnoc(q[1..], i);
    } else {
      assert q + [i] == [i];
    }
  }

  lemma {:induction false} WrongStays(q: seq<Item>)
    ensures RunEar(Wrong, q) == Wrong && RunWait(Lost, q) == Lost
  {
    if q != [] { WrongStays(q[1..]); }
  }

  /** When nothing is expected, nothing is in flight. */
  lemma QuietIsEmpty(q: seq<Item>)
    requires RunWait(Quiet, q) != Lost
    ensures q == []
  {
    if q != [] { WrongStays(q[1..]); }
  }

  /** Forgetting the last generation heard only matters on an empty queue. */
  lemma EarForgets(l: nat, q: seq<Item>)
    requires RunEar(Silent(l), q) != Wrong
    ensures q == [] || RunEar(Silent(0), q) == RunEar(Silent(l), q)
  {
    if q != [] { WrongStays(q[1..]); }
  }

  /** Bring the folds over `q + [i]` into scope. */
  lemma Snocs(e: Ear, w: Wait, t: Talk, q: seq<Item>, i: Item)
    ensures RunEar(e, q + [i]) == StepEar(RunEar(e, q), i)
    ensures RunWait(w, q + [i]) == StepWait(RunWait(w, q), i)
    ensures RunTalk(t, q + [i]) == StepTalk(RunTalk(t, q), i)
    ensures Openers(q + [i]) == Openers(q) + Openers([i])
  {
    EarSnoc(e, q, i); WaitSnoc(w, q, i); TalkSnoc(t, q, i); OpenersSnoc(q, i);
  }

  // ---- the steps of one view

  function VTake(v: View, c: Caller): View
    requires v.pooled >= 1
  {
    v.(pooled := v.pooled - 1, caller := Some(c), gen := v.gen + 1,
       cb := if c.PostTaken? then None else Some(v.gen + 1))
  }

  function VTell(v: View, o: Oid, c: Caller): View { v.(caller := Some(c), bwd := [Notice(o)]) }

  function VSetCaller(v: View, c: Caller, cb: Option<nat>): View { v.(caller := Some(c), cb := cb) }

  function VEmit(v: View, f: Frame): View {
    v.(fwd := v.fwd + [Packet(f)], saidFwd := v.saidFwd + [Packet(f)])
  }

  function VRelease(v: View): View { v.(pooled := v.pooled + 1, caller := None) }

  function VReply(v: View, f: Frame): View {
    v.(bwd := v.bwd + [Packet(f)], saidBwd := v.saidBwd + [Packet(f)])
  }

  function VPaid(v: View, h: Handle, f: Frame): View {
    v.(owed := if f.kind.StreamMsg? then v.owed else v.owed - {h})
  }

  // ---- steps of the owner's application

  lemma KeepTake(v: View, o: Oid, c: Caller)
    requires Good(v, o) && v.pooled >= 1 && c in {PostTaken, ReqTaken, StrTaken}
    ensures Good(VTake(v, c), o)
  {}

  lemma KeepTell(v: View, o: Oid)
    requires Good(v, o) && IsIn(v.caller, {ReqTaken, StrTaken, ReqCleared})
    ensures v.bwd == [] && Good(VTell(v, o, AfterTell(v.caller.value)), o)
  {
    QuietIsEmpty(v.bwd);
    assert Tail(VTell(v, o, AfterTell(v.caller.value))) == [];
  }

  /** The first frame of an exchange, seen by the bookkeepers of both directions. */
  lemma FirstFits(v: View, v': View, i: Item)
    requires IsIn(v.caller, {PostTaken, ReqNoticed, StrNoticed})
    requires i.Packet? && i.frame.kind == FirstKind(v.caller.value) && i.frame.gen == v.gen == v'.gen
    requires v'.caller == Some(AfterFirst(v.caller.value)) && v'.owed == {}
    ensures forall e :: FitsEar(e, v) ==> FitsEar(StepEar(e, i), v')
    ensures forall t :: FitsTalk(t, Quiet, v) ==> FitsTalk(t, WaitOf(v'.caller, v.gen), v')
    ensures Owes(WaitOf(v'.caller, v.gen), Openers([i]), {}, i.frame.oid)
  {
    assert Openers([i][1..]) == [];
  }

  /** Before its first frame an exchange has nothing in flight backwards and nobody owes a reply. */
  lemma FirstIsQuiet(v: View, o: Oid)
    requires Good(v, o) && IsIn(v.caller, {PostTaken, ReqNoticed, StrNoticed})
    ensures LocalOk(v) && (NoticeDue(v) ==> v.bwd != [] && v.bwd[0] == Notice(o)) && Tail(v) == []
    ensures Openers(v.fwd) == [] && v.owed == {} && (v.ear.Some? ==> v.ear.value.Remote?)
    ensures FitsEar(RunEar(EarOf(v.ear), v.fwd), v) && FitsEar(RunEar(Silent(0), v.saidFwd), v)
    ensures FitsTalk(RunTalk(Said(0), v.saidBwd), Quiet, v)
  {
    QuietIsEmpty(Tail(v));
  }

  lemma KeepFirst(v: View, o: Oid, f: Frame)
    requires Good(v, o) && IsIn(v.caller, {PostTaken, ReqNoticed, StrNoticed})
    requires f.kind == FirstKind(v.caller.value) && f.oid == o && f.gen == v.gen
    ensures Good(VEmit(VSetCaller(v, AfterFirst(v.caller.value), v.cb), f), o)
  {
    var i, c := Packet(f), Some(AfterFirst(v.caller.value));
    var v' := VEmit(VSetCaller(v, AfterFirst(v.caller.value), v.cb), f);
    FirstIsQuiet(v, o);
    FirstFits(v, v', i);
    EarSnoc(EarOf(v.ear), v.fwd, i);
    EarSnoc(Silent(0), v.saidFwd, i);
    OpenersSnoc(v.fwd, i);
    FirstParts(v', o, WaitOf(c, v.gen));
  }

  /** The invariant, put together from its parts when nothing is in flight backwards. */
  lemma FirstParts(v: View, o: Oid, w: Wait)
    requires LocalOk(v) && (v.ear.Some? ==> v.ear.value.Remote?)
    requires FitsEar(RunEar(EarOf(v.ear), v.fwd), v) && FitsEar(RunEar(Silent(0), v.saidFwd), v)
    requires (NoticeDue(v) ==> v.bwd != [] && v.bwd[0] == Notice(o)) && Tail(v) == []
    requires w == WaitOf(v.caller, v.gen) && Owes(w, Openers(v.fwd), v.owed, o)
    requires FitsTalk(RunTalk(Said(0), v.saidBwd), w, v)
    ensures Good(v, o)
  {}

  lemma KeepPostReturn(v: View, o: Oid)
    requires Good(v, o) && IsIn(v.caller, {PostSent})
    ensures Good(VRelease(v), o)
  {
    assert Tail(VRelease(v)) == Tail(v);
  }

  lemma KeepClear(v: View, o: Oid)
    requires Good(v, o) && IsIn(v.caller, {ReqDone})
    ensures Good(VSetCaller(v, ReqCleared, None), o)
  {
    assert Tail(VSetCaller(v, ReqCleared, None)) == Tail(v);
  }

  lemma KeepSend(v: View, o: Oid, f: Frame)
    requires Good(v, o) && IsIn(v.caller, {StrOpen}) && f.kind.StreamMsg? && f.gen == v.gen
    ensures Good(VEmit(v, f), o)
  {
    var i := Packet(f);
    Snocs(EarOf(v.ear), Quiet, Said(0), v.fwd, i);
    EarSnoc(Silent(0), v.saidFwd, i);
    assert Tail(VEmit(v, f)) == Tail(v);
  }

  lemma KeepClose(v: View, o: Oid, f: Frame)
    requires Good(v, o) && IsIn(v.caller, {StrOpen}) && f.kind.Finish? && f.gen == v.gen
    ensures Good(VEmit(VSetCaller(v, StrClosed, v.cb), f), o)
  {
    var i := Packet(f);
    Snocs(EarOf(v.ear), Quiet, Said(0), v.fwd, i);
    EarSnoc(Silent(0), v.saidFwd, i);
    assert Tail(VEmit(VSetCaller(v, StrClosed, v.cb), f)) == Tail(v);
  }

  // ---- steps of the peer's application

  /** The generation waited for never changes along a queue. */
  lemma {:induction false} WaitNeverAdvances(w: Wait, q: seq<Item>)
    requires RunWait(w, q) != Lost
    ensures RunWait(w, q) == w || RunWait(w, q) == Quiet
    decreases q
  {
    if q != [] {
      WrongStays(q[1..]);
      WaitNeverAdvances(StepWait(w, q[0]), q[1..]);
    }
  }

  /** A handle in the peer's hands is the only one, and it serves the exchange the owner waits on. */
  lemma OwedMeans(v: View, o: Oid, h: Handle)
    requires Good(v, o) && h in v.owed
    ensures v.owed == {h} && Openers(v.fwd) == [] && h == Handle(o, v.gen, h.kind)
    ensures var w := RunWait(WaitOf(v.caller, v.gen), Tail(v));
            w == WaitOf(v.caller, v.gen)
            && if h.kind.Request? then w == AwaitResp(v.gen) else h.kind.Start? && w == AwaitStream(v.gen)
    ensures !Unsent(v.caller)
  {
    WaitNeverAdvances(WaitOf(v.caller, v.gen), Tail(v));
  }

  lemma TailSnoc(v: View, i: Item, v': View)
    requires NoticeDue(v) ==> v.bwd != []
    requires v'.caller == v.caller && v'.live == v.live && v'.bwd == v.bwd + [i]
    ensures v'.bwd != [] && Tail(v') == Tail(v) + [i]
  {}

  predicate Answers(h: Handle, f: Frame) {
    f.gen == h.gen && if h.kind.Request? then f.kind.Request? else f.kind.StreamMsg? || f.kind.Finish?
  }

  /** One more frame from the peer, seen by the three bookkeepers of the backward direction. */
  lemma SayFits(w: Wait, t: Talk, v: View, o: Oid, h: Handle, i: Item)
    requires i.Packet? && Answers(h, i.frame) && h == Handle(o, v.gen, h.kind)
    requires if h.kind.Request? then w == AwaitResp(v.gen) else h.kind.Start? && w == AwaitStream(v.gen)
    requires FitsTalk(t, w, v) && !Unsent(v.caller)
    ensures FitsTalk(StepTalk(t, i), StepWait(w, i), v)
    ensures Owes(StepWait(w, i), [], if i.frame.kind.StreamMsg? then {h} else {}, o)
  {}

  lemma GoodAfterSay(v: View, v': View, o: Oid, i: Item, w': Wait, t': Talk)
    requires Good(v, o) && v' == v.(bwd := v.bwd + [i], owed := v'.owed, saidBwd := v'.saidBwd)
    requires RunWait(WaitOf(v.caller, v.gen), Tail(v) + [i]) == w' && RunTalk(Said(0), v'.saidBwd) == t'
    requires FitsTalk(t', w', v) && Owes(w', Openers(v.fwd), v'.owed, o)
    ensures Good(v', o)
  {
    TailSnoc(v, i, v');
  }

  lemma KeepSay(v: View, o: Oid, h: Handle, f: Frame)
    requires Good(v, o) && h in v.owed && Answers(h, f)
    ensures Good(VReply(VPaid(v, h, f), f), o)
  {
    var i, v' := Packet(f), VReply(VPaid(v, h, f), f);
    OwedMeans(v, o, h);
    var w, t := WaitOf(v.caller, v.gen), RunTalk(Said(0), v.saidBwd);
    WaitSnoc(w, Tail(v), i);
    TalkSnoc(Said(0), v.saidBwd, i);
    SayFits(w, t, v, o, h, i);
    GoodAfterSay(v, v', o, i, StepWait(w, i), StepTalk(t, i));
  }

  // ---- dispatch of a notice

  function VOpened(v: View): View
    requires v.bwd != []
  {
    v.(bwd := v.bwd[1..], live := true)
  }

  function VEnded(v: View): View
    requires v.bwd != []
  {
    VRelease(v.(bwd := v.bwd[1..], live := false))
  }

  /** An open notice meets a callback and no live entry; a close notice meets no callback and the
      entry still live.  Neither can be taken for the other. */
  lemma KeepNotice(v: View, o: Oid)
    requires Good(v, o) && v.bwd != [] && v.bwd[0].Notice?
    ensures v.bwd[0] == Notice(o)
    ensures v.cb.Some? ==> !v.live && Opening(v.caller) && v.cb == Some(v.gen) && Good(VOpened(v), o)
    ensures v.cb.None? ==> v.live && v.caller == Some(ReqReturned) && Good(VEnded(v), o)
  {
    if !NoticeDue(v) { WrongStays(v.bwd[1..]); }
    assert NoticeDue(v);
    if v.cb.Some? { assert Tail(VOpened(v)) == Tail(v); } else { assert Tail(VEnded(v)) == Tail(v); }
  }

  // ---- dispatch by the peer

  /** What the peer's dispatcher finds when the head frame on this opaque arrives. */
  predicate HearsRight(v: View, f: Frame) {
    match f.kind
    case Post => v.ear.None?
    case Request => v.ear.None? && v.owed == {}
    case Start => v.ear.None? && v.owed == {}
    case StreamMsg => v.ear.Some? && v.ear.value.Remote? && v.ear.value.gen == f.gen
    case Finish => v.ear.Some? && v.ear.value.Remote? && v.ear.value.gen == f.gen
  }

  function EarAfter(v: View, f: Frame, hcb: bool): Option<Entry> {
    match f.kind
    case Start => Some(Remote(f.gen, hcb))
    case Finish => None
    case _ => v.ear
  }

  function OwedAfter(v: View, o: Oid, f: Frame): set<Handle> {
    if f.kind.Request? || f.kind.Start? then v.owed + {Handle(o, f.gen, f.kind)} else v.owed
  }

  function VHear(v: View, o: Oid, f: Frame, hcb: bool): View
    requires v.fwd != []
  {
    v.(fwd := v.fwd[1..], ear := EarAfter(v, f, hcb), owed := OwedAfter(v, o, f))
  }

  lemma KeepHear(v: View, o: Oid, hcb: bool)
    requires Good(v, o) && v.fwd != []
    ensures v.fwd[0].Packet? && HearsRight(v, v.fwd[0].frame)
    ensures Good(VHear(v, o, v.fwd[0].frame, hcb), o)
  {
    HeadHeard(v, o);
    var f := v.fwd[0].frame;
    var v' := VHear(v, o, f, hcb);
    assert Tail(v') == Tail(v);
    HeadEar(v, o, hcb);
    HeadOwed(v, o);
    assert ViewInv(v', o);
  }

  lemma HeadHeard(v: View, o: Oid)
    requires Good(v, o) && v.fwd != []
    ensures v.fwd[0].Packet? && HearsRight(v, v.fwd[0].frame)
    ensures StepEar(EarOf(v.ear), v.fwd[0]) != Wrong
    ensures RunEar(EarOf(v.ear), v.fwd) == RunEar(StepEar(EarOf(v.ear), v.fwd[0]), v.fwd[1..])
  {
    WrongStays(v.fwd[1..]);
    if v.fwd[0].Packet? && (v.fwd[0].frame.kind.Request? || v.fwd[0].frame.kind.Start?) {
      assert Openers(v.fwd) == [v.fwd[0]] + Openers(v.fwd[1..]);
    }
  }

  lemma HeadEar(v: View, o: Oid, hcb: bool)
    requires Good(v, o) && v.fwd != [] && v.fwd[0].Packet?
    ensures FitsEar(RunEar(EarOf(EarAfter(v, v.fwd[0].frame, hcb)), v.fwd[1..]), v)
  {
    HeadHeard(v, o);
    var e := StepEar(EarOf(v.ear), v.fwd[0]);
    if e.Silent? { EarForgets(e.last, v.fwd[1..]); }
  }

  lemma HeadOwed(v: View, o: Oid)
    requires Good(v, o) && v.fwd != [] && v.fwd[0].Packet?
    ensures Owes(RunWait(WaitOf(v.caller, v.gen), Tail(v)), Openers(v.fwd[1..]), OwedAfter(v, o, v.fwd[0].frame), o)
  {
    var f := v.fwd[0].frame;
    if f.kind.Request? || f.kind.Start? {
      assert Openers(v.fwd) == [v.fwd[0]] + Openers(v.fwd[1..]);
      assert Openers(v.fwd[1..]) == [];
    } else {
      assert Openers(v.fwd) == Openers(v.fwd[1..]);
    }
  }

  // ---- dispatch by the owner

  /** What the owner's dispatcher finds when the head packet on this opaque arrives. */
  predicate ReplyRight(v: View, f: Frame) {
    && v.live && v.cb == Some(f.gen) && f.gen == v.gen
    && (f.kind.Request? ==> v.caller == Some(ReqSent))
    && (f.kind.StreamMsg? || f.kind.Finish? ==> IsIn(v.caller, {StrOpen, StrClosed}))
    && (f.kind.Request? || f.kind.StreamMsg? || f.kind.Finish?)
  }

  lemma ReplyFits(v: View, o: Oid)
    requires Good(v, o) && v.bwd != [] && v.bwd[0].Packet?
    ensures ReplyRight(v, v.bwd[0].frame)
    ensures Tail(v) == v.bwd && !NoticeDue(v)
    ensures RunWait(WaitOf(v.caller, v.gen), v.bwd) == RunWait(StepWait(WaitOf(v.caller, v.gen), v.bwd[0]), v.bwd[1..])
    ensures StepWait(WaitOf(v.caller, v.gen), v.bwd[0]) != Lost
  {
    WrongStays(v.bwd[1..]);
  }

  function VAnswered(v: View): View
    requires v.bwd != []
  {
    v.(bwd := v.bwd[1..], caller := if v.caller == Some(ReqSent) then Some(ReqDone) else v.caller)
  }

  lemma KeepReply(v: View, o: Oid)
    requires Good(v, o) && v.bwd != [] && v.bwd[0].Packet? && !v.bwd[0].frame.kind.Finish?
    ensures ReplyRight(v, v.bwd[0].frame) && Good(VAnswered(v), o)
  {
    ReplyFits(v, o);
    assert Tail(VAnswered(v)) == v.bwd[1..];
  }

  lemma KeepFinClosed(v: View, o: Oid)
    requires Good(v, o) && v.bwd != [] && v.bwd[0].Packet? && v.bwd[0].frame.kind.Finish?
    requires v.caller == Some(StrClosed)
    ensures ReplyRight(v, v.bwd[0].frame) && Good(VEnded(v), o)
  {
    ReplyFits(v, o);
    assert Tail(VEnded(v)) == v.bwd[1..];
    QuietIsEmpty(v.bwd[1..]);
  }

  /** The remote's close on a stream: the owner closes too unless it has, then the stream is free. */
  function VFinished(v: View, o: Oid): View
    requires v.bwd != []
  {
    VEnded(if v.caller == Some(StrOpen)
           then VEmit(VSetCaller(v, StrClosed, v.cb), Frame(Finish, o, NO_MESSAGE, v.gen)) else v)
  }

  lemma KeepFinReply(v: View, o: Oid)
    requires Good(v, o) && v.bwd != [] && v.bwd[0].Packet? && v.bwd[0].frame.kind.Finish?
    ensures ReplyRight(v, v.bwd[0].frame) && Good(VFinished(v, o), o)
  {
    ReplyFits(v, o);
    if v.caller == Some(StrOpen) {
      var f := Frame(Finish, o, NO_MESSAGE, v.gen);
      KeepClose(v, o, f);
      KeepFinClosed(VEmit(VSetCaller(v, StrClosed, v.cb), f), o);
    } else {
      KeepFinClosed(v, o);
    }
  }
}
