/**
  The exchange protocol and the negotiation of tags as one system: every frame that the protocol emits
  carries tag layers that its sender has negotiated by then, and is received with them.  So the codecs
  of a frame need no assumption: whatever is on its way, the receiver's decoders undo it.
*/
module Joint {
  import opened Wire
  import opened Cbor
  import opened Frames
  import X = Exchange
  import P = ExchangeProof
  import N = Negotiation
  import L = Link
  import U = Unframe

  datatype System = System(ex: X.State, ng: N.State)

  /** A move of the protocol, with the layers of the frame it emits, if it emits one; or one encoder
      more at one end. */
  datatype Move = Ex(m: X.Move, tag: N.Action) | Install(left: bool)

  ghost predicate Emits(s: X.State, m: X.Move)
    requires X.CanStep(s, m)
  {
    var t := X.Step(s, m);
    if m.left then |t.a.out| > |s.a.out| else |t.b.out| > |s.b.out|
  }

  /** What a move of the protocol means for the negotiation. */
  ghost function Beside(s: X.State, m: X.Move, tag: N.Action): Option<N.Move>
    requires X.CanStep(s, m)
  {
    if m.act.DoRx? then Some(N.Move(m.left, N.Receive))
    else if Emits(s, m) then Some(N.Move(m.left, tag))
    else None
  }

  ghost predicate CanStep(s: System, m: Move) {
    match m
    case Install(left) => N.CanStep(s.ng, N.Move(left, N.Action.Install))
    case Ex(x, tag) =>
      && X.CanStep(s.ex, x) && (tag.Send? || tag.AskWhoami? || tag.AnswerWhoami?)
      && match Beside(s.ex, x, tag) case None => true case Some(y) => N.CanStep(s.ng, y)
  }

  ghost function Step(s: System, m: Move, lib: N.Library): System
    requires CanStep(s, m)
  {
    match m
    case Install(left) => System(s.ex, N.Step(s.ng, N.Move(left, N.Action.Install), lib))
    case Ex(x, tag) =>
      System(X.Step(s.ex, x), match Beside(s.ex, x, tag) case None => s.ng case Some(y) => N.Step(s.ng, y, lib))
  }

  ghost predicate Run(s: System, ms: seq<Move>, t: System, lib: N.Library)
    decreases |ms|
  {
    if ms == [] then s == t else CanStep(s, ms[0]) && Run(Step(s, ms[0], lib), ms[1..], t, lib)
  }

  // ---- each half is a run of its own

  lemma OneMore<T>(x: T, q: seq<T>)
    ensures ([x] + q)[0] == x && ([x] + q)[1..] == q
  {}

  /** The protocol's moves among those of a run. */
  function Protocol(ms: seq<Move>): seq<X.Move> {
    if ms == [] then [] else (if ms[0].Ex? then [ms[0].m] else []) + Protocol(ms[1..])
  }

  /** A run of the system is a run of the protocol and a run of the negotiation. */
  lemma {:induction false} Projects(s: System, ms: seq<Move>, t: System, lib: N.Library)
      returns (xs: seq<X.Move>, ns: seq<N.Move>)
    requires Run(s, ms, t, lib)
    ensures X.Run(s.ex, xs, t.ex) && xs == Protocol(ms) && N.Run(s.ng, ns, t.ng, lib)
    decreases |ms|
  {
    if ms == [] {
      xs, ns := [], [];
    } else {
      var m := ms[0];
      xs, ns := Projects(Step(s, m, lib), ms[1..], t, lib);
      if m.Install? {
        OneMore(N.Move(m.left, N.Action.Install), ns);
        ns := [N.Move(m.left, N.Action.Install)] + ns;
      } else {
        OneMore(m.m, xs);
        xs := [m.m] + xs;
        var y := Beside(s.ex, m.m, m.tag);
        if y.Some? {
          OneMore(y.value, ns);
          ns := [y.value] + ns;
        }
      }
    }
  }

  // ---- frame by frame

  /** Both halves have the same number of frames on their way. */
  predicate InStep(s: System) { |s.ex.a.out| == |s.ng.a.out| && |s.ex.b.out| == |s.ng.b.out| }

  lemma OutShape(n: X.Node, p: X.Node, a: X.Action)
    requires X.NodeOk(n) && X.Enabled(n, p, a)
    ensures var (n', p') := X.Act(n, p, a);
            && (a.DoRx? ==> n'.out == n.out && p'.out == p.out[1..])
            && (!a.DoRx? ==> p' == p && |n.out| <= |n'.out| <= |n.out| + 1)
  {
    if a.Dispatch? { P.SyncFinishes(n, a.hcb); }
  }

  lemma StepInStep(s: System, m: Move, lib: N.Library)
    requires CanStep(s, m) && InStep(s)
    ensures InStep(Step(s, m, lib))
  {
    if m.Ex? {
      if m.m.left { OutShape(s.ex.a, s.ex.b, m.m.act); } else { OutShape(s.ex.b, s.ex.a, m.m.act); }
    }
  }

  lemma {:induction false} RunInStep(s: System, ms: seq<Move>, t: System, lib: N.Library)
    requires Run(s, ms, t, lib) && InStep(s)
    ensures InStep(t)
    decreases |ms|
  {
    if ms != [] {
      StepInStep(s, ms[0], lib);
      RunInStep(Step(s, ms[0], lib), ms[1..], t, lib);
    }
  }

  // ---- and every run of the protocol is half of one

  /** The encoders in some order. */
  ghost function SomeOrder(encs: set<Word>): (r: seq<Word>)
    ensures multiset(r) == multiset(encs)
  {
    if encs == {} then [] else
      var x :| x in encs;
      assert multiset(encs) == multiset({x}) + multiset(encs - {x});
      [x] + SomeOrder(encs - {x})
  }

  ghost function SomeTag(s: System, left: bool): N.Action { N.Send(SomeOrder(N.By(s.ng, left).encs)) }

  /** A frame can always be sent with all encoders, and what the protocol reads is there to be read. */
  lemma PlainStep(s: System, x: X.Move)
    requires X.CanStep(s.ex, x) && InStep(s)
    ensures CanStep(s, Ex(x, SomeTag(s, x.left)))
  {}

  lemma {:induction false} LiftsFrom(s: System, xs: seq<X.Move>, ex: X.State, lib: N.Library)
      returns (ms: seq<Move>, t: System)
    requires X.Run(s.ex, xs, ex) && InStep(s)
    ensures Run(s, ms, t, lib) && Protocol(ms) == xs && t.ex == ex
    decreases |xs|
  {
    if xs == [] {
      ms, t := [], s;
    } else {
      var m := Ex(xs[0], SomeTag(s, xs[0].left));
      PlainStep(s, xs[0]);
      StepInStep(s, m, lib);
      ms, t := LiftsFrom(Step(s, m, lib), xs[1..], ex, lib);
      OneMore(m, ms);
      ms := [m] + ms;
    }
  }

  // ---- the frames on their way, as bytes

  ghost predicate Known(q: seq<N.Frame>, lib: N.Library) { forall f, x | f in q && x in N.Layers(f) :: x in lib.codecs }

  lemma RestKnown(q: seq<N.Frame>, lib: N.Library)
    requires Known(q, lib) && q != []
    ensures (forall x | x in N.Layers(q[0]) :: x in lib.codecs) && Known(q[1..], lib)
  {
    assert q[0] in q && forall f | f in q[1..] :: f in q;
  }

  /** The codecs of each frame, in the order applied. */
  function Orders(q: seq<N.Frame>, lib: N.Library): (r: seq<seq<Codec>>)
    requires Known(q, lib)
    ensures |r| == |q| && forall i | 0 <= i < |q| :: (forall x | x in N.Layers(q[i]) :: x in lib.codecs)
                                                     && r[i] == N.Codecs(N.Layers(q[i]), lib)
  {
    if q == [] then []
    else
      RestKnown(q, lib);
      [N.Codecs(N.Layers(q[0]), lib)] + Orders(q[1..], lib)
  }

  /** The frame fits both ends and carries a message id: nothing is said about its codecs. */
  ghost predicate Fits(i: X.Item, cs: seq<Codec>, buffersize: nat) {
    && i.Packet? && i.frame.oid < TWO64 && i.frame.msg.id < TWO64 && U.Fitting(L.Dress(i.frame, cs), buffersize)
  }

  ghost predicate AllFit(q: seq<X.Item>, orders: seq<seq<Codec>>, buffersize: nat) {
    |q| == |orders| && forall i | 0 <= i < |q| :: Fits(q[i], orders[i], buffersize)
  }

  lemma FitsLoaded(q: seq<X.Item>, orders: seq<seq<Codec>>, buffersize: nat, dec: U.Decoders)
    requires AllFit(q, orders, buffersize) && forall i | 0 <= i < |orders| :: U.Matched(orders[i], dec)
    ensures L.Loaded(q, orders, buffersize, dec)
  {
    forall i | 0 <= i < |q| ensures L.Dressable(q[i], orders[i], buffersize, dec) {
      assert Fits(q[i], orders[i], buffersize) && U.Matched(orders[i], dec);
    }
  }

  // ---- main results

  /** Two fresh transports that are configured with the tags `tags` and `tags'`. */
  ghost predicate Fresh(s: System, tags: seq<N.Name>, tags': seq<N.Name>, lib: N.Library) {
    && X.Init(s.ex) && N.New(tags, lib).Some? && N.New(tags', lib).Some?
    && s.ng == N.State(N.New(tags, lib).value, N.New(tags', lib).value)
  }

  /** The joint runs leave out no run of the protocol: each of them is the protocol's part of one. */
  lemma Lifts(s: System, tags: seq<N.Name>, tags': seq<N.Name>, lib: N.Library, xs: seq<X.Move>, ex: X.State)
      returns (ms: seq<Move>, t: System)
    requires Fresh(s, tags, tags', lib) && X.Run(s.ex, xs, ex)
    ensures Run(s, ms, t, lib) && Protocol(ms) == xs && t.ex == ex
  {
    ms, t := LiftsFrom(s, xs, ex, lib);
  }

  function From(s: System, left: bool): (X.Node, N.Node) { if left then (s.ex.a, s.ng.a) else (s.ex.b, s.ng.b) }

  /** In every run, the codecs of every frame on its way are undone by the decoders of its receiver. */
  lemma OrdersMatch(s: System, tags: seq<N.Name>, tags': seq<N.Name>, lib: N.Library, ms: seq<Move>, t: System,
                    left: bool)
    requires N.Invertible(lib) && N.Complete(lib) && Fresh(s, tags, tags', lib) && Run(s, ms, t, lib)
    ensures var ((p, q), (n, r)) := (From(t, !left), From(t, left));
            && |p.out| == |q.out| && Known(q.out, lib)
            && forall i | 0 <= i < |q.out| :: U.Matched(Orders(q.out, lib)[i], N.Decoders(r.decs, lib))
  {
    var xs, ns := Projects(s, ms, t, lib);
    RunInStep(s, ms, t, lib);
    var q, r := From(t, !left).1, From(t, left).1;
    forall f | f in q.out
      ensures (forall x | x in N.Layers(f) :: x in lib.codecs)
              && U.Matched(N.Codecs(N.Layers(f), lib), N.Decoders(r.decs, lib))
    {
      N.EveryFrameMatches(tags, tags', lib, ns, t.ng, f);
    }
    forall i | 0 <= i < |q.out| ensures U.Matched(Orders(q.out, lib)[i], N.Decoders(r.decs, lib)) {
      assert q.out[i] in q.out;
    }
  }

  /** In every run of the whole system, one read of the connection is one DoRx step of the protocol:
      it gives the packet that step queues and leaves the bytes of the frames that step leaves.  All
      that is assumed is that the frames on their way fit and carry a message id. */
  lemma ReadIsDoRx(s: System, tags: seq<N.Name>, tags': seq<N.Name>, lib: N.Library, ms: seq<Move>, t: System,
                   left: bool, buffersize: nat, rest: seq<byte>)
      returns (n': X.Node, p': X.Node, pkt: U.RxPacket, len: nat, orders: seq<seq<Codec>>, dec: U.Decoders)
    requires N.Invertible(lib) && N.Complete(lib) && Fresh(s, tags, tags', lib) && Run(s, ms, t, lib)
    requires X.CanStep(t.ex, X.Move(left, X.DoRx))
    requires Known(From(t, !left).1.out, lib) ==>
               AllFit(From(t, !left).0.out, Orders(From(t, !left).1.out, lib), buffersize)
    ensures dec == N.Decoders(From(t, left).1.decs, lib)
    ensures Known(From(t, !left).1.out, lib) && orders == Orders(From(t, !left).1.out, lib) && orders != []
    ensures X.Step(t.ex, X.Move(left, X.DoRx)) == if left then X.State(n', p') else X.State(p', n')
    ensures var p := From(t, !left).0;
            && L.Loaded(p.out, orders, buffersize, dec) && L.Loaded(p'.out, orders[1..], buffersize, dec)
            && var input := L.WireBytes(p.out, orders, buffersize, dec) + rest;
            && U.ReadsAs(input, buffersize, dec, |orders[0]|, pkt, len)
            && len <= |input| && input[len..] == L.WireBytes(p'.out, orders[1..], buffersize, dec) + rest
    ensures n'.rxch != [] && var i := n'.rxch[|n'.rxch| - 1]; i.Packet? && L.Carries(pkt, i.frame)
  {
    var xs, ns := Projects(s, ms, t, lib);
    OrdersMatch(s, tags, tags', lib, ms, t, left);
    orders, dec := Orders(From(t, !left).1.out, lib), N.Decoders(From(t, left).1.decs, lib);
    FitsLoaded(From(t, !left).0.out, orders, buffersize, dec);
    StepIsAct(t.ex, left);
    n', p', pkt, len := L.ReadIsDoRx(From(t, left).0, From(t, !left).0, orders, buffersize, dec, rest);
  }

  lemma StepIsAct(s: X.State, left: bool)
    requires X.CanStep(s, X.Move(left, X.DoRx))
    ensures var n, p := if left then s.a else s.b, if left then s.b else s.a;
            && (s == X.State(n, p) || s == X.State(p, n)) && X.NodeOk(n) && p.out != []
            && var (n', p') := X.Act(n, p, X.DoRx);
               X.Step(s, X.Move(left, X.DoRx)) == if left then X.State(n', p') else X.State(p', n')
  {}
}
