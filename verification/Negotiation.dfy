/**
  Tag negotiation: NewTransport installs a decoder for every tag it is configured with, and only then
  can it announce them; Handshake installs encoders for the tags the peer announced, one at a time,
  while other goroutines may already send.  At no moment does either end emit a tag that the other
  end cannot decode.
*/
module Negotiation {
  import opened Wire
  import opened Cbor
  import opened Frames
  import U = Unframe

  type Name = string

  /** tagFactory: the tags this program knows, and what each of them does. */
  datatype Library = Library(ids: map<Name, Word>, codecs: map<Word, Codec>)

  /** Each codec bears its own tag and is undone by its decoder. */
  ghost predicate Invertible(lib: Library) {
    forall t | t in lib.codecs ::
      var c := lib.codecs[t];
      c.tag == t && t != TAG_MSG && forall x: seq<byte> :: c.enc(x) != [] ==> c.dec(c.enc(x)) == x
  }

  ghost predicate Complete(lib: Library) { forall n | n in lib.ids :: lib.ids[n] in lib.codecs }

  /** What one frame tells about tags: its layers, in the order applied, and a whoami's tag list. */
  datatype Frame = App(layers: seq<Word>) | Ask(tags: seq<Name>) | Answer(tags: seq<Name>)

  function Layers(f: Frame): seq<Word> { if f.App? then f.layers else [] }

  datatype Node = Node(
    tags: seq<Name>,        // configured, and announced in every whoami
    decs: set<Word>,        // tagdec
    encs: set<Word>,        // tagenc
    todo: seq<Name>,        // the peer's list, as far as Handshake has not gone through it
    out: seq<Frame>,
    owed: nat)              // whoami requests received and not answered yet

  datatype Action =
    | AskWhoami | AnswerWhoami | Send(layers: seq<Word>)   // every installed encoder once, in any order
    | Receive | Install

  /** NewTransport; None where it returns ErrorInvalidTag. */
  function New(tags: seq<Name>, lib: Library): Option<Node> {
    if exists n | n in tags :: n !in lib.ids then None
    else Some(Node(tags, set n | n in tags && n in lib.ids :: lib.ids[n], {}, [], [], 0))
  }

  /** The loop of NewTransport. */
  method InstallDecoders(tags: seq<Name>, lib: Library) returns (decs: Option<set<Word>>)
    ensures decs == match New(tags, lib) case None => None case Some(n) => Some(n.decs)
    ensures decs.Some? <==> forall n | n in tags :: n in lib.ids
    ensures decs.Some? ==>
              forall x: Word :: x in decs.value <==> exists n :: n in tags && n in lib.ids && lib.ids[n] == x
  {
    var ids := {};
    for i := 0 to |tags|
      invariant forall j | 0 <= j < i :: tags[j] in lib.ids
      invariant ids == set j | 0 <= j < i && tags[j] in lib.ids :: lib.ids[tags[j]]
    {
      if tags[i] !in lib.ids {
        assert exists n | n in tags :: n !in lib.ids;
        return None;
      }
      ids := ids + {lib.ids[tags[i]]};
    }
    assert ids == set n | n in tags && n in lib.ids :: lib.ids[n];
    decs := Some(ids);
  }

  predicate Enabled(n: Node, p: Node, a: Action) {
    match a
    case AskWhoami => true
    case AnswerWhoami => n.owed > 0
    case Send(layers) => multiset(layers) == multiset(n.encs)
    case Receive => p.out != []
    case Install => n.todo != []
  }

  function Emit(n: Node, f: Frame): Node { n.(out := n.out + [f]) }

  function Act(n: Node, p: Node, a: Action, lib: Library): (Node, Node)
    requires Enabled(n, p, a)
  {
    match a
    case AskWhoami => (Emit(n, Ask(n.tags)), p)
    case AnswerWhoami => (Emit(n.(owed := n.owed - 1), Answer(n.tags)), p)
    case Send(layers) => (Emit(n, App(layers)), p)
    case Receive =>
      var f := p.out[0];
      (if f.Ask? then n.(owed := n.owed + 1) else if f.Answer? then n.(todo := n.todo + f.tags) else n,
       p.(out := p.out[1..]))
    case Install =>
      var tag := n.todo[0];
      (n.(todo := n.todo[1..], encs := n.encs + if tag in lib.ids then {lib.ids[tag]} else {}), p)
  }

  datatype State = State(a: Node, b: Node)

  datatype Move = Move(left: bool, act: Action)

  predicate CanStep(s: State, m: Move) { if m.left then Enabled(s.a, s.b, m.act) else Enabled(s.b, s.a, m.act) }

  function Step(s: State, m: Move, lib: Library): State
    requires CanStep(s, m)
  {
    if m.left then var (n, p) := Act(s.a, s.b, m.act, lib); State(n, p)
    else var (n, p) := Act(s.b, s.a, m.act, lib); State(p, n)
  }

  predicate Run(s: State, ms: seq<Move>, t: State, lib: Library)
    decreases |ms|
  {
    if ms == [] then s == t else CanStep(s, ms[0]) && Run(Step(s, ms[0], lib), ms[1..], t, lib)
  }

  // ---- the invariant

  ghost predicate Decodable(f: Frame, p: Node) { forall t | t in Layers(f) :: t in p.decs }

  /** `n` emits nothing that `p` cannot decode, and believes of `p` only what `p` announced. */
  ghost predicate Polite(n: Node, p: Node, lib: Library) {
    && (forall m | m in p.tags :: m in lib.ids && lib.ids[m] in p.decs)
    && n.encs <= p.decs
    && (forall m | m in n.todo :: m in p.tags)
    && (forall f | f in n.out :: Decodable(f, p) && (!f.App? ==> f.tags == n.tags))
  }

  lemma ActKeeps(n: Node, p: Node, a: Action, lib: Library)
    requires Enabled(n, p, a) && Polite(n, p, lib) && Polite(p, n, lib)
    ensures var (n', p') := Act(n, p, a, lib);
            && Polite(n', p', lib) && Polite(p', n', lib)
            && n'.decs == n.decs && p'.decs == p.decs && n'.tags == n.tags && p'.tags == p.tags
  {
    if a.Receive? { ReceiveKeeps(n, p, lib); }
    if a.Send? { LayersInstalled(a.layers, n.encs); }
  }

  lemma LayersInstalled(layers: seq<Word>, encs: set<Word>)
    requires multiset(layers) == multiset(encs)
    ensures forall t :: t in layers <==> t in encs
  {
    assert forall t :: t in layers <==> t in multiset(layers);
    assert forall t :: t in encs <==> t in multiset(encs);
  }

  lemma ReceiveKeeps(n: Node, p: Node, lib: Library)
    requires p.out != [] && Polite(n, p, lib) && Polite(p, n, lib)
    ensures var (n', p') := Act(n, p, Receive, lib); Polite(n', p', lib) && Polite(p', n', lib)
  {
    assert p.out[0] in p.out && forall f | f in p.out[1..] :: f in p.out;
  }

  lemma {:induction false} RunKeeps(s: State, ms: seq<Move>, t: State, lib: Library)
    requires Run(s, ms, t, lib) && Polite(s.a, s.b, lib) && Polite(s.b, s.a, lib)
    ensures Polite(t.a, t.b, lib) && Polite(t.b, t.a, lib)
    ensures t.a.decs == s.a.decs && t.b.decs == s.b.decs
    decreases |ms|
  {
    if ms != [] {
      if ms[0].left { ActKeeps(s.a, s.b, ms[0].act, lib); } else { ActKeeps(s.b, s.a, ms[0].act, lib); }
      RunKeeps(Step(s, ms[0], lib), ms[1..], t, lib);
    }
  }

  // ---- what the handshake installs

  /** The tags of the known names among `q`. */
  function Tags(q: seq<Name>, lib: Library): set<Word> { set m | m in q && m in lib.ids :: lib.ids[m] }

  function By(s: State, left: bool): Node { if left then s.a else s.b }

  /** The end hears the answer to a whoami request with this move. */
  predicate Hears(s: State, m: Move, left: bool) {
    m.left == left && m.act.Receive? && By(s, !left).out != [] && By(s, !left).out[0].Answer?
  }

  /** One end has received an answer in the course of a run. */
  predicate Answered(s: State, ms: seq<Move>, t: State, left: bool, lib: Library)
    requires Run(s, ms, t, lib)
    decreases |ms|
  {
    ms != [] && (Hears(s, ms[0], left) || Answered(Step(s, ms[0], lib), ms[1..], t, left, lib))
  }

  /** How many names it has been told, and how many of them it has gone through. */
  function Listed(s: State, ms: seq<Move>, t: State, left: bool, lib: Library): nat
    requires Run(s, ms, t, lib)
    decreases |ms|
  {
    if ms == [] then 0
    else (if Hears(s, ms[0], left) then |By(s, !left).out[0].tags| else 0)
         + Listed(Step(s, ms[0], lib), ms[1..], t, left, lib)
  }

  function Installs(ms: seq<Move>, left: bool): nat {
    if ms == [] then 0
    else (if ms[0].left == left && ms[0].act.Install? then 1 else 0) + Installs(ms[1..], left)
  }

  /** Once the end `n` has an answer its encoders, with those it is about to install, are just the known
      ones among the peer's tags; before, it has none. */
  ghost predicate Settled(n: Node, p: Node, answered: bool, lib: Library) {
    if answered then n.encs + Tags(n.todo, lib) == Tags(p.tags, lib) else n.encs == {} && n.todo == []
  }

  lemma TagsJoin(q: seq<Name>, r: seq<Name>, lib: Library)
    ensures Tags(q + r, lib) == Tags(q, lib) + Tags(r, lib)
  {}

  lemma InstallSettles(n: Node, p: Node, answered: bool, lib: Library)
    requires n.todo != [] && Settled(n, p, answered, lib)
    ensures Settled(Act(n, p, Install, lib).0, p, answered, lib)
  {
    var tag := n.todo[0];
    assert n.todo == [tag] + n.todo[1..];
    TagsJoin([tag], n.todo[1..], lib);
    assert Tags([tag], lib) == if tag in lib.ids then {lib.ids[tag]} else {};
  }

  lemma AnswerSettles(n: Node, p: Node, answered: bool, lib: Library)
    requires Polite(p, n, lib) && p.out != [] && p.out[0].Answer? && Settled(n, p, answered, lib)
    ensures Settled(Act(n, p, Receive, lib).0, p, true, lib) && p.out[0].tags == p.tags
  {
    assert p.out[0] in p.out;
    TagsJoin(n.todo, p.tags, lib);
    assert Tags([], lib) == {};
  }

  lemma StepSettles(s: State, m: Move, left: bool, answered: bool, lib: Library)
    requires CanStep(s, m) && Polite(s.a, s.b, lib) && Polite(s.b, s.a, lib)
    requires Settled(By(s, left), By(s, !left), answered, lib)
    ensures var t := Step(s, m, lib);
            && Settled(By(t, left), By(t, !left), answered || Hears(s, m, left), lib)
            && |By(t, left).todo| + Installs([m], left)
            == |By(s, left).todo| + if Hears(s, m, left) then |By(s, !left).out[0].tags| else 0
  {
    assert [m][1..] == [];
    if m.left == left {
      if m.act.Install? { InstallSettles(By(s, left), By(s, !left), answered, lib); }
      else if Hears(s, m, left) { AnswerSettles(By(s, left), By(s, !left), answered, lib); }
    }
  }

  lemma {:induction false} RunSettles(s: State, ms: seq<Move>, t: State, left: bool, answered: bool, lib: Library)
    requires Run(s, ms, t, lib) && Polite(s.a, s.b, lib) && Polite(s.b, s.a, lib)
    requires Settled(By(s, left), By(s, !left), answered, lib)
    ensures Settled(By(t, left), By(t, !left), answered || Answered(s, ms, t, left, lib), lib)
    ensures |By(t, left).todo| + Installs(ms, left) == |By(s, left).todo| + Listed(s, ms, t, left, lib)
    decreases |ms|
  {
    if ms != [] {
      StepSettles(s, ms[0], left, answered, lib);
      if ms[0].left { ActKeeps(s.a, s.b, ms[0].act, lib); } else { ActKeeps(s.b, s.a, ms[0].act, lib); }
      assert [ms[0]][1..] == [];
      RunSettles(Step(s, ms[0], lib), ms[1..], t, left, answered || Hears(s, ms[0], left), lib);
    }
  }

  lemma {:induction false} TagsStay(s: State, ms: seq<Move>, t: State, lib: Library)
    requires Run(s, ms, t, lib)
    ensures t.a.tags == s.a.tags && t.b.tags == s.b.tags
    decreases |ms|
  {
    if ms != [] { TagsStay(Step(s, ms[0], lib), ms[1..], t, lib); }
  }

  /** Two transports as NewTransport makes them. */
  ghost predicate Start(s: State, tags: seq<Name>, tags': seq<Name>, lib: Library) {
    New(tags, lib).Some? && New(tags', lib).Some? && s == State(New(tags, lib).value, New(tags', lib).value)
  }

  // ---- main results

  /** Before, during and after the handshake, under every interleaving: each tag of each frame in
      flight, and each tag either end could put on its next frame, has a decoder at the receiver. */
  lemma AlwaysDecodable(tags: seq<Name>, tags': seq<Name>, lib: Library, ms: seq<Move>, t: State)
    requires New(tags, lib).Some? && New(tags', lib).Some?
    requires Run(State(New(tags, lib).value, New(tags', lib).value), ms, t, lib)
    ensures forall f | f in t.a.out :: Decodable(f, t.b)
    ensures forall f | f in t.b.out :: Decodable(f, t.a)
    ensures t.a.encs <= t.b.decs && t.b.encs <= t.a.decs
  {
    RunKeeps(State(New(tags, lib).value, New(tags', lib).value), ms, t, lib);
  }

  /** In every run: before an end has an answer it has no encoder.  Then its encoders, and those it has
      still to install, are exactly the known ones among the tags its peer is configured with; when it
      has gone through the list its encoders are exactly those, and every frame it sends carries each
      of them once.  It goes through every list it is told, one name at a time. */
  lemma HandshakeInstalls(s: State, tags: seq<Name>, tags': seq<Name>, lib: Library, ms: seq<Move>, t: State,
                          left: bool)
    requires Start(s, tags, tags', lib) && Run(s, ms, t, lib)
    ensures var n, theirs := By(t, left), if left then tags' else tags;
            && (!Answered(s, ms, t, left, lib) ==> n.encs == {} && n.todo == [])
            && (Answered(s, ms, t, left, lib) ==> n.encs + Tags(n.todo, lib) == Tags(theirs, lib))
            && (Answered(s, ms, t, left, lib) && n.todo == [] ==> n.encs == Tags(theirs, lib))
            && |n.todo| + Installs(ms, left) == Listed(s, ms, t, left, lib)
            && forall layers: seq<Word> | CanStep(t, Move(left, Send(layers))) :: multiset(layers) == multiset(n.encs)
  {
    RunSettles(s, ms, t, left, false, lib);
    TagsStay(s, ms, t, lib);
    assert Tags([], lib) == {};
  }

  // ---- and it can always be completed

  lemma {:induction false} InstallAll(s: State, left: bool, lib: Library) returns (ms: seq<Move>, t: State)
    ensures Run(s, ms, t, lib) && By(t, left).todo == [] && !Answered(s, ms, t, left, lib)
    decreases |By(s, left).todo|
  {
    if By(s, left).todo == [] {
      ms, t := [], s;
    } else {
      var m := Move(left, Install);
      ms, t := InstallAll(Step(s, m, lib), left, lib);
      assert ([m] + ms)[1..] == ms;
      ms := [m] + ms;
    }
  }

  function Swapped(s: State, left: bool, n: Node, p: Node): State { if left then State(n, p) else State(p, n) }

  lemma RunFirst(s: State, m: Move, s1: State, ms: seq<Move>, t: State, left: bool, lib: Library)
    requires CanStep(s, m) && Step(s, m, lib) == s1 && Run(s1, ms, t, lib)
    ensures Run(s, [m] + ms, t, lib)
    ensures Answered(s, [m] + ms, t, left, lib) <==> Hears(s, m, left) || Answered(s1, ms, t, left, lib)
  {
    assert ([m] + ms)[1..] == ms;
  }

  /** From a fresh start either end can ask, be answered, and install exactly the known tags of its peer. */
  lemma HandshakeCompletes(s: State, tags: seq<Name>, tags': seq<Name>, lib: Library, left: bool)
      returns (ms: seq<Move>, t: State)
    requires Start(s, tags, tags', lib)
    ensures Run(s, ms, t, lib) && Answered(s, ms, t, left, lib) && By(t, left).todo == []
    ensures By(t, left).encs == Tags(if left then tags' else tags, lib)
  {
    var n, p := By(s, left), By(s, !left);
    var s1 := Swapped(s, left, n.(out := [Ask(n.tags)]), p);
    var s2 := Swapped(s, left, n, p.(owed := 1));
    var s3 := Swapped(s, left, n, p.(out := [Answer(p.tags)]));
    var s4 := Swapped(s, left, n.(todo := p.tags), p);
    ms, t := InstallAll(s4, left, lib);
    RunFirst(s3, Move(left, Receive), s4, ms, t, left, lib);
    ms := [Move(left, Receive)] + ms;
    RunFirst(s2, Move(!left, AnswerWhoami), s3, ms, t, left, lib);
    ms := [Move(!left, AnswerWhoami)] + ms;
    RunFirst(s1, Move(!left, Receive), s2, ms, t, left, lib);
    ms := [Move(!left, Receive)] + ms;
    RunFirst(s, Move(left, AskWhoami), s1, ms, t, left, lib);
    ms := [Move(left, AskWhoami)] + ms;
    HandshakeInstalls(s, tags, tags', lib, ms, t, left);
  }

  /** The decoders a node holds, as unframepkt sees them. */
  function Decoders(decs: set<Word>, lib: Library): U.Decoders {
    map t | t in decs && t in lib.codecs :: lib.codecs[t].dec
  }

  function Codecs(layers: seq<Word>, lib: Library): (cs: seq<Codec>)
    requires forall t | t in layers :: t in lib.codecs
    ensures |cs| == |layers| && forall i | 0 <= i < |cs| :: cs[i] == lib.codecs[layers[i]]
  {
    if layers == [] then []
    else assert layers[0] in layers; [lib.codecs[layers[0]]] + Codecs(layers[1..], lib)
  }

  lemma LayersMatch(layers: seq<Word>, decs: set<Word>, lib: Library)
    requires Invertible(lib) && forall t | t in layers :: t in decs && t in lib.codecs
    ensures U.Matched(Codecs(layers, lib), Decoders(decs, lib))
  {
    var cs := Codecs(layers, lib);
    forall c | c in cs ensures U.Undone(c, Decoders(decs, lib)) {
      var i :| 0 <= i < |cs| && cs[i] == c;
      assert layers[i] in layers && c == lib.codecs[layers[i]];
    }
  }

  /** So what a frame round trip needs of the codecs holds for every frame of every run. */
  lemma EveryFrameMatches(tags: seq<Name>, tags': seq<Name>, lib: Library, ms: seq<Move>, t: State, f: Frame)
    requires Invertible(lib) && Complete(lib) && New(tags, lib).Some? && New(tags', lib).Some?
    requires Run(State(New(tags, lib).value, New(tags', lib).value), ms, t, lib)
    ensures f in t.a.out || f in t.b.out ==> forall x | x in Layers(f) :: x in lib.codecs
    ensures f in t.a.out ==> U.Matched(Codecs(Layers(f), lib), Decoders(t.b.decs, lib))
    ensures f in t.b.out ==> U.Matched(Codecs(Layers(f), lib), Decoders(t.a.decs, lib))
  {
    RunKeeps(State(New(tags, lib).value, New(tags', lib).value), ms, t, lib);
    assert forall x | x in t.a.decs + t.b.decs :: x in lib.codecs;
    if f in t.a.out { LayersMatch(Layers(f), t.b.decs, lib); }
    if f in t.b.out { LayersMatch(Layers(f), t.a.decs, lib); }
  }
}
