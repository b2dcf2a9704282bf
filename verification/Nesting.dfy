/**
  Everything one end sends, read as CBOR.  A start frame opens an array that the break of a later finish
  closes, whichever stream that finish belongs to, so the frames of all streams nest as brackets do: the
  bytes are a sequence of well-formed items exactly when starts and finishes are balanced.
*/
module Nesting {
  import opened Wire
  import opened Cbor
  import opened Rfc7049
  import opened Frames

  /** A frame as it goes onto the wire, tag layers included in its payload. */
  datatype Sent = Sent(kind: Kind, oid: Word, payload: Data)

  predicate Packable(f: Sent) { |Tagged(f.oid, f.payload)| < TWO64 }

  predicate AllPackable(fs: seq<Sent>) { forall i | 0 <= i < |fs| :: Packable(fs[i]) }

  function Bytes(fs: seq<Sent>): seq<byte>
    requires AllPackable(fs)
  {
    if fs == [] then []
    else
      assert Packable(fs[0]);
      FrameOf(fs[0].kind, fs[0].oid, fs[0].payload) + Bytes(fs[1..])
  }

  /** The bytes are those of the frames, one behind the other, and nothing else. */
  lemma {:induction false} BytesAre(fs: seq<Sent>, f: Sent)
    requires AllPackable(fs) && Packable(f)
    ensures AllPackable(fs + [f])
    ensures Bytes([]) == [] && Bytes(fs + [f]) == Bytes(fs) + FrameOf(f.kind, f.oid, f.payload)
    decreases |fs|
  {
    if fs == [] {
      assert fs + [f] == [f] && [f][1..] == [];
    } else {
      BytesAre(fs[1..], f);
      SnocRest(fs, f);
      Regroup(FrameOf(fs[0].kind, fs[0].oid, fs[0].payload), Bytes(fs[1..]), FrameOf(f.kind, f.oid, f.payload));
    }
  }

  /** Any number of well-formed items, one after the other, and nothing else. */
  predicate Items(buf: seq<byte>)
    decreases |buf|
  {
    buf == [] || (WellFormed(buf, false).Item? && Items(buf[WellFormed(buf, false).n..]))
  }

  /** `d` arrays are open: the bytes complete them, innermost first, and then are items. */
  predicate Completes(buf: seq<byte>, d: nat)
    decreases d
  {
    if d == 0 then Items(buf)
    else match Contents(buf, Elements) case None => false case Some(n) => Completes(buf[n..], d - 1)
  }

  /** Each finish comes after a start of its own, and with `d` starts before, none is left over. */
  predicate Balanced(ks: seq<Kind>, d: nat)
    decreases |ks|
  {
    if ks == [] then d == 0
    else if ks[0].Start? then Balanced(ks[1..], d + 1)
    else if ks[0].Finish? then d > 0 && Balanced(ks[1..], d - 1)
    else Balanced(ks[1..], d)
  }

  function Kinds(fs: seq<Sent>): (ks: seq<Kind>)
    ensures |ks| == |fs|
  {
    if fs == [] then [] else [fs[0].kind] + Kinds(fs[1..])
  }

  lemma BalancedCons(k: Kind, ks: seq<Kind>, d: nat)
    ensures Balanced([k] + ks, d)
       <==> if k.Start? then Balanced(ks, d + 1)
            else if k.Finish? then d > 0 && Balanced(ks, d - 1) else Balanced(ks, d)
  {
    assert ([k] + ks)[1..] == ks;
  }

  /** Where the contents of an array go on in `rest`, so does its completion. */
  lemma GoesOn(buf: seq<byte>, rest: seq<byte>, k: nat, d: nat)
    requires d > 0 && k <= |buf| && buf[k..] == rest
    requires Contents(buf, Elements) == More(k, Contents(rest, Elements))
    ensures Completes(buf, d) <==> Completes(rest, d)
  {
    var t := Contents(rest, Elements);
    if t.Some? { assert buf[k + t.value..] == rest[t.value..]; }
  }

  // ---- one frame, with `d` arrays open

  /** An item changes nothing, inside an open array or outside. */
  lemma ItemCompletes(buf: seq<byte>, rest: seq<byte>, n: nat, m: nat, d: nat)
    requires WellFormed(buf, d > 0) == Item(n, m) && buf[n..] == rest
    ensures Completes(buf, d) <==> Completes(rest, d)
  {
    if d > 0 {
      LoopStep(buf, n, m, Elements);
      GoesOn(buf, rest, n, d);
    }
  }

  /** A break closes the innermost array, and needs one. */
  lemma BreakCompletes(rest: seq<byte>, d: nat)
    ensures Completes([BREAK] + rest, d) <==> d > 0 && Completes(rest, d - 1)
  {
    if d == 0 {
      assert WellFormed([BREAK] + rest, false) == Fail;
    } else {
      LoopEnd(rest, Elements);
      assert ([BREAK] + rest)[1..] == rest;
    }
  }

  lemma Behind(p: seq<byte>, b: byte, body: seq<byte>, k: nat)
    requires k <= |body|
    ensures (p + ([b] + body))[|p| + 1 + k..] == body[k..]
  {}

  /** An open array is one more to complete. */
  lemma OpenCompletes(body: seq<byte>, d: nat)
    ensures Completes(Tag(TAG_CBOR_PREFIX) + ([ARRAY_START] + body), d) <==> Completes(body, d + 1)
  {
    var buf, k := Tag(TAG_CBOR_PREFIX) + ([ARRAY_START] + body), |Tag(TAG_CBOR_PREFIX)| + 1;
    var t := Contents(body, Elements);
    OpenedWF(body, d > 0);
    if t.Some? {
      Behind(Tag(TAG_CBOR_PREFIX), ARRAY_START, body, t.value);
      ItemCompletes(buf, body[t.value..], k + t.value, 6, d);
    } else {
      FailCompletes(buf, d);
    }
  }

  lemma FailCompletes(buf: seq<byte>, d: nat)
    requires buf != [] && WellFormed(buf, d > 0) == Fail
    ensures !Completes(buf, d)
  {}

  lemma StartCompletes(f: Sent, rest: seq<byte>, d: nat)
    requires Packable(f) && f.kind.Start?
    ensures Completes(FrameOf(f.kind, f.oid, f.payload) + rest, d) <==> Completes(rest, d + 1)
  {
    var p := Packet(f.oid, f.payload);
    assert FrameOf(f.kind, f.oid, f.payload) + rest == Tag(TAG_CBOR_PREFIX) + ([ARRAY_START] + (p + rest));
    OpenCompletes(p + rest, d);
    PacketWF(f.oid, f.payload, rest, true);
    assert (p + rest)[|p|..] == rest;
    ItemCompletes(p + rest, rest, |p|, 2, d + 1);
  }

  lemma FinishCompletes(f: Sent, rest: seq<byte>, d: nat)
    requires Packable(f) && f.kind.Finish?
    ensures Completes(FrameOf(f.kind, f.oid, f.payload) + rest, d) <==> d > 0 && Completes(rest, d - 1)
  {
    var e := Element(f.kind, f.oid, f.payload);
    assert FrameOf(f.kind, f.oid, f.payload) + rest == e + ([BREAK] + rest);
    ItemWF(f.kind, f.oid, f.payload, [BREAK] + rest, d > 0);
    assert (e + ([BREAK] + rest))[|e|..] == [BREAK] + rest;
    ItemCompletes(e + ([BREAK] + rest), [BREAK] + rest, |e|, 6, d);
    BreakCompletes(rest, d);
  }

  lemma SingleCompletes(f: Sent, rest: seq<byte>, d: nat)
    requires Packable(f) && !f.kind.Start? && !f.kind.Finish?
    ensures Completes(FrameOf(f.kind, f.oid, f.payload) + rest, d) <==> Completes(rest, d)
  {
    var e := Element(f.kind, f.oid, f.payload);
    FrameIsElement(f.kind, f.oid, f.payload);
    ItemWF(f.kind, f.oid, f.payload, rest, d > 0);
    assert (e + rest)[|e|..] == rest;
    ItemCompletes(e + rest, rest, |e|, 6, d);
  }

  // ---- all frames

  lemma FirstCompletes(f: Sent, rest: seq<byte>, d: nat)
    requires Packable(f)
    ensures Completes(FrameOf(f.kind, f.oid, f.payload) + rest, d)
       <==> if f.kind.Start? then Completes(rest, d + 1) else if f.kind.Finish? then d > 0 && Completes(rest, d - 1)
            else Completes(rest, d)
  {
    if f.kind.Start? { StartCompletes(f, rest, d); }
    else if f.kind.Finish? { FinishCompletes(f, rest, d); }
    else { SingleCompletes(f, rest, d); }
  }

  lemma {:induction false} CompletesIff(fs: seq<Sent>, d: nat)
    requires AllPackable(fs)
    ensures Completes(Bytes(fs), d) <==> Balanced(Kinds(fs), d)
    decreases |fs|
  {
    if fs == [] {
      NothingFollows();
    } else {
      FirstCompletes(fs[0], Bytes(fs[1..]), d);
      BalancedCons(fs[0].kind, Kinds(fs[1..]), d);
      if fs[0].kind.Start? { CompletesIff(fs[1..], d + 1); }
      else if fs[0].kind.Finish? { if d > 0 { CompletesIff(fs[1..], d - 1); } }
      else { CompletesIff(fs[1..], d); }
    }
  }

  /** Whatever frames one end sends, of however many posts, requests and streams at once: the bytes are
      a sequence of well-formed items exactly when its starts and finishes are balanced. */
  lemma ItemsIffBalanced(fs: seq<Sent>)
    requires AllPackable(fs)
    ensures Items(Bytes(fs)) <==> Balanced(Kinds(fs), 0)
  {
    CompletesIff(fs, 0);
  }
}
