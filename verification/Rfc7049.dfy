/**
  Well-formedness of CBOR data, after the pseudo-code of Appendix C of RFC 7049, with the
  indefinite-length items of section 2.2.1.  It knows nothing of gofast: it is the reference the
  frames are checked against.
*/
module Rfc7049 {
  import opened Wire
  import opened Cbor

  /** What reading one item comes to: its length in bytes and the major type reported (0 for an
      indefinite-length item), a break, or failure. */
  datatype Outcome = Item(n: nat, major: nat) | Break | Fail

  function WellFormed(buf: seq<byte>, breakable: bool): (r: Outcome)
    ensures r.Item? ==> 1 <= r.n <= |buf|
    decreases |buf|, 0
  {
    if buf == [] then Fail
    else
      var mt, ai := buf[0] / 32, buf[0] % 32;
      if ai == 31 then
        if mt == 7 then if breakable then Break else Fail
        else if mt < 2 || mt == 6 then Fail
        else Wrap(1, Contents(buf[1..], if mt == 4 then Elements else if mt == 5 then Keys else Chunks(mt)), 0)
      else match Argument(buf)
        case None => Fail
        case Some((val, k)) =>
          if mt == 2 || mt == 3 then if k + val <= |buf| then Item(k + val, mt) else Fail
          else
            var count := if mt == 4 then val else if mt == 5 then 2 * val else if mt == 6 then 1 else 0;
            Wrap(k, Contents(buf[k..], Count(count)), mt)
  }

  /** An item whose contents take `n` bytes after a head of `k`. */
  function Wrap(k: nat, n: Option<nat>, mt: nat): Outcome {
    match n case None => Fail case Some(m) => Item(k + m, mt)
  }

  /** The loop an enclosing item is in: so many items; or up to a break, the chunks of a string of
      one type, the elements of an array, or the keys and values of a map in turn. */
  datatype Loop = Count(left: nat) | Chunks(mt: nat) | Elements | Keys | Values

  function Next(l: Loop): Loop
    requires l.Count? ==> l.left > 0
  {
    match l case Count(n) => Count(n - 1) case Keys => Values case Values => Keys case _ => l
  }

  /** The contents of an item, up to and with the break if one ends it. */
  function Contents(buf: seq<byte>, l: Loop): (r: Option<nat>)
    ensures r.Some? ==> r.value <= |buf|
    decreases |buf|, 1
  {
    if l == Count(0) then Some(0)
    else match WellFormed(buf, !l.Count? && !l.Values?)
      case Fail => None
      case Break => Some(1)
      case Item(n, m) =>
        if l.Chunks? && m != l.mt then None else More(n, Contents(buf[n..], Next(l)))
  }

  function More(n: nat, r: Option<nat>): Option<nat> {
    match r case None => None case Some(k) => Some(n + k)
  }

  /** Exactly one well-formed item, and nothing else. */
  predicate OneItem(buf: seq<byte>) {
    WellFormed(buf, false).Item? && WellFormed(buf, false).n == |buf|
  }

  // ---- the items gofast is made of

  lemma ArgumentExtends(h: seq<byte>, rest: seq<byte>)
    requires Argument(h).Some?
    ensures h != [] && Argument(h + rest) == Argument(h) && (h + rest)[0] == h[0]
  {
    var k := Argument(h).value.1;
    assert (h + rest)[1..k] == h[1..k];
  }

  lemma ArgumentAt(major: nat, v: Word, rest: seq<byte>)
    requires major < 8
    ensures var s := Head(major, v) + rest;
            s != [] && s[0] / 32 == major && s[0] % 32 != 31 && Argument(s) == Some((v as nat, |Head(major, v)|))
  {
    HeadParts(major, v);
    ArgumentOfHead(major, v);
    ArgumentExtends(Head(major, v), rest);
  }

  lemma BstrWF(d: seq<byte>, rest: seq<byte>, b: bool)
    requires |d| < TWO64
    ensures WellFormed(Bstr(d) + rest, b) == Item(|Bstr(d)|, 2)
  {
    assert Bstr(d) + rest == Head(2, |d|) + (d + rest);
    ArgumentAt(2, |d|, d + rest);
  }

  lemma UintWF(v: Word, rest: seq<byte>, b: bool)
    ensures WellFormed(Uint(v) + rest, b) == Item(|Uint(v)|, 0)
  {
    ArgumentAt(0, v, rest);
  }

  lemma OneOf(buf: seq<byte>, n: nat, m: nat)
    requires WellFormed(buf, false) == Item(n, m)
    ensures Contents(buf, Count(1)) == Some(n)
  {
    assert Contents(buf[n..], Count(0)) == Some(0);
  }

  lemma TagWF(t: Word, inner: seq<byte>, rest: seq<byte>, m: nat, b: bool)
    requires WellFormed(inner + rest, false) == Item(|inner|, m)
    ensures WellFormed(Tag(t) + inner + rest, b) == Item(|Tag(t) + inner|, 6)
  {
    var s := Tag(t) + inner + rest;
    assert s == Tag(t) + (inner + rest);
    ArgumentAt(6, t, inner + rest);
    assert s[|Tag(t)|..] == inner + rest;
    OneOf(inner + rest, |inner|, m);
  }

  lemma TagOfNothing(t: Word, inner: seq<byte>, b: bool)
    requires WellFormed(inner, false) == Fail
    ensures WellFormed(Tag(t) + inner, b) == Fail
  {
    var s := Tag(t) + inner;
    ArgumentAt(6, t, inner);
    assert s[|Tag(t)|..] == inner;
    assert Contents(inner, Count(1)) == None;
  }

  /** An array of one item: the byte 0x81 in front of it. */
  lemma ArrayOfOneWF(inner: seq<byte>, rest: seq<byte>, m: nat, b: bool)
    requires WellFormed(inner + rest, false) == Item(|inner|, m)
    ensures WellFormed([0x81] + inner + rest, b) == Item(1 + |inner|, 4)
  {
    var s := [0x81] + inner + rest;
    assert s[1..] == inner + rest;
    OneOf(inner + rest, |inner|, m);
    ArrayOfOneHead(s, |inner|, b);
  }

  lemma ArrayOfOneHead(s: seq<byte>, n: nat, b: bool)
    requires s != [] && s[0] == 0x81 && Contents(s[1..], Count(1)) == Some(n)
    ensures WellFormed(s, b) == Item(1 + n, 4)
  {
    assert Argument(s) == Some((1, 1));
  }

  lemma BreakWF(rest: seq<byte>)
    ensures WellFormed([BREAK] + rest, true) == Break
  {}

  lemma LoopStep(buf: seq<byte>, n: nat, m: nat, l: Loop)
    requires l.Elements? || l.Keys? || l.Values?
    requires WellFormed(buf, !l.Values?) == Item(n, m)
    ensures Contents(buf, l) == More(n, Contents(buf[n..], Next(l)))
  {}

  /** What comes next inside a loop. */
  lemma LoopNext(inner: seq<byte>, rest: seq<byte>, m: nat, l: Loop, next: Loop, t: Option<nat>)
    requires (l.Elements? && next.Elements?) || (l.Keys? && next.Values?) || (l.Values? && next.Keys?)
    requires WellFormed(inner + rest, !l.Values?) == Item(|inner|, m)
    requires Contents(rest, next) == t
    ensures Contents(inner + rest, l) == More(|inner|, t)
  {
    LoopStep(inner + rest, |inner|, m, l);
    assert (inner + rest)[|inner|..] == rest;
  }

  lemma LoopEnd(rest: seq<byte>, l: Loop)
    requires l.Elements? || l.Keys?
    ensures Contents([BREAK] + rest, l) == Some(1)
  {
    BreakWF(rest);
  }

  /** An indefinite-length array, its elements and break included in `body`. */
  lemma ArrayWF(body: seq<byte>, n: nat, b: bool)
    requires Contents(body, Elements) == Some(n)
    ensures WellFormed([ARRAY_START] + body, b) == Item(1 + n, 0)
  {
    assert ([ARRAY_START] + body)[1..] == body;
  }

  lemma MapWF(body: seq<byte>, r: Option<nat>, b: bool)
    requires Contents(body, Keys) == r
    ensures WellFormed([MAP_START] + body, b) == Wrap(1, r, 0)
  {
    assert ([MAP_START] + body)[1..] == body;
  }

  lemma EntryNext(key: seq<byte>, val: seq<byte>, tail: seq<byte>, m: nat, l: nat, t: Option<nat>)
    requires WellFormed(key + (val + tail), true) == Item(|key|, m)
    requires WellFormed(val + tail, false) == Item(|val|, l)
    requires Contents(tail, Keys) == t
    ensures Contents(key + (val + tail), Keys) == More(|key|, More(|val|, t))
  {
    LoopNext(val, tail, l, Values, Keys, t);
    LoopNext(key, val + tail, m, Keys, Values, More(|val|, t));
  }

  /** An indefinite-length map with one entry. */
  lemma MapOfOneWF(key: seq<byte>, val: seq<byte>, rest: seq<byte>, m: nat, l: nat, b: bool)
    requires WellFormed(key + (val + ([BREAK] + rest)), true) == Item(|key|, m)
    requires WellFormed(val + ([BREAK] + rest), false) == Item(|val|, l)
    ensures WellFormed([MAP_START] + (key + (val + ([BREAK] + rest))), b) == Item(2 + |key| + |val|, 0)
  {
    LoopEnd(rest, Keys);
    EntryNext(key, val, [BREAK] + rest, m, l, Some(1));
    MapWF(key + (val + ([BREAK] + rest)), More(|key|, More(|val|, Some(1))), b);
  }
}
