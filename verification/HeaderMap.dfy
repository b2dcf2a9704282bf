/**
  unmessage of go_rx.go: the loop over the header map of a message.
*/
module HeaderMap {
  import opened Wire
  import opened Cbor
  import opened Frames

  /** The variables of the loop. */
  datatype Scan = Scan(n: int, id: int, data: Option<seq<byte>>)

  /** The rest of a turn behind a tag for the id. */
  function IdTurn(msg: seq<byte>, n: nat, s: Scan): Option<Scan> {
    if n >= |msg| then None
    else var (id, v) := ItemLength(msg[n..]); Some(Scan(n + v, id, s.data))
  }

  /** The rest of a turn behind a tag for the data. */
  function DataTurn(msg: seq<byte>, room: nat, n: nat, s: Scan): Option<Scan> {
    if n >= |msg| then None
    else
      var (ln, m) := ItemLength(msg[n..]);
      if m < 0 || ln < 0 || n + m + ln > |msg| + room then None
      else Some(Scan(n + m + ln, s.id, Some(if n + m + ln <= |msg| then msg[n + m..n + m + ln] else [])))
  }

  /** One turn of the loop, for a message with `room` more bytes of its buffer behind it.  None is a
      run-time panic: an index past the message, or a slice past the buffer.  A slice that ends in the
      bytes behind the message does not panic; the loop then ends, and its data is never used. */
  function TurnIn(msg: seq<byte>, room: nat, s: Scan): Option<Scan>
    requires 0 <= s.n < |msg|
  {
    var (tag, k) := ItemLength(msg[s.n..]);
    if tag == 44 then IdTurn(msg, s.n + k, s)
    else if tag == 45 then DataTurn(msg, room, s.n + k, s)
    else Some(s.(n := s.n + k))
  }

  function Turn(msg: seq<byte>, s: Scan): Option<Scan>
    requires 0 <= s.n < |msg|
  {
    TurnIn(msg, 0, s)
  }

  predicate Going(msg: seq<byte>, s: Scan) { 0 <= s.n < |msg| - 1 && msg[s.n] != BREAK }

  /** A turn moves forward exactly when the tag at hand is complete; a tag cut short by the end of
      the message makes it move one byte back. */
  lemma ForwardIffComplete(msg: seq<byte>, s: Scan)
    requires Going(msg, s) && Turn(msg, s).Some?
    ensures Turn(msg, s).value.n > s.n <==> ItemLength(msg[s.n..]).1 > 0
    ensures ItemLength(msg[s.n..]).1 < 0 ==> Turn(msg, s).value == s.(n := s.n - 1)
  {}

  /** So on an incomplete map the loop need not end: here two turns lead back where they started. */
  lemma IncompleteMapCycles(id: int, data: Option<seq<byte>>)
    ensures var msg: seq<byte>, s := [0xbf, 0x00, 0x19, 0x00], Scan(1, id, data);
            Going(msg, s)
            && Turn(msg, s) == Some(s.(n := 2)) && Going(msg, s.(n := 2))
            && Turn(msg, s.(n := 2)) == Some(s)
  {
    var msg: seq<byte> := [0xbf, 0x00, 0x19, 0x00];
    assert msg[1..][0] == 0 && msg[2..] == [0x19, 0x00];
  }

  /** What unmessage comes to.  Invalid is the zero message it returns with a warning; Stuck is an
      incomplete map, on which the code panics or runs on. */
  datatype Result = Message(m: BinMessage) | Invalid | Stuck

  function Finish(msg: seq<byte>, s: Scan): Result {
    if s.n >= |msg| then Invalid
    else if s.id == 0 || s.data.None? then Invalid
    else if -TWO63 <= s.id < TWO63 then Message(BinMessage(Uint64(s.id), s.data.value))
    else Stuck
  }

  function LoopIn(msg: seq<byte>, room: nat, s: Scan): Result
    requires 0 <= s.n
    decreases |msg| - s.n
  {
    if !Going(msg, s) then Finish(msg, s)
    else
      var t := TurnIn(msg, room, s);
      if t.None? || t.value.n <= s.n then Stuck else LoopIn(msg, room, t.value)
  }

  function UnmessageIn(msg: seq<byte>, room: nat): Result {
    if msg == [] || msg[0] != MAP_START then Invalid else LoopIn(msg, room, Scan(1, 0, None))
  }

  /** Without anything behind the message. */
  function Loop(msg: seq<byte>, s: Scan): Result
    requires 0 <= s.n
  {
    LoopIn(msg, 0, s)
  }

  function Unmessage(msg: seq<byte>): Result { UnmessageIn(msg, 0) }

  lemma {:induction false} LoopRoom(msg: seq<byte>, room: nat, s: Scan)
    requires 0 <= s.n
    ensures LoopIn(msg, room, s) == Loop(msg, s) || (Loop(msg, s) == Stuck && LoopIn(msg, room, s) == Invalid)
    decreases |msg| - s.n
  {
    if Going(msg, s) {
      var t := TurnIn(msg, room, s);
      if Turn(msg, s).None? {
        if t.Some? && t.value.n > s.n { assert t.value.n > |msg| && !Going(msg, t.value); }
      } else if t.value.n > s.n {
        LoopRoom(msg, room, t.value);
      }
    }
  }

  /** What lies behind a message in its buffer makes no difference but one: where the loop would
      panic, it may instead reject the message. */
  lemma RoomOnlyRejects(msg: seq<byte>, room: nat)
    ensures Unmessage(msg) != Stuck ==> UnmessageIn(msg, room) == Unmessage(msg)
    ensures Unmessage(msg) == Stuck ==> UnmessageIn(msg, room) == Stuck || UnmessageIn(msg, room) == Invalid
  {
    if msg != [] { LoopRoom(msg, room, Scan(1, 0, None)); }
  }

  /** The body of the loop; `ok` is false where the code would panic. */
  method OneTurn(msgdata: seq<byte>, room: nat, n: nat, id: int, data: Option<seq<byte>>)
      returns (ok: bool, n': int, id': int, data': Option<seq<byte>>)
    requires n < |msgdata|
    ensures ok <==> TurnIn(msgdata, room, Scan(n, id, data)).Some?
    ensures ok ==> TurnIn(msgdata, room, Scan(n, id, data)) == Some(Scan(n', id', data'))
  {
    id', data' := id, data;
    var (tag, k) := ItemLength(msgdata[n..]);
    n' := n + k;
    if tag == 44 {
      if n' >= |msgdata| { return false, n', id', data'; }
      var (i, v) := ItemLength(msgdata[n'..]);
      id', n' := i, n' + v;
    } else if tag == 45 {
      if n' >= |msgdata| { return false, n', id', data'; }
      var (ln, m) := ItemLength(msgdata[n'..]);
      n' := n' + m;
      if m < 0 || ln < 0 || n' + ln > |msgdata| + room { return false, n', id', data'; }
      data' := Some(if n' + ln <= |msgdata| then msgdata[n'..n' + ln] else []);
      n' := n' + ln;
    }
    ok := true;
  }

  /** The loop itself, with the index that moves. */
  method UnmessageLoop(msgdata: seq<byte>, room: nat) returns (r: Result)
    ensures r == UnmessageIn(msgdata, room)
  {
    var msglen := |msgdata|;
    if msglen == 0 || msgdata[0] != 0xbf {
      return Invalid;
    }
    var n, id, data := 1, 0, None;
    while n < msglen - 1 && msgdata[n] != 0xff
      invariant 0 <= n
      invariant LoopIn(msgdata, room, Scan(n, id, data)) == UnmessageIn(msgdata, room)
      decreases msglen - n
    {
      var ok, n', id', data' := OneTurn(msgdata, room, n, id, data);
      if !ok || n' <= n { return Stuck; }
      n, id, data := n', id', data';
    }
    r := Finish(msgdata, Scan(n, id, data));
  }

  // ---- complete maps

  /** A complete head, shortest or not, of any major type: the loop reads no more of it than that. */
  predicate FullHead(h: seq<byte>) { Argument(h).Some? && Argument(h).value.1 == |h| }

  function HeadValue(h: seq<byte>): Word
    requires FullHead(h)
  {
    ArgumentBound(h);
    Powers();
    Argument(h).value.0
  }

  /** An entry of the map: an id, some data, or a head with any other tag, which is passed over. */
  datatype Entry =
    | Id(tag: seq<byte>, head: seq<byte>)
    | Msg(tag: seq<byte>, head: seq<byte>, data: seq<byte>)
    | Other(tag: seq<byte>)

  predicate Complete(e: Entry) {
    FullHead(e.tag) &&
    match e
    case Id(tag, head) => HeadValue(tag) == TAG_ID && FullHead(head)
    case Msg(tag, head, data) => HeadValue(tag) == TAG_DATA && FullHead(head) && HeadValue(head) == |data| < TWO63
    case Other(tag) => HeadValue(tag) != TAG_ID && HeadValue(tag) != TAG_DATA
  }

  function EntryBytes(e: Entry): seq<byte> {
    match e case Id(tag, head) => tag + head case Msg(tag, head, data) => tag + (head + data) case Other(tag) => tag
  }

  function Entries(es: seq<Entry>): seq<byte> {
    if es == [] then [] else EntryBytes(es[0]) + Entries(es[1..])
  }

  function Absorb(s: Scan, e: Entry): Scan
    requires Complete(e)
  {
    var t := s.(n := s.n + |EntryBytes(e)|);
    match e
    case Id(_, head) => t.(id := Int64(HeadValue(head)))
    case Msg(_, _, data) => t.(data := Some(data))
    case Other(_) => t
  }

  function AbsorbAll(s: Scan, es: seq<Entry>): Scan
    requires forall e | e in es :: Complete(e)
    decreases |es|
  {
    if es == [] then s else AbsorbAll(Absorb(s, es[0]), es[1..])
  }

  /** cborItemLength on a complete head, whatever follows it. */
  lemma ReadHead(h: seq<byte>, rest: seq<byte>)
    requires FullHead(h)
    ensures h != [] && h[0] != BREAK && h + rest != [] && ItemLength(h + rest) == (Int64(HeadValue(h)), |h|)
  {
    var k := |h| - 1;
    ArgumentBound(h);
    Powers();
    assert (h + rest)[0] == h[0] && (h + rest)[1..1 + k] == h[1..1 + k];
  }

  lemma TurnAtTag(msg: seq<byte>, s: Scan, t: seq<byte>, rest: seq<byte>)
    requires FullHead(t) && 0 <= s.n <= |msg| && msg[s.n..] == t + rest
    ensures s.n < |msg| && ItemLength(msg[s.n..]) == (Int64(HeadValue(t)), |t|)
    ensures s.n + |t| <= |msg| && msg[s.n + |t|..] == rest
  {
    ReadHead(t, rest);
    After(msg, s.n, t, rest);
  }

  lemma IdAt(msg: seq<byte>, s: Scan, t: seq<byte>, h: seq<byte>, v: int, rest: seq<byte>)
    requires 0 <= s.n <= |msg| && msg[s.n..] == t + (h + rest) && t != [] && h != []
    requires ItemLength(t + (h + rest)) == (44, |t|) && ItemLength(h + rest) == (v, |h|)
    ensures s.n < |msg| && Turn(msg, s) == Some(Scan(s.n + |t| + |h|, v, s.data))
  {
    After(msg, s.n, t, h + rest);
  }

  lemma TurnId(msg: seq<byte>, s: Scan, e: Entry, rest: seq<byte>)
    requires e.Id? && Complete(e) && 0 <= s.n <= |msg| && msg[s.n..] == e.tag + (e.head + rest)
    ensures s.n < |msg| && Turn(msg, s) == Some(Absorb(s, e))
  {
    ReadHead(e.tag, e.head + rest);
    ReadHead(e.head, rest);
    IdAt(msg, s, e.tag, e.head, Int64(HeadValue(e.head)), rest);
  }

  lemma DataTurnAt(msg: seq<byte>, s: Scan, n: nat, h: seq<byte>, d: seq<byte>, rest: seq<byte>)
    requires n < |msg| && msg[n..] == h + (d + rest) && ItemLength(h + (d + rest)) == (|d|, |h|)
    ensures DataTurn(msg, 0, n, s) == Some(Scan(n + |h| + |d|, s.id, Some(d)))
  {
    After(msg, n, h, d + rest);
    After(msg, n + |h|, d, rest);
  }

  lemma DataAt(msg: seq<byte>, s: Scan, t: seq<byte>, h: seq<byte>, d: seq<byte>, rest: seq<byte>)
    requires 0 <= s.n <= |msg| && msg[s.n..] == t + (h + (d + rest)) && t != [] && h != []
    requires ItemLength(t + (h + (d + rest))) == (45, |t|) && ItemLength(h + (d + rest)) == (|d|, |h|)
    ensures s.n < |msg| && Turn(msg, s) == Some(Scan(s.n + |t| + |h| + |d|, s.id, Some(d)))
  {
    After(msg, s.n, t, h + (d + rest));
    DataTurnAt(msg, s, s.n + |t|, h, d, rest);
  }

  lemma AbsorbData(s: Scan, e: Entry)
    requires e.Msg? && Complete(e)
    ensures Absorb(s, e) == Scan(s.n + |e.tag| + |e.head| + |e.data|, s.id, Some(e.data))
    ensures Int64(HeadValue(e.tag)) == 45 && Int64(HeadValue(e.head)) == |e.data|
  {}

  lemma TurnData(msg: seq<byte>, s: Scan, e: Entry, rest: seq<byte>)
    requires e.Msg? && Complete(e) && 0 <= s.n <= |msg| && msg[s.n..] == e.tag + (e.head + (e.data + rest))
    ensures s.n < |msg| && Turn(msg, s) == Some(Absorb(s, e))
  {
    ReadHead(e.tag, e.head + (e.data + rest));
    ReadHead(e.head, e.data + rest);
    AbsorbData(s, e);
    DataAt(msg, s, e.tag, e.head, e.data, rest);
  }

  lemma TurnOther(msg: seq<byte>, s: Scan, e: Entry, rest: seq<byte>)
    requires e.Other? && Complete(e) && 0 <= s.n <= |msg| && msg[s.n..] == e.tag + rest
    ensures s.n < |msg| && Turn(msg, s) == Some(Absorb(s, e))
  {
    TurnAtTag(msg, s, e.tag, rest);
  }

  lemma EntryTurn(msg: seq<byte>, s: Scan, e: Entry, rest: seq<byte>)
    requires Complete(e) && 0 <= s.n <= |msg| && msg[s.n..] == EntryBytes(e) + rest
    ensures s.n < |msg| && Turn(msg, s) == Some(Absorb(s, e))
  {
    match e
    case Id(tag, head) =>
      Regroup(tag, head, rest);
      TurnId(msg, s, e, rest);
    case Msg(tag, head, data) =>
      Regroup(tag, head + data, rest);
      Regroup(head, data, rest);
      TurnData(msg, s, e, rest);
    case Other(_) =>
      TurnOther(msg, s, e, rest);
  }

  lemma EntryFirst(e: Entry)
    requires Complete(e)
    ensures EntryBytes(e) != [] && EntryBytes(e)[0] != BREAK
  {
    ReadHead(e.tag, []);
    assert EntryBytes(e)[0] == e.tag[0];
  }

  lemma GoingAt(msg: seq<byte>, s: Scan, p: seq<byte>, rest: seq<byte>)
    requires 0 <= s.n <= |msg| && msg[s.n..] == p + rest && p != [] && p[0] != BREAK && rest != []
    ensures Going(msg, s) && s.n + |p| <= |msg| && msg[s.n + |p|..] == rest
  {
    After(msg, s.n, p, rest);
    assert |msg| - s.n == |p| + |rest|;
    assert msg[s.n] == msg[s.n..][0] == p[0];
  }

  lemma EntryGoing(msg: seq<byte>, s: Scan, e: Entry, rest: seq<byte>)
    requires Complete(e) && 0 <= s.n <= |msg| && msg[s.n..] == EntryBytes(e) + rest && rest != []
    ensures Going(msg, s) && s.n < Absorb(s, e).n <= |msg| && msg[Absorb(s, e).n..] == rest
  {
    EntryFirst(e);
    GoingAt(msg, s, EntryBytes(e), rest);
  }

  /** One complete entry is one turn. */
  lemma TurnEntry(msg: seq<byte>, s: Scan, e: Entry, rest: seq<byte>)
    requires Complete(e) && 0 <= s.n <= |msg| && msg[s.n..] == EntryBytes(e) + rest && rest != []
    ensures Going(msg, s) && Turn(msg, s) == Some(Absorb(s, e)) && s.n < Absorb(s, e).n <= |msg|
    ensures msg[Absorb(s, e).n..] == rest
  {
    EntryGoing(msg, s, e, rest);
    EntryTurn(msg, s, e, rest);
  }

  lemma {:induction false} LoopEntries(msg: seq<byte>, s: Scan, es: seq<Entry>)
    requires (forall e | e in es :: Complete(e)) && 0 <= s.n <= |msg| && msg[s.n..] == Entries(es) + [BREAK]
    ensures Loop(msg, s) == Finish(msg, AbsorbAll(s, es)) && AbsorbAll(s, es).n == |msg| - 1
    decreases |es|
  {
    if es == [] {
      assert msg[s.n..] == [BREAK];
    } else {
      var rest := Entries(es[1..]) + [BREAK];
      assert msg[s.n..] == EntryBytes(es[0]) + rest;
      TurnEntry(msg, s, es[0], rest);
      LoopEntries(msg, Absorb(s, es[0]), es[1..]);
    }
  }

  /** The last id among the entries, 0 if there is none. */
  function LastId(es: seq<Entry>): Word
    requires forall e | e in es :: Complete(e)
  {
    if es == [] then 0
    else
      var l := es[|es|-1];
      assert l in es && Complete(l);
      if l.Id? then HeadValue(l.head) else LastId(es[..|es|-1])
  }

  /** The last data among the entries; empty data is data. */
  function LastData(es: seq<Entry>): Option<seq<byte>> {
    if es == [] then None else if es[|es|-1].Msg? then Some(es[|es|-1].data) else LastData(es[..|es|-1])
  }

  lemma {:induction false} AbsorbSnoc(s: Scan, es: seq<Entry>, e: Entry)
    requires (forall x | x in es :: Complete(x)) && Complete(e)
    ensures AbsorbAll(s, es + [e]) == Absorb(AbsorbAll(s, es), e)
    decreases |es|
  {
    if es == [] {
      assert es + [e] == [e];
      assert AbsorbAll(Absorb(s, e), [e][1..]) == Absorb(s, e);
    } else {
      assert (es + [e])[1..] == es[1..] + [e];
      AbsorbSnoc(Absorb(s, es[0]), es[1..], e);
    }
  }

  lemma {:induction false} AbsorbsLast(n: int, es: seq<Entry>)
    requires forall e | e in es :: Complete(e)
    ensures var t := AbsorbAll(Scan(n, 0, None), es); t.id == Int64(LastId(es)) && t.data == LastData(es)
    decreases |es|
  {
    if es != [] {
      var h, l := es[..|es|-1], es[|es|-1];
      assert es == h + [l];
      AbsorbsLast(n, h);
      AbsorbSnoc(Scan(n, 0, None), h, l);
    }
  }

  /** For any number of complete entries in any order, their heads in shortest form or not, unmessage
      ends with the last id and the last data: a message when the id is not zero and data was present,
      invalid otherwise. */
  lemma CompleteMap(es: seq<Entry>)
    requires forall e | e in es :: Complete(e)
    ensures Unmessage([MAP_START] + Entries(es) + [BREAK])
         == if LastId(es) != 0 && LastData(es).Some? then Message(BinMessage(LastId(es), LastData(es).value))
            else Invalid
  {
    var msg := [MAP_START] + Entries(es) + [BREAK];
    assert msg[1..] == Entries(es) + [BREAK];
    LoopEntries(msg, Scan(1, 0, None), es);
    AbsorbsLast(1, es);
    Int64Inverse(LastId(es));
  }

  /** Entry `i` is the last id. */
  ghost predicate LastIdAt(es: seq<Entry>, i: nat) {
    i < |es| && es[i].Id? && Complete(es[i]) && forall k | i < k < |es| :: !es[k].Id?
  }

  /** Entry `i` is the last data. */
  ghost predicate LastDataAt(es: seq<Entry>, i: nat) {
    i < |es| && es[i].Msg? && forall k | i < k < |es| :: !es[k].Msg?
  }

  lemma {:induction false} LastIdFound(es: seq<Entry>, i: nat)
    requires (forall e | e in es :: Complete(e)) && LastIdAt(es, i)
    ensures LastId(es) == HeadValue(es[i].head)
    decreases es
  {
    assert es[|es|-1] in es;
    if i < |es| - 1 { LastIdFound(es[..|es|-1], i); }
  }

  lemma {:induction false} LastDataFound(es: seq<Entry>, i: nat)
    requires LastDataAt(es, i)
    ensures LastData(es) == Some(es[i].data)
    decreases es
  {
    if i < |es| - 1 { LastDataFound(es[..|es|-1], i); }
  }

  lemma {:induction false} NoneFound(es: seq<Entry>)
    requires forall e | e in es :: Complete(e)
    ensures (forall e | e in es :: !e.Id?) ==> LastId(es) == 0
    ensures (forall e | e in es :: !e.Msg?) ==> LastData(es) == None
    decreases es
  {
    if es != [] {
      assert es == es[..|es|-1] + [es[|es|-1]];
      NoneFound(es[..|es|-1]);
    }
  }

  /** The bytes of a map with these entries. */
  function MapOf(es: seq<Entry>): seq<byte> { [MAP_START] + Entries(es) + [BREAK] }

  /** The same by position: of several ids the last one counts, of several data the last one, whatever
      stands between; and a map with no id, or with no data, is no message. */
  lemma LastEntriesCount(es: seq<Entry>, i: nat, j: nat)
    requires forall e | e in es :: Complete(e)
    ensures LastIdAt(es, i) && LastDataAt(es, j) && HeadValue(es[i].head) != 0 ==>
              Unmessage(MapOf(es)) == Message(BinMessage(HeadValue(es[i].head), es[j].data))
    ensures LastIdAt(es, i) && HeadValue(es[i].head) == 0 ==> Unmessage(MapOf(es)) == Invalid
    ensures (forall e | e in es :: !e.Id?) || (forall e | e in es :: !e.Msg?) ==> Unmessage(MapOf(es)) == Invalid
  {
    CompleteMap(es);
    NoneFound(es);
    if LastIdAt(es, i) { LastIdFound(es, i); }
    if LastDataAt(es, j) { LastDataFound(es, j); }
  }

  lemma TwoEntries(e: Entry, f: Entry)
    requires e.Id? && f.Msg? && Complete(e) && Complete(f)
    ensures Entries([e, f]) == EntryBytes(e) + EntryBytes(f)
    ensures LastId([e, f]) == HeadValue(e.head) && LastData([e, f]) == Some(f.data)
  {
    assert [e, f][1..] == [f] && [f][1..] == [] && [e, f][..1] == [e];
    assert Entries([f]) == EntryBytes(f) + [];
  }

  lemma HeadIsFull(major: nat, v: Word)
    requires major < 8
    ensures FullHead(Head(major, v)) && HeadValue(Head(major, v)) == v
  {
    ArgumentOfHead(major, v);
  }

  /** The two entries a sender writes. */
  lemma SenderEntries(id: Word, data: Data) returns (e: Entry, f: Entry)
    requires |data| < TWO63
    ensures e.Id? && f.Msg? && Complete(e) && Complete(f) && HeadValue(e.head) == id && f.data == data
    ensures EntryBytes(e) == Tag(TAG_ID) + Uint(id) && EntryBytes(f) == Tag(TAG_DATA) + Bstr(data)
  {
    e, f := Id(Tag(TAG_ID), Uint(id)), Msg(Tag(TAG_DATA), Head(2, |data|), data);
    HeadIsFull(6, TAG_ID);
    HeadIsFull(0, id);
    HeadIsFull(6, TAG_DATA);
    HeadIsFull(2, |data|);
  }

  /** The map a sender writes. */
  lemma HdrMapUnmessage(id: Word, data: Data)
    requires id != 0 && |data| < TWO63
    ensures Unmessage(HdrMap(id, data)) == Message(BinMessage(id, data))
  {
    var e, f := SenderEntries(id, data);
    CompleteMap([e, f]);
    TwoEntries(e, f);
    assert HdrMap(id, data) == [MAP_START] + (EntryBytes(e) + EntryBytes(f)) + [BREAK];
  }
}
