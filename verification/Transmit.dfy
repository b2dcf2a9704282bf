/**
  go_tx.go and the transmit half of tx.go as the code has them: callers copy their frame into a pooled
  command and queue it; doTx gathers commands into a batch, merges the batch into one buffer, writes
  it with one call, and answers or recycles every command.
*/
module Transmit {
  import opened Wire
  import opened Cbor
  import opened Commands

  lemma Grows(a: nat, b: nat, c: nat)
    ensures a <= b ==> a * c <= b * c
    ensures b == 0 ==> b * c == 0
  {
    if a < b { OneMore(a, b, c); }
  }

  lemma OneMore(a: nat, b: nat, c: nat)
    requires a < b
    ensures a * c + c <= b * c
  {
    assert (a + 1) * c == a * c + c;
    assert (a + 1) * c <= b * c;
  }

  /** How many commands carry a packet at all; only those are counted as transmitted. */
  function NonEmpty(q: seq<Cmd>): nat {
    if q == [] then 0 else NonEmpty(q[..|q|-1]) + if q[|q|-1].len > 0 then 1 else 0
  }

  /** Where the commands with a packet stand. */
  function Filled(q: seq<Cmd>): set<int> { set i | 0 <= i < |q| && q[i].len > 0 }

  /** nTx counts the commands with a packet. */
  lemma {:induction false} NonEmptyCounts(q: seq<Cmd>)
    ensures NonEmpty(q) == |Filled(q)|
    decreases q
  {
    if q != [] {
      var h, l := q[..|q|-1], q[|q|-1];
      NonEmptyCounts(h);
      forall i ensures i in Filled(q) <==> i in Filled(h) || (i == |h| && l.len > 0) {
        if 0 <= i < |h| { assert q[i] == h[i]; }
      }
      if l.len > 0 { assert Filled(q) == Filled(h) + {|h|}; } else { assert Filled(q) == Filled(h); }
    }
  }

  /** No command occurs twice. */
  ghost predicate Distinct(q: seq<Cmd>) {
    forall i, j | 0 <= i < |q| && 0 <= j < |q| && i != j :: q[i].id != q[j].id
  }

  ghost predicate Elsewhere(q: seq<Cmd>, r: seq<Cmd>) { forall c, d | c in q && d in r :: d.id != c.id }

  lemma {:induction false} OnceEach(q: seq<Cmd>)
    requires forall x: Id :: Occ(Ids(q), x) <= 1
    ensures Distinct(q)
    decreases q
  {
    if q != [] {
      var h, l := q[..|q|-1], q[|q|-1];
      assert forall x: Id :: Occ(Ids(q), x) == Occ(Ids(h), x) + if x == l.id then 1 else 0 by {
        assert Ids(q)[..|q|-1] == Ids(h);
      }
      OnceEach(h);
      forall i | 0 <= i < |q| - 1 ensures q[i].id != l.id {
        if q[i].id == l.id { assert q[i] == h[i]; OccPositive(h, h[i]); }
      }
      assert forall i | 0 <= i < |q| - 1 :: h[i] == q[i];
    }
  }

  lemma {:induction false} SyncsIn(q: seq<Cmd>)
    ensures forall c | c in Syncs(q) :: c in q && !c.async
    decreases q
  {
    if q != [] {
      SyncsIn(q[..|q|-1]);
      assert q == q[..|q|-1] + [q[|q|-1]];
    }
  }

  /** A command lies in one place of one queue only. */
  lemma BatchOnce(s: Places)
    requires forall x: Id :: Total(s, x) <= 1
    ensures Distinct(s.batch) && Elsewhere(s.batch, s.replies)
  {
    forall x: Id ensures Occ(Ids(s.batch), x) <= 1 { assert Total(s, x) <= 1; }
    OnceEach(s.batch);
    forall c, d | c in s.batch && d in s.replies ensures d.id != c.id { NotInBoth(s, c, d); }
  }

  lemma NotInBoth(s: Places, c: Cmd, d: Cmd)
    requires c in s.batch && d in s.replies && Total(s, c.id) <= 1
    ensures d.id != c.id
  {
    OccPositive(s.batch, c);
    OccPositive(s.replies, d);
  }

  /** A field of the commands, set to one value for every command of a queue. */
  function Told<V>(m: map<Id, V>, q: seq<Cmd>, v: V): map<Id, V> {
    if q == [] then m else Told(m, q[..|q|-1], v)[q[|q|-1].id := v]
  }

  /** arg.n, command by command. */
  function Sized(ns: map<Id, nat>, q: seq<Cmd>): map<Id, nat> {
    if q == [] then ns else Sized(ns, q[..|q|-1])[q[|q|-1].id := q[|q|-1].len]
  }

  /** What one write takes of the merged batch, and whether it counts as failed. */
  function Taken(bytes: seq<byte>, room: nat): seq<byte> { if |bytes| <= room then bytes else bytes[..room] }

  predicate Failed(bytes: seq<byte>, room: nat, fails: bool) { bytes != [] && (room < |bytes| || fails) }

  lemma ToldSnoc<V>(m: map<Id, V>, h: seq<Cmd>, l: Cmd, v: V)
    ensures Told(m, h + [l], v) == Told(m, h, v)[l.id := v]
  {
    assert (h + [l])[..|h|] == h;
  }

  lemma SizedSnoc(ns: map<Id, nat>, h: seq<Cmd>, l: Cmd)
    ensures Sized(ns, h + [l]) == Sized(ns, h)[l.id := l.len]
  {
    assert (h + [l])[..|h|] == h;
  }

  lemma {:induction false} ToldAll<V>(m: map<Id, V>, q: seq<Cmd>, v: V)
    ensures forall c | c in q :: c.id in Told(m, q, v) && Told(m, q, v)[c.id] == v
    decreases q
  {
    if q != [] {
      var h := q[..|q|-1];
      ToldAll(m, h, v);
      assert q == h + [q[|q|-1]];
    }
  }

  lemma {:induction false} SizedAll(ns: map<Id, nat>, q: seq<Cmd>)
    requires Distinct(q)
    ensures forall c | c in q :: c.id in Sized(ns, q) && Sized(ns, q)[c.id] == c.len
    decreases q
  {
    if q != [] {
      var h := q[..|q|-1];
      SizedAll(ns, h);
      assert q == h + [q[|q|-1]];
    }
  }

  lemma {:induction false} ToldOthers<V>(m: map<Id, V>, q: seq<Cmd>, v: V, id: Id)
    requires id in m && forall c | c in q :: c.id != id
    ensures id in Told(m, q, v) && Told(m, q, v)[id] == m[id]
    decreases q
  {
    if q != [] {
      assert q[|q|-1] in q && forall c | c in q[..|q|-1] :: c in q;
      ToldOthers(m, q[..|q|-1], v, id);
    }
  }

  lemma {:induction false} SizedOthers(ns: map<Id, nat>, q: seq<Cmd>, id: Id)
    requires id in ns && forall c | c in q :: c.id != id
    ensures id in Sized(ns, q) && Sized(ns, q)[id] == ns[id]
    decreases q
  {
    if q != [] {
      assert q[|q|-1] in q && forall c | c in q[..|q|-1] :: c in q;
      SizedOthers(ns, q[..|q|-1], id);
    }
  }

  /** The callers that have an answer find the length of their packet. */
  predicate Answered(replies: seq<Cmd>, ns: map<Id, nat>) {
    forall c | c in replies :: c.id in ns && ns[c.id] == c.len
  }

  lemma AnsweredAfter(replies: seq<Cmd>, q: seq<Cmd>, ns: map<Id, nat>)
    requires Answered(replies, ns) && Distinct(q) && Elsewhere(q, replies)
    ensures Answered(replies + Syncs(q), Sized(ns, q))
  {
    SizedAll(ns, q);
    SyncsIn(q);
    forall c | c in replies ensures c.id in Sized(ns, q) && Sized(ns, q)[c.id] == c.len { SizedOthers(ns, q, c.id); }
  }

  lemma JoinedOnce(s: Places, size: nat, batchsize: nat, txcap: nat)
    requires Conserved(s, size, batchsize, txcap) && s.txch != []
    ensures Distinct(Joined(s).batch) && Elsewhere(Joined(s).batch, s.replies)
  {
    forall x: Id ensures Total(Joined(s), x) <= 1 { JoinedKeeps(s, x); }
    BatchOnce(Joined(s));
  }

  // ---- packets in the commands' buffers

  /** The contents of all packet buffers. */
  type Memory = seq<seq<byte>>

  predicate Fits(c: Cmd, mem: Memory) { c.id < |mem| && c.len <= |mem[c.id]| }

  function Packet(c: Cmd, mem: Memory): seq<byte>
    requires Fits(c, mem)
  {
    mem[c.id][..c.len]
  }

  predicate FitAll(q: seq<Cmd>, mem: Memory) { forall c | c in q :: Fits(c, mem) }

  /** The packets of a queue, end to end. */
  function Bytes(q: seq<Cmd>, mem: Memory): seq<byte>
    requires FitAll(q, mem)
  {
    if q == [] then [] else assert q[|q|-1] in q; Bytes(q[..|q|-1], mem) + Packet(q[|q|-1], mem)
  }

  lemma BytesSnoc(q: seq<Cmd>, c: Cmd, mem: Memory)
    requires FitAll(q, mem) && Fits(c, mem)
    ensures FitAll(q + [c], mem) && Bytes(q + [c], mem) == Bytes(q, mem) + Packet(c, mem)
  {
    assert (q + [c])[..|q|] == q;
  }

  lemma {:induction false} BytesConcat(q: seq<Cmd>, r: seq<Cmd>, mem: Memory)
    requires FitAll(q, mem) && FitAll(r, mem)
    ensures FitAll(q + r, mem) && Bytes(q + r, mem) == Bytes(q, mem) + Bytes(r, mem)
    decreases r
  {
    if r == [] {
      assert q + r == q;
    } else {
      var h, l := r[..|r|-1], r[|r|-1];
      assert l in r && r == h + [l] && q + r == (q + h) + [l];
      BytesConcat(q, h, mem);
      BytesSnoc(h, l, mem);
      BytesSnoc(q + h, l, mem);
    }
  }

  lemma BytesFirst(q: seq<Cmd>, mem: Memory)
    requires FitAll(q, mem) && q != []
    ensures Fits(q[0], mem) && FitAll(q[1..], mem) && Bytes(q, mem) == Packet(q[0], mem) + Bytes(q[1..], mem)
  {
    assert q == [q[0]] + q[1..] && [q[0]] == [] + [q[0]];
    BytesConcat([q[0]], q[1..], mem);
    BytesSnoc([], q[0], mem);
  }

  /** Buffers of other commands may change. */
  lemma {:induction false} BytesOthers(q: seq<Cmd>, mem: Memory, id: Id, b: seq<byte>)
    requires FitAll(q, mem) && id < |mem| && forall c | c in q :: c.id != id
    ensures FitAll(q, mem[id := b]) && Bytes(q, mem[id := b]) == Bytes(q, mem)
    decreases q
  {
    if q != [] {
      assert q[|q|-1] in q && forall c | c in q[..|q|-1] :: c in q;
      BytesOthers(q[..|q|-1], mem, id, b);
    }
  }

  lemma {:induction false} BytesBound(q: seq<Cmd>, mem: Memory, most: nat)
    requires FitAll(q, mem) && forall b | b in mem :: |b| <= most
    ensures |Bytes(q, mem)| <= |q| * most
    decreases q
  {
    if q != [] {
      assert q[|q|-1] in q && mem[q[|q|-1].id] in mem;
      BytesBound(q[..|q|-1], mem, most);
      OneMore(|q| - 1, |q|, most);
    }
  }

  /** What the merge loop leaves in a buffer of `cap` bytes: copy cuts off what does not fit. */
  function Merged(q: seq<Cmd>, mem: Memory, cap: nat): (r: seq<byte>)
    requires FitAll(q, mem)
    ensures |r| <= cap
  {
    if q == [] then []
    else
      assert q[|q|-1] in q;
      var m, p := Merged(q[..|q|-1], mem, cap), Packet(q[|q|-1], mem);
      m + if |p| <= cap - |m| then p else p[..cap - |m|]
  }

  lemma MergedSnoc(q: seq<Cmd>, c: Cmd, mem: Memory, cap: nat)
    requires FitAll(q, mem) && Fits(c, mem)
    ensures var m, p := Merged(q, mem, cap), Packet(c, mem);
            FitAll(q + [c], mem) && Merged(q + [c], mem, cap) == m + if |p| <= cap - |m| then p else p[..cap - |m|]
  {
    assert (q + [c])[..|q|] == q;
  }

  /** One more turn of the merge loop. */
  lemma MergedNext(q: seq<Cmd>, i: nat, mem: Memory, cap: nat)
    requires i < |q| && FitAll(q, mem)
    ensures Fits(q[i], mem) && FitAll(q[..i], mem) && FitAll(q[..i + 1], mem)
    ensures var m, p := Merged(q[..i], mem, cap), Packet(q[i], mem);
            Merged(q[..i + 1], mem, cap) == m + if |p| <= cap - |m| then p else p[..cap - |m|]
    ensures NonEmpty(q[..i + 1]) == NonEmpty(q[..i]) + if q[i].len > 0 then 1 else 0
  {
    assert q[i] in q && forall c | c in q[..i] :: c in q;
    assert q[..i + 1] == q[..i] + [q[i]] && q[..i + 1][..i] == q[..i];
    MergedSnoc(q[..i], q[i], mem, cap);
  }

  /** Merging loses nothing exactly when the packets fit the buffer together. */
  lemma {:induction false} MergeIsExact(q: seq<Cmd>, mem: Memory, cap: nat)
    requires FitAll(q, mem)
    ensures Merged(q, mem, cap) == (if |Bytes(q, mem)| <= cap then Bytes(q, mem) else Bytes(q, mem)[..cap])
    ensures Merged(q, mem, cap) == Bytes(q, mem) <==> |Bytes(q, mem)| <= cap
    decreases q
  {
    if q != [] {
      assert q[|q|-1] in q && forall c | c in q[..|q|-1] :: c in q;
      MergeIsExact(q[..|q|-1], mem, cap);
    }
  }

  /** A batch never overflows the write buffer, whatever its packets, unless the batch size is zero;
      then doTx still gathers one command, and nothing of it is written. */
  lemma MergeFits(q: seq<Cmd>, mem: Memory, batchsize: nat, most: nat)
    requires FitAll(q, mem) && forall b | b in mem :: |b| <= most
    ensures |q| <= batchsize ==> Merged(q, mem, batchsize * most) == Bytes(q, mem)
    ensures batchsize == 0 ==> Merged(q, mem, batchsize * most) == []
  {
    BytesBound(q, mem, most);
    Grows(|q|, batchsize, most);
    MergeIsExact(q, mem, batchsize * most);
  }

  // ---- order

  ghost predicate AllFit(s: Places, mem: Memory) {
    FitAll(s.calling, mem) && FitAll(s.txch, mem) && FitAll(s.batch, mem) && FitAll(s.replies, mem)
  }

  /** What has been put in txch is what was written and what still waits, in that order. */
  ghost predicate InOrder(s: Places, mem: Memory, sent: seq<byte>, written: seq<byte>) {
    AllFit(s, mem) && sent == written + Bytes(s.batch, mem) + Bytes(s.txch, mem)
  }

  lemma TakeInOrder(s: Places, mem: Memory, sent: seq<byte>, written: seq<byte>, b: seq<byte>, len: nat, flush: bool,
                    async: bool, size: nat, batchsize: nat, txcap: nat)
    requires Conserved(s, size, batchsize, txcap) && s.pool != [] && |mem| == size && len <= |b|
    requires AllFit(s, mem)
    ensures s.pool[0] < size
    ensures var t, mem' := Do(s, Take(len, flush, async), batchsize, txcap), mem[s.pool[0] := b];
            AllFit(t, mem') && (InOrder(s, mem, sent, written) ==> InOrder(t, mem', sent, written))
  {
    PooledOnly(s, size, batchsize, txcap);
    BytesOthers(s.calling, mem, s.pool[0], b);
    BytesOthers(s.txch, mem, s.pool[0], b);
    BytesOthers(s.batch, mem, s.pool[0], b);
    BytesOthers(s.replies, mem, s.pool[0], b);
    BytesSnoc(s.calling, Cmd(s.pool[0], len, flush, async), mem[s.pool[0] := b]);
  }

  lemma SendInOrder(s: Places, mem: Memory, sent: seq<byte>, written: seq<byte>, i: nat, batchsize: nat, txcap: nat)
    requires AllFit(s, mem) && Enabled(s, Send(i), txcap)
    ensures Fits(s.calling[i], mem)
    ensures var t := Do(s, Send(i), batchsize, txcap);
            AllFit(t, mem)
            && (InOrder(s, mem, sent, written) ==> InOrder(t, mem, sent + Packet(s.calling[i], mem), written))
  {
    assert s.calling[i] in s.calling;
    BytesSnoc(s.txch, s.calling[i], mem);
  }

  lemma JoinInOrder(s: Places, mem: Memory, sent: seq<byte>, written: seq<byte>)
    requires AllFit(s, mem) && s.txch != []
    ensures AllFit(Joined(s), mem) && (InOrder(s, mem, sent, written) ==> InOrder(Joined(s), mem, sent, written))
    ensures Fits(s.txch[0], mem) && Bytes(Joined(s).batch, mem) == Bytes(s.batch, mem) + Packet(s.txch[0], mem)
  {
    BytesFirst(s.txch, mem);
    BytesSnoc(s.batch, s.txch[0], mem);
  }

  lemma FlushInOrder(s: Places, mem: Memory, sent: seq<byte>, written: seq<byte>)
    requires AllFit(s, mem)
    ensures AllFit(Drained(s), mem)
    ensures InOrder(s, mem, sent, written) ==> InOrder(Drained(s), mem, sent, written + Bytes(s.batch, mem))
  {
    SyncsIn(s.batch);
  }

  // ---- outcomes

  /** One flush: the merged batch, where it went, and whether the write succeeded. */
  datatype Flushed = Flushed(at: nat, bytes: seq<byte>, ok: bool)

  ghost predicate StandsAt(p: seq<byte>, bytes: seq<byte>, i: nat) { i + |p| <= |bytes| && bytes[i..i + |p|] == p }

  /** The bytes of the whole batch stand in what the connection has taken. */
  ghost predicate Stands(w: Flushed, written: seq<byte>) { StandsAt(w.bytes, written, w.at) }

  ghost predicate Within(p: seq<byte>, bytes: seq<byte>) { exists i: nat :: StandsAt(p, bytes, i) }

  ghost predicate AllStand(writes: seq<Flushed>, written: seq<byte>) {
    forall k | 0 <= k < |writes| && writes[k].ok :: Stands(writes[k], written)
  }

  /** The answer of `c` is the outcome of the flush that its own packet was part of. */
  ghost predicate OwnOutcome(c: Cmd, errs: map<Id, bool>, fate: map<Id, nat>, writes: seq<Flushed>, mem: Memory) {
    && Fits(c, mem) && c.id in errs && c.id in fate && fate[c.id] < |writes|
    && errs[c.id] == !writes[fate[c.id]].ok && Within(Packet(c, mem), writes[fate[c.id]].bytes)
  }

  ghost predicate Outcomes(q: seq<Cmd>, errs: map<Id, bool>, fate: map<Id, nat>, writes: seq<Flushed>, mem: Memory) {
    (forall c | c in q :: OwnOutcome(c, errs, fate, writes, mem)) == true
  }

  lemma PacketWithin(q: seq<Cmd>, c: Cmd, mem: Memory)
    requires FitAll(q, mem) && c in q
    ensures Fits(c, mem) && Within(Packet(c, mem), Bytes(q, mem))
  {
    var i :| 0 <= i < |q| && q[i] == c;
    var a, b := q[..i], q[i + 1..];
    assert q == (a + [c]) + b;
    BytesSnoc(a, c, mem);
    BytesConcat(a + [c], b, mem);
    assert StandsAt(Packet(c, mem), Bytes(q, mem), |Bytes(a, mem)|);
  }

  lemma AllStandAfter(writes: seq<Flushed>, written: seq<byte>, bytes: seq<byte>, room: nat, fails: bool)
    requires AllStand(writes, written)
    ensures AllStand(writes + [Flushed(|written|, bytes, !Failed(bytes, room, fails))], written + Taken(bytes, room))
  {
    var now := written + Taken(bytes, room);
    forall k | 0 <= k < |writes| && writes[k].ok ensures Stands(writes[k], now) {
      var w := writes[k];
      assert now[w.at..w.at + |w.bytes|] == written[w.at..w.at + |w.bytes|];
    }
  }

  lemma OutcomeStays(c: Cmd, q: seq<Cmd>, errs: map<Id, bool>, fate: map<Id, nat>, writes: seq<Flushed>, mem: Memory,
                     w: Flushed)
    requires OwnOutcome(c, errs, fate, writes, mem) && forall d | d in q :: d.id != c.id
    ensures OwnOutcome(c, Told(errs, q, !w.ok), Told<nat>(fate, q, |writes|), writes + [w], mem)
    ensures Told(errs, q, !w.ok)[c.id] == errs[c.id] && Told<nat>(fate, q, |writes|)[c.id] == fate[c.id]
  {
    ToldOthers(errs, q, !w.ok, c.id);
    ToldOthers<nat>(fate, q, |writes|, c.id);
  }

  /** A flush tells its own batch how it went, and changes nobody else's answer. */
  lemma OutcomesAfter(replies: seq<Cmd>, q: seq<Cmd>, errs: map<Id, bool>, fate: map<Id, nat>, writes: seq<Flushed>,
                      mem: Memory, w: Flushed)
    requires Outcomes(replies, errs, fate, writes, mem) && Elsewhere(q, replies)
    requires FitAll(q, mem) && w.bytes == Bytes(q, mem)
    ensures Outcomes(replies + Syncs(q), Told(errs, q, !w.ok), Told<nat>(fate, q, |writes|), writes + [w], mem)
    ensures Outcomes(q, Told(errs, q, !w.ok), Told<nat>(fate, q, |writes|), writes + [w], mem)
    ensures forall c | c in q :: c.id in Told<nat>(fate, q, |writes|) && Told<nat>(fate, q, |writes|)[c.id] == |writes|
  {
    var errs', fate' := Told(errs, q, !w.ok), Told<nat>(fate, q, |writes|);
    ToldAll(errs, q, !w.ok);
    ToldAll<nat>(fate, q, |writes|);
    SyncsIn(q);
    forall c | c in q ensures OwnOutcome(c, errs', fate', writes + [w], mem) { PacketWithin(q, c, mem); }
    forall c | c in replies ensures OwnOutcome(c, errs', fate', writes + [w], mem) {
      OutcomeStays(c, q, errs, fate, writes, mem, w);
    }
  }

  lemma OutcomesOthers(replies: seq<Cmd>, errs: map<Id, bool>, fate: map<Id, nat>, writes: seq<Flushed>, mem: Memory,
                       id: Id, b: seq<byte>)
    requires Outcomes(replies, errs, fate, writes, mem) && id < |mem| && forall c | c in replies :: c.id != id
    ensures Outcomes(replies, errs, fate, writes, mem[id := b])
  {
    forall c | c in replies ensures OwnOutcome(c, errs, fate, writes, mem[id := b]) {
      assert OwnOutcome(c, errs, fate, writes, mem) && Packet(c, mem[id := b]) == Packet(c, mem);
    }
  }

  lemma OutcomesLess(replies: seq<Cmd>, i: nat, errs: map<Id, bool>, fate: map<Id, nat>, writes: seq<Flushed>,
                     mem: Memory)
    requires Outcomes(replies, errs, fate, writes, mem) && i < |replies|
    ensures OwnOutcome(replies[i], errs, fate, writes, mem) && Outcomes(Without(replies, i), errs, fate, writes, mem)
  {}

  /** What a flush touches besides the queues. */
  datatype Tally = Tally(written: seq<byte>, nTx: nat, nTxbyte: nat, nFlushes: nat, broken: bool,
                         errs: map<Id, bool>, fate: map<Id, nat>, writes: seq<Flushed>)

  /** The batch `q`, merged into `bytes`, was flushed while `replies` were waiting for their callers. */
  ghost predicate Shipped(was: Tally, now: Tally, q: seq<Cmd>, bytes: seq<byte>, room: nat, fails: bool,
                          replies: seq<Cmd>)
  {
    ShippedParts(was, now, q, bytes, room, fails, replies) == true
  }

  ghost predicate ShippedParts(was: Tally, now: Tally, q: seq<Cmd>, bytes: seq<byte>, room: nat, fails: bool,
                               replies: seq<Cmd>)
  {
    && now.written == was.written + Taken(bytes, room) && now.nTxbyte == was.nTxbyte + |Taken(bytes, room)|
    && now.nTx == was.nTx + NonEmpty(q) && now.nFlushes == was.nFlushes + 1
    && now.broken == (was.broken || Failed(bytes, room, fails))
    && now.writes == was.writes + [Flushed(|was.written|, bytes, !Failed(bytes, room, fails))]
    && (forall c | c in q :: c.id in now.errs && now.errs[c.id] == Failed(bytes, room, fails)
                             && c.id in now.fate && now.fate[c.id] == |was.writes|)
    && forall d | d in replies :: d.id in was.errs && d.id in now.errs && now.errs[d.id] == was.errs[d.id]
                                  && d.id in was.fate && d.id in now.fate && now.fate[d.id] == was.fate[d.id]
  }

  /** A write that is taken whole and reports no error: every byte of the batch is behind what was
      written before, no command has an error, and nothing counts as broken that did not before. */
  ghost predicate Succeeded(was: Tally, now: Tally, q: seq<Cmd>, bytes: seq<byte>) {
    && now.written == was.written + bytes && now.broken == was.broken
    && now.nTxbyte == was.nTxbyte + |bytes| && now.nFlushes == was.nFlushes + 1
    && forall c | c in q :: c.id in now.errs && !now.errs[c.id]
  }

  /** A write that is cut short or reports an error: every command of the batch is told. */
  ghost predicate WentWrong(was: Tally, now: Tally, q: seq<Cmd>, bytes: seq<byte>, room: nat) {
    && was.written <= now.written <= was.written + bytes && |now.written| <= |was.written| + room
    && now.broken && now.nFlushes == was.nFlushes + 1
    && forall c | c in q :: c.id in now.errs && now.errs[c.id]
  }

  /** A flush succeeds if and only if there is room for all the bytes and the connection reports no
      error, or there are no bytes to write. */
  lemma SucceedsIff(was: Tally, now: Tally, q: seq<Cmd>, bytes: seq<byte>, room: nat, fails: bool, replies: seq<Cmd>)
    requires Shipped(was, now, q, bytes, room, fails, replies)
    ensures bytes == [] || (|bytes| <= room && !fails) ==> Succeeded(was, now, q, bytes)
    ensures !(bytes == [] || (|bytes| <= room && !fails)) ==> WentWrong(was, now, q, bytes, room)
  {}

  /** The same, computed. */
  ghost function AfterFlush(was: Tally, q: seq<Cmd>, bytes: seq<byte>, room: nat, fails: bool): Tally {
    var took, err := Taken(bytes, room), Failed(bytes, room, fails);
    Tally(was.written + took, was.nTx + NonEmpty(q), was.nTxbyte + |took|, was.nFlushes + 1, was.broken || err,
          Told(was.errs, q, err), Told<nat>(was.fate, q, |was.writes|),
          was.writes + [Flushed(|was.written|, bytes, !err)])
  }

  lemma ShippedNow(was: Tally, q: seq<Cmd>, room: nat, fails: bool, replies: seq<Cmd>, mem: Memory)
    requires FitAll(q, mem) && Outcomes(replies, was.errs, was.fate, was.writes, mem) && Elsewhere(q, replies)
    ensures Shipped(was, AfterFlush(was, q, Bytes(q, mem), room, fails), q, Bytes(q, mem), room, fails, replies)
  {
    var err := Failed(Bytes(q, mem), room, fails);
    ToldAll(was.errs, q, err);
    ToldAll<nat>(was.fate, q, |was.writes|);
    forall d | d in replies
      ensures d.id in was.errs && d.id in Told(was.errs, q, err) && Told(was.errs, q, err)[d.id] == was.errs[d.id]
      ensures d.id in was.fate && d.id in Told<nat>(was.fate, q, |was.writes|)
              && Told<nat>(was.fate, q, |was.writes|)[d.id] == was.fate[d.id]
    {
      assert OwnOutcome(d, was.errs, was.fate, was.writes, mem);
      ToldOthers(was.errs, q, err, d.id);
      ToldOthers<nat>(was.fate, q, |was.writes|, d.id);
    }
  }

  /** What holds between any two steps: unless a write went wrong, what was sent is what was written
      and what still waits, in order; the batch of every write that succeeded stands in what was
      written; and whoever has an answer has the one of its own batch. */
  ghost predicate Consistent(s: Places, mem: Memory, ns: map<Id, nat>, t: Tally, sent: seq<byte>) {
    (Answered(s.replies, ns) && AllFit(s, mem) && (!t.broken ==> InOrder(s, mem, sent, t.written))
     && AllStand(t.writes, t.written) && Outcomes(s.replies, t.errs, t.fate, t.writes, mem)) == true
  }

  lemma TakeKeeps(s: Places, mem: Memory, ns: map<Id, nat>, t: Tally, sent: seq<byte>, b: seq<byte>, len: nat,
                  flush: bool, async: bool, size: nat, batchsize: nat, txcap: nat)
    requires Consistent(s, mem, ns, t, sent) && Conserved(s, size, batchsize, txcap)
    requires s.pool != [] && |mem| == size && len <= |b|
    ensures s.pool[0] < size
    ensures Consistent(Do(s, Take(len, flush, async), batchsize, txcap), mem[s.pool[0] := b], ns, t, sent)
  {
    PooledOnly(s, size, batchsize, txcap);
    TakeInOrder(s, mem, sent, t.written, b, len, flush, async, size, batchsize, txcap);
    OutcomesOthers(s.replies, t.errs, t.fate, t.writes, mem, s.pool[0], b);
  }

  lemma SendKeeps(s: Places, mem: Memory, ns: map<Id, nat>, t: Tally, sent: seq<byte>, i: nat, batchsize: nat,
                  txcap: nat)
    requires Consistent(s, mem, ns, t, sent) && Enabled(s, Send(i), txcap)
    ensures Fits(s.calling[i], mem)
    ensures Consistent(Do(s, Send(i), batchsize, txcap), mem, ns, t, sent + Packet(s.calling[i], mem))
  {
    SendInOrder(s, mem, sent, t.written, i, batchsize, txcap);
  }

  lemma JoinKeeps(s: Places, mem: Memory, ns: map<Id, nat>, t: Tally, sent: seq<byte>)
    requires Consistent(s, mem, ns, t, sent) && s.txch != []
    ensures Consistent(Joined(s), mem, ns, t, sent) && FitAll(Joined(s).batch, mem)
    ensures FitAll(s.batch, mem) && Fits(s.txch[0], mem)
    ensures Bytes(Joined(s).batch, mem) == Bytes(s.batch, mem) + Packet(s.txch[0], mem)
  {
    JoinInOrder(s, mem, sent, t.written);
  }

  lemma FlushKeeps(s: Places, mem: Memory, ns: map<Id, nat>, t: Tally, sent: seq<byte>, room: nat, fails: bool)
    requires Consistent(s, mem, ns, t, sent) && Distinct(s.batch) && Elsewhere(s.batch, s.replies)
    ensures FitAll(s.batch, mem)
    ensures var now := AfterFlush(t, s.batch, Bytes(s.batch, mem), room, fails);
            && Consistent(Drained(s), mem, Sized(ns, s.batch), now, sent)
            && Shipped(t, now, s.batch, Bytes(s.batch, mem), room, fails, s.replies)
  {
    var bytes := Bytes(s.batch, mem);
    AnsweredAfter(s.replies, s.batch, ns);
    FlushInOrder(s, mem, sent, t.written);
    AllStandAfter(t.writes, t.written, bytes, room, fails);
    OutcomesAfter(s.replies, s.batch, t.errs, t.fate, t.writes, mem,
                  Flushed(|t.written|, bytes, !Failed(bytes, room, fails)));
    ShippedNow(t, s.batch, room, fails, s.replies, mem);
  }

  lemma ReturnKeeps(s: Places, mem: Memory, ns: map<Id, nat>, t: Tally, sent: seq<byte>, i: nat, batchsize: nat,
                    txcap: nat)
    requires Consistent(s, mem, ns, t, sent) && i < |s.replies|
    ensures Consistent(Do(s, Return(i), batchsize, txcap), mem, ns, t, sent)
    ensures var c := s.replies[i];
            && c.id in ns && ns[c.id] == c.len && OwnOutcome(c, t.errs, t.fate, t.writes, mem)
            && (!t.errs[c.id] ==> Stands(t.writes[t.fate[c.id]], t.written))
  {
    OutcomesLess(s.replies, i, t.errs, t.fate, t.writes, mem);
  }

  class Transmitter {
    const buffersize: nat
    const batchsize: nat
    const txcap: nat
    const bufs: seq<array<byte>>      // the packet buffer of each command
    const tcpwriteBuf: array<byte>

    var pool: seq<Id>
    var calling: seq<Cmd>
    var txch: seq<Cmd>
    var batch: seq<Cmd>
    var replies: seq<Cmd>
    var ns: map<Id, nat>              // arg.n and arg.err of each command
    var errs: map<Id, bool>

    var written: seq<byte>            // what the connection has taken
    var nTx: nat
    var nTxbyte: nat
    var nFlushes: nat
    ghost var sent: seq<byte>         // the packets put in txch so far, in that order
    ghost var broken: bool            // some write went wrong
    ghost var writes: seq<Flushed>    // every flush so far
    ghost var fate: map<Id, nat>      // the flush each command was last part of

    function State(): Places
      reads this
    {
      Places(pool, calling, txch, batch, replies)
    }

    ghost function Mem(): (mem: Memory)
      reads bufs
      ensures |mem| == |bufs| && forall i | 0 <= i < |bufs| :: mem[i] == bufs[i][..]
    {
      seq(|bufs|, i requires 0 <= i < |bufs| reads bufs => bufs[i][..])
    }

    ghost predicate Fixed() { FixedParts() == true }

    ghost predicate FixedParts() {
      && 1 <= batchsize && tcpwriteBuf.Length == batchsize * buffersize && tcpwriteBuf !in bufs
      && (forall b | b in bufs :: b.Length == buffersize)
      && forall i, j | 0 <= i < |bufs| && 0 <= j < |bufs| && i != j :: bufs[i] != bufs[j]
    }

    ghost predicate Valid()
      reads this, bufs
    {
      Sound() && Conserved(State(), |bufs|, batchsize, txcap)
    }

    ghost predicate Sound()
      reads this, bufs
    {
      Fixed() && Consistent(State(), Mem(), ns, Stats(), sent)
    }

    ghost function Stats(): Tally
      reads this
    {
      Tally(written, nTx, nTxbyte, nFlushes, broken, errs, fate, writes)
    }

    constructor (buffersize: nat, batchsize: nat, chansize: nat, streams: nat)
      requires 1 <= batchsize
      ensures Valid() && State() == Fresh(streams + batchsize) && txcap == chansize + batchsize
      ensures this.buffersize == buffersize && this.batchsize == batchsize && |bufs| == streams + batchsize
      ensures Stats() == Tally([], 0, 0, 0, false, map[], map[], []) && sent == []
    {
      var size := streams + batchsize;
      var made: seq<array<byte>> := [];
      for i := 0 to size
        invariant |made| == i
        invariant forall b | b in made :: fresh(b) && b.Length == buffersize
        invariant forall j, k | 0 <= j < i && 0 <= k < i && j != k :: made[j] != made[k]
      {
        var b := new byte[buffersize](_ => 0);
        made := made + [b];
      }
      var merge := new byte[batchsize * buffersize](_ => 0);
      this.buffersize, this.batchsize, txcap := buffersize, batchsize, chansize + batchsize;
      bufs, tcpwriteBuf := made, merge;
      pool, calling, txch, batch, replies := Numbers(size), [], [], [], [];
      ns, errs, written := map[], map[], [];
      nTx, nTxbyte, nFlushes := 0, 0, 0;
      sent, broken, writes, fate := [], false, [], map[];
      new;
      FreshConserved(size, batchsize, txcap);
    }

    /** The frame is copied into the command's own buffer; no other command's packet changes. */
    method Fill(id: Id, out: seq<byte>) returns (n: nat)
      requires Fixed() && id < |bufs|
      modifies bufs[id]
      ensures n == (if |out| <= buffersize then |out| else buffersize) && n <= |Mem()[id]|
      ensures Mem() == old(Mem())[id := Mem()[id]] && Mem()[id][..n] == out[..n]
    {
      assert bufs[id] in bufs;
      n := Copy(bufs[id], 0, out);
      forall i | 0 <= i < |bufs| && i != id ensures bufs[i][..] == old(bufs[i][..]) { assert bufs[i] != bufs[id]; }
      assert bufs[id][..n] == out[..n];
    }

    /** The start of tx and txasync: a command from the pool, filled in. */
    method Take(out: seq<byte>, flush: bool, async: bool) returns (c: Cmd)
      requires Valid() && pool != []
      modifies `pool, `calling, bufs
      ensures Valid() && Fits(c, Mem())
      ensures State() == Do(old(State()), Step.Take(c.len, flush, async), batchsize, txcap)
      ensures calling == old(calling) + [c]
      ensures c.id == old(pool[0]) && c.flush == flush && c.async == async
      ensures Packet(c, Mem()) == if |out| <= buffersize then out else out[..buffersize]
      ensures forall id | 0 <= id < |bufs| && id != c.id :: Mem()[id] == old(Mem()[id])
    {
      var id := pool[0];
      PooledOnly(State(), |bufs|, batchsize, txcap);
      ghost var mem := Mem();
      var n := Fill(id, out);
      c := Cmd(id, n, flush, async);
      TakeKeeps(State(), mem, ns, Stats(), sent, Mem()[id], n, flush, async, |bufs|, batchsize, txcap);
      StepConserves(State(), Step.Take(n, flush, async), |bufs|, batchsize, txcap);
      Pick(c);
    }

    /** The command at the front of the pool goes to its caller. */
    method Pick(c: Cmd)
      requires pool != [] && pool[0] == c.id
      modifies `pool, `calling
      ensures State() == Do(old(State()), Step.Take(c.len, c.flush, c.async), batchsize, txcap)
      ensures calling == old(calling) + [c]
    {
      pool, calling := pool[1..], calling + [c];
    }

    /** txch <- arg. */
    method Send(i: nat)
      requires Valid() && i < |calling| && |txch| < txcap
      modifies `calling, `txch, `sent
      ensures Valid() && State() == Do(old(State()), Step.Send(i), batchsize, txcap)
      ensures Fits(old(calling[i]), Mem()) && sent == old(sent) + Packet(old(calling[i]), Mem())
    {
      var c := calling[i];
      SendKeeps(State(), Mem(), ns, Stats(), sent, i, batchsize, txcap);
      StepConserves(State(), Step.Send(i), |bufs|, batchsize, txcap);
      Queue(i);
      sent := sent + Packet(c, Mem());
    }

    method Queue(i: nat)
      requires i < |calling| && |txch| < txcap
      modifies `calling, `txch
      ensures State() == Do(old(State()), Step.Send(i), batchsize, txcap)
    {
      calling, txch := Without(calling, i), txch + [calling[i]];
    }

    /** The end of tx: the caller reads its answer and gives the command back.  The answer is the
        outcome of the one flush its packet was part of, however many flushes came since: no error
        means that the whole of that batch stands in what the connection has taken. */
    method Return(i: nat) returns (n: nat, err: bool)
      requires Valid() && i < |replies|
      modifies `replies, `pool
      ensures Valid() && State() == Do(old(State()), Step.Return(i), batchsize, txcap)
      ensures var c := old(replies[i]);
              && n == c.len && c.id in fate && fate[c.id] < |writes| && Fits(c, Mem())
              && var w := writes[fate[c.id]];
              && err == !w.ok && Within(Packet(c, Mem()), w.bytes)
              && (!err ==> Stands(w, written))
    {
      ReturnKeeps(State(), Mem(), ns, Stats(), sent, i, batchsize, txcap);
      StepConserves(State(), Step.Return(i), |bufs|, batchsize, txcap);
      var c := replies[i];
      assert c in replies;
      n, err := ns[c.id], errs[c.id];
      GiveBack(i);
    }

    method GiveBack(i: nat)
      requires i < |replies|
      modifies `replies, `pool
      ensures State() == Do(old(State()), Step.Return(i), batchsize, txcap)
    {
      replies, pool := Without(replies, i), pool + [replies[i].id];
    }

    // ---- doTx

    method Append(c: Cmd, n: nat) returns (n': nat)
      requires Fixed() && Fits(c, Mem()) && n <= tcpwriteBuf.Length
      modifies `nTx, tcpwriteBuf
      ensures Mem() == old(Mem()) && n <= n' <= tcpwriteBuf.Length && nTx == old(nTx) + if c.len > 0 then 1 else 0
      ensures var p, room := Packet(c, Mem()), tcpwriteBuf.Length - n;
              tcpwriteBuf[..n'] == old(tcpwriteBuf[..n]) + if |p| <= room then p else p[..room]
    {
      n' := n;
      if c.len > 0 {
        var k := Copy(tcpwriteBuf, n, bufs[c.id][..c.len]);
        n' := n + k;
        nTx := nTx + 1;
      }
    }

    /** The batch merged into one buffer. */
    method Consolidate() returns (n: nat)
      requires Fixed() && FitAll(batch, Mem())
      modifies `nTx, tcpwriteBuf
      ensures Mem() == old(Mem()) && nTx == old(nTx) + NonEmpty(batch)
      ensures n <= tcpwriteBuf.Length && tcpwriteBuf[..n] == Merged(batch, Mem(), tcpwriteBuf.Length)
      ensures |batch| <= batchsize ==> tcpwriteBuf[..n] == Bytes(batch, Mem())
    {
      n := 0;
      ghost var mem := Mem();
      for i := 0 to |batch|
        invariant Mem() == mem && FitAll(batch[..i], mem)
        invariant n <= tcpwriteBuf.Length && tcpwriteBuf[..n] == Merged(batch[..i], mem, tcpwriteBuf.Length)
        invariant nTx == old(nTx) + NonEmpty(batch[..i])
      {
        MergedNext(batch, i, mem, tcpwriteBuf.Length);
        n := Append(batch[i], n);
      }
      assert batch[..|batch|] == batch;
      MergeFits(batch, mem, batchsize, buffersize);
    }

    /** conn.Write: it takes at most `room` bytes, and may report an error even so. */
    method Write(n: nat, room: nat, fails: bool) returns (m: nat, err: bool)
      requires n <= tcpwriteBuf.Length
      modifies `written
      ensures m == (if n <= room then n else room) && (err <==> m != n || fails)
      ensures written == old(written) + tcpwriteBuf[..m]
    {
      m := if n <= room then n else room;
      written := written + tcpwriteBuf[..m];
      err := m != n || fails;
    }

    /** Every command of the batch learns how the write went; asynchronous ones are recycled. */
    method Unblock(failed: bool)
      modifies `pool, `replies, `ns, `errs
      ensures pool == old(pool) + Asyncs(batch) && replies == old(replies) + Syncs(batch)
      ensures errs == Told(old(errs), batch, failed) && ns == Sized(old(ns), batch)
    {
      for i := 0 to |batch|
        invariant pool == old(pool) + Asyncs(batch[..i]) && replies == old(replies) + Syncs(batch[..i])
        invariant errs == Told(old(errs), batch[..i], failed) && ns == Sized(old(ns), batch[..i])
      {
        var c := batch[i];
        assert batch[..i + 1] == batch[..i] + [c];
        SplitSnoc(batch[..i], c);
        ToldSnoc(old(errs), batch[..i], c, failed);
        SizedSnoc(old(ns), batch[..i], c);
        ns, errs := ns[c.id := c.len], errs[c.id := failed];
        if c.async {
          Regroup(old(pool), Asyncs(batch[..i]), [c.id]);
          pool := pool + [c.id];
        } else {
          Regroup(old(replies), Syncs(batch[..i]), [c]);
          replies := replies + [c];
        }
      }
      assert batch[..|batch|] == batch;
    }

    /** The batch is answered and gone. */
    method Answer(failed: bool)
      modifies `pool, `replies, `ns, `errs, `batch
      ensures State() == Drained(old(State()))
      ensures errs == Told(old(errs), old(batch), failed) && ns == Sized(old(ns), old(batch))
    {
      Unblock(failed);
      batch := [];
    }

    /** The batch, merged, goes to the connection with one call. */
    method Ship(room: nat, fails: bool, ghost bytes: seq<byte>) returns (err: bool)
      requires Fixed() && FitAll(batch, Mem()) && |batch| <= batchsize && bytes == Bytes(batch, Mem())
      modifies `written, `nTx, `nTxbyte, tcpwriteBuf
      ensures Mem() == old(Mem()) && nTx == old(nTx) + NonEmpty(batch)
      ensures written == old(written) + Taken(bytes, room) && nTxbyte == old(nTxbyte) + |Taken(bytes, room)|
      ensures err == Failed(bytes, room, fails)
    {
      var n := Consolidate();
      var m := 0;
      err := false;
      if n > 0 { m, err := Write(n, room, fails); }
      nTxbyte := nTxbyte + m;
    }

    /** drainbuffers: `room` and `fails` say how the connection behaves. */
    method DrainBuffers(room: nat, fails: bool, ghost bytes: seq<byte>)
      requires Fixed() && FitAll(batch, Mem()) && |batch| <= batchsize && bytes == Bytes(batch, Mem())
      modifies `pool, `replies, `batch, `ns, `errs, `written, `nTx, `nTxbyte, `nFlushes, tcpwriteBuf
      ensures State() == Drained(old(State())) && Mem() == old(Mem())
      ensures nFlushes == old(nFlushes) + 1 && nTx == old(nTx) + NonEmpty(old(batch))
      ensures written == old(written) + Taken(bytes, room) && nTxbyte == old(nTxbyte) + |Taken(bytes, room)|
      ensures errs == Told(old(errs), old(batch), Failed(bytes, room, fails)) && ns == Sized(old(ns), old(batch))
    {
      nFlushes := nFlushes + 1;
      var err := Ship(room, fails, bytes);
      Answer(err);
    }

    /** History only. */
    ghost method Record(q: seq<Cmd>, bytes: seq<byte>, room: nat, fails: bool)
      modifies `broken, `fate, `writes
      ensures var now := AfterFlush(old(Stats()), q, bytes, room, fails);
              broken == now.broken && fate == now.fate && writes == now.writes
    {
      var err := Failed(bytes, room, fails);
      broken, fate, writes := broken || err, Told<nat>(fate, q, |writes|), writes + [Flushed(|written|, bytes, !err)];
    }

    /** The flush together with its history. */
    method DrainOnRecord(room: nat, fails: bool, ghost bytes: seq<byte>)
      requires Fixed() && FitAll(batch, Mem()) && |batch| <= batchsize && bytes == Bytes(batch, Mem())
      modifies `pool, `replies, `batch, `ns, `errs, `fate, `writes, `written, `nTx, `nTxbyte, `nFlushes, `broken
      modifies tcpwriteBuf
      ensures State() == Drained(old(State())) && Mem() == old(Mem()) && ns == Sized(old(ns), old(batch))
      ensures Stats() == AfterFlush(old(Stats()), old(batch), bytes, room, fails)
    {
      Record(batch, bytes, room, fails);
      DrainBuffers(room, fails, bytes);
    }

    /** The batch is written and its commands are released. */
    method Flush(room: nat, fails: bool)
      requires Sound() && |batch| <= batchsize && Distinct(batch) && Elsewhere(batch, replies) && FitAll(batch, Mem())
      modifies `pool, `replies, `batch, `ns, `errs, `fate, `writes, `written, `nTx, `nTxbyte, `nFlushes, `broken
      modifies tcpwriteBuf
      ensures Sound() && State() == Drained(old(State())) && Mem() == old(Mem())
      ensures Shipped(old(Stats()), Stats(), old(batch), old(Bytes(batch, Mem())), room, fails, old(replies))
    {
      ghost var bytes := Bytes(batch, Mem());
      FlushKeeps(State(), Mem(), ns, Stats(), sent, room, fails);
      DrainOnRecord(room, fails, bytes);
    }

    method Join()
      requires Valid() && txch != []
      modifies `txch, `batch
      ensures Sound() && State() == Joined(old(State())) && Mem() == old(Mem()) && Stats() == old(Stats())
    {
      JoinKeeps(State(), Mem(), ns, Stats(), sent);
      txch, batch := txch[1..], batch + [txch[0]];
    }

    /** One turn of doTx's loop: the next command joins the batch; a flush or a full batch is written.
        Callers that already have their answer keep it. */
    method Receive(room: nat, fails: bool)
      requires Valid() && txch != []
      modifies `pool, `txch, `replies, `batch, `ns, `errs, `fate, `writes, `written, `nTx, `nTxbyte, `nFlushes, `broken
      modifies tcpwriteBuf
      ensures Valid() && State() == Do(old(State()), Step.Receive, batchsize, txcap) && Mem() == old(Mem())
      ensures batch == [] <==> old(txch[0].flush) || old(|batch|) + 1 >= batchsize
      ensures batch != [] ==> batch == old(batch + [txch[0]]) && Stats() == old(Stats())
      ensures batch == [] ==>
                Shipped(old(Stats()), Stats(), old(batch + [txch[0]]),
                        old(Bytes(batch, Mem()) + Packet(txch[0], Mem())), room, fails, old(replies))
      ensures batch == [] && !fails && |old(Bytes(batch, Mem()) + Packet(txch[0], Mem()))| <= room ==>
                Succeeded(old(Stats()), Stats(), old(batch + [txch[0]]),
                          old(Bytes(batch, Mem()) + Packet(txch[0], Mem())))
    {
      FlushesIff(State(), batchsize, txcap);
      StepConserves(State(), Step.Receive, |bufs|, batchsize, txcap);
      JoinedOnce(State(), |bufs|, batchsize, txcap);
      JoinKeeps(State(), Mem(), ns, Stats(), sent);
      var flush := txch[0].flush;
      Join();
      if flush || |batch| >= batchsize {
        label Gathered:
        Flush(room, fails);
        SucceedsIff(old(Stats()), Stats(), old@Gathered(batch), old@Gathered(Bytes(batch, Mem())), room, fails,
                    old(replies));
      }
    }
  }
}
