/**
  setOpaqueRange and istagok of transport.go: which opaques a transport gets, and the two pools it
  fills at birth.
*/
module OpaqueRange {
  import opened Wire
  import opened Frames
  import Exchange
  import ExchangeTheorems
  import Commands

  /** istagok: the tags that are neither reserved here nor assigned elsewhere. */
  predicate IsTagOk(tag: nat) {
    if tag < 266 then false
    else if tag <= 1000 then true
    else if tag < 1004 then false
    else if tag <= 22097 then true
    else if tag == 22098 then false
    else if tag <= 55798 then true
    else if tag == 55799 then false
    else if tag <= 15309735 then true
    else false
  }

  const HOLES: set<nat> := {1001, 1002, 1003, 22098, 55799}

  /** An acceptable opaque is one of the opaque space that is not a hole; none of the tags that mean
      something in a frame is one. */
  lemma AcceptableIff(tag: nat)
    ensures IsTagOk(tag) <==> OPAQUE_START <= tag <= OPAQUE_END && tag !in HOLES
    ensures IsTagOk(tag) <==> 266 <= tag <= 15309735 && tag !in {1001, 1002, 1003, 22098, 55799}
    ensures IsTagOk(tag) ==> tag !in {6, 7, 8, TAG_MSG, TAG_ID, TAG_DATA, 46, 47, TAG_CBOR_PREFIX}
  {}

  /** The acceptable opaques of [start, end), in order. */
  function Acceptable(start: nat, end: nat): seq<nat>
    decreases end
  {
    if end <= start then [] else Acceptable(start, end - 1) + if IsTagOk(end - 1) then [end - 1] else []
  }

  ghost function HolesIn(start: nat, end: nat): set<nat> { set h | h in HOLES && start <= h < end }

  lemma CountSnoc(q: seq<nat>, x: nat, o: nat)
    ensures multiset(q + [x])[o] == multiset(q)[o] + if o == x then 1 else 0
  {}

  lemma AcceptableNext(start: nat, end: nat)
    requires start <= end
    ensures Acceptable(start, end + 1)
         == if IsTagOk(end) then Acceptable(start, end) + [end] else Acceptable(start, end)
  {}

  /** Each acceptable opaque occurs once, and nothing else occurs. */
  lemma {:induction false} AcceptableOnce(start: nat, end: nat, o: nat)
    ensures multiset(Acceptable(start, end))[o] == if start <= o < end && IsTagOk(o) then 1 else 0
    decreases end
  {
    if end > start {
      AcceptableOnce(start, end - 1, o);
      AcceptableNext(start, end - 1);
      CountSnoc(Acceptable(start, end - 1), end - 1, o);
    }
  }

  lemma HolesNext(start: nat, end: nat)
    requires start <= end
    ensures |HolesIn(start, end + 1)| == |HolesIn(start, end)| + if end in HOLES then 1 else 0
  {
    if end in HOLES { assert HolesIn(start, end + 1) == HolesIn(start, end) + {end}; }
    else { assert HolesIn(start, end + 1) == HolesIn(start, end); }
  }

  /** How many there are: the range less its holes. */
  lemma {:induction false} AcceptableCount(start: nat, end: nat)
    requires OPAQUE_START <= start <= end <= OPAQUE_END + 1
    ensures |Acceptable(start, end)| + |HolesIn(start, end)| == end - start
    decreases end
  {
    if end == start {
      assert HolesIn(start, end) == {};
    } else {
      AcceptableCount(start, end - 1);
      AcceptableNext(start, end - 1);
      AcceptableIff(end - 1);
      HolesNext(start, end - 1);
    }
  }

  /** They are in order. */
  lemma {:induction false} AcceptableSorted(start: nat, end: nat, i: nat, j: nat)
    requires i < j < |Acceptable(start, end)|
    ensures start <= Acceptable(start, end)[i] < Acceptable(start, end)[j] < end
    decreases end
  {
    var q := Acceptable(start, end - 1);
    AcceptableNext(start, end - 1);
    if j < |q| {
      AcceptableSorted(start, end - 1, i, j);
    } else {
      AcceptableOnce(start, end - 1, q[i]);
      assert q[i] in q && multiset(q)[q[i]] > 0;
    }
  }

  class Pools {
    var pStrms: seq<nat>       // the local streams, by opaque
    var strmcap: nat
    var pTxcmd: seq<nat>       // the commands, by number
    var txcap: nat

    constructor ()
      ensures pStrms == [] && strmcap == 0 && pTxcmd == [] && txcap == 0
    {
      pStrms, strmcap, pTxcmd, txcap := [], 0, [], 0;
    }

    /** setOpaqueRange.  `ok` is false where the code panics: outside the opaque space, or with a
        range so far inside out that the channel size wraps round. */
    method SetOpaqueRange(start: nat, end: nat, batchsize: nat) returns (ok: bool)
      modifies this
      ensures ok <==> OPAQUE_START <= start && end <= OPAQUE_END && start <= end + 1
      ensures ok ==> pStrms == Acceptable(start, end + 1) && strmcap == end - start + 1
      ensures ok ==> pTxcmd == Commands.Numbers(txcap) && txcap == end - start + 1 + batchsize
    {
      if start < OPAQUE_START || end > OPAQUE_END || start > end + 1 { return false; }
      pStrms, strmcap := [], end - start + 1;
      var oid := start;
      while oid <= end
        invariant start <= oid <= end + 1
        invariant pStrms == Acceptable(start, oid) && |pStrms| <= oid - start
        invariant strmcap == end - start + 1
      {
        if IsTagOk(oid) {
          assert |pStrms| < strmcap;      // the send does not block
          pStrms := pStrms + [oid];
        }
        oid := oid + 1;
      }
      pTxcmd, txcap := [], end - start + 1 + batchsize;
      while |pTxcmd| < txcap
        invariant |pTxcmd| <= txcap && pTxcmd == Commands.Numbers(|pTxcmd|)
        invariant pStrms == Acceptable(start, end + 1) && strmcap == end - start + 1
        invariant txcap == end - start + 1 + batchsize
      {
        pTxcmd := pTxcmd + [|pTxcmd|];
      }
      ok := true;
    }
  }

  // ---- what the rest of the protocol relies on

  ghost function Members(q: seq<nat>): set<nat> { set o | o in q }

  ghost function Range(start: nat, end: nat): set<nat> { Members(Acceptable(start, end + 1)) }

  lemma PooledSeq(q: seq<nat>)
    requires forall o | o in q :: multiset(q)[o] == 1
    ensures Exchange.Pooled(Exchange.Fresh(Members(q), q)) && |Members(q)| == |q|
  {
    ExchangeTheorems.SeqOfSet(q, Members(q));
  }

  lemma AcceptableMembers(start: nat, end: nat, q: seq<nat>)
    requires q == Acceptable(start, end)
    ensures forall o | o in q :: multiset(q)[o] == 1 && start <= o < end && IsTagOk(o)
  {
    forall o | o in q ensures multiset(q)[o] == 1 && start <= o < end && IsTagOk(o) {
      AcceptableOnce(start, end, o);
      assert multiset(q)[o] > 0;
    }
  }

  /** A transport's pool holds each of its streams once; there are at most as many as the pool holds. */
  lemma FreshPool(start: nat, end: nat)
    requires OPAQUE_START <= start <= end <= OPAQUE_END
    ensures var n := Exchange.Fresh(Range(start, end), Acceptable(start, end + 1));
            Exchange.Pooled(n) && |n.range| <= end - start + 1
    ensures forall o | o in Range(start, end) :: start <= o <= end && IsTagOk(o)
  {
    AcceptableMembers(start, end + 1, Acceptable(start, end + 1));
    PooledSeq(Acceptable(start, end + 1));
    AcceptableCount(start, end + 1);
  }

  /** Two transports with ranges that do not overlap start in an initial state of the exchange. */
  lemma TwoTransports(start: nat, end: nat, start': nat, end': nat)
    requires OPAQUE_START <= start <= end <= OPAQUE_END && OPAQUE_START <= start' <= end' <= OPAQUE_END
    requires end < start' || end' < start
    ensures Exchange.Init(Exchange.State(Exchange.Fresh(Range(start, end), Acceptable(start, end + 1)),
                                         Exchange.Fresh(Range(start', end'), Acceptable(start', end' + 1))))
  {
    FreshPool(start, end);
    FreshPool(start', end');
  }

  /** In every run of two such transports a stream on its way back to the pool finds room in it. */
  lemma StreamPoolNeverBlocks(start: nat, end: nat, n: Exchange.Node, p: Exchange.Node, o: nat)
    requires OPAQUE_START <= start <= end <= OPAQUE_END && n.range == Range(start, end)
    requires ExchangeTheorems.ReachablePair(n, p) && o in n.callers
    ensures |n.pool| < end - start + 1
  {
    FreshPool(start, end);
    ExchangeTheorems.ReleaseNeverBlocks(n, p, o, end - start + 1);
  }

  /** There are always more transmit commands than one batch can hold back. */
  lemma CommandsExceedBatch(start: nat, end: nat, s: Commands.Places, batchsize: nat, chansize: nat)
    requires start <= end && 1 <= batchsize
    requires Commands.Conserved(s, end - start + 1 + batchsize, batchsize, chansize + batchsize)
    ensures Commands.Idle(s, chansize + batchsize) ==> s.pool != []
  {
    Commands.NeverStarves(s, end - start + 1 + batchsize, batchsize, chansize + batchsize);
  }
}
