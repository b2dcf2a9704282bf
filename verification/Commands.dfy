/**
  Where the transmit commands are: in the pool, with a caller that took one, in txch, in the batch of
  doTx, or answered and not returned yet.  Each step below is one atomic action of a caller of tx or
  txasync, or of doTx; any number of callers take part.  Commands are numbered.
*/
module Commands {
  type Id = nat

  /** A command in use, and what its caller set. */
  datatype Cmd = Cmd(id: Id, len: nat, flush: bool, async: bool)

  datatype Places = Places(pool: seq<Id>, calling: seq<Cmd>, txch: seq<Cmd>, batch: seq<Cmd>, replies: seq<Cmd>)

  function Ids(q: seq<Cmd>): (r: seq<Id>)
    ensures |r| == |q|
  {
    if q == [] then [] else Ids(q[..|q|-1]) + [q[|q|-1].id]
  }

  function Asyncs(q: seq<Cmd>): seq<Id> {
    if q == [] then [] else Asyncs(q[..|q|-1]) + if q[|q|-1].async then [q[|q|-1].id] else []
  }

  function Syncs(q: seq<Cmd>): seq<Cmd> {
    if q == [] then [] else Syncs(q[..|q|-1]) + if q[|q|-1].async then [] else [q[|q|-1]]
  }

  function Without<T>(q: seq<T>, i: nat): seq<T>
    requires i < |q|
  {
    q[..i] + q[i + 1..]
  }

  datatype Step =
    | Take(len: nat, flush: bool, async: bool)   // fromtxpool and the fields the caller sets
    | Send(i: nat)                               // txch <- arg
    | Receive                                    // doTx: arg joins the batch, which may be drained
    | Return(i: nat)                             // the caller of tx has its answer

  predicate Enabled(s: Places, st: Step, txcap: nat) {
    match st
    case Take(_, _, _) => s.pool != []
    case Send(i) => i < |s.calling| && |s.txch| < txcap
    case Receive => s.txch != []
    case Return(i) => i < |s.replies|
  }

  /** drainbuffers: asynchronous commands go back to the pool, the callers of the others are told. */
  function Drained(s: Places): Places {
    s.(batch := [], pool := s.pool + Asyncs(s.batch), replies := s.replies + Syncs(s.batch))
  }

  function Joined(s: Places): Places
    requires s.txch != []
  {
    s.(txch := s.txch[1..], batch := s.batch + [s.txch[0]])
  }

  function Do(s: Places, st: Step, batchsize: nat, txcap: nat): Places
    requires Enabled(s, st, txcap)
  {
    match st
    case Take(len, flush, async) => s.(pool := s.pool[1..], calling := s.calling + [Cmd(s.pool[0], len, flush, async)])
    case Send(i) => s.(calling := Without(s.calling, i), txch := s.txch + [s.calling[i]])
    case Receive => if s.txch[0].flush || |s.batch| + 1 >= batchsize then Drained(Joined(s)) else Joined(s)
    case Return(i) => s.(replies := Without(s.replies, i), pool := s.pool + [s.replies[i].id])
  }

  predicate Run(s: Places, sts: seq<Step>, t: Places, batchsize: nat, txcap: nat)
    decreases |sts|
  {
    if sts == [] then s == t
    else Enabled(s, sts[0], txcap) && Run(Do(s, sts[0], batchsize, txcap), sts[1..], t, batchsize, txcap)
  }

  // ---- conservation

  /** How often a command occurs. */
  function Occ(q: seq<Id>, x: Id): nat {
    if q == [] then 0 else Occ(q[..|q|-1], x) + if q[|q|-1] == x then 1 else 0
  }

  function Total(s: Places, x: Id): nat {
    Occ(s.pool, x) + Occ(Ids(s.calling), x) + Occ(Ids(s.txch), x) + Occ(Ids(s.batch), x) + Occ(Ids(s.replies), x)
  }

  function Size(s: Places): nat { |s.pool| + |s.calling| + |s.txch| + |s.batch| + |s.replies| }

  lemma OccSnoc(q: seq<Id>, y: Id, x: Id)
    ensures Occ(q + [y], x) == Occ(q, x) + if x == y then 1 else 0
  {
    assert (q + [y])[..|q|] == q;
  }

  lemma {:induction false} OccConcat(q: seq<Id>, r: seq<Id>, x: Id)
    ensures Occ(q + r, x) == Occ(q, x) + Occ(r, x)
    decreases r
  {
    if r == [] {
      assert q + r == q;
    } else {
      assert q + r == (q + r[..|r|-1]) + [r[|r|-1]];
      OccConcat(q, r[..|r|-1], x);
      OccSnoc(q + r[..|r|-1], r[|r|-1], x);
    }
  }

  lemma OccFirst(q: seq<Id>, x: Id)
    requires q != []
    ensures Occ(q, x) == Occ(q[1..], x) + if x == q[0] then 1 else 0
  {
    assert q == [q[0]] + q[1..];
    OccConcat([q[0]], q[1..], x);
    OccSnoc([], q[0], x);
    assert [] + [q[0]] == [q[0]];
  }

  lemma {:induction false} IdsConcat(q: seq<Cmd>, r: seq<Cmd>)
    ensures Ids(q + r) == Ids(q) + Ids(r)
    decreases r
  {
    if r == [] {
      assert q + r == q;
    } else {
      assert (q + r)[..|q + r|-1] == q + r[..|r|-1];
      IdsConcat(q, r[..|r|-1]);
    }
  }

  lemma OccJoin(q: seq<Cmd>, r: seq<Cmd>, x: Id)
    ensures Occ(Ids(q + r), x) == Occ(Ids(q), x) + Occ(Ids(r), x)
  {
    IdsConcat(q, r);
    OccConcat(Ids(q), Ids(r), x);
  }

  lemma OccOne(c: Cmd, x: Id)
    ensures Occ(Ids([c]), x) == if c.id == x then 1 else 0
  {
    assert [c][..0] == [] && Ids([c]) == [] + [c.id];
    OccSnoc([], c.id, x);
  }

  lemma OccWithout(q: seq<Cmd>, i: nat, x: Id)
    requires i < |q|
    ensures Occ(Ids(q), x) == Occ(Ids(Without(q, i)), x) + if q[i].id == x then 1 else 0
  {
    assert q == q[..i] + ([q[i]] + q[i + 1..]);
    OccJoin(q[..i], [q[i]] + q[i + 1..], x);
    OccJoin([q[i]], q[i + 1..], x);
    OccOne(q[i], x);
    OccJoin(q[..i], q[i + 1..], x);
  }

  lemma OccAppend(q: seq<Cmd>, c: Cmd, x: Id)
    ensures Occ(Ids(q + [c]), x) == Occ(Ids(q), x) + if c.id == x then 1 else 0
  {
    OccJoin(q, [c], x);
    OccOne(c, x);
  }

  lemma SplitSnoc(h: seq<Cmd>, l: Cmd)
    ensures Ids(h + [l]) == Ids(h) + [l.id]
    ensures Asyncs(h + [l]) == if l.async then Asyncs(h) + [l.id] else Asyncs(h)
    ensures Syncs(h + [l]) == if l.async then Syncs(h) else Syncs(h) + [l]
  {
    assert (h + [l])[..|h|] == h;
  }

  lemma {:induction false} SplitKeeps(q: seq<Cmd>, x: Id)
    ensures Occ(Ids(q), x) == Occ(Asyncs(q), x) + Occ(Ids(Syncs(q)), x)
    ensures |Asyncs(q)| + |Syncs(q)| == |q|
    decreases q
  {
    if q != [] {
      var h, l := q[..|q|-1], q[|q|-1];
      assert q == h + [l];
      SplitKeeps(h, x);
      SplitSnoc(h, l);
      OccSnoc(Ids(h), l.id, x);
      OccSnoc(Asyncs(h), l.id, x);
      OccAppend(Syncs(h), l, x);
    }
  }

  lemma DrainedKeeps(s: Places, x: Id)
    ensures Total(Drained(s), x) == Total(s, x) && Size(Drained(s)) == Size(s)
  {
    SplitKeeps(s.batch, x);
    OccConcat(s.pool, Asyncs(s.batch), x);
    OccJoin(s.replies, Syncs(s.batch), x);
  }

  lemma JoinedKeeps(s: Places, x: Id)
    requires s.txch != []
    ensures Total(Joined(s), x) == Total(s, x) && Size(Joined(s)) == Size(s)
  {
    OccWithout(s.txch, 0, x);
    assert Without(s.txch, 0) == s.txch[1..];
    OccAppend(s.batch, s.txch[0], x);
  }

  lemma TakeTotals(s: Places, x: Id, c: Cmd)
    requires s.pool != [] && c.id == s.pool[0]
    ensures var t := s.(pool := s.pool[1..], calling := s.calling + [c]);
            Total(t, x) == Total(s, x) && Size(t) == Size(s)
  {
    OccFirst(s.pool, x);
    OccAppend(s.calling, c, x);
  }

  lemma SendTotals(s: Places, x: Id, i: nat)
    requires i < |s.calling|
    ensures var t := s.(calling := Without(s.calling, i), txch := s.txch + [s.calling[i]]);
            Total(t, x) == Total(s, x) && Size(t) == Size(s)
  {
    OccWithout(s.calling, i, x);
    OccAppend(s.txch, s.calling[i], x);
  }

  lemma ReturnTotals(s: Places, x: Id, i: nat)
    requires i < |s.replies|
    ensures var t := s.(replies := Without(s.replies, i), pool := s.pool + [s.replies[i].id]);
            Total(t, x) == Total(s, x) && Size(t) == Size(s)
  {
    OccWithout(s.replies, i, x);
    OccSnoc(s.pool, s.replies[i].id, x);
    TotalsStay(s, Without(s.replies, i), s.pool + [s.replies[i].id], x);
  }

  lemma TotalsStay(s: Places, replies: seq<Cmd>, pool: seq<Id>, x: Id)
    requires |pool| + |replies| == |s.pool| + |s.replies|
    requires Occ(pool, x) + Occ(Ids(replies), x) == Occ(s.pool, x) + Occ(Ids(s.replies), x)
    ensures var t := s.(replies := replies, pool := pool); Total(t, x) == Total(s, x) && Size(t) == Size(s)
  {}

  lemma StepKeeps(s: Places, st: Step, x: Id, batchsize: nat, txcap: nat)
    requires Enabled(s, st, txcap)
    ensures var t := Do(s, st, batchsize, txcap); Total(t, x) == Total(s, x) && Size(t) == Size(s)
  {
    if st.Take? {
      TakeTotals(s, x, Cmd(s.pool[0], st.len, st.flush, st.async));
    } else if st.Send? {
      SendTotals(s, x, st.i);
    } else if st.Receive? {
      JoinedKeeps(s, x);
      DrainedKeeps(Joined(s), x);
    } else {
      ReturnTotals(s, x, st.i);
    }
  }

  /** Every command is in exactly one place; the batch is short of full; txch is within its capacity. */
  ghost predicate Conserved(s: Places, size: nat, batchsize: nat, txcap: nat) {
    ConservedParts(s, size, batchsize, txcap) == true
  }

  ghost predicate ConservedParts(s: Places, size: nat, batchsize: nat, txcap: nat) {
    && (forall x: Id :: Total(s, x) == if x < size then 1 else 0)
    && Size(s) == size && |s.batch| < batchsize && |s.txch| <= txcap
  }

  /** Each step leaves every command in exactly one place. */
  lemma StepConserves(s: Places, st: Step, size: nat, batchsize: nat, txcap: nat)
    requires Conserved(s, size, batchsize, txcap) && Enabled(s, st, txcap)
    ensures Conserved(Do(s, st, batchsize, txcap), size, batchsize, txcap)
  {
    var t := Do(s, st, batchsize, txcap);
    forall x: Id ensures Total(t, x) == if x < size then 1 else 0 { StepKeeps(s, st, x, batchsize, txcap); }
    StepKeeps(s, st, 0, batchsize, txcap);
  }

  /** So does every run. */
  lemma {:induction false} RunConserves(s: Places, sts: seq<Step>, t: Places, size: nat, batchsize: nat, txcap: nat)
    requires Conserved(s, size, batchsize, txcap) && Run(s, sts, t, batchsize, txcap)
    ensures Conserved(t, size, batchsize, txcap)
    decreases |sts|
  {
    if sts != [] {
      StepConserves(s, sts[0], size, batchsize, txcap);
      RunConserves(Do(s, sts[0], batchsize, txcap), sts[1..], t, size, batchsize, txcap);
    }
  }

  function Numbers(n: nat): (r: seq<Id>)
    ensures |r| == n
  {
    if n == 0 then [] else Numbers(n - 1) + [n - 1]
  }

  lemma {:induction false} OccNumbers(n: nat, x: Id)
    ensures Occ(Numbers(n), x) == if x < n then 1 else 0
  {
    if n > 0 { OccNumbers(n - 1, x); OccSnoc(Numbers(n - 1), n - 1, x); }
  }

  /** setOpaqueRange fills the pool with as many commands as it can hold. */
  function Fresh(size: nat): Places { Places(Numbers(size), [], [], [], []) }

  lemma FreshConserved(size: nat, batchsize: nat, txcap: nat)
    requires 1 <= batchsize
    ensures Conserved(Fresh(size), size, batchsize, txcap)
  {
    forall x: Id ensures Total(Fresh(size), x) == if x < size then 1 else 0 { OccNumbers(size, x); }
  }

  /** In every run from a fresh transport each command is in exactly one place, and whatever is sent
      back to the pool finds room in it: the pool's capacity is the number of commands. */
  lemma PoolNeverBlocks(sts: seq<Step>, t: Places, size: nat, batchsize: nat, txcap: nat)
    requires 1 <= batchsize && Run(Fresh(size), sts, t, batchsize, txcap)
    ensures Conserved(t, size, batchsize, txcap)
    ensures t.replies != [] ==> |t.pool| < size
    ensures |t.pool| + |t.batch| + |t.txch| <= size
  {
    FreshConserved(size, batchsize, txcap);
    RunConserves(Fresh(size), sts, t, size, batchsize, txcap);
  }

  // ---- when the batch is written

  lemma {:induction false} SplitHolds(q: seq<Cmd>, c: Cmd)
    ensures c in Syncs(q) <==> c in q && !c.async
    ensures c in q && c.async ==> c.id in Asyncs(q)
    decreases q
  {
    if q != [] {
      var h, l := q[..|q|-1], q[|q|-1];
      assert q == h + [l];
      SplitHolds(h, c);
      SplitSnoc(h, l);
    }
  }

  lemma {:induction false} AsyncsFrom(q: seq<Cmd>, x: Id)
    requires x in Asyncs(q)
    ensures exists c :: c in q && c.async && c.id == x
    decreases q
  {
    var h, l := q[..|q|-1], q[|q|-1];
    assert q == h + [l];
    SplitSnoc(h, l);
    if l.async && l.id == x { assert l in q; } else {
      AsyncsFrom(h, x);
      var c :| c in h && c.async && c.id == x;
      assert c in q;
    }
  }

  /** One turn of doTx.  The batch is written if and only if the command asks for it or makes the batch
      full; then none of it is left, every caller that waits has its answer coming, behind those that
      had theirs before, and every asynchronous command is in the pool.  Otherwise it just waits. */
  lemma FlushesIff(s: Places, batchsize: nat, txcap: nat)
    requires s.txch != []
    ensures var c, t := s.txch[0], Do(s, Receive, batchsize, txcap);
            && t.txch == s.txch[1..] && t.calling == s.calling
            && (t.batch == [] <==> c.flush || |s.batch| + 1 >= batchsize)
            && (t.batch == [] || (t.batch == s.batch + [c] && t.pool == s.pool && t.replies == s.replies))
    ensures var c, t := s.txch[0], Do(s, Receive, batchsize, txcap);
            c.flush || |s.batch| + 1 >= batchsize ==>
              && (forall d: Cmd :: d in t.replies <==> d in s.replies || (d in s.batch + [c] && !d.async))
              && (forall x: Id :: x in t.pool <==>
                    x in s.pool || exists d :: d in s.batch + [c] && d.async && d.id == x)
              && s.replies <= t.replies && s.pool <= t.pool
  {
    var c, t, q := s.txch[0], Do(s, Receive, batchsize, txcap), s.batch + [s.txch[0]];
    if c.flush || |s.batch| + 1 >= batchsize {
      assert t == Drained(Joined(s)) && Joined(s).batch == q;
      forall d: Cmd ensures d in t.replies <==> d in s.replies || (d in q && !d.async) { SplitHolds(q, d); }
      forall x: Id ensures x in t.pool <==> x in s.pool || exists d :: d in q && d.async && d.id == x {
        if x in Asyncs(q) { AsyncsFrom(q, x); }
        if d :| d in q && d.async && d.id == x { SplitHolds(q, d); }
      }
    }
  }

  ghost predicate NoneUrgent(s: Places) { forall c | c in s.batch :: !c.flush }

  lemma StepUrgent(s: Places, st: Step, batchsize: nat, txcap: nat)
    requires NoneUrgent(s) && Enabled(s, st, txcap)
    ensures NoneUrgent(Do(s, st, batchsize, txcap))
  {
    if st.Receive? { FlushesIff(s, batchsize, txcap); }
  }

  lemma {:induction false} RunUrgent(s: Places, sts: seq<Step>, t: Places, batchsize: nat, txcap: nat)
    requires NoneUrgent(s) && Run(s, sts, t, batchsize, txcap)
    ensures NoneUrgent(t)
    decreases |sts|
  {
    if sts != [] {
      StepUrgent(s, sts[0], batchsize, txcap);
      RunUrgent(Do(s, sts[0], batchsize, txcap), sts[1..], t, batchsize, txcap);
    }
  }

  /** In every run from a fresh transport no command that asks to be flushed waits in the batch. */
  lemma UrgentNeverWaits(sts: seq<Step>, t: Places, size: nat, batchsize: nat, txcap: nat)
    requires Run(Fresh(size), sts, t, batchsize, txcap)
    ensures forall c | c in t.batch :: !c.flush
  {
    RunUrgent(Fresh(size), sts, t, batchsize, txcap);
  }

  lemma {:induction false} OccPositive(q: seq<Cmd>, c: Cmd)
    requires c in q
    ensures Occ(Ids(q), c.id) > 0
    decreases q
  {
    var h, l := q[..|q|-1], q[|q|-1];
    assert Ids(q)[..|q|-1] == Ids(h);
    if c != l { assert q == h + [l]; OccPositive(h, c); }
  }

  /** All commands in use. */
  function Busy(s: Places): seq<Cmd> { s.calling + s.txch + s.batch + s.replies }

  /** A command taken from the pool is in no queue. */
  lemma PooledOnly(s: Places, size: nat, batchsize: nat, txcap: nat)
    requires Conserved(s, size, batchsize, txcap) && s.pool != []
    ensures s.pool[0] < size
    ensures forall c | c in Busy(s) :: c.id != s.pool[0]
  {
    var x := s.pool[0];
    OccFirst(s.pool, x);
    assert Total(s, x) <= 1;
    forall c | c in Busy(s) ensures c.id != x {
      if c.id == x {
        if c in s.calling { OccPositive(s.calling, c); }
        else if c in s.txch { OccPositive(s.txch, c); }
        else if c in s.batch { OccPositive(s.batch, c); }
        else { OccPositive(s.replies, c); }
      }
    }
  }

  // ---- commands are what their callers made them

  /** The step with which each command was last taken. */
  function TakenBy(s: Places, st: Step, m: map<Id, Step>): map<Id, Step> {
    if st.Take? && s.pool != [] then m[s.pool[0] := st] else m
  }

  function TakenIn(s: Places, sts: seq<Step>, t: Places, batchsize: nat, txcap: nat, m: map<Id, Step>): map<Id, Step>
    requires Run(s, sts, t, batchsize, txcap)
    decreases |sts|
  {
    if sts == [] then m
    else TakenIn(Do(s, sts[0], batchsize, txcap), sts[1..], t, batchsize, txcap, TakenBy(s, sts[0], m))
  }

  ghost predicate AsTaken(s: Places, m: map<Id, Step>) {
    (forall c | c in Busy(s) :: c.id in m && m[c.id] == Take(c.len, c.flush, c.async)) == true
  }

  lemma StepAsTaken(s: Places, st: Step, size: nat, batchsize: nat, txcap: nat, m: map<Id, Step>)
    requires Conserved(s, size, batchsize, txcap) && Enabled(s, st, txcap) && AsTaken(s, m)
    ensures AsTaken(Do(s, st, batchsize, txcap), TakenBy(s, st, m))
  {
    var t := Do(s, st, batchsize, txcap);
    if st.Take? {
      PooledOnly(s, size, batchsize, txcap);
      forall c | c in Busy(t) ensures c in Busy(s) || c == Cmd(s.pool[0], st.len, st.flush, st.async) {}
    } else if st.Receive? {
      FlushesIff(s, batchsize, txcap);
      forall c | c in Busy(t) ensures c in Busy(s) {}
    } else {
      forall c | c in Busy(t) ensures c in Busy(s) {}
    }
  }

  lemma {:induction false} RunAsTaken(s: Places, sts: seq<Step>, t: Places, size: nat, batchsize: nat, txcap: nat,
                                      m: map<Id, Step>)
    requires Conserved(s, size, batchsize, txcap) && Run(s, sts, t, batchsize, txcap) && AsTaken(s, m)
    ensures AsTaken(t, TakenIn(s, sts, t, batchsize, txcap, m))
    decreases |sts|
  {
    if sts != [] {
      StepConserves(s, sts[0], size, batchsize, txcap);
      StepAsTaken(s, sts[0], size, batchsize, txcap, m);
      RunAsTaken(Do(s, sts[0], batchsize, txcap), sts[1..], t, size, batchsize, txcap, TakenBy(s, sts[0], m));
    }
  }

  /** In every run from a fresh transport each command in use has the length and the flags that its
      caller gave it when it was last taken from the pool. */
  lemma EveryCommandAsTaken(sts: seq<Step>, t: Places, size: nat, batchsize: nat, txcap: nat, c: Cmd)
    requires 1 <= batchsize && Run(Fresh(size), sts, t, batchsize, txcap) && c in Busy(t)
    ensures var m := TakenIn(Fresh(size), sts, t, batchsize, txcap, map[]);
            c.id in m && m[c.id] == Take(c.len, c.flush, c.async)
  {
    FreshConserved(size, batchsize, txcap);
    RunAsTaken(Fresh(size), sts, t, size, batchsize, txcap, map[]);
  }

  // ---- progress

  /** Steps still to be made by the commands that are out. */
  function Potential(s: Places): nat { 4 * |s.calling| + 3 * |s.txch| + 2 * |s.batch| + |s.replies| }

  lemma StepsDown(s: Places, st: Step, batchsize: nat, txcap: nat)
    requires Enabled(s, st, txcap) && !st.Take?
    ensures Potential(Do(s, st, batchsize, txcap)) < Potential(s)
  {
    if st.Receive? { SplitKeeps(s.batch + [s.txch[0]], 0); }
  }

  /** Transmit steps cannot go on for ever without a new command being taken. */
  lemma {:induction false} TransmitStepsEnd(s: Places, sts: seq<Step>, t: Places, batchsize: nat, txcap: nat)
    requires Run(s, sts, t, batchsize, txcap) && forall st | st in sts :: !st.Take?
    ensures |sts| <= Potential(s)
    decreases |sts|
  {
    if sts != [] {
      assert sts[0] in sts && forall st | st in sts[1..] :: st in sts;
      StepsDown(s, sts[0], batchsize, txcap);
      TransmitStepsEnd(Do(s, sts[0], batchsize, txcap), sts[1..], t, batchsize, txcap);
    }
  }

  /** Nothing but a new caller could move. */
  ghost predicate Idle(s: Places, txcap: nat) { forall st: Step | Enabled(s, st, txcap) :: st.Take? }

  /** A caller that waits on an empty pool is never stuck: there are more commands than the batch can
      hold back, so transmit steps can only run out when the pool has a command again. */
  lemma NeverStarves(s: Places, size: nat, batchsize: nat, txcap: nat)
    requires Conserved(s, size, batchsize, txcap) && batchsize <= size && 1 <= txcap
    ensures Idle(s, txcap) ==> s.pool != []
  {
    if s.txch != [] { assert Enabled(s, Receive, txcap); }
    else if s.calling != [] { assert Enabled(s, Send(0), txcap); }
    else if s.replies != [] { assert Enabled(s, Return(0), txcap); }
  }

  predicate AllInBatch(s: Places) { s.pool == [] && s.calling == [] && s.txch == [] && s.replies == [] }

  /** With fewer commands than make a batch all of them can end up stuck in it. */
  lemma FewerCommandsStarve(size: nat, batchsize: nat, txcap: nat)
    requires 1 <= size < batchsize && 1 <= txcap
    ensures exists sts, t :: Run(Fresh(size), sts, t, batchsize, txcap) && Idle(t, txcap) && t.pool == []
  {
    var sts := FillBatch(Fresh(size), batchsize, txcap);
    var t :| Run(Fresh(size), sts, t, batchsize, txcap) && AllInBatch(t);
    assert Idle(t, txcap);
  }

  /** Callers that never flush move every pooled command into the batch. */
  lemma {:induction false} FillBatch(s: Places, batchsize: nat, txcap: nat) returns (sts: seq<Step>)
    requires s.calling == [] && s.txch == [] && s.replies == [] && |s.batch| + |s.pool| < batchsize && 1 <= txcap
    ensures exists t :: Run(s, sts, t, batchsize, txcap) && AllInBatch(t)
    decreases |s.pool|
  {
    sts := [];
    if s.pool == [] {
      assert Run(s, [], s, batchsize, txcap);
    } else {
      var c := Cmd(s.pool[0], 0, false, true);
      var s1 := s.(pool := s.pool[1..], calling := [c]);
      var s2 := s1.(calling := [], txch := [c]);
      var s3 := s2.(txch := [], batch := s.batch + [c]);
      assert Do(s, Take(0, false, true), batchsize, txcap) == s1;
      assert Do(s1, Send(0), batchsize, txcap) == s2;
      assert Do(s2, Receive, batchsize, txcap) == s3;
      var more := FillBatch(s3, batchsize, txcap);
      var t :| Run(s3, more, t, batchsize, txcap) && AllInBatch(t);
      RunCons(s2, Receive, s3, more, t, batchsize, txcap);
      RunCons(s1, Send(0), s2, [Receive] + more, t, batchsize, txcap);
      RunCons(s, Take(0, false, true), s1, [Send(0)] + ([Receive] + more), t, batchsize, txcap);
      sts := [Take(0, false, true)] + ([Send(0)] + ([Receive] + more));
    }
  }

  lemma RunCons(s: Places, st: Step, s': Places, sts: seq<Step>, t: Places, batchsize: nat, txcap: nat)
    requires Enabled(s, st, txcap) && Do(s, st, batchsize, txcap) == s' && Run(s', sts, t, batchsize, txcap)
    ensures Run(s, [st] + sts, t, batchsize, txcap)
  {
    assert ([st] + sts)[1..] == sts;
  }
}
