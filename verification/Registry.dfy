/**
  The registry of transports: a shared pointer to a map that is copied, changed and swapped in by
  compare-and-swap, by any number of goroutines at once.  A map is copied one entry at a time, and
  other goroutines may move between any two steps.  Whatever they do, the registry is the plain map
  that the successful operations make one after another, in the order of their swaps; and each
  operation, failed ones included, takes effect at one moment between its call and its return.
*/
module Registry {
  import opened Wire

  type Name = string
  type Transport = nat
  type Pointer = nat
  type Table = map<Name, Transport>

  datatype Op = Add(name: Name, t: Transport) | Del(name: Name)

  // ---- the plain map

  /** addtransport panics if the name is there, deltransport if it is not. */
  predicate Legal(op: Op, m: Table) { if op.Add? then op.name !in m else op.name in m }

  function After(op: Op, m: Table): Table {
    match op case Add(name, t) => m[name := t] case Del(name) => m - {name}
  }

  function Plain(log: seq<Op>): Table {
    if log == [] then map[] else After(log[|log|-1], Plain(log[..|log|-1]))
  }

  // ---- goroutines

  /** `began` and `at` count the swaps that had succeeded when the operation was called and when its
      current copy of the pointer was loaded.  They are history: no step reads them. */
  datatype Thread =
    | Called(op: Op, began: nat)
    | Copying(op: Op, began: nat, at: nat, ptr: Pointer, part: Table, left: set<Name>)
    | Copied(op: Op, began: nat, at: nat, ptr: Pointer, newptr: Pointer)
    | Done(op: Op, began: nat, at: nat)
    | Panicked(op: Op, began: nat, at: nat)

  /** Everything shared: the pointer, the maps in memory, and the goroutines' own variables.  The rest
      is history: the operations that succeeded, in the order of their swaps, with the pointer each
      installed and the call it came from; and all calls ever made, the latest of each goroutine
      marked. */
  datatype State = State(cur: Pointer, heap: map<Pointer, Table>, next: Pointer, threads: map<nat, Thread>,
                         log: seq<Op>, versions: seq<Pointer>, owners: seq<nat>, calls: seq<Op>, latest: map<nat, nat>)

  datatype Step = Call(id: nat, op: Op) | Load(id: nat) | CopyOne(id: nat, key: Name) | Build(id: nat) | Swap(id: nat)

  ghost predicate Enabled(s: State, st: Step) {
    match st
    case Call(id, _) => id in s.threads ==> s.threads[id].Done? || s.threads[id].Panicked?
    case Load(id) => id in s.threads && s.threads[id].Called? && s.cur in s.heap
    case CopyOne(id, key) =>
      && id in s.threads && s.threads[id].Copying? && key in s.threads[id].left
      && s.threads[id].ptr in s.heap && key in s.heap[s.threads[id].ptr]
    case Build(id) => id in s.threads && s.threads[id].Copying? && s.threads[id].left == {}
    case Swap(id) => id in s.threads && s.threads[id].Copied? && id in s.latest
  }

  function Set(s: State, id: nat, t: Thread): State { s.(threads := s.threads[id := t]) }

  /** One step of one goroutine. */
  function Do(s: State, st: Step): State
    requires Enabled(s, st)
  {
    match st
    case Call(id, op) =>
      Set(s.(calls := s.calls + [op], latest := s.latest[id := |s.calls|]), id, Called(op, |s.log|))
    case Load(id) =>
      var c := s.threads[id];
      Set(s, id, Copying(c.op, c.began, |s.log|, s.cur, map[], s.heap[s.cur].Keys))
    case CopyOne(id, key) =>
      var c := s.threads[id];
      if c.op.Add? && key == c.op.name then Set(s, id, Panicked(c.op, c.began, c.at))
      else Set(s, id, c.(part := c.part[key := s.heap[c.ptr][key]], left := c.left - {key}))
    case Build(id) =>
      var c := s.threads[id];
      if c.op.Del? && c.op.name !in c.part then Set(s, id, Panicked(c.op, c.began, c.at))
      else
        Set(s.(heap := s.heap[s.next := After(c.op, c.part)], next := s.next + 1),
            id, Copied(c.op, c.began, c.at, c.ptr, s.next))
    case Swap(id) =>
      var c := s.threads[id];
      if s.cur != c.ptr then Set(s, id, Called(c.op, c.began))
      else
        Set(s.(cur := c.newptr, log := s.log + [c.op], versions := s.versions + [c.newptr],
               owners := s.owners + [s.latest[id]]),
            id, Done(c.op, c.began, |s.log|))
  }

  const FRESH := State(0, map[0 := map[]], 1, map[], [], [0], [], [], map[])

  ghost predicate Run(s: State, sts: seq<Step>, t: State)
    decreases |sts|
  {
    if sts == [] then s == t else Enabled(s, sts[0]) && Run(Do(s, sts[0]), sts[1..], t)
  }

  // ---- the invariant

  /** The k-th version of the registry is the plain map after k swaps, and stays it. */
  ghost predicate Versions(s: State) { VersionsParts(s) == true }

  ghost predicate VersionsParts(s: State) {
    && Numbered(s) && s.cur == s.versions[|s.log|]
    && (forall p | p in s.heap :: p < s.next)
    && (forall k | 0 <= k < |s.versions| :: s.versions[k] in s.heap && s.heap[s.versions[k]] == Plain(s.log[..k]))
    && (forall j, k | 0 <= j < k < |s.versions| :: s.versions[j] != s.versions[k])
  }

  ghost predicate History(log: seq<Op>) {
    forall k | 0 <= k < |log| :: Legal(log[k], Plain(log[..k]))
  }

  ghost predicate Numbered(s: State) { |s.versions| == |s.log| + 1 }

  /** What a goroutine knows about the version it loaded. */
  ghost predicate Knows(s: State, t: Thread)
    requires Numbered(s)
  {
    KnowsParts(s, t) == true
  }

  ghost predicate KnowsParts(s: State, t: Thread)
    requires Numbered(s)
  {
    match t
    case Called(_, began) => began <= |s.log|
    case Copying(op, began, at, ptr, part, left) =>
      && began <= at <= |s.log| && ptr == s.versions[at]
      && var m := Plain(s.log[..at]);
         part.Keys !! left && part.Keys + left == m.Keys && (forall k | k in part :: part[k] == m[k])
         && (op.Add? ==> op.name !in part)
    case Copied(op, began, at, ptr, newptr) =>
      && began <= at <= |s.log| && ptr == s.versions[at] && newptr !in s.versions && newptr in s.heap
      && Legal(op, Plain(s.log[..at])) && s.heap[newptr] == After(op, Plain(s.log[..at]))
    case Done(op, began, at) => began <= at < |s.log| && s.log[at] == op
    case Panicked(op, began, at) => began <= at <= |s.log| && !Legal(op, Plain(s.log[..at]))
  }

  ghost predicate OwnCopies(s: State) {
    (forall i, j | i in s.threads && j in s.threads && i != j && s.threads[i].Copied? && s.threads[j].Copied? ::
       s.threads[i].newptr != s.threads[j].newptr) == true
  }

  ghost predicate Inv(s: State) { InvParts(s) == true }

  ghost predicate InvParts(s: State) {
    && Versions(s) && History(s.log) && OwnCopies(s)
    && forall i | i in s.threads :: Knows(s, s.threads[i])
  }

  /** The log only grows; what is known about old versions stays true. */
  ghost predicate Extends(s: State, t: State) {
    && s.log <= t.log && s.versions <= t.versions
    && (forall p | p in s.heap :: p in t.heap && t.heap[p] == s.heap[p])
  }

  lemma KnowsStays(s: State, t: State, th: Thread)
    requires Versions(s) && Versions(t) && Extends(s, t) && Knows(s, th)
    requires th.Copied? ==> th.newptr !in t.versions
    ensures Knows(t, th)
  {
    if !th.Called? { assert th.at <= |s.log|; assert s.log[..th.at] == t.log[..th.at]; }
  }

  lemma OthersKnow(s: State, t: State, id: nat)
    requires Inv(s) && Versions(t) && Extends(s, t) && id in t.threads && s.threads.Keys + {id} == t.threads.Keys
    requires forall i | i in s.threads && i != id :: t.threads[i] == s.threads[i]
    requires forall i | i in s.threads && i != id && s.threads[i].Copied? :: s.threads[i].newptr !in t.versions
    requires Knows(t, t.threads[id])
    ensures forall i | i in t.threads :: Knows(t, t.threads[i])
  {
    forall i | i in t.threads ensures Knows(t, t.threads[i]) {
      if i != id { KnowsStays(s, t, s.threads[i]); }
    }
  }

  lemma InvMeans(s: State)
    requires Inv(s)
    ensures Versions(s) && Numbered(s) && History(s.log) && OwnCopies(s)
    ensures s.cur == s.versions[|s.log|] && s.cur in s.heap && s.heap[s.cur] == Plain(s.log)
  {
    assert s.log[..|s.log|] == s.log;
  }

  lemma ThreadKnows(s: State, id: nat)
    requires Inv(s) && id in s.threads
    ensures Numbered(s) && Knows(s, s.threads[id])
  {}

  /** A goroutine moves on without touching the registry, and has no new map of its own. */
  lemma MovesOn(s: State, t: State, id: nat, th: Thread)
    requires Inv(s) && Numbered(s) && Knows(s, th) && !th.Copied?
    requires t == s.(calls := t.calls, latest := t.latest, threads := s.threads[id := th])
    ensures Inv(t)
  {
    InvMeans(s);
    forall i | i in t.threads ensures Numbered(t) && Knows(t, t.threads[i]) {
      SameKnows(s, t, t.threads[i]);
      if i != id { ThreadKnows(s, i); }
    }
    SameVersions(s, t);
    NoNewCopy(s, t, id, th);
  }

  lemma SameVersions(s: State, t: State)
    requires Versions(s) && t == s.(calls := t.calls, latest := t.latest, threads := t.threads)
    ensures Versions(t)
  {}

  lemma NoNewCopy(s: State, t: State, id: nat, th: Thread)
    requires OwnCopies(s) && !th.Copied? && t.threads == s.threads[id := th]
    ensures OwnCopies(t)
  {}

  lemma SameKnows(s: State, t: State, th: Thread)
    requires Numbered(s) && t == s.(calls := t.calls, latest := t.latest, threads := t.threads)
    ensures Numbered(t) && Knows(t, th) == Knows(s, th)
  {}

  lemma CallKeeps(s: State, id: nat, op: Op)
    requires Inv(s) && Enabled(s, Call(id, op))
    ensures Inv(Do(s, Call(id, op)))
  {
    InvMeans(s);
    MovesOn(s, Do(s, Call(id, op)), id, Called(op, |s.log|));
  }

  lemma LoadKeeps(s: State, id: nat)
    requires Inv(s) && Enabled(s, Load(id))
    ensures Inv(Do(s, Load(id)))
  {
    var c := s.threads[id];
    InvMeans(s);
    ThreadKnows(s, id);
    LoadKnows(s, c);
    MovesOn(s, Do(s, Load(id)), id, Copying(c.op, c.began, |s.log|, s.cur, map[], s.heap[s.cur].Keys));
  }

  lemma LoadKnows(s: State, c: Thread)
    requires Numbered(s) && Knows(s, c) && c.Called?
    requires s.cur == s.versions[|s.log|] && s.cur in s.heap && s.heap[s.cur] == Plain(s.log)
    ensures Knows(s, Copying(c.op, c.began, |s.log|, s.cur, map[], s.heap[s.cur].Keys))
  {
    assert s.log[..|s.log|] == s.log;
  }

  lemma CopyKnows(s: State, c: Thread, key: Name)
    requires Versions(s) && Knows(s, c) && c.Copying? && key in c.left
    ensures c.ptr in s.heap && key in s.heap[c.ptr]
    ensures c.op.Add? && key == c.op.name ==> Knows(s, Panicked(c.op, c.began, c.at))
    ensures !(c.op.Add? && key == c.op.name) ==>
              Knows(s, c.(part := c.part[key := s.heap[c.ptr][key]], left := c.left - {key}))
  {
    assert s.heap[c.ptr] == Plain(s.log[..c.at]);
  }

  lemma CopyKeeps(s: State, id: nat, key: Name)
    requires Inv(s) && Enabled(s, CopyOne(id, key))
    ensures Inv(Do(s, CopyOne(id, key)))
  {
    var t := Do(s, CopyOne(id, key));
    InvMeans(s);
    ThreadKnows(s, id);
    CopyKnows(s, s.threads[id], key);
    MovesOn(s, t, id, t.threads[id]);
  }

  /** A complete copy is the version it was made from. */
  lemma CopyComplete(s: State, t: Thread)
    requires Numbered(s) && Knows(s, t) && t.Copying? && t.left == {}
    ensures t.part == Plain(s.log[..t.at])
  {
    assert t.part.Keys == Plain(s.log[..t.at]).Keys;
  }

  lemma BuildKeeps(s: State, id: nat)
    requires Inv(s) && Enabled(s, Build(id))
    ensures Inv(Do(s, Build(id)))
  {
    var c, t := s.threads[id], Do(s, Build(id));
    InvMeans(s);
    ThreadKnows(s, id);
    CopyComplete(s, c);
    if c.op.Del? && c.op.name !in c.part {
      MovesOn(s, t, id, t.threads[id]);
    } else {
      BuiltKeeps(s, t, id, c);
    }
  }

  lemma BuiltKeeps(s: State, t: State, id: nat, c: Thread)
    requires Inv(s) && id in s.threads && c == s.threads[id] && c.Copying? && c.left == {}
    requires !(c.op.Del? && c.op.name !in c.part)
    requires t == s.(heap := s.heap[s.next := After(c.op, c.part)], next := s.next + 1,
                     threads := s.threads[id := Copied(c.op, c.began, c.at, c.ptr, s.next)])
    ensures Inv(t)
  {
    InvMeans(s);
    ThreadKnows(s, id);
    NextIsNew(s);
    BuildVersions(s, t);
    BuildKnows(s, t, c);
    OthersKnow(s, t, id);
    NewCopyIsOwn(s, t, id, s.next);
  }

  lemma NewCopyIsOwn(s: State, t: State, id: nat, p: Pointer)
    requires OwnCopies(s) && forall i | i in s.threads && s.threads[i].Copied? :: s.threads[i].newptr != p
    requires id in t.threads && t.threads == s.threads[id := t.threads[id]]
    requires t.threads[id].Copied? && t.threads[id].newptr == p
    ensures OwnCopies(t)
  {}

  lemma BuildVersions(s: State, t: State)
    requires Versions(s) && History(s.log) && s.next !in s.heap && s.next !in s.versions
    requires t.log == s.log && t.versions == s.versions && t.cur == s.cur
    requires (t.heap == s.heap && t.next == s.next)
             || (s.next in t.heap && t.heap == s.heap[s.next := t.heap[s.next]] && t.next == s.next + 1)
    ensures Versions(t) && History(t.log) && Extends(s, t)
  {}

  lemma NextIsNew(s: State)
    requires Inv(s)
    ensures s.next !in s.heap && s.next !in s.versions
    ensures forall i | i in s.threads && s.threads[i].Copied? ::
              s.threads[i].newptr != s.next && s.threads[i].newptr !in s.versions
  {
    forall i | i in s.threads && s.threads[i].Copied?
      ensures s.threads[i].newptr != s.next && s.threads[i].newptr !in s.versions
    {
      assert Knows(s, s.threads[i]);
    }
  }

  lemma BuildKnows(s: State, t: State, c: Thread)
    requires Versions(s) && Knows(s, c) && c.Copying? && c.left == {} && !(c.op.Del? && c.op.name !in c.part)
    requires s.next !in s.versions
    requires t == s.(heap := s.heap[s.next := After(c.op, c.part)], next := s.next + 1, threads := t.threads)
    ensures Knows(t, Copied(c.op, c.began, c.at, c.ptr, s.next))
  {
    CopyComplete(s, c);
  }

  /** A swap succeeds only on the latest version: pointers are never used twice. */
  lemma SwapIsCurrent(s: State, c: Thread)
    requires Versions(s) && Knows(s, c) && c.Copied? && s.cur == c.ptr
    ensures c.at == |s.log| && Legal(c.op, Plain(s.log)) && s.heap[c.newptr] == After(c.op, Plain(s.log))
  {
    assert s.versions[c.at] == s.versions[|s.log|];
    assert s.log[..|s.log|] == s.log;
  }

  lemma PlainSnoc(log: seq<Op>, op: Op)
    ensures Plain(log + [op]) == After(op, Plain(log))
  {
    assert (log + [op])[..|log|] == log;
  }

  lemma PrefixesStay(log: seq<Op>, op: Op)
    ensures forall k | 0 <= k <= |log| :: (log + [op])[..k] == log[..k]
    ensures log[..|log|] == log && (log + [op])[..|log| + 1] == log + [op]
  {}

  lemma HistorySnoc(log: seq<Op>, op: Op)
    requires History(log) && Legal(op, Plain(log))
    ensures History(log + [op])
  {
    PrefixesStay(log, op);
    forall k | 0 <= k < |log| + 1 ensures Legal((log + [op])[k], Plain((log + [op])[..k])) {
      if k < |log| { assert (log + [op])[k] == log[k]; }
    }
  }

  lemma VersionsSnoc(s: State, t: State, op: Op, p: Pointer)
    requires Versions(s) && p in s.heap && p !in s.versions && s.heap[p] == After(op, Plain(s.log))
    requires t.heap == s.heap && t.next == s.next && t.cur == p
    requires t.log == s.log + [op] && t.versions == s.versions + [p]
    ensures Versions(t)
  {
    PrefixesStay(s.log, op);
    PlainSnoc(s.log, op);
    forall k | 0 <= k < |t.versions| ensures t.versions[k] in t.heap && t.heap[t.versions[k]] == Plain(t.log[..k]) {
      if k < |s.versions| { assert t.versions[k] == s.versions[k]; }
    }
    forall j, k | 0 <= j < k < |t.versions| ensures t.versions[j] != t.versions[k] {
      if k < |s.versions| { assert s.versions[j] != s.versions[k]; } else { assert s.versions[j] != p; }
    }
  }

  lemma SwapKnows(s: State, t: State, c: Thread)
    requires Numbered(s) && c.Copied? && c.began <= |s.log|
    requires t.log == s.log + [c.op] && t.versions == s.versions + [c.newptr]
    ensures Numbered(t) && Knows(t, Done(c.op, c.began, |s.log|))
  {}

  lemma SwappedKeeps(s: State, t: State, id: nat, c: Thread)
    requires Inv(s) && id in s.threads && c == s.threads[id] && c.Copied? && s.cur == c.ptr
    requires t == s.(cur := c.newptr, log := s.log + [c.op], versions := s.versions + [c.newptr], owners := t.owners,
                     threads := s.threads[id := Done(c.op, c.began, |s.log|)])
    ensures Inv(t)
  {
    InvMeans(s);
    ThreadKnows(s, id);
    NextIsNew(s);
    SwapIsCurrent(s, c);
    HistorySnoc(s.log, c.op);
    VersionsSnoc(s, t, c.op, c.newptr);
    SwapKnows(s, t, c);
    OthersKnow(s, t, id);
  }

  lemma SwapKeeps(s: State, id: nat)
    requires Inv(s) && Enabled(s, Swap(id))
    ensures Inv(Do(s, Swap(id)))
  {
    var c, t := s.threads[id], Do(s, Swap(id));
    InvMeans(s);
    ThreadKnows(s, id);
    if s.cur == c.ptr {
      SwappedKeeps(s, t, id, c);
    } else {
      MovesOn(s, t, id, Called(c.op, c.began));
    }
  }

  lemma StepExtends(s: State, st: Step)
    requires Enabled(s, st) && s.next !in s.heap
    ensures Extends(s, Do(s, st))
  {}

  lemma StepKeeps(s: State, st: Step)
    requires Inv(s) && Enabled(s, st)
    ensures Inv(Do(s, st)) && Extends(s, Do(s, st))
  {
    NextIsNew(s);
    StepExtends(s, st);
    match st
    case Call(id, op) => CallKeeps(s, id, op);
    case Load(id) => LoadKeeps(s, id);
    case CopyOne(id, key) => CopyKeeps(s, id, key);
    case Build(id) => BuildKeeps(s, id);
    case Swap(id) => SwapKeeps(s, id);
  }

  lemma {:induction false} RunKeeps(s: State, sts: seq<Step>, t: State)
    requires Inv(s) && Run(s, sts, t)
    ensures Inv(t) && Extends(s, t)
    decreases |sts|
  {
    if sts != [] {
      StepKeeps(s, sts[0]);
      RunKeeps(Do(s, sts[0]), sts[1..], t);
    }
  }

  lemma FreshInv()
    ensures Inv(FRESH)
  {}

  // ---- one log entry per successful call

  ghost predicate CallsKnown(s: State) {
    && s.latest.Keys == s.threads.Keys && |s.owners| == |s.log|
    && (forall i | i in s.threads :: s.latest[i] < |s.calls| && s.calls[s.latest[i]] == s.threads[i].op)
    && (forall k | 0 <= k < |s.log| :: s.owners[k] < |s.calls| && s.calls[s.owners[k]] == s.log[k])
    && (forall i, j | i in s.threads && j in s.threads && i != j :: s.latest[i] != s.latest[j])
  }

  /** A goroutine whose call has returned has the entry it remembers. */
  ghost predicate HasEntry(s: State)
    requires CallsKnown(s)
  {
    forall i | i in s.threads && s.threads[i].Done? ::
      s.threads[i].at < |s.log| && s.owners[s.threads[i].at] == s.latest[i]
  }

  ghost predicate NoOtherEntry(s: State)
    requires CallsKnown(s)
  {
    forall i, k | i in s.threads && !s.threads[i].Done? && 0 <= k < |s.log| :: s.owners[k] != s.latest[i]
  }

  /** No two entries come from one call, and a call has an entry exactly when it has returned. */
  ghost predicate OneEntryEach(s: State)
    requires CallsKnown(s)
  {
    (forall j, k | 0 <= j < k < |s.log| :: s.owners[j] != s.owners[k]) && HasEntry(s) && NoOtherEntry(s)
  }

  ghost predicate Once(s: State) { (CallsKnown(s) && OneEntryEach(s)) == true }

  lemma OnceMeans(s: State)
    requires Once(s)
    ensures CallsKnown(s) && OneEntryEach(s)
  {}

  lemma StillAtWork(s: State, t: State, id: nat, th: Thread)
    requires Once(s) && id in s.threads && !s.threads[id].Done? && th.op == s.threads[id].op && !th.Done?
    requires t == s.(heap := t.heap, next := t.next, threads := s.threads[id := th])
    ensures Once(t)
  {
    OnceMeans(s);
    assert CallsKnown(t);
    WorkHasNoEntry(s, t, id, th);
  }

  lemma WorkHasNoEntry(s: State, t: State, id: nat, th: Thread)
    requires CallsKnown(s) && OneEntryEach(s) && CallsKnown(t) && id in s.threads && !s.threads[id].Done? && !th.Done?
    requires t == s.(heap := t.heap, next := t.next, threads := s.threads[id := th])
    ensures OneEntryEach(t)
  {}

  lemma CallOnce(s: State, id: nat, op: Op)
    requires Once(s) && Enabled(s, Call(id, op))
    ensures Once(Do(s, Call(id, op)))
  {
    OnceMeans(s);
    NewCallKnown(s, id, op);
    NewCallHasNoEntry(s, Do(s, Call(id, op)), id, Called(op, |s.log|));
  }

  lemma NewCallKnown(s: State, id: nat, op: Op)
    requires CallsKnown(s) && Enabled(s, Call(id, op))
    ensures CallsKnown(Do(s, Call(id, op)))
  {}

  lemma NewCallHasNoEntry(s: State, t: State, id: nat, th: Thread)
    requires CallsKnown(s) && OneEntryEach(s) && CallsKnown(t) && !th.Done?
    requires t == s.(calls := t.calls, latest := s.latest[id := |s.calls|], threads := s.threads[id := th])
    ensures OneEntryEach(t)
  {}

  lemma SwapOnce(s: State, id: nat)
    requires Once(s) && Enabled(s, Swap(id))
    ensures Once(Do(s, Swap(id)))
  {
    var c, t := s.threads[id], Do(s, Swap(id));
    if s.cur != c.ptr { StillAtWork(s, t, id, t.threads[id]); } else { EntryAdded(s, t, id, t.threads[id]); }
  }

  lemma EntryAdded(s: State, t: State, id: nat, th: Thread)
    requires Once(s) && id in s.threads && !s.threads[id].Done? && id in s.latest
    requires th.Done? && th.op == s.threads[id].op && th.at == |s.log|
    requires t == s.(cur := t.cur, versions := t.versions, threads := s.threads[id := th],
                     log := s.log + [th.op], owners := s.owners + [s.latest[id]])
    ensures Once(t)
  {
    OnceMeans(s);
    EntryKnown(s, t, id, th);
    EntryIsNew(s, t, id, th);
  }

  lemma EntryKnown(s: State, t: State, id: nat, th: Thread)
    requires CallsKnown(s) && id in s.threads && th.op == s.threads[id].op
    requires t == s.(cur := t.cur, versions := t.versions, threads := s.threads[id := th],
                     log := s.log + [th.op], owners := s.owners + [s.latest[id]])
    ensures CallsKnown(t)
  {}

  lemma EntryIsNew(s: State, t: State, id: nat, th: Thread)
    requires CallsKnown(s) && OneEntryEach(s) && CallsKnown(t)
    requires id in s.threads && !s.threads[id].Done? && th.Done? && th.at == |s.log|
    requires t == s.(cur := t.cur, versions := t.versions, threads := s.threads[id := th],
                     log := s.log + [th.op], owners := s.owners + [s.latest[id]])
    ensures OneEntryEach(t)
  {
    forall j, k | 0 <= j < k < |t.log| ensures t.owners[j] != t.owners[k] {
      if k < |s.log| { assert s.owners[j] != s.owners[k]; } else { assert s.owners[j] != s.latest[id]; }
    }
    EntryRemembered(s, t, id, th);
    EntryOfNoOther(s, t, id, th);
  }

  lemma EntryRemembered(s: State, t: State, id: nat, th: Thread)
    requires CallsKnown(s) && OneEntryEach(s) && CallsKnown(t)
    requires id in s.threads && !s.threads[id].Done? && th.Done? && th.at == |s.log|
    requires t == s.(cur := t.cur, versions := t.versions, threads := s.threads[id := th],
                     log := s.log + [th.op], owners := s.owners + [s.latest[id]])
    ensures HasEntry(t)
  {
    forall i | i in t.threads && t.threads[i].Done?
      ensures t.threads[i].at < |t.log| && t.owners[t.threads[i].at] == t.latest[i]
    {
      if i != id { assert s.threads[i].at < |s.log|; }
    }
  }

  lemma EntryOfNoOther(s: State, t: State, id: nat, th: Thread)
    requires CallsKnown(s) && OneEntryEach(s) && CallsKnown(t)
    requires id in s.threads && !s.threads[id].Done? && th.Done? && th.at == |s.log|
    requires t == s.(cur := t.cur, versions := t.versions, threads := s.threads[id := th],
                     log := s.log + [th.op], owners := s.owners + [s.latest[id]])
    ensures NoOtherEntry(t)
  {
    forall i, k | i in t.threads && !t.threads[i].Done? && 0 <= k < |t.log| ensures t.owners[k] != t.latest[i] {
      if k < |s.log| { assert s.owners[k] != s.latest[i]; } else { assert s.latest[i] != s.latest[id]; }
    }
  }

  /** A step that is no call and no swap leaves its goroutine at work on the same call. */
  lemma WorkOnce(s: State, st: Step)
    requires Once(s) && Enabled(s, st) && (st.Load? || st.CopyOne? || st.Build?)
    ensures Once(Do(s, st))
  {
    StillAtWork(s, Do(s, st), st.id, Do(s, st).threads[st.id]);
  }

  lemma {:induction false} RunOnce(s: State, sts: seq<Step>, t: State)
    requires Once(s) && Run(s, sts, t)
    ensures Once(t)
    decreases |sts|
  {
    if sts != [] {
      if sts[0].Call? { CallOnce(s, sts[0].id, sts[0].op); }
      else if sts[0].Swap? { SwapOnce(s, sts[0].id); }
      else { WorkOnce(s, sts[0]); }
      RunOnce(Do(s, sts[0]), sts[1..], t);
    }
  }

  // ---- main results

  /** Under every interleaving the registry is the plain map after the successful operations in the
      order of their swaps, and each of them was legal at its swap: a name was added only when it was
      absent, deleted only when it was present.  No update is lost: the log only grows. */
  lemma RegistryIsPlainMap(sts: seq<Step>, s: State, more: seq<Step>, t: State)
    requires Run(FRESH, sts, s) && Run(s, more, t)
    ensures s.cur in s.heap && s.heap[s.cur] == Plain(s.log)
    ensures forall k | 0 <= k < |s.log| :: Legal(s.log[k], Plain(s.log[..k]))
    ensures s.log <= t.log
  {
    FreshInv();
    RunKeeps(FRESH, sts, s);
    RunKeeps(s, more, t);
    InvMeans(s);
  }

  /** The last entry about `x` in the log adds it with `t`. */
  ghost predicate LastAt(log: seq<Op>, x: Name, t: Transport, k: nat) {
    k < |log| && log[k] == Add(x, t) && forall j | k < j < |log| :: log[j].name != x
  }

  /** Some entry adds `x` with `t`, and no later one is about `x`. */
  ghost predicate Standing(log: seq<Op>, x: Name, t: Transport) { exists k: nat :: LastAt(log, x, t, k) }

  lemma StandingSnoc(log: seq<Op>, op: Op, x: Name, t: Transport)
    ensures Standing(log + [op], x, t) <==> if op.name == x then op == Add(x, t) else Standing(log, x, t)
  {
    var l := log + [op];
    assert l[|log|] == op;
    if op.name == x {
      forall k: nat ensures LastAt(l, x, t, k) <==> k == |log| && op == Add(x, t) {}
      assert op == Add(x, t) <==> LastAt(l, x, t, |log|);
    } else {
      forall k: nat ensures LastAt(l, x, t, k) <==> LastAt(log, x, t, k) { OlderEntry(log, op, x, t, k); }
    }
  }

  lemma OlderEntry(log: seq<Op>, op: Op, x: Name, t: Transport, k: nat)
    requires op.name != x
    ensures LastAt(log + [op], x, t, k) <==> LastAt(log, x, t, k)
  {
    var l := log + [op];
    assert l[|log|] == op && forall j | 0 <= j < |log| :: l[j] == log[j];
  }

  lemma {:induction false} PlainIsStanding(log: seq<Op>, x: Name, t: Transport)
    ensures x in Plain(log) && Plain(log)[x] == t <==> Standing(log, x, t)
    decreases log
  {
    if log != [] {
      var h, l := log[..|log|-1], log[|log|-1];
      assert log == h + [l];
      PlainIsStanding(h, x, t);
      StandingSnoc(h, l, x, t);
    }
  }

  lemma LegalIfStanding(log: seq<Op>, op: Op)
    ensures Legal(op, Plain(log)) <==> if op.Add? then forall t :: !Standing(log, op.name, t)
                                       else exists t :: Standing(log, op.name, t)
  {
    forall t ensures op.name in Plain(log) && Plain(log)[op.name] == t <==> Standing(log, op.name, t) {
      PlainIsStanding(log, op.name, t);
    }
    if op.name in Plain(log) { assert Standing(log, op.name, Plain(log)[op.name]); }
  }

  /** Name by name, whatever else is in the log: in every run the registry has `x` with `t` if and only
      if some entry adds `x` with `t` and no later entry is about `x`.  A name was added only when no
      entry before stood for it, and deleted only when one did. */
  lemma EachNameByItsLastEntry(sts: seq<Step>, s: State, x: Name, t: Transport)
    requires Run(FRESH, sts, s)
    ensures s.cur in s.heap
    ensures x in s.heap[s.cur] && s.heap[s.cur][x] == t <==> Standing(s.log, x, t)
    ensures forall k | 0 <= k < |s.log| && s.log[k].Add? :: forall u :: !Standing(s.log[..k], s.log[k].name, u)
    ensures forall k | 0 <= k < |s.log| && s.log[k].Del? :: exists u :: Standing(s.log[..k], s.log[k].name, u)
  {
    assert Run(s, [], s);
    RegistryIsPlainMap(sts, s, [], s);
    PlainIsStanding(s.log, x, t);
    forall k | 0 <= k < |s.log|
      ensures if s.log[k].Add? then forall u :: !Standing(s.log[..k], s.log[k].name, u)
              else exists u :: Standing(s.log[..k], s.log[k].name, u)
    {
      LegalIfStanding(s.log[..k], s.log[k]);
    }
  }

  lemma EntriesOf(s: State, id: nat)
    requires CallsKnown(s) && OneEntryEach(s) && id in s.threads
    ensures var c, call := s.threads[id], s.latest[id];
            && (c.Done? ==> forall k | 0 <= k < |s.log| :: s.owners[k] == call <==> k == c.at)
            && (!c.Done? ==> forall k | 0 <= k < |s.log| :: s.owners[k] != call)
    ensures forall j | j in s.threads && j != id && s.threads[j].Done? && s.threads[id].Done? ::
              s.threads[j].at != s.threads[id].at
  {}

  lemma ThreadMeans(s: State, c: Thread)
    requires Numbered(s) && Knows(s, c) && History(s.log)
    ensures c.Done? ==> c.began <= c.at < |s.log| && s.log[c.at] == c.op && Legal(c.op, Plain(s.log[..c.at]))
    ensures c.Panicked? ==> c.began <= c.at <= |s.log| && !Legal(c.op, Plain(s.log[..c.at]))
  {}

  /** Every log entry comes from exactly one call ever made.  A call that has returned has exactly one
      entry, at a place between its call and now; a call that has panicked or is under way has none,
      and the one that has panicked was illegal on the registry as it was at some moment between its
      call and now. */
  lemma EachTakesEffectOnce(sts: seq<Step>, s: State, id: nat)
    requires Run(FRESH, sts, s) && id in s.threads
    ensures |s.owners| == |s.log| && id in s.latest
    ensures forall k | 0 <= k < |s.log| :: s.owners[k] < |s.calls| && s.calls[s.owners[k]] == s.log[k]
    ensures forall j, k | 0 <= j < k < |s.log| :: s.owners[j] != s.owners[k]
    ensures forall j | j in s.threads && j != id && s.threads[j].Done? && s.threads[id].Done? ::
              s.threads[j].at != s.threads[id].at
    ensures var c, call := s.threads[id], s.latest[id];
            && call < |s.calls| && s.calls[call] == c.op
            && (c.Done? ==> c.began <= c.at < |s.log| && s.log[c.at] == c.op && Legal(c.op, Plain(s.log[..c.at]))
                            && forall k | 0 <= k < |s.log| :: s.owners[k] == call <==> k == c.at)
            && (!c.Done? ==> forall k | 0 <= k < |s.log| :: s.owners[k] != call)
            && (c.Panicked? ==> c.began <= c.at <= |s.log| && !Legal(c.op, Plain(s.log[..c.at])))
  {
    FreshInv();
    RunKeeps(FRESH, sts, s);
    RunOnce(FRESH, sts, s);
    OnceMeans(s);
    EntriesOf(s, id);
    InvMeans(s);
    ThreadKnows(s, id);
    ThreadMeans(s, s.threads[id]);
  }

  lemma StaleCopy(s: State, c: Thread)
    requires Versions(s) && Numbered(s) && Knows(s, c) && c.Copied? && c.ptr != s.cur
    ensures c.at < |s.log|
  {}

  /** Some goroutine's swap always succeeds: a swap fails only if another one has succeeded since. */
  lemma FailedSwapMeansProgress(sts: seq<Step>, s: State, id: nat)
    requires Run(FRESH, sts, s) && Enabled(s, Swap(id)) && s.threads[id].ptr != s.cur
    ensures s.threads[id].at < |s.log|
  {
    FreshInv();
    RunKeeps(FRESH, sts, s);
    InvMeans(s);
    ThreadKnows(s, id);
    StaleCopy(s, s.threads[id]);
  }

  // ---- the copy loops

  lemma SameTable(a: Table, b: Table)
    requires a.Keys == b.Keys && forall k | k in a :: a[k] == b[k]
    ensures a == b
  {}

  /** No result, and the code panics, if and only if the name is there; otherwise the name joins with
      the transport, and every other name keeps its own. */
  ghost predicate Added(oldm: Table, name: Name, t: Transport, newm: Option<Table>) {
    match newm
    case None => name in oldm
    case Some(m) =>
      && name !in oldm && m.Keys == oldm.Keys + {name} && m[name] == t
      && forall k | k in oldm :: k in m && m[k] == oldm[k]
  }

  /** Likewise for a name that goes, with its transport `t`. */
  ghost predicate Removed(oldm: Table, name: Name, t: Transport, newm: Option<Table>) {
    match newm
    case None => name !in oldm
    case Some(m) =>
      && name in oldm && oldm[name] == t && m.Keys == oldm.Keys - {name}
      && forall k | k in oldm && k != name :: k in m && m[k] == oldm[k]
  }

  lemma AddedNow(oldm: Table, name: Name, t: Transport)
    requires name !in oldm
    ensures Added(oldm, name, t, Some(oldm[name := t]))
  {}

  lemma RemovedNow(oldm: Table, name: Name)
    requires name in oldm
    ensures Removed(oldm, name, oldm[name], Some(oldm - {name}))
  {}

  /** The body of addtransport's loop up to the swap; None where it panics. */
  method CopyToAdd(oldm: Table, name: Name, t: Transport) returns (newm: Option<Table>)
    ensures newm == if Legal(Add(name, t), oldm) then Some(After(Add(name, t), oldm)) else None
    ensures Added(oldm, name, t, newm)
  {
    var copy: Table := map[];
    var left := oldm.Keys;
    while left != {}
      invariant left <= oldm.Keys && copy.Keys == oldm.Keys - left && name !in copy
      invariant forall k | k in copy :: copy[k] == oldm[k]
      decreases |left|
    {
      var k :| k in left;
      if k == name { return None; }
      copy, left := copy[k := oldm[k]], left - {k};
    }
    SameTable(copy, oldm);
    AddedNow(oldm, name, t);
    newm := Some(copy[name := t]);
  }

  /** The same for deltransport, which copies first and looks for the name in the copy. */
  method CopyToDelete(oldm: Table, name: Name) returns (newm: Option<Table>, t: Transport)
    ensures newm == if Legal(Del(name), oldm) then Some(After(Del(name), oldm)) else None
    ensures Removed(oldm, name, t, newm)
  {
    var copy: Table := map[];
    var left := oldm.Keys;
    while left != {}
      invariant left <= oldm.Keys && copy.Keys == oldm.Keys - left
      invariant forall k | k in copy :: copy[k] == oldm[k]
      decreases |left|
    {
      var k :| k in left;
      copy, left := copy[k := oldm[k]], left - {k};
    }
    SameTable(copy, oldm);
    if name !in copy { return None, 0; }
    RemovedNow(oldm, name);
    t := copy[name];
    newm := Some(copy - {name});
  }
}
