/** Vocabulary shared by the codec and by the exchange protocol. */
module Wire {
  type byte = x: int | 0 <= x < 256

  /** The five frame shapes.  A response travels in the same shape as a request. */
  datatype Kind = Post | Request | Start | StreamMsg | Finish

  /** A received message: its id and its encoded bytes. */
  datatype BinMessage = BinMessage(id: nat, data: seq<byte>)

  /** The zero message handed to a stream callback when the remote has closed. */
  const NO_MESSAGE := BinMessage(0, [])

  datatype Option<+T> = None | Some(value: T)

  // ---- sequences

  lemma Regroup<T>(a: seq<T>, b: seq<T>, c: seq<T>)
    ensures (a + b) + c == a + (b + c)
  {}

  lemma SnocRest<T>(q: seq<T>, x: T)
    requires q != []
    ensures (q + [x])[0] == q[0] && (q + [x])[1..] == q[1..] + [x]
  {}

  /** What is found from `n` on: first `p`, then `rest`. */
  lemma After<T>(s: seq<T>, n: nat, p: seq<T>, rest: seq<T>)
    requires n <= |s| && s[n..] == p + rest
    ensures n + |p| <= |s| && s[n + |p|..] == rest && s[n..n + |p|] == p
  {
    assert s[n + |p|..] == s[n..][|p|..];
    assert s[n..n + |p|] == s[n..][..|p|];
  }
}
