/**
  The handshake message: msg_whoami.go and version64.go.  Decoding undoes encoding exactly when the
  name and the tag list are short enough for the length fields in front of them.
*/
module Whoami {
  import opened Wire
  import opened Cbor

  /** The message as a value; the version is a Version64, any 64-bit number. */
  datatype Value = Value(name: seq<byte>, version: Word, buffersize: Word, tags: seq<byte>)

  const VERSION_SIZE: nat := 9

  function Size(w: Value): nat { 1 + |w.name| + VERSION_SIZE + 8 + 2 + |w.tags| }

  /** The bytes of a message.  The two length fields keep only the low byte, or two bytes. */
  function Encoded(w: Value): seq<byte> {
    [|w.name| % 256] + (w.name + (Uint(w.version) + (PutBE(w.buffersize, 8) + (PutBE(|w.tags|, 2) + w.tags))))
  }

  /** Reading them back from a message with the bytes `behind` after it in its buffer.  None where the
      code panics.  Only the last slice can reach the bytes behind: the reads before it stop at the
      end of the message. */
  function Decoded(s: seq<byte>, behind: seq<byte>): Option<(Value, nat)> {
    if s == [] || 1 + s[0] as nat >= |s| then None
    else
      var a: nat := 1 + s[0] as nat;
      var (v, m) := ItemLength(s[a..]);
      var b := a + m;
      if b + 10 > |s| || !(-TWO63 <= v < TWO63) then None
      else
        BE8Bound(s[b..b + 8]);
        var ln := GetBE(s[b + 8..b + 10]);
        if b + 10 + ln > |s + behind| then None
        else Some((Value(s[1..a], Uint64(v), GetBE(s[b..b + 8]), (s + behind)[b + 10..b + 10 + ln]), b + 10 + ln))
  }

  // ---- the length fields

  lemma TwoBytes(v: nat)
    ensures GetBE(PutBE(v, 2)) == v % 0x1_0000
  {
    var hi, lo := v / 256, v % 256;
    assert PutBE(v, 2) == PutBE(hi, 1) + [lo];
    assert PutBE(hi, 1) == PutBE(hi / 256, 0) + [hi % 256];
    assert PutBE(v, 2) == [hi % 256, lo];
    assert [hi % 256, lo][..1] == [hi % 256] && [hi % 256][..0] == [];
    assert GetBE([hi % 256]) == hi % 256;
    assert v % 0x1_0000 == 256 * (hi % 256) + lo;
  }

  lemma EightBytes(v: Word)
    ensures GetBE(PutBE(v, 8)) == v
  {
    Powers();
    GetPutBE(v, 8);
  }

  /** A Version64 survives the trip through a signed 64-bit number, above 2^63 as well. */
  lemma VersionRoundTrip(v: Word, rest: seq<byte>)
    ensures var (i, n) := ItemLength(Uint(v) + rest);
            -TWO63 <= i < TWO63 && Uint64(i) == v && n == |Uint(v)| <= VERSION_SIZE
  {
    HeadRoundTrip(0, v, rest);
    Int64Inverse(v);
  }

  // ---- round trip

  /** Where six pieces lie in their concatenation. */
  lemma Positions(s: seq<byte>, p: seq<byte>, q: seq<byte>, v: seq<byte>, z: seq<byte>, l: seq<byte>, t: seq<byte>,
                  rest: seq<byte>)
    requires s == p + (q + (v + (z + (l + (t + rest)))))
    ensures var a := |p| + |q|; var b := a + |v|; var c := b + |z|; var d := c + |l|;
            && d + |t| <= |s| && s[..|p|] == p && s[|p|..a] == q && s[a..] == v + (z + (l + (t + rest)))
            && s[b..c] == z && s[c..d] == l && s[d..d + |t|] == t
  {
    After(s, 0, p, q + (v + (z + (l + (t + rest)))));
    After(s, |p|, q, v + (z + (l + (t + rest))));
    LaterPositions(s, |p| + |q|, v, z, l, t, rest);
  }

  lemma LaterPositions(s: seq<byte>, a: nat, v: seq<byte>, z: seq<byte>, l: seq<byte>, t: seq<byte>, rest: seq<byte>)
    requires a <= |s| && s[a..] == v + (z + (l + (t + rest)))
    ensures var b := a + |v|; var c := b + |z|; var d := c + |l|;
            d + |t| <= |s| && s[b..c] == z && s[c..d] == l && s[d..d + |t|] == t
  {
    var b := a + |v|;
    After(s, a, v, z + (l + (t + rest)));
    After(s, b, z, l + (t + rest));
    After(s, b + |z|, l, t + rest);
    After(s, b + |z| + |l|, t, rest);
  }

  /** The fields of `w` are found where they belong, the version ending at `b`. */
  ghost predicate Fields(s: seq<byte>, w: Value, b: nat) {
    (NameThere(s, w) && VersionThere(s, w, b) && RestThere(s, w, b)) == true
  }

  lemma FieldsNow(s: seq<byte>, w: Value, b: nat)
    requires NameThere(s, w) && VersionThere(s, w, b) && RestThere(s, w, b)
    ensures Fields(s, w, b)
  {}

  ghost predicate NameThere(s: seq<byte>, w: Value) {
    (s != [] && s[0] as nat == |w.name| && 1 + |w.name| < |s| && s[1..1 + |w.name|] == w.name) == true
  }

  ghost predicate VersionThere(s: seq<byte>, w: Value, b: nat) {
    (1 + |w.name| < |s| && var (v, m) := ItemLength(s[1 + |w.name|..]);
     -TWO63 <= v < TWO63 && Uint64(v) == w.version && b == 1 + |w.name| + m) == true
  }

  ghost predicate RestThere(s: seq<byte>, w: Value, b: nat) {
    (b + 10 + |w.tags| <= |s| && GetBE(s[b..b + 8]) == w.buffersize && GetBE(s[b + 8..b + 10]) == |w.tags|
     && s[b + 10..b + 10 + |w.tags|] == w.tags) == true
  }

  lemma FromFields(s: seq<byte>, behind: seq<byte>, w: Value, b: nat, n: nat)
    requires Fields(s, w, b) && n == b + 10 + |w.tags|
    ensures Decoded(s, behind) == Some((w, n))
  {
    assert b + 10 + |w.tags| <= |s| && (s + behind)[b + 10..b + 10 + |w.tags|] == s[b + 10..b + 10 + |w.tags|];
  }

  lemma NameAt(s: seq<byte>, w: Value, rest: seq<byte>)
    requires |w.name| <= 255 && s == [|w.name| % 256] + (w.name + rest) && rest != []
    ensures NameThere(s, w)
  {}

  lemma VersionAt(s: seq<byte>, w: Value, rest: seq<byte>)
    requires 1 + |w.name| < |s| && s[1 + |w.name|..] == Uint(w.version) + rest
    ensures VersionThere(s, w, 1 + |w.name| + |Uint(w.version)|)
  {
    VersionRoundTrip(w.version, rest);
  }

  lemma RestAt(s: seq<byte>, w: Value, b: nat)
    requires |w.tags| <= 65535 && b + 10 + |w.tags| <= |s| && s[b..b + 8] == PutBE(w.buffersize, 8)
    requires s[b + 8..b + 10] == PutBE(|w.tags|, 2) && s[b + 10..b + 10 + |w.tags|] == w.tags
    ensures RestThere(s, w, b)
  {
    EightBytes(w.buffersize);
    TwoBytes(|w.tags|);
  }

  lemma EncodedFields(w: Value, rest: seq<byte>)
    requires |w.name| <= 255 && |w.tags| <= 65535
    ensures Fields(Encoded(w) + rest, w, 1 + |w.name| + |Uint(w.version)|)
  {
    var s, v, z, l := Encoded(w) + rest, Uint(w.version), PutBE(w.buffersize, 8), PutBE(|w.tags|, 2);
    var tail := z + (l + (w.tags + rest));
    Open(w, rest);
    Positions(s, [|w.name| % 256], w.name, v, z, l, w.tags, rest);
    NameAt(s, w, v + tail);
    VersionAt(s, w, tail);
    RestAt(s, w, 1 + |w.name| + |v|);
    FieldsNow(s, w, 1 + |w.name| + |v|);
  }

  lemma DecodesBack(w: Value, rest: seq<byte>, behind: seq<byte>)
    requires |w.name| <= 255 && |w.tags| <= 65535
    ensures Decoded(Encoded(w) + rest, behind) == Some((w, |Encoded(w)|))
  {
    EncodedFields(w, rest);
    FromFields(Encoded(w) + rest, behind, w, 1 + |w.name| + |Uint(w.version)|, |Encoded(w)|);
  }

  lemma Open(w: Value, rest: seq<byte>)
    ensures Encoded(w) + rest == [|w.name| % 256] + (w.name + (Uint(w.version) + (PutBE(w.buffersize, 8)
                                   + (PutBE(|w.tags|, 2) + (w.tags + rest)))))
  {}

  lemma DecodedIsShort(s: seq<byte>, behind: seq<byte>)
    requires Decoded(s, behind).Some?
    ensures var (w, n) := Decoded(s, behind).value; |w.name| <= 255 && |w.tags| <= 65535 && n <= |s + behind|
  {
    var a: nat := 1 + s[0] as nat;
    var b := a + ItemLength(s[a..]).1;
    PutGetBE(s[b + 8..b + 10]);
    Powers();
  }

  /** Decoding undoes encoding and takes exactly the encoded bytes, whatever follows them, if and only
      if the name has at most 255 bytes and the tag list at most 65535. */
  lemma RoundTripIffShort(w: Value, rest: seq<byte>, behind: seq<byte>)
    ensures Decoded(Encoded(w) + rest, behind) == Some((w, |Encoded(w)|)) <==> |w.name| <= 255 && |w.tags| <= 65535
  {
    if |w.name| <= 255 && |w.tags| <= 65535 {
      DecodesBack(w, rest, behind);
    } else if Decoded(Encoded(w) + rest, behind).Some? {
      DecodedIsShort(Encoded(w) + rest, behind);
    }
  }

  /** An encoding never exceeds the announced size, which it falls short of only by what the version
      needs less than nine bytes. */
  lemma EncodedFits(w: Value)
    ensures |Encoded(w)| == Size(w) - (VERSION_SIZE - |Uint(w.version)|) <= Size(w)
  {}

  /** One field more in the buffer. */
  method Append(out: array<byte>, n: nat, p: seq<byte>) returns (n': nat)
    requires n + |p| <= out.Length
    modifies out
    ensures n' == n + |p| && out[..n'] == old(out[..n]) + p
  {
    var k := Copy(out, n, p);
    n' := n + k;
  }

  /** The name, its length in one byte before it. */
  method AppendName(out: array<byte>, name: seq<byte>) returns (n: nat)
    requires 1 + |name| <= out.Length
    modifies out
    ensures n == 1 + |name| && out[..n] == [|name| % 256] + name
  {
    n := Append(out, 0, [|name| % 256]);
    n := Append(out, n, name);
  }

  /** Version64's Encode, by way of a scratch buffer. */
  method AppendVersion(out: array<byte>, n: nat, version: Word) returns (n': nat)
    requires n + VERSION_SIZE <= out.Length
    modifies out
    ensures n' == n + |Uint(version)| && out[..n'] == old(out[..n]) + Uint(version)
  {
    var scratch := new byte[VERSION_SIZE](_ => 0);
    var m := ValUint64(version, scratch, 0);
    assert scratch[..m] == Uint(version);
    n' := Append(out, n, scratch[..m]);
  }

  lemma Flat(p: seq<byte>, q: seq<byte>, v: seq<byte>, z: seq<byte>, l: seq<byte>, t: seq<byte>)
    ensures p + q + v + z + l + t == p + (q + (v + (z + (l + t))))
  {}

  class WhoamiMsg {
    var name: seq<byte>
    var version: Word
    var buffersize: Word
    var tags: seq<byte>

    function Message(): Value
      reads this
    {
      Value(name, version, buffersize, tags)
    }

    constructor (w: Value)
      ensures Message() == w
    {
      name, version, buffersize, tags := w.name, w.version, w.buffersize, w.tags;
    }

    /** The first half of Encode: the name and the version. */
    method EncodeNames(out: array<byte>) returns (n: nat)
      requires out.Length >= Size(Message())
      modifies out
      ensures n == 1 + |name| + |Uint(version)| <= out.Length
      ensures out[..n] == [|name| % 256] + name + Uint(version)
    {
      n := AppendName(out, name);
      n := AppendVersion(out, n, version);
    }

    /** Encode, with its running index into a buffer of the announced size. */
    method Encode(out: array<byte>) returns (n: nat)
      requires out.Length >= Size(Message())
      modifies out
      ensures n <= out.Length && out[..n] == Encoded(Message())
    {
      n := EncodeNames(out);
      n := Append(out, n, PutBE(buffersize, 8));
      n := Append(out, n, PutBE(|tags|, 2));
      n := Append(out, n, tags);
      Flat([|name| % 256], name, Uint(version), PutBE(buffersize, 8), PutBE(|tags|, 2), tags);
    }

    /** Decode; `ok` is false where the code panics. */
    method Decode(s: seq<byte>, behind: seq<byte>) returns (ok: bool, n: int)
      modifies this
      ensures ok <==> Decoded(s, behind).Some?
      ensures ok ==> 0 <= n && Decoded(s, behind) == Some((Message(), n))
    {
      if |s| == 0 { return false, 0; }
      var ln: nat := s[0];
      n := 1;
      if n + ln > |s| { return false, n; }
      name, n := s[n..n + ln], n + ln;
      if n == |s| { return false, n; }
      var (val, m) := ItemLength(s[n..]);
      if !(-TWO63 <= val < TWO63) { return false, n; }
      version, n := Uint64(val), n + m;
      if n + 8 > |s| { return false, n; }
      BE8Bound(s[n..n + 8]);
      buffersize, n := GetBE(s[n..n + 8]), n + 8;
      if n + 2 > |s| { return false, n; }
      ln, n := GetBE(s[n..n + 2]), n + 2;
      if n + ln > |s + behind| { return false, n; }
      tags, n := (s + behind)[n..n + ln], n + ln;
      ok := true;
    }
  }

  /** What one end encodes the other end decodes, through real buffers. */
  method Exchange(sender: WhoamiMsg, receiver: WhoamiMsg, out: array<byte>) returns (ok: bool, n: int)
    requires out.Length >= Size(sender.Message()) && sender != receiver
    requires |sender.name| <= 255 && |sender.tags| <= 65535
    modifies out, receiver
    ensures ok && receiver.Message() == sender.Message() == old(sender.Message()) && n == |Encoded(sender.Message())|
  {
    var k := sender.Encode(out);
    RoundTripIffShort(sender.Message(), [], out[k..]);
    assert Encoded(sender.Message()) + [] == Encoded(sender.Message());
    ok, n := receiver.Decode(out[..k], out[k..]);
  }
}
