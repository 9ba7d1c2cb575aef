/** Recursive Length Prefix encoding (payment/internal/cdp/rlp.go), Appendix B of the
    Ethereum Yellow Paper. */
module Rlp {
  import opened Collections
  import opened Bytes

  /** What rlpEncode accepts: byte strings, uint64 and big integers, and nested lists. */
  datatype Value =
    | Str(b: seq<Byte>)
    | Uint(n: nat)
    | Big(i: int)
    | List(items: seq<Value>)

  const TWO63: int := 0x8000_0000_0000_0000
  const TWO64: int := 0x1_0000_0000_0000_0000

  /* ---- numbers ---- */

  /** The bytes of a number without leading zeros. */
  function MinBytes(n: nat): seq<Byte> { if n == 0 then [] else MinBytes(n / 256) + [n % 256] }

  lemma {:induction false} MinBytesRight(n: nat)
    ensures Bytes.Value(MinBytes(n)) == n && (n > 0 ==> MinBytes(n) != [] && MinBytes(n)[0] != 0)
  {
    if n > 0 {
      var s := MinBytes(n);
      assert s[..|s| - 1] == MinBytes(n / 256);
      MinBytesRight(n / 256);
      if n >= 256 { assert s[0] == MinBytes(n / 256)[0]; }
    }
  }

  lemma {:induction false} MinBytesLength(n: nat, w: nat)
    requires n < Pow256(w)
    ensures |MinBytes(n)| <= w
  {
    if n > 0 { MinBytesLength(n / 256, w - 1); }
  }

  /** One more digit. */
  lemma MinBytesStep(q: nat, r: Byte)
    requires q > 0 || r > 0
    ensures MinBytes(256 * q + r) == MinBytes(q) + [r]
  {
    assert (256 * q + r) / 256 == q && (256 * q + r) % 256 == r;
  }

  /** The only string without a leading zero that has its value. */
  lemma {:induction false} MinBytesUnique(s: seq<Byte>, v: nat)
    requires (s == [] || s[0] != 0) && v == Bytes.Value(s)
    ensures MinBytes(v) == s
  {
    if s != [] {
      var front, last := s[..|s| - 1], s[|s| - 1];
      var q := Bytes.Value(front);
      FrontPositive(s);
      MinBytesUnique(front, q);
      MinBytesStep(q, last);
      assert s == front + [last];
    }
  }

  lemma FrontPositive(s: seq<Byte>)
    requires s != [] && s[0] != 0
    ensures var front := s[..|s| - 1]; (front == [] || front[0] != 0) && (Bytes.Value(front) > 0 || s[|s| - 1] > 0)
  {
    var front := s[..|s| - 1];
    if front != [] {
      assert front[0] == s[0];
      Positive(front);
    }
  }

  lemma {:induction false} Positive(s: seq<Byte>)
    requires s != [] && s[0] != 0
    ensures Bytes.Value(s) > 0
  {
    var n := |s| - 1;
    if n > 0 {
      assert s[..n][0] == s[0];
      Positive(s[..n]);
    }
  }

  function Abs(i: int): nat { if i < 0 then -i else i }

  /** int64(n) of a uint64. */
  function AsInt64(n: nat): int { if n < TWO63 then n else n - TWO64 }

  /** The byte string a value without list structure is encoded as. */
  function Content(v: Value): seq<Byte>
    requires !v.List?
  {
    match v
    case Str(b) => b
    case Uint(n) => MinBytes(Abs(AsInt64(n)))
    case Big(i) => MinBytes(Abs(i))
  }

  /* ---- encoding ---- */

  function LengthPrefix(n: nat, offset: nat): seq<Byte> {
    if n <= 55 then [(offset + n) % 256]
    else [(offset + 55 + |MinBytes(n)|) % 256] + MinBytes(n)
  }

  function EncodeBytes(b: seq<Byte>): seq<Byte> {
    if |b| == 1 && b[0] < 0x80 then b else LengthPrefix(|b|, 0x80) + b
  }

  function Encode(v: Value): seq<Byte>
    decreases v, 0
  {
    if v.List? then LengthPrefix(|EncodeFrom(v, 0)|, 0xc0) + EncodeFrom(v, 0) else EncodeBytes(Content(v))
  }

  /** The encodings of the items from i on, one after the other. */
  function EncodeFrom(v: Value, i: nat): seq<Byte>
    requires v.List? && i <= |v.items|
    decreases v, 0, |v.items| - i
  {
    if i == |v.items| then [] else Encode(v.items[i]) + EncodeFrom(v, i + 1)
  }

  method RlpEncode(v: Value) returns (out: seq<Byte>)
    ensures out == Encode(v)
    decreases v
  {
    match v
    case Str(b) => out := RlpEncodeBytes(b);
    case Uint(n) => out := RlpEncodeUint(n);
    case Big(i) =>
      if i == 0 { return [0x80]; }
      out := RlpEncodeBytes(MinBytes(Abs(i)));
    case List(items) =>
      out := [];
      for i := 0 to |items|
        invariant out + EncodeFrom(v, i) == EncodeFrom(v, 0)
      {
        var e := RlpEncode(items[i]);
        assert out + (e + EncodeFrom(v, i + 1)) == out + e + EncodeFrom(v, i + 1);
        out := out + e;
      }
      assert out + [] == out;
      out := AppendLengthPrefix(out, 0xc0);
  }

  method RlpEncodeUint(n: nat) returns (out: seq<Byte>)
    ensures out == Encode(Uint(n))
  {
    if n == 0 { return [0x80]; }
    out := RlpEncodeBytes(MinBytes(Abs(AsInt64(n))));
  }

  method RlpEncodeBytes(b: seq<Byte>) returns (out: seq<Byte>)
    ensures out == EncodeBytes(b)
  {
    if |b| == 1 && b[0] < 0x80 { return b; }
    out := AppendLengthPrefix(b, 0x80);
  }

  method AppendLengthPrefix(payload: seq<Byte>, offset: Byte) returns (out: seq<Byte>)
    ensures out == LengthPrefix(|payload|, offset) + payload
  {
    var n := |payload|;
    if n <= 55 { return [(offset + n) % 256] + payload; }
    var lenBytes := MinBytes(n);
    return [(offset + 55 + |lenBytes|) % 256] + lenBytes + payload;
  }

  /* ---- a specification decoder ---- */

  /** Byte strings and lists of them: what an encoding can be read back as. */
  datatype Tree = Leaf(b: seq<Byte>) | Node(items: seq<Tree>)

  datatype Decoded<T> = Ok(value: T, rest: seq<Byte>) | Bad

  /** The length announced after a first byte at distance d above its offset, and how many
      bytes announced it. Long forms must be needed and must not start with a zero. */
  function Announced(d: nat, s: seq<Byte>): Option<(nat, nat)> {
    if d <= 55 then Some((d, 0))
    else if |s| < d - 55 || s[0] == 0 || Bytes.Value(s[..d - 55]) <= 55 then None
    else Some((Bytes.Value(s[..d - 55]), d - 55))
  }

  /** The payload announced by the first byte of s, and what follows it. */
  function Payload(s: seq<Byte>, offset: nat): (r: Decoded<seq<Byte>>)
    requires s != [] && s[0] >= offset
    ensures r.Ok? ==> |r.value| + |r.rest| < |s|
  {
    var a := Announced(s[0] - offset, s[1..]);
    if a.None? then Bad
    else
      var (n, k) := a.value;
      if |s| - 1 - k < n then Bad else Ok(s[1 + k..1 + k + n], s[1 + k + n..])
  }

  function Decode(s: seq<Byte>): (r: Decoded<Tree>)
    ensures r.Ok? ==> |r.rest| < |s|
    decreases |s|, 0
  {
    if s == [] then Bad
    else if s[0] < 0x80 then Ok(Leaf([s[0]]), s[1..])
    else if s[0] < 0xc0 then
      var p := Payload(s, 0x80);
      if p.Bad? || (|p.value| == 1 && p.value[0] < 0x80) then Bad else Ok(Leaf(p.value), p.rest)
    else
      var p := Payload(s, 0xc0);
      if p.Bad? then Bad
      else
        var d := DecodeAll(p.value);
        if d.Bad? then Bad else Ok(Node(d.value), p.rest)
  }

  function DecodeAll(s: seq<Byte>): Decoded<seq<Tree>>
    decreases |s|, 1
  {
    if s == [] then Ok([], [])
    else
      var d := Decode(s);
      if d.Bad? then Bad
      else
        var r := DecodeAll(d.rest);
        if r.Bad? then Bad else Ok([d.value] + r.value, [])
  }

  /** What a value is read back as. */
  ghost function Shape(v: Value): Tree
    decreases v, 0
  {
    if v.List? then Node(ShapesFrom(v, 0)) else Leaf(Content(v))
  }

  ghost function ShapesFrom(v: Value, i: nat): seq<Tree>
    requires v.List? && i <= |v.items|
    decreases v, 0, |v.items| - i
  {
    if i == |v.items| then [] else [Shape(v.items[i])] + ShapesFrom(v, i + 1)
  }

  /** Every payload is shorter than 2^64 bytes, as any payload in memory is. */
  ghost predicate Sized(v: Value)
    decreases v, 0
  {
    if v.List? then |EncodeFrom(v, 0)| < TWO64 && SizedFrom(v, 0) else |Content(v)| < TWO64
  }

  ghost predicate SizedFrom(v: Value, i: nat)
    requires v.List? && i <= |v.items|
    decreases v, 0, |v.items| - i
  {
    i == |v.items| || (Sized(v.items[i]) && SizedFrom(v, i + 1))
  }

  /* ---- round trip ---- */

  lemma ShortReads(p: seq<Byte>, offset: nat, t: seq<Byte>)
    requires |p| <= 55 && offset <= 0xc0
    ensures var s := LengthPrefix(|p|, offset) + p + t;
            s[0] == offset + |p| && Payload(s, offset) == Ok(p, t)
  {
    assert LengthPrefix(|p|, offset) == [offset + |p|] + [];
    Cut(offset + |p|, [], p, t);
  }

  lemma LongAnnounced(n: nat, t: seq<Byte>)
    requires 55 < n < TWO64
    ensures 1 <= |MinBytes(n)| <= 8 && Announced(55 + |MinBytes(n)|, MinBytes(n) + t) == Some((n, |MinBytes(n)|))
  {
    MinBytesRight(n);
    Pow256Values();
    MinBytesLength(n, 8);
    var m := MinBytes(n);
    assert (m + t)[..|m|] == m && (m + t)[0] == m[0];
  }

  lemma LongReads(p: seq<Byte>, offset: nat, t: seq<Byte>)
    requires 55 < |p| < TWO64 && offset <= 0xc0
    ensures var s := LengthPrefix(|p|, offset) + p + t;
            offset + 55 < s[0] <= offset + 63 && Payload(s, offset) == Ok(p, t)
  {
    var m := MinBytes(|p|);
    LongAnnounced(|p|, p + t);
    var b: Byte := offset + 55 + |m|;
    assert LengthPrefix(|p|, offset) == [b] + m;
    PayloadAnnounced(b, m, p, t, offset);
  }

  lemma PayloadAnnounced(b: Byte, m: seq<Byte>, p: seq<Byte>, t: seq<Byte>, offset: nat)
    requires b >= offset && Announced(b - offset, m + (p + t)) == Some((|p|, |m|))
    ensures ([b] + m + p + t)[0] == b && Payload([b] + m + p + t, offset) == Ok(p, t)
  {
    Cut(b, m, p, t);
  }

  lemma Cut(b: Byte, m: seq<Byte>, p: seq<Byte>, t: seq<Byte>)
    ensures var s, k, n := [b] + m + p + t, |m|, |p|;
            s[0] == b && s[1..] == m + (p + t) && s[1 + k..1 + k + n] == p && s[1 + k + n..] == t
  {
  }

  lemma PrefixReads(p: seq<Byte>, offset: nat, t: seq<Byte>)
    requires |p| < TWO64 && offset <= 0xc0
    ensures var s := LengthPrefix(|p|, offset) + p + t;
            offset <= s[0] < offset + 64 && Payload(s, offset) == Ok(p, t)
  {
    if |p| <= 55 { ShortReads(p, offset, t); } else { LongReads(p, offset, t); }
  }

  lemma BytesRoundTrip(b: seq<Byte>, t: seq<Byte>)
    requires |b| < TWO64
    ensures Decode(EncodeBytes(b) + t) == Ok(Leaf(b), t)
  {
    if |b| == 1 && b[0] < 0x80 {
      var s := b + t;
      assert s[1..] == t && b == [s[0]];
    } else {
      PrefixReads(b, 0x80, t);
    }
  }

  /** The decoder undoes the encoding, whatever follows it. */
  lemma {:induction false} RoundTrip(v: Value, t: seq<Byte>)
    requires Sized(v)
    ensures Decode(Encode(v) + t) == Ok(Shape(v), t)
    decreases v, 0
  {
    if v.List? {
      PrefixReads(EncodeFrom(v, 0), 0xc0, t);
      RoundTripFrom(v, 0);
    } else {
      BytesRoundTrip(Content(v), t);
    }
  }

  lemma {:induction false} RoundTripFrom(v: Value, i: nat)
    requires v.List? && i <= |v.items| && SizedFrom(v, i)
    ensures DecodeAll(EncodeFrom(v, i)) == Ok(ShapesFrom(v, i), [])
    decreases v, 0, |v.items| - i
  {
    if i < |v.items| {
      RoundTrip(v.items[i], EncodeFrom(v, i + 1));
      RoundTripFrom(v, i + 1);
      NotEmpty(v.items[i], EncodeFrom(v, i + 1));
    }
  }

  lemma NotEmpty(v: Value, t: seq<Byte>)
    ensures Encode(v) + t != []
  {
  }

  /** Uniquely decodable and prefix-free: if two encodings followed by anything are the same
      bytes, they encode the same nested byte strings and the same bytes follow. */
  lemma PrefixFree(v: Value, w: Value, t: seq<Byte>, u: seq<Byte>)
    requires Sized(v) && Sized(w) && Encode(v) + t == Encode(w) + u
    ensures Shape(v) == Shape(w) && t == u
  {
    RoundTrip(v, t);
    RoundTrip(w, u);
  }

  /* ---- nothing else is an encoding ---- */

  /** The value a tree stands for. */
  function Plain(t: Tree): Value
    decreases t, 0
  {
    match t
    case Leaf(b) => Str(b)
    case Node(items) => List(PlainFrom(t, 0))
  }

  function PlainFrom(t: Tree, i: nat): seq<Value>
    requires t.Node? && i <= |t.items|
    decreases t, 0, |t.items| - i
  {
    if i == |t.items| then [] else [Plain(t.items[i])] + PlainFrom(t, i + 1)
  }

  /** The encodings of some trees, one after the other. */
  ghost function EncodeTrees(ts: seq<Tree>): seq<Byte> {
    if ts == [] then [] else Encode(Plain(ts[0])) + EncodeTrees(ts[1..])
  }

  lemma {:induction false} PlainFromAt(t: Tree, i: nat, j: nat)
    requires t.Node? && i <= j < |t.items|
    ensures |PlainFrom(t, i)| == |t.items| - i && PlainFrom(t, i)[j - i] == Plain(t.items[j])
    decreases |t.items| - i
  {
    if i + 1 < |t.items| { PlainFromAt(t, i + 1, if j == i then j + 1 else j); }
  }

  lemma {:induction false} EncodeNode(t: Tree, i: nat)
    requires t.Node? && i <= |t.items|
    ensures |Plain(t).items| == |t.items| && EncodeFrom(Plain(t), i) == EncodeTrees(t.items[i..])
    decreases |t.items| - i
  {
    if t.items != [] { PlainFromAt(t, 0, if i < |t.items| then i else 0); }
    if i < |t.items| {
      EncodeNode(t, i + 1);
      assert t.items[i..][1..] == t.items[i + 1..];
    }
  }

  lemma ShortIsPrefix(s: seq<Byte>, offset: nat)
    requires s != [] && offset <= s[0] <= offset + 55 && Payload(s, offset).Ok?
    ensures var p := Payload(s, offset); s == LengthPrefix(|p.value|, offset) + p.value + p.rest
  {
  }

  lemma AnnouncedMinimally(d: nat, s: seq<Byte>)
    requires d > 55 && Announced(d, s).Some?
    ensures var (n, k) := Announced(d, s).value; n > 55 && k == d - 55 && k <= |s| && s[..k] == MinBytes(n)
  {
    var m := s[..d - 55];
    assert m[0] == s[0];
    MinBytesUnique(m, Bytes.Value(m));
  }

  lemma LongIsPrefix(s: seq<Byte>, offset: nat)
    requires s != [] && offset + 55 < s[0] && Payload(s, offset).Ok?
    ensures var p := Payload(s, offset); s == LengthPrefix(|p.value|, offset) + p.value + p.rest
  {
    var p, k := Payload(s, offset), s[0] - offset - 55;
    AnnouncedMinimally(s[0] - offset, s[1..]);
    var m := s[1..][..k];
    assert LengthPrefix(|p.value|, offset) == [s[0]] + m;
    Reassemble(s, k, |p.value|);
  }

  lemma Reassemble(s: seq<Byte>, k: nat, n: nat)
    requires 1 + k + n <= |s|
    ensures s == [s[0]] + s[1..][..k] + s[1 + k..1 + k + n] + s[1 + k + n..]
  {
  }

  lemma PayloadIsPrefixed(s: seq<Byte>, offset: nat)
    requires s != [] && s[0] >= offset && Payload(s, offset).Ok?
    ensures var p := Payload(s, offset); s == LengthPrefix(|p.value|, offset) + p.value + p.rest
  {
    if s[0] <= offset + 55 { ShortIsPrefix(s, offset); } else { LongIsPrefix(s, offset); }
  }

  /** Every length prefix is minimal: whatever the decoder, which refuses needless long forms
      and leading zeros, reads as a tree is exactly the encoding of that tree. */
  lemma {:induction false} OnlyEncodingsDecode(s: seq<Byte>)
    requires Decode(s).Ok?
    ensures s == Encode(Plain(Decode(s).value)) + Decode(s).rest
    decreases |s|, 0
  {
    if s[0] < 0x80 {
      assert s == [s[0]] + s[1..];
    } else if s[0] < 0xc0 {
      PayloadIsPrefixed(s, 0x80);
    } else {
      var p := Payload(s, 0xc0);
      PayloadIsPrefixed(s, 0xc0);
      OnlyEncodingsDecodeAll(p.value);
      EncodeNode(Decode(s).value, 0);
      assert Decode(s).value.items[0..] == DecodeAll(p.value).value;
    }
  }

  lemma {:induction false} OnlyEncodingsDecodeAll(s: seq<Byte>)
    requires DecodeAll(s).Ok?
    ensures s == EncodeTrees(DecodeAll(s).value)
    decreases |s|, 1
  {
    if s != [] {
      var d, ts := Decode(s), DecodeAll(s).value;
      OnlyEncodingsDecode(s);
      OnlyEncodingsDecodeAll(d.rest);
      assert ts[1..] == DecodeAll(d.rest).value;
    }
  }

  /* ---- integers ---- */

  /** A big integer encodes as the big-endian bytes of its magnitude without leading zeros, and
      its sign is lost: two of them share an encoding exactly when their magnitudes agree. */
  lemma BigEncoding(i: int, j: int)
    requires Sized(Big(i)) && Sized(Big(j))
    ensures Bytes.Value(Content(Big(i))) == (if i < 0 then -i else i) && (Content(Big(i)) == [] || Content(Big(i))[0] != 0)
    ensures Encode(Big(i)) == Encode(Big(j)) <==> i == j || i == -j
  {
    BigContent(i);
    BigContent(j);
    if i == j || i == -j {
      assert Content(Big(i)) == Content(Big(j));
    } else if Encode(Big(i)) == Encode(Big(j)) {
      SameContent(Big(i), Big(j));
    }
  }

  lemma BigContent(i: int)
    ensures Bytes.Value(Content(Big(i))) == (if i < 0 then -i else i) && (Content(Big(i)) == [] || Content(Big(i))[0] != 0)
    ensures Content(Big(i)) == Content(Big(-i))
  {
    MinBytesRight(Abs(i));
  }

  lemma SameContent(v: Value, w: Value)
    requires !v.List? && !w.List? && Sized(v) && Sized(w) && Encode(v) == Encode(w)
    ensures Content(v) == Content(w)
  {
    RoundTrip(v, []);
    RoundTrip(w, []);
  }

  /** A uint64 up to 2^63 encodes as its big-endian bytes without leading zeros; above, the
      cast to int64 makes it the encoding of 2^64 - n. */
  lemma UintEncoding(n: nat)
    requires n < TWO64
    ensures Bytes.Value(Content(Uint(n))) == if n <= TWO63 then n else TWO64 - n
    ensures Encode(Uint(n)) == Encode(Big(n)) <==> n <= TWO63
    ensures Content(Uint(n)) == [] || Content(Uint(n))[0] != 0
  {
    MinBytesRight(Abs(AsInt64(n)));
    MinBytesRight(n);
    Pow256Values();
    MinBytesLength(Abs(AsInt64(n)), 8);
    MinBytesLength(n, 8);
    if Encode(Uint(n)) == Encode(Big(n)) {
      RoundTrip(Uint(n), []);
      RoundTrip(Big(n), []);
      assert MinBytes(Abs(AsInt64(n))) == MinBytes(n);
    }
  }
}
