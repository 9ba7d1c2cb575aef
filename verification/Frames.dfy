/** The binary reply of a rendezvous (a2a/rendezvous_binary.go): frames of an int64 sequence
    number, a uint32 length and the data, back to back. */
module Frames {
  import opened Collections
  import opened Bytes

  datatype Item = Item(seq_: int, data: seq<Byte>)
  datatype Read<T> = Done(value: T) | Malformed

  const MAX_BLOB: nat := 0x40_0000
  const HEADER: nat := 12
  const TWO63: int := 0x8000_0000_0000_0000
  const TWO64: int := 0x1_0000_0000_0000_0000

  ghost predicate Int64(n: int) { -TWO63 <= n < TWO63 }

  /** The casts between int64 and uint64. */
  function Unsigned(n: int): nat
    requires -TWO63 <= n < TWO63
  {
    if n < 0 then n + TWO64 else n
  }

  function Signed(u: nat): int { if u < TWO63 then u else u - TWO64 }

  function Frame(it: Item): seq<Byte>
    requires -TWO63 <= it.seq_ < TWO63
  {
    BigEndian(Unsigned(it.seq_), 8) + BigEndian(|it.data|, 4) + it.data
  }

  ghost predicate Writable(items: seq<Item>) {
    forall i :: 0 <= i < |items| ==> Int64(items[i].seq_)
  }

  /** The frames of items, back to back. */
  ghost function Encoded(items: seq<Item>): seq<Byte>
    requires Writable(items)
  {
    if items == [] then [] else Frame(items[0]) + Encoded(items[1..])
  }

  ghost predicate Fits(items: seq<Item>) { forall i :: 0 <= i < |items| ==> |items[i].data| <= MAX_BLOB }

  method WriteItems(items: seq<Item>) returns (out: Read<seq<Byte>>)
    requires Writable(items)
    ensures out == if Fits(items) then Done(Encoded(items)) else Malformed
  {
    var s: seq<Byte> := [];
    for i := 0 to |items|
      invariant Fits(items[..i])
      invariant s + Encoded(items[i..]) == Encoded(items)
    {
      if |items[i].data| > MAX_BLOB { return Malformed; }
      assert items[i..][1..] == items[i + 1..];
      s := s + (BigEndian(Unsigned(items[i].seq_), 8) + BigEndian(|items[i].data|, 4) + items[i].data);
      assert Frame(items[i]) + Encoded(items[i + 1..]) == Encoded(items[i..]);
    }
    assert items[|items|..] == [] && items[..|items|] == items && s + [] == s;
    return Done(s);
  }

  /** The length announced for items: a header and the data of each. */
  ghost function Announced(items: seq<Item>): nat {
    if items == [] then 0 else HEADER + |items[0].data| + Announced(items[1..])
  }

  method BinarySize(items: seq<Item>) returns (n: nat)
    ensures n == Announced(items)
  {
    n := 0;
    for i := 0 to |items|
      invariant n + Announced(items[i..]) == Announced(items)
    {
      assert items[i..][1..] == items[i + 1..];
      n := n + HEADER + |items[i].data|;
    }
  }

  /** The announced length is the length written. */
  lemma {:induction false} AnnouncedIsWritten(items: seq<Item>)
    requires Writable(items)
    ensures |Encoded(items)| == Announced(items)
    decreases |items|
  {
    if items != [] { AnnouncedIsWritten(items[1..]); }
  }

  /** Reading frames to the end of the stream; `last` is the sequence number before. */
  ghost function Decoded(s: seq<Byte>, last: int): Read<seq<Item>>
    decreases |s|
  {
    if s == [] then Done([])
    else if |s| < HEADER then Malformed
    else
      var q, n := Signed(Value(s[..8])), Value(s[8..12]);
      if n > MAX_BLOB || q <= last || |s| - HEADER < n then Malformed
      else
        After([Item(q, s[HEADER..HEADER + n])], Decoded(s[HEADER + n..], q))
  }

  ghost function After(items: seq<Item>, r: Read<seq<Item>>): Read<seq<Item>> {
    if r.Malformed? then Malformed else Done(items + r.value)
  }

  lemma AfterOne(items: seq<Item>, it: Item, r: Read<seq<Item>>)
    ensures After(items + [it], r) == After(items, After([it], r))
  {
    if r.Done? { assert items + [it] + r.value == items + ([it] + r.value); }
  }

  lemma AfterNothing(items: seq<Item>, r: Read<seq<Item>>)
    ensures After([], r) == r && After(items, Done([])) == Done(items)
  {
    if r.Done? { assert [] + r.value == r.value; }
    assert items + [] == items;
  }

  method ReadItems(s: seq<Byte>) returns (out: Read<seq<Item>>)
    ensures out == Decoded(s, 0)
  {
    var items: seq<Item> := [];
    var pos, last := 0, 0;
    assert s[0..] == s;
    AfterNothing(items, Decoded(s, 0));
    while pos < |s|
      invariant 0 <= pos <= |s|
      invariant Decoded(s, 0) == After(items, Decoded(s[pos..], last))
      decreases |s| - pos
    {
      if |s| - pos < HEADER { return Malformed; }
      var t := s[pos..];
      var q, n := Signed(Value(t[..8])), Value(t[8..12]);
      if n > MAX_BLOB || q <= last || |t| - HEADER < n { return Malformed; }
      assert t[HEADER + n..] == s[pos + HEADER + n..];
      AfterOne(items, Item(q, t[HEADER..HEADER + n]), Decoded(t[HEADER + n..], q));
      items := items + [Item(q, t[HEADER..HEADER + n])];
      last, pos := q, pos + HEADER + n;
    }
    assert s[pos..] == [];
    AfterNothing(items, Done([]));
    return Done(items);
  }

  /** Strictly increasing sequence numbers above `last`, blobs within the cap. */
  ghost predicate Proper(items: seq<Item>, last: int) {
    items == [] || (items[0].seq_ > last && Int64(items[0].seq_) && |items[0].data| <= MAX_BLOB && Proper(items[1..], items[0].seq_))
  }

  lemma {:induction false} ProperIsWritable(items: seq<Item>, last: int)
    requires Proper(items, last)
    ensures Writable(items) && Fits(items)
    decreases |items|
  {
    if items != [] {
      ProperIsWritable(items[1..], items[0].seq_);
      forall i | 0 <= i < |items| ensures Int64(items[i].seq_) && |items[i].data| <= MAX_BLOB {
        if i > 0 { assert items[i] == items[1..][i - 1]; }
      }
    }
  }

  lemma HeaderRoundTrip(it: Item, rest: seq<Byte>)
    requires Int64(it.seq_) && |it.data| <= MAX_BLOB
    ensures var s := Frame(it) + rest;
            && |s| >= HEADER + |it.data| && Signed(Value(s[..8])) == it.seq_ && Value(s[8..12]) == |it.data|
            && s[HEADER..HEADER + |it.data|] == it.data && s[HEADER + |it.data|..] == rest
  {
    var s := Frame(it) + rest;
    Pow256Values();
    ValueOfBigEndian(Unsigned(it.seq_), 8);
    ValueOfBigEndian(|it.data|, 4);
    assert s[..8] == BigEndian(Unsigned(it.seq_), 8) && s[8..12] == BigEndian(|it.data|, 4);
  }

  /** Writing proper items and reading them back never fails and gives the same items. */
  lemma {:induction false} WrittenReadsBack(items: seq<Item>, last: int)
    requires Proper(items, last) && Writable(items)
    ensures Decoded(Encoded(items), last) == Done(items)
    decreases |items|
  {
    if items != [] {
      WrittenReadsBack(items[1..], items[0].seq_);
      HeaderRoundTrip(items[0], Encoded(items[1..]));
      assert items == [items[0]] + items[1..];
    }
  }

  lemma HeaderCanonical(s: seq<Byte>)
    requires |s| >= HEADER && |s| - HEADER >= Value(s[8..12]) && Value(s[8..12]) <= MAX_BLOB
    ensures var it := Item(Signed(Value(s[..8])), s[HEADER..HEADER + Value(s[8..12])]);
            Int64(it.seq_) && s == Frame(it) + s[HEADER + Value(s[8..12])..]
  {
    Pow256Values();
    BigEndianOfValue(s[..8]);
    BigEndianOfValue(s[8..12]);
  }

  /** Only what is written that way is accepted: a stream that reads as items is exactly the
      writing of those items, and they are proper. */
  lemma {:induction false} AcceptedIsWritten(s: seq<Byte>, last: int)
    requires Decoded(s, last).Done?
    ensures var items := Decoded(s, last).value; Proper(items, last) && Writable(items) && Encoded(items) == s
    decreases |s|
  {
    if s != [] {
      var items := Decoded(s, last).value;
      var q, n := Signed(Value(s[..8])), Value(s[8..12]);
      HeaderCanonical(s);
      AcceptedIsWritten(s[HEADER + n..], q);
      assert items[1..] == Decoded(s[HEADER + n..], q).value;
      ProperIsWritable(items, last);
    }
  }
}
