/** The sender-key ratchet of a group (a2a/group.go).

    Cryptography is ideal: chain keys and message keys are the terms that built them, so two
    of them are equal only when they were derived alike, and a ciphertext opens only under
    the key that sealed it. Each epoch of a sender starts from a fresh random chain, here
    the seed carrying the epoch's number. */
module Ratchet {
  import opened Collections

  datatype Chain = Seed(origin: int) | Next(prev: Chain)
  datatype Key = MsgKey(chain: Chain)

  /** What a group message asks for; everything that only fills the archive is Other. */
  datatype Kind = Text | Update | Dissolve | Other
  datatype Message = Message(from: int, id: int, kind: Kind, body: int)

  /** What a group envelope carries: anything, or a message sealed under a key. */
  datatype Cipher = Junk | Sealed(key: Key, plain: Message)
  datatype Blob = Blob(e: int, i: int, c: Cipher)

  const MAX_CHAIN_SKIP: nat := 4096
  const MAX_SKIPPED: nat := 512

  function Steps(c: Chain, n: nat): Chain { if n == 0 then c else Next(Steps(c, n - 1)) }

  /** The message key at index i of epoch e. */
  function KeyAt(e: int, i: nat): Key { MsgKey(Steps(Seed(e), i)) }

  lemma StepsAdd(c: Chain, m: nat, n: nat)
    ensures Steps(Steps(c, m), n) == Steps(c, m + n)
  {
  }

  lemma KeyAtInjective(e: int, i: nat, e': int, i': nat)
    requires KeyAt(e, i) == KeyAt(e', i')
    ensures e == e' && i == i'
    decreases i
  {
    if i > 0 && i' > 0 { KeyAtInjective(e, i - 1, e', i' - 1); }
  }

  /* ---- sending ---- */

  datatype Sender = Sender(epoch: int, index: nat, chain: Chain)

  ghost function Sealing(s: Sender, m: Message): (Sender, Blob) {
    (s.(index := s.index + 1, chain := Next(s.chain)), Blob(s.epoch, s.index, Sealed(MsgKey(s.chain), m)))
  }

  class SenderKey {
    var epoch: int
    var index: nat
    var chain: Chain

    ghost function View(): Sender reads this { Sender(epoch, index, chain) }

    constructor At(s: Sender)
      ensures View() == s
    {
      epoch, index, chain := s.epoch, s.index, s.chain;
    }

    method GroupSeal(m: Message) returns (b: Blob)
      modifies this
      ensures (View(), b) == Sealing(old(View()), m)
    {
      b := Blob(epoch, index, Sealed(MsgKey(chain), m));
      chain := Next(chain);
      index := index + 1;
    }
  }

  /* ---- receiving ---- */

  datatype Recv = Recv(epoch: int, index: nat, chain: Chain, skipped: map<int, Key>)

  datatype Outcome = Opened(m: Message) | KeyMissing | Superseded | Consumed | TooFar | BadCipher

  function Decrypt(k: Key, c: Cipher): Outcome {
    if c.Sealed? && c.key == k then Opened(c.plain) else BadCipher
  }

  /** The n largest of a set of indexes. */
  ghost function Newest(xs: set<int>, n: nat): set<int> {
    if |xs| <= n then xs else Tail(Sorted(xs), |xs| - n)
  }

  ghost function Prune(m: map<int, Key>): map<int, Key> {
    map i | i in m && i in Newest(m.Keys, MAX_SKIPPED) :: m[i]
  }

  /** The keys skipped over when reading moves from st.index to i. */
  function Skipping(st: Recv, i: int): map<int, Key>
    requires i >= st.index
  {
    st.skipped + map j | st.index <= j < i :: KeyFrom(st, j)
  }

  /** The message key that reading on from st reaches at index j. */
  function KeyFrom(st: Recv, j: int): Key
    requires j >= st.index
  {
    MsgKey(Steps(st.chain, j - st.index))
  }

  ghost function Advance(st: Recv, i: int): Recv
    requires i >= st.index
  {
    Recv(st.epoch, i + 1, Steps(st.chain, i - st.index + 1), Prune(Skipping(st, i)))
  }

  /** GroupOpen: the receive state it leaves behind, and the outcome. On a decryption failure
      the state has already moved; the caller must not persist it. */
  ghost function Opening(st: Recv, b: Blob): (Recv, Outcome) {
    if b.e > st.epoch then (st, KeyMissing)
    else if b.e < st.epoch then (st, Superseded)
    else if b.i < st.index then
      if b.i !in st.skipped then (st, Consumed)
      else (st.(skipped := st.skipped - {b.i}), Decrypt(st.skipped[b.i], b.c))
    else if b.i - st.index > MAX_CHAIN_SKIP then (st, TooFar)
    else (Advance(st, b.i), Decrypt(MsgKey(Steps(st.chain, b.i - st.index)), b.c))
  }

  method KeepNewest(was: map<int, Key>) returns (m: map<int, Key>)
    ensures m == Prune(was)
  {
    m := was;
    if |was.Keys| <= MAX_SKIPPED {
      assert Prune(was) == was;
      return;
    }
    var idx := SortSet(was.Keys);
    ListingUnique(idx, Sorted(was.Keys), was.Keys);
    ListingSize(idx, was.Keys);
    var n := |idx| - MAX_SKIPPED;
    for j := 0 to n
      invariant m == Without(was, idx[..j])
    {
      WithoutOneMore(was, idx, j);
      m := m - {idx[j]};
    }
    KeptAreNewest(was, idx, n);
  }

  ghost function Without(m: map<int, Key>, gone: seq<int>): map<int, Key> {
    map i | i in m && i !in gone :: m[i]
  }

  lemma WithoutOneMore(m: map<int, Key>, idx: seq<int>, j: nat)
    requires j < |idx|
    ensures Without(m, idx[..j + 1]) == Without(m, idx[..j]) - {idx[j]}
  {
    assert idx[..j + 1] == idx[..j] + [idx[j]];
  }

  /** The loop of GroupOpen that caches the key of every index it passes. */
  method SkipTo(index: nat, chain: Chain, skipped: map<int, Key>, to: int, ghost st: Recv) returns (m: map<int, Key>, c: Chain)
    requires st.index == index && st.chain == chain && st.skipped == skipped && to >= index
    ensures m == Skipping(st, to) && c == Steps(chain, to - index)
  {
    m, c := skipped, chain;
    assert m == Skipping(st, index);
    for i: int := index to to
      invariant m == Skipping(st, i) && c == Steps(chain, i - index)
    {
      SkipOneMore(st, i);
      m := m[i := MsgKey(c)];
      c := Next(c);
    }
  }

  lemma SkipOneMore(st: Recv, i: int)
    requires i >= st.index
    ensures Skipping(st, i + 1) == Skipping(st, i)[i := KeyFrom(st, i)]
  {
  }

  class RecvState {
    var epoch: int
    var index: nat
    var chain: Chain
    var skipped: map<int, Key>

    ghost function View(): Recv reads this { Recv(epoch, index, chain, skipped) }

    constructor (st: Recv)
      ensures View() == st
    {
      epoch, index, chain, skipped := st.epoch, st.index, st.chain, st.skipped;
    }

    /** pruneSkipped: sort the cached indexes and delete all but the newest. */
    method PruneSkipped()
      modifies this`skipped
      ensures skipped == Prune(old(skipped))
    {
      skipped := KeepNewest(skipped);
    }

    method GroupOpen(b: Blob) returns (r: Outcome)
      modifies this
      ensures (View(), r) == Opening(old(View()), b)
    {
      if b.e > epoch { return KeyMissing; }
      if b.e < epoch { return Superseded; }
      if b.i < index {
        if b.i !in skipped { return Consumed; }
        var k := skipped[b.i];
        skipped := skipped - {b.i};
        return Decrypt(k, b.c);
      }
      if b.i - index > MAX_CHAIN_SKIP { return TooFar; }
      ghost var st := View();
      var c;
      skipped, c := SkipTo(index, chain, skipped, b.i, st);
      PruneSkipped();
      chain, index := Next(c), b.i + 1;
      return Decrypt(MsgKey(c), b.c);
    }
  }

  /** The part of a sorted listing from n on, as a set. */
  ghost function Tail(s: seq<int>, n: nat): set<int>
    requires n <= |s|
  {
    set i | n <= i < |s| :: s[i]
  }

  lemma SplitListing(s: seq<int>, n: nat, i: nat)
    requires StrictlyIncreasing(s) && n <= |s| && i < |s|
    ensures s[i] in s[..n] <==> i < n
    ensures s[i] in Tail(s, n) <==> i >= n
  {
    if i < n { assert s[..n][i] == s[i]; }
  }

  lemma KeptAreNewest(m: map<int, Key>, idx: seq<int>, n: nat)
    requires idx == Sorted(m.Keys) && n == |idx| - MAX_SKIPPED && n > 0
    ensures Without(m, idx[..n]) == Prune(m)
  {
    var kept := Tail(idx, n);
    ListingSize(idx, m.Keys);
    assert kept == Newest(m.Keys, MAX_SKIPPED);
    SplitMap(m, idx, n);
  }

  lemma SplitMap(m: map<int, Key>, idx: seq<int>, n: nat)
    requires Lists(idx, m.Keys) && n <= |idx|
    ensures Without(m, idx[..n]) == map i | i in m && i in Tail(idx, n) :: m[i]
  {
    forall i | i in m.Keys ensures i !in idx[..n] <==> i in Tail(idx, n) {
      DroppedOrKept(m.Keys, idx, n, i);
    }
  }

  lemma DroppedOrKept(xs: set<int>, idx: seq<int>, n: nat, i: int)
    requires Lists(idx, xs) && n <= |idx| && i in xs
    ensures i !in idx[..n] <==> i in Tail(idx, n)
  {
  }

  lemma TailSize(s: seq<int>, n: nat)
    requires StrictlyIncreasing(s) && n <= |s|
    ensures |Tail(s, n)| == |s| - n
    decreases |s| - n
  {
    if n < |s| {
      TailSize(s, n + 1);
      assert Tail(s, n) == {s[n]} + Tail(s, n + 1);
    }
  }

  /** After a forward step that overflows it, the cache holds exactly the newest 512 of the
      keys it would have held: that many, all of them from there, each newer than any dropped. */
  lemma NewestExact(xs: set<int>, n: nat)
    ensures Newest(xs, n) <= xs
    ensures |xs| <= n ==> Newest(xs, n) == xs
    ensures |xs| > n ==> |Newest(xs, n)| == n
    ensures forall kept, gone :: kept in Newest(xs, n) && gone in xs - Newest(xs, n) ==> gone < kept
  {
    if |xs| > n {
      var s, m := Sorted(xs), |xs| - n;
      forall x | x in Tail(s, m) ensures x in xs { assert x in s; }
      TailSize(s, m);
      forall kept, gone | kept in Tail(s, m) && gone in xs - Tail(s, m) ensures gone < kept {
        assert gone in s;
        var i :| 0 <= i < |s| && s[i] == gone;
        SplitListing(s, m, i);
      }
    }
  }
}
