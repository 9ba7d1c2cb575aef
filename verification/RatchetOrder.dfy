/** One key distribution at index k, then the messages from k on in any order, with repeats:
    which of them open. */
module RatchetOrder {
  import opened Collections
  import opened Ratchet
  import opened Inbound
  import opened RatchetRuns

  /** The first index above everything delivered. */
  function Front(k: nat, d: seq<int>): int {
    if d == [] then k else
      var f := Front(k, d[..|d| - 1]);
      if d[|d| - 1] >= f then d[|d| - 1] + 1 else f
  }

  /** The messages passed over and not delivered yet. */
  ghost function Outstanding(k: nat, d: seq<int>): set<int> {
    set j | k <= j < Front(k, d) && j !in d
  }

  ghost predicate From(k: nat, d: seq<int>) { forall i :: i in d ==> i >= k }

  /** At most 512 messages are outstanding at any time. */
  ghost predicate Bounded(k: nat, d: seq<int>) {
    |Outstanding(k, d)| <= MAX_SKIPPED && (d != [] ==> Bounded(k, d[..|d| - 1]))
  }

  function Genuinely(e: int, msgs: int -> Message, i: int): Blob {
    Blob(e, i, if i < 0 then Junk else Sealed(KeyAt(e, i), msgs(i)))
  }

  ghost function Deliver(st: Recv, msgs: int -> Message, i: int): (Recv, Outcome) {
    var (h, r) := HandleEnvelope(Some(st), Genuinely(st.epoch, msgs, i), true);
    (h.value, r)
  }

  /** The sender's distribution at index k of epoch e. */
  function Honestly(e: int, k: nat): Dist { Dist(e, k, Steps(Seed(e), k)) }

  /** What was held before, if anything, is not of a higher epoch, nor this very key. */
  ghost predicate Earlier(h: Option<Recv>, e: int, k: nat) {
    e >= 1 && (h.Some? ==> h.value.epoch <= e && !(h.value.epoch == e && h.value.index == k && h.value.chain == Steps(Seed(e), k)))
  }

  /** The stored state after the key arrived and then the messages numbered d, in that order. */
  ghost function After(h: Option<Recv>, e: int, k: nat, msgs: int -> Message, d: seq<int>): Recv
    requires Earlier(h, e, k)
  {
    if d == [] then HandleKey(h, Honestly(e, k)).value else Deliver(After(h, e, k, msgs, d[..|d| - 1]), msgs, d[|d| - 1]).0
  }

  /** The state that has read exactly d and can still read everything outstanding. */
  ghost predicate StandsAt(st: Recv, e: int, k: nat, d: seq<int>) {
    OnChain(st) && st.epoch == e && st.index == Front(k, d) && st.skipped.Keys == Outstanding(k, d)
  }

  /* ---- facts about orders ---- */

  lemma FrontOfSnoc(k: nat, d: seq<int>, i: int)
    ensures Front(k, d + [i]) == if i >= Front(k, d) then i + 1 else Front(k, d)
  {
    assert (d + [i])[..|d|] == d;
  }

  lemma {:induction false} FrontAbove(k: nat, d: seq<int>, i: int)
    requires i in d
    ensures i < Front(k, d)
  {
    var n := |d| - 1;
    if d[n] != i {
      assert d == d[..n] + [d[n]];
      assert i in d[..n];
      FrontAbove(k, d[..n], i);
    }
  }

  lemma OutstandingLate(k: nat, d: seq<int>, i: int)
    requires k <= i < Front(k, d)
    ensures Outstanding(k, d + [i]) == Outstanding(k, d) - {i}
  {
    FrontOfSnoc(k, d, i);
  }

  function Interval(a: int, b: int): (s: set<int>)
    ensures forall j :: j in s <==> a <= j < b
    decreases b - a
  {
    if b <= a then {} else Interval(a, b - 1) + {b - 1}
  }

  lemma {:induction false} IntervalSize(a: int, b: int)
    requires a <= b
    ensures |Interval(a, b)| == b - a
    decreases b - a
  {
    if a < b { IntervalSize(a, b - 1); }
  }

  lemma SubsetSize(s: set<int>, t: set<int>)
    requires s <= t
    ensures |s| <= |t|
  {
    assert t == s + (t - s);
  }

  lemma OutstandingAhead(k: nat, d: seq<int>, i: int)
    requires i >= Front(k, d)
    ensures Outstanding(k, d + [i]) == Outstanding(k, d) + Interval(Front(k, d), i)
  {
  }

  lemma GapBounded(k: nat, d: seq<int>, i: int)
    requires i >= Front(k, d)
    ensures i - Front(k, d) <= |Outstanding(k, d + [i])|
  {
    OutstandingAhead(k, d, i);
    IntervalSize(Front(k, d), i);
    SubsetSize(Interval(Front(k, d), i), Outstanding(k, d + [i]));
  }

  /* ---- one delivery ---- */

  lemma RepeatRefused(st: Recv, e: int, k: nat, msgs: int -> Message, d: seq<int>, i: int)
    requires StandsAt(st, e, k, d) && i in d
    ensures Deliver(st, msgs, i) == (st, Consumed)
  {
    FrontAbove(k, d, i);
    assert i !in st.skipped.Keys;
  }

  lemma LateOpens(st: Recv, e: int, k: nat, msgs: int -> Message, d: seq<int>, i: int)
    requires StandsAt(st, e, k, d) && i in Outstanding(k, d)
    ensures Deliver(st, msgs, i) == (st.(skipped := st.skipped - {i}), Opened(msgs(i)))
  {
  }

  lemma AheadDelivers(st: Recv, msgs: int -> Message, i: int)
    requires OnChain(st) && st.index <= i <= st.index + MAX_CHAIN_SKIP
    ensures Deliver(st, msgs, i) == (Advance(st, i), Opened(msgs(i)))
  {
    KeyFromOnChain(st, i);
  }

  lemma AheadOpens(st: Recv, e: int, k: nat, msgs: int -> Message, d: seq<int>, i: int)
    requires OnChain(st) && st.epoch == e && st.index == Front(k, d) && i >= Front(k, d) && i - Front(k, d) <= MAX_CHAIN_SKIP
    ensures Deliver(st, msgs, i) == (Advance(st, i), Opened(msgs(i)))
    ensures Advance(st, i).epoch == e && Advance(st, i).index == Front(k, d + [i]) && OnChain(Advance(st, i))
    ensures Advance(st, i).skipped.Keys == Newest(st.skipped.Keys + Interval(st.index, i), MAX_SKIPPED)
  {
    AheadDelivers(st, msgs, i);
    AdvanceOnChain(st, i);
    FrontOfSnoc(k, d, i);
    AheadCache(st, i);
  }

  lemma AheadCache(st: Recv, i: int)
    requires i >= st.index
    ensures Advance(st, i).skipped.Keys == Newest(st.skipped.Keys + Interval(st.index, i), MAX_SKIPPED)
  {
    var all := Skipping(st, i);
    assert all.Keys == st.skipped.Keys + Interval(st.index, i);
    PruneKeys(all);
  }

  lemma PruneKeys(m: map<int, Key>)
    ensures Prune(m).Keys == Newest(m.Keys, MAX_SKIPPED)
  {
    NewestExact(m.Keys, MAX_SKIPPED);
  }

  lemma LateStands(st: Recv, e: int, k: nat, d: seq<int>, i: int)
    requires StandsAt(st, e, k, d) && i in Outstanding(k, d)
    ensures StandsAt(st.(skipped := st.skipped - {i}), e, k, d + [i])
  {
  }

  lemma RepeatStands(st: Recv, e: int, k: nat, d: seq<int>, i: int)
    requires StandsAt(st, e, k, d) && i in d
    ensures StandsAt(st, e, k, d + [i])
  {
    FrontAbove(k, d, i);
    FrontOfSnoc(k, d, i);
    assert Outstanding(k, d + [i]) == Outstanding(k, d);
  }

  /** While no more than 512 messages are outstanding a message opens the first time it
      comes and never again. */
  lemma DeliverOne(st: Recv, e: int, k: nat, msgs: int -> Message, d: seq<int>, i: int)
    requires StandsAt(st, e, k, d) && i >= k && |Outstanding(k, d + [i])| <= MAX_SKIPPED
    ensures Deliver(st, msgs, i).1 == if i in d then Consumed else Opened(msgs(i))
    ensures StandsAt(Deliver(st, msgs, i).0, e, k, d + [i])
  {
    if i in d {
      RepeatRefused(st, e, k, msgs, d, i);
      RepeatStands(st, e, k, d, i);
    } else if i < Front(k, d) {
      LateOpens(st, e, k, msgs, d, i);
      LateStands(st, e, k, d, i);
    } else {
      GapBounded(k, d, i);
      AheadOpens(st, e, k, msgs, d, i);
      OutstandingAhead(k, d, i);
    }
  }

  lemma {:induction false} BoundedStands(h: Option<Recv>, e: int, k: nat, msgs: int -> Message, d: seq<int>)
    requires Earlier(h, e, k)
    requires From(k, d) && Bounded(k, d)
    ensures StandsAt(After(h, e, k, msgs, d), e, k, d)
  {
    if d != [] {
      var n := |d| - 1;
      assert d == d[..n] + [d[n]];
      PrefixFrom(k, d, n);
      BoundedStands(h, e, k, msgs, d[..n]);
      assert d[n] in d;
      DeliverOne(After(h, e, k, msgs, d[..n]), e, k, msgs, d[..n], d[n]);
    } else {
      NoneOutstanding(k);
    }
  }

  lemma NoneOutstanding(k: nat)
    ensures Outstanding(k, []) == {} && Bounded(k, [])
  {
  }

  /** The outcome of delivering i after d. */
  ghost function OutcomeOf(h: Option<Recv>, e: int, k: nat, msgs: int -> Message, d: seq<int>, i: int): Outcome
    requires Earlier(h, e, k)
  {
    Deliver(After(h, e, k, msgs, d), msgs, i).1
  }

  /** With at most 512 messages outstanding at any time, the next message opens if and only
      if it was not delivered before, and what it opens to is its own content. */
  lemma OpensExactlyOnce(h: Option<Recv>, e: int, k: nat, msgs: int -> Message, d: seq<int>, i: int)
    requires Earlier(h, e, k)
    requires From(k, d) && i >= k && Bounded(k, d + [i])
    ensures OutcomeOf(h, e, k, msgs, d, i) == if i in d then Consumed else Opened(msgs(i))
  {
    assert (d + [i])[..|d|] == d;
    BoundedStands(h, e, k, msgs, d);
    DeliverOne(After(h, e, k, msgs, d), e, k, msgs, d, i);
  }

  /* ---- without the bound ---- */

  /** No message is lost: each opened when it first came, and each outstanding one would
      open now. */
  ghost predicate Lossless(h: Option<Recv>, e: int, k: nat, msgs: int -> Message, d: seq<int>)
    requires Earlier(h, e, k)
  {
    && (forall n :: 0 <= n < |d| ==> FirstOpens(h, e, k, msgs, d, n))
    && (forall j :: j in Outstanding(k, d) ==> OutcomeOf(h, e, k, msgs, d, j) == Opened(msgs(j)))
  }

  ghost predicate FirstOpens(h: Option<Recv>, e: int, k: nat, msgs: int -> Message, d: seq<int>, n: nat)
    requires Earlier(h, e, k)
    requires n < |d|
  {
    d[n] in d[..n] || OutcomeOf(h, e, k, msgs, d[..n], d[n]) == Opened(msgs(d[n]))
  }

  /** A key that is neither ahead nor cached is gone for good. */
  ghost predicate Lost(st: Recv, j: int) { j < st.index && j !in st.skipped }

  lemma LostOnce(st: Recv, msgs: int -> Message, i: int, j: int)
    requires Lost(st, j)
    ensures Lost(Deliver(st, msgs, i).0, j) && Deliver(st, msgs, j).1 == Consumed
  {
  }

  lemma {:induction false} LostForever(h: Option<Recv>, e: int, k: nat, msgs: int -> Message, d: seq<int>, n: nat, j: int)
    requires Earlier(h, e, k)
    requires n <= |d| && Lost(After(h, e, k, msgs, d[..n]), j)
    ensures Lost(After(h, e, k, msgs, d), j)
    decreases |d|
  {
    if n == |d| {
      assert d[..n] == d;
    } else {
      var m := |d| - 1;
      assert d[..m][..n] == d[..n];
      LostForever(h, e, k, msgs, d[..m], n, j);
      LostOnce(After(h, e, k, msgs, d[..m]), msgs, d[m], j);
    }
  }

  /** A forward step that overflows the cache loses an outstanding message. */
  lemma OverflowLoses(st: Recv, e: int, k: nat, msgs: int -> Message, d: seq<int>, i: int) returns (j: int)
    requires StandsAt(st, e, k, d) && i >= Front(k, d) && i - Front(k, d) <= MAX_CHAIN_SKIP
    requires |Outstanding(k, d + [i])| > MAX_SKIPPED
    ensures j in Outstanding(k, d + [i]) && Lost(Deliver(st, msgs, i).0, j)
  {
    AheadOpens(st, e, k, msgs, d, i);
    OutstandingAhead(k, d, i);
    var all := Outstanding(k, d + [i]);
    var kept := Newest(all, MAX_SKIPPED);
    NewestExact(all, MAX_SKIPPED);
    assert |all - kept| == |all| - |kept|;
    Inhabited(all - kept);
    j :| j in all - kept;
    assert j !in Advance(st, i).skipped.Keys;
  }

  /** Where the bound first fails, delivering the message that broke it, or one that was
      outstanding then, is refused from there on. */
  lemma BreakLoses(h: Option<Recv>, e: int, k: nat, msgs: int -> Message, d: seq<int>, i: int) returns (j: int)
    requires Earlier(h, e, k)
    requires From(k, d) && i >= k && Bounded(k, d) && |Outstanding(k, d + [i])| > MAX_SKIPPED
    ensures (i !in d && OutcomeOf(h, e, k, msgs, d, i) == TooFar)
         || (j in Outstanding(k, d + [i]) && Lost(After(h, e, k, msgs, d + [i]), j))
  {
    BoundedStands(h, e, k, msgs, d);
    var st := After(h, e, k, msgs, d);
    assert (d + [i])[..|d|] == d;
    if i < Front(k, d) {
      OutstandingLate(k, d, i);
      SubsetSize(Outstanding(k, d) - {i}, Outstanding(k, d));
      assert false;
    } else if i - Front(k, d) > MAX_CHAIN_SKIP {
      j := i;
      if i in d { FrontAbove(k, d, i); }
    } else {
      j := OverflowLoses(st, e, k, msgs, d, i);
    }
  }

  /** The first place where the bound fails. */
  lemma {:induction false} FirstBreak(k: nat, d: seq<int>) returns (n: nat)
    requires !Bounded(k, d)
    ensures n < |d| && Bounded(k, d[..n]) && |Outstanding(k, d[..n] + [d[n]])| > MAX_SKIPPED
  {
    NoneOutstanding(k);
    var m := |d| - 1;
    if Bounded(k, d[..m]) {
      n := m;
      assert d[..n] + [d[n]] == d;
    } else {
      n := FirstBreak(k, d[..m]);
      assert d[..m][..n] == d[..n];
    }
  }

  /** A message lost at n and not delivered by then spoils d. */
  lemma LostSpoils(h: Option<Recv>, e: int, k: nat, msgs: int -> Message, d: seq<int>, n: nat, j: int)
    requires Earlier(h, e, k)
    requires n <= |d| && From(k, d) && Lost(After(h, e, k, msgs, d[..n]), j) && j in Outstanding(k, d[..n])
    ensures !Lossless(h, e, k, msgs, d)
  {
    if j in d {
      var p := FirstAt(d, j);
      assert forall q :: 0 <= q < n ==> d[q] == d[..n][q];
      assert d[..p][..n] == d[..n];
      LostForever(h, e, k, msgs, d[..p], n, j);
      LostOnce(After(h, e, k, msgs, d[..p]), msgs, j, j);
      assert !FirstOpens(h, e, k, msgs, d, p);
    } else {
      FrontGrows(k, d, n);
      LostForever(h, e, k, msgs, d, n, j);
      LostOnce(After(h, e, k, msgs, d), msgs, j, j);
      assert j in Outstanding(k, d);
    }
  }

  lemma {:induction false} FirstAt(d: seq<int>, j: int) returns (p: nat)
    requires j in d
    ensures p < |d| && d[p] == j && j !in d[..p]
  {
    var m := |d| - 1;
    if j in d[..m] {
      p := FirstAt(d[..m], j);
      assert d[..m][..p] == d[..p];
    } else {
      p := m;
      assert d == d[..m] + [d[m]];
    }
  }

  lemma {:induction false} FrontGrows(k: nat, d: seq<int>, n: nat)
    requires n <= |d|
    ensures Front(k, d[..n]) <= Front(k, d)
    decreases |d|
  {
    if n == |d| {
      assert d[..n] == d;
    } else {
      var m := |d| - 1;
      FrontGrows(k, d[..m], n);
      assert d[..m][..n] == d[..n];
    }
  }

  /** The bound is exact: a delivery order loses no message if and only if at most 512
      passed-over messages were outstanding at each point of it. */
  lemma LosslessIffBounded(h: Option<Recv>, e: int, k: nat, msgs: int -> Message, d: seq<int>)
    requires Earlier(h, e, k)
    requires From(k, d)
    ensures Lossless(h, e, k, msgs, d) <==> Bounded(k, d)
  {
    if Bounded(k, d) {
      BoundedIsLossless(h, e, k, msgs, d);
    } else {
      var n := FirstBreak(k, d);
      assert d[..n + 1] == d[..n] + [d[n]] && d[n] in d;
      PrefixFrom(k, d, n);
      var j := BreakLoses(h, e, k, msgs, d[..n], d[n]);
      if j in Outstanding(k, d[..n + 1]) && Lost(After(h, e, k, msgs, d[..n + 1]), j) {
        LostSpoils(h, e, k, msgs, d, n + 1, j);
      } else {
        assert !FirstOpens(h, e, k, msgs, d, n);
      }
    }
  }

  lemma PrefixFrom(k: nat, d: seq<int>, n: nat)
    requires n <= |d| && From(k, d)
    ensures From(k, d[..n])
  {
    forall i | i in d[..n] ensures i >= k { assert i in d; }
  }

  lemma {:induction false} BoundedPrefix(k: nat, d: seq<int>, n: nat)
    requires n <= |d| && Bounded(k, d)
    ensures Bounded(k, d[..n])
    decreases |d|
  {
    if n == |d| {
      assert d[..n] == d;
    } else {
      BoundedPrefix(k, d[..|d| - 1], n);
      assert d[..|d| - 1][..n] == d[..n];
    }
  }

  lemma BoundedIsLossless(h: Option<Recv>, e: int, k: nat, msgs: int -> Message, d: seq<int>)
    requires Earlier(h, e, k)
    requires From(k, d) && Bounded(k, d)
    ensures Lossless(h, e, k, msgs, d)
  {
    forall n | 0 <= n < |d| ensures FirstOpens(h, e, k, msgs, d, n) {
      assert d[..n + 1] == d[..n] + [d[n]] && d[n] in d;
      BoundedPrefix(k, d, n + 1);
      PrefixFrom(k, d, n);
      OpensExactlyOnce(h, e, k, msgs, d[..n], d[n]);
    }
    forall j | j in Outstanding(k, d) ensures OutcomeOf(h, e, k, msgs, d, j) == Opened(msgs(j)) {
      BoundedStands(h, e, k, msgs, d);
      LateOpens(After(h, e, k, msgs, d), e, k, msgs, d, j);
    }
  }

  /* ---- every order ---- */

  /** The deliveries that do not skip too far ahead; the others change nothing. */
  ghost function Taken(k: nat, d: seq<int>): seq<int> {
    if d == [] then [] else
      var n := |d| - 1;
      var t := Taken(k, d[..n]);
      if d[n] - Front(k, t) > MAX_CHAIN_SKIP then t else t + [d[n]]
  }

  /** The state after d, however many keys were dropped on the way: what is cached is
      outstanding, and every lost key is older than every cached one. */
  ghost predicate Trails(st: Recv, e: int, k: nat, d: seq<int>) {
    && OnChain(st) && st.epoch == e && st.index == Front(k, d) && st.skipped.Keys <= Outstanding(k, d)
    && Older(Outstanding(k, d) - st.skipped.Keys, st.skipped.Keys)
  }

  ghost predicate Older(gone: set<int>, kept: set<int>) { forall x, y :: x in gone && y in kept ==> x < y }

  /** The n newest of a set are the only n of it that are newer than all the rest. */
  lemma NewestUnique(xs: set<int>, n: nat, a: set<int>)
    requires a <= xs && |a| == n && Older(xs - a, a)
    ensures a == Newest(xs, n)
  {
    var b := Newest(xs, n);
    NewestExact(xs, n);
    SubsetSize(a, xs);
    assert Older(xs - b, b) && |b| == n;
    forall x | x in a ensures x in b { InBoth(xs, a, b, x); }
    forall x | x in b ensures x in a { InBoth(xs, b, a, x); }
  }

  lemma InBoth(xs: set<int>, a: set<int>, b: set<int>, x: int)
    requires a <= xs && b <= xs && Older(xs - a, a) && Older(xs - b, b) && |a| == |b| && x in a
    ensures x in b
  {
    forall y | y in b ensures x !in b ==> y in a - {x} { NewerIn(xs, a, b, x, y); }
    SubsetSize(if x !in b then b else {}, a - {x});
    assert |a - {x}| == |a| - 1;
  }

  lemma NewerIn(xs: set<int>, a: set<int>, b: set<int>, x: int, y: int)
    requires a <= xs && b <= xs && Older(xs - a, a) && Older(xs - b, b) && x in a && y in b
    ensures x !in b ==> y in a - {x}
  {
    assert x !in b ==> x in xs - b;
    assert y !in a ==> y in xs - a;
  }

  /** Older elements do not matter to the newest ones, if there are enough newer ones. */
  lemma NewestOfNewer(all: set<int>, newer: set<int>, n: nat)
    requires newer <= all && Older(all - newer, newer) && |newer| >= n
    ensures Newest(all, n) == Newest(newer, n)
  {
    var a := Newest(newer, n);
    NewestExact(newer, n);
    forall x, y | x in all - a && y in a ensures x < y {
      if x in newer { assert x in newer - a; } else { assert x in all - newer; }
    }
    NewestUnique(all, n, a);
  }

  /** What a forward step has to choose from, and what it leaves lost. */
  lemma CandidatesNewer(st: Recv, e: int, k: nat, d: seq<int>, i: int)
    requires Trails(st, e, k, d) && i >= Front(k, d)
    ensures var cand, all := st.skipped.Keys + Interval(st.index, i), Outstanding(k, d + [i]);
            cand <= all && Older(all - cand, cand)
  {
    var cand, all := st.skipped.Keys + Interval(st.index, i), Outstanding(k, d + [i]);
    OutstandingAhead(k, d, i);
    forall x, y | x in all - cand && y in cand ensures x < y {
      assert x in Outstanding(k, d) - st.skipped.Keys;
    }
  }

  lemma OlderThanNewest(all: set<int>, cand: set<int>, n: nat)
    requires cand <= all && Older(all - cand, cand)
    ensures Newest(cand, n) <= all && Older(all - Newest(cand, n), Newest(cand, n))
  {
    var kept := Newest(cand, n);
    NewestExact(cand, n);
    forall x, y | x in all - kept && y in kept ensures x < y {
      if x in cand { assert x in cand - kept; } else { assert x in all - cand; }
    }
  }

  lemma TrailsAhead(st: Recv, e: int, k: nat, msgs: int -> Message, d: seq<int>, i: int)
    requires Trails(st, e, k, d) && i >= Front(k, d) && i - Front(k, d) <= MAX_CHAIN_SKIP
    ensures Trails(Deliver(st, msgs, i).0, e, k, d + [i])
  {
    AheadOpens(st, e, k, msgs, d, i);
    CandidatesNewer(st, e, k, d, i);
    OlderThanNewest(Outstanding(k, d + [i]), st.skipped.Keys + Interval(st.index, i), MAX_SKIPPED);
  }

  lemma OlderWithout(gone: set<int>, kept: set<int>, i: int)
    requires kept <= gone && Older(gone - kept, kept)
    ensures Older((gone - {i}) - (kept - {i}), kept - {i})
  {
    assert (gone - {i}) - (kept - {i}) <= gone - kept;
    forall x, y | x in (gone - {i}) - (kept - {i}) && y in kept - {i} ensures x < y { assert x in gone - kept; }
  }

  lemma TrailsLate(st: Recv, e: int, k: nat, msgs: int -> Message, d: seq<int>, i: int)
    requires Trails(st, e, k, d) && k <= i < Front(k, d)
    ensures Trails(Deliver(st, msgs, i).0, e, k, d + [i])
  {
    OutstandingLate(k, d, i);
    FrontOfSnoc(k, d, i);
    OlderWithout(Outstanding(k, d), st.skipped.Keys, i);
    if i in st.skipped {
      assert i in st.skipped.Keys;
      assert CachedRight(st, i);
      var st' := st.(skipped := st.skipped - {i});
      assert Deliver(st, msgs, i).0 == st';
      forall j | j in st'.skipped ensures CachedRight(st', j) { assert CachedRight(st, j); }
      assert st'.skipped.Keys == st.skipped.Keys - {i};
    } else {
      assert Deliver(st, msgs, i).0 == st;
      assert i !in st.skipped.Keys && st.skipped.Keys - {i} == st.skipped.Keys;
    }
  }

  /** Whatever order the messages come in, with whatever repeats and gaps, the cache holds
      the outstanding keys except some that are older than all it holds. */
  lemma {:induction false} AlwaysTrails(h: Option<Recv>, e: int, k: nat, msgs: int -> Message, d: seq<int>)
    requires Earlier(h, e, k)
    requires From(k, d)
    ensures Trails(After(h, e, k, msgs, d), e, k, Taken(k, d))
  {
    if d == [] {
      NoneOutstanding(k);
    } else {
      var n := |d| - 1;
      var st, t, i := After(h, e, k, msgs, d[..n]), Taken(k, d[..n]), d[n];
      PrefixFrom(k, d, n);
      AlwaysTrails(h, e, k, msgs, d[..n]);
      assert i in d;
      if i < Front(k, t) {
        TrailsLate(st, e, k, msgs, t, i);
      } else if i - Front(k, t) <= MAX_CHAIN_SKIP {
        TrailsAhead(st, e, k, msgs, t, i);
      }
    }
  }

  /** After every forward step that overflows the cache -- the first or any later one -- it
      holds exactly the newest 512 of all outstanding keys. */
  lemma OverflowKeepsNewest(h: Option<Recv>, e: int, k: nat, msgs: int -> Message, d: seq<int>, i: int)
    requires Earlier(h, e, k)
    requires From(k, d)
    requires var f := Front(k, Taken(k, d)); f <= i <= f + MAX_CHAIN_SKIP && |After(h, e, k, msgs, d).skipped| + (i - f) >= MAX_SKIPPED
    ensures var cache := After(h, e, k, msgs, d + [i]).skipped.Keys;
            cache == Newest(Outstanding(k, Taken(k, d) + [i]), MAX_SKIPPED) && |cache| == MAX_SKIPPED
  {
    var st, t := After(h, e, k, msgs, d), Taken(k, d);
    assert (d + [i])[..|d|] == d;
    AlwaysTrails(h, e, k, msgs, d);
    AheadOpens(st, e, k, msgs, t, i);
    OverflowAt(st, e, k, t, i);
  }

  lemma OverflowAt(st: Recv, e: int, k: nat, d: seq<int>, i: int)
    requires Trails(st, e, k, d) && i >= Front(k, d) && |st.skipped| + (i - Front(k, d)) >= MAX_SKIPPED
    ensures var cache := Advance(st, i).skipped.Keys; cache == Newest(Outstanding(k, d + [i]), MAX_SKIPPED) && |cache| == MAX_SKIPPED
  {
    var cand := st.skipped.Keys + Interval(st.index, i);
    AheadCache(st, i);
    CandidatesNewer(st, e, k, d, i);
    CandidateSize(st, k, d, i);
    NewestOfNewer(Outstanding(k, d + [i]), cand, MAX_SKIPPED);
    NewestExact(cand, MAX_SKIPPED);
  }

  lemma CandidateSize(st: Recv, k: nat, d: seq<int>, i: int)
    requires st.index == Front(k, d) && st.skipped.Keys <= Outstanding(k, d) && i >= st.index
    ensures |st.skipped.Keys + Interval(st.index, i)| == |st.skipped| + (i - st.index)
  {
    IntervalSize(st.index, i);
    assert st.skipped.Keys !! Interval(st.index, i);
  }
}
