/** Whole runs of the ratchet: one sender, a network that loses, repeats, reorders and
    relabels, and one receiver's stored state for that sender (peer/groups.go). */
module RatchetRuns {
  import opened Collections
  import opened Ratchet
  import opened Inbound

  /* ---- runs ---- */

  type Slot = (int, nat)

  /** `sent` is the message sealed at each position, `letters` the ciphertexts and `keys`
      the key distributions the network has seen. */
  datatype World = World(me: Sender, sent: map<Slot, Message>, letters: set<Cipher>, keys: set<Dist>, held: Option<Recv>)

  /** What happens next. An envelope may be labelled with any position; its ciphertext is
      junk or one that was sealed. Rekeying and rotating start a higher epoch. */
  datatype Event =
    | Seal(m: Message)
    | Distribute
    | Rekey(epoch: int)
    | KeyArrives(d: Dist, writeOk: bool)
    | LetterArrives(b: Blob, writeOk: bool)
    | Forget

  ghost predicate Enabled(w: World, e: Event) {
    match e
    case Rekey(epoch) => epoch > w.me.epoch
    case KeyArrives(d, _) => d in w.keys
    case LetterArrives(b, _) => b.c.Junk? || b.c in w.letters
    case _ => true
  }

  ghost function Do(w: World, e: Event): World {
    match e
    case Seal(m) =>
      var (me, b) := Sealing(w.me, m);
      w.(me := me, sent := w.sent[(w.me.epoch, w.me.index) := m], letters := w.letters + {b.c})
    case Distribute => w.(keys := w.keys + {Dist(w.me.epoch, w.me.index, w.me.chain)})
    case Rekey(epoch) => w.(me := Sender(epoch, 0, Seed(epoch)))
    case KeyArrives(d, ok) => if ok then w.(held := HandleKey(w.held, d)) else w
    case LetterArrives(b, ok) => w.(held := HandleEnvelope(w.held, b, ok).0)
    case Forget => w.(held := None)
  }

  ghost predicate EventAt(run: seq<World>, es: seq<Event>, n: nat)
    requires n < |es| && |run| == |es| + 1
  {
    Enabled(run[n], es[n]) && run[n + 1] == Do(run[n], es[n])
  }

  ghost predicate Behaves(run: seq<World>, es: seq<Event>) {
    && |run| == |es| + 1
    && run[0] == World(Sender(1, 0, Seed(1)), map[], {}, {}, None)
    && forall n :: 0 <= n < |es| ==> EventAt(run, es, n)
  }

  /** The stored state stands at its own position of the sender's chain, and each cached key
      is the message key of its own index. */
  ghost predicate OnChain(st: Recv) {
    st.chain == Steps(Seed(st.epoch), st.index) && forall i :: i in st.skipped ==> CachedRight(st, i)
  }

  ghost predicate CachedRight(st: Recv, i: int)
    requires i in st.skipped
  {
    0 <= i < st.index && st.skipped[i] == KeyAt(st.epoch, i)
  }

  ghost predicate Genuine(sent: map<Slot, Message>, c: Cipher) {
    exists p :: p in sent && c == Sealed(KeyAt(p.0, p.1), sent[p])
  }

  ghost predicate HonestKey(d: Dist) { d.epoch >= 1 && d.index >= 0 && d.chain == Steps(Seed(d.epoch), d.index) }

  ghost predicate Unused(w: World, p: Slot) { p.0 > w.me.epoch || (p.0 == w.me.epoch && p.1 >= w.me.index) }

  ghost predicate Honest(w: World) {
    && w.me.epoch >= 1 && w.me.chain == Steps(Seed(w.me.epoch), w.me.index)
    && (forall p :: p in w.sent ==> !Unused(w, p))
    && (forall c :: c in w.letters ==> Genuine(w.sent, c))
    && (forall d :: d in w.keys ==> HonestKey(d))
    && (w.held.Some? ==> OnChain(w.held.value))
  }

  lemma SealKeeps(w: World, m: Message)
    requires Honest(w)
    ensures Honest(Do(w, Seal(m)))
  {
  }

  lemma KeyFromOnChain(st: Recv, j: int)
    requires OnChain(st) && j >= st.index
    ensures KeyFrom(st, j) == KeyAt(st.epoch, j)
    ensures Steps(st.chain, j - st.index + 1) == Steps(Seed(st.epoch), j + 1)
  {
    StepsAdd(Seed(st.epoch), st.index, j - st.index);
  }

  lemma AdvanceOnChain(st: Recv, i: int)
    requires OnChain(st) && i >= st.index
    ensures OnChain(Advance(st, i))
  {
    var next := Advance(st, i);
    KeyFromOnChain(st, i);
    forall j | j in next.skipped ensures CachedRight(next, j) {
      if st.index <= j < i { KeyFromOnChain(st, j); } else { assert CachedRight(st, j); }
    }
  }

  /** Every successful open returns exactly the message sealed at the position the envelope
      names, even if the network relabelled it. */
  lemma OpensWhatWasSealed(w: World, b: Blob)
    requires Honest(w) && Enabled(w, LetterArrives(b, true)) && HandleEnvelope(w.held, b, true).1.Opened?
    ensures b.i >= 0 && (b.e, b.i) in w.sent
    ensures HandleEnvelope(w.held, b, true).1 == Opened(w.sent[(b.e, b.i)])
  {
    var st := w.held.value;
    if b.i < st.index { assert CachedRight(st, b.i); } else { KeyFromOnChain(st, b.i); }
    assert b.c == Sealed(KeyAt(b.e, b.i), b.c.plain);
    var p :| p in w.sent && b.c == Sealed(KeyAt(p.0, p.1), w.sent[p]);
    KeyAtInjective(b.e, b.i, p.0, p.1);
    assert p == (b.e, b.i);
  }

  lemma LetterKeeps(held: Option<Recv>, b: Blob, ok: bool)
    requires held.Some? ==> OnChain(held.value)
    ensures var h := HandleEnvelope(held, b, ok).0; h.Some? ==> OnChain(h.value)
  {
    if held.Some? {
      var st := held.value;
      if b.i < st.index {
        forall i | i in st.skipped - {b.i} ensures CachedRight(st.(skipped := st.skipped - {b.i}), i) {
          assert CachedRight(st, i);
        }
      } else {
        AdvanceOnChain(st, b.i);
      }
    }
  }

  lemma StepKeepsHonest(w: World, e: Event)
    requires Honest(w) && Enabled(w, e)
    ensures Honest(Do(w, e))
  {
    match e
    case Seal(m) => SealKeeps(w, m);
    case LetterArrives(b, ok) => LetterKeeps(w.held, b, ok);
    case _ =>
  }

  lemma {:induction false} RunHonest(run: seq<World>, es: seq<Event>, n: nat)
    requires Behaves(run, es) && n < |run|
    ensures Honest(run[n])
  {
    if n > 0 {
      RunHonest(run, es, n - 1);
      assert EventAt(run, es, n - 1);
      StepKeepsHonest(run[n - 1], es[n - 1]);
    }
  }

  /** At every point of every run: the stored state is Next^index of the origin of its epoch,
      each cached key is the message key of its own index, whatever arrives next opens only
      to the message sealed at its position, and what does not open changes nothing. */
  lemma RatchetStaysRight(run: seq<World>, es: seq<Event>, n: nat, b: Blob, ok: bool)
    requires Behaves(run, es) && n < |run|
    ensures run[n].held.Some? ==> OnChain(run[n].held.value)
    ensures var (h, r) := HandleEnvelope(run[n].held, b, ok);
            && (!r.Opened? ==> h == run[n].held)
            && (r.Opened? && Enabled(run[n], LetterArrives(b, ok)) ==>
                  b.i >= 0 && (b.e, b.i) in run[n].sent && r.m == run[n].sent[(b.e, b.i)])
  {
    RunHonest(run, es, n);
    if HandleEnvelope(run[n].held, b, ok).1.Opened? && Enabled(run[n], LetterArrives(b, ok)) {
      OpensWhatWasSealed(run[n], b);
    }
  }

  /** The message a position was sealed with, as its genuine envelope. */
  ghost function Envelope(w: World, at: Slot): Blob
    requires at in w.sent
  {
    Blob(at.0, at.1, Sealed(KeyAt(at.0, at.1), w.sent[at]))
  }

  /** At every point of every run, what the genuine envelope of any position meets: the key is
      missing if none or only an earlier epoch is held, it is superseded by a later one, it was
      consumed if it lies behind and is not cached, it is too far ahead beyond 4096, and in
      every other case it opens to its content. */
  lemma GenuineMeets(run: seq<World>, es: seq<Event>, n: nat, at: Slot)
    requires Behaves(run, es) && n < |run| && at in run[n].sent
    ensures var held, o := run[n].held, HandleEnvelope(run[n].held, Envelope(run[n], at), true).1;
            && (o == KeyMissing <==> held.None? || held.value.epoch < at.0)
            && (o == Superseded <==> held.Some? && held.value.epoch > at.0)
            && (o == Consumed <==> held.Some? && held.value.epoch == at.0 && at.1 < held.value.index && at.1 !in held.value.skipped)
            && (o == TooFar <==> held.Some? && held.value.epoch == at.0 && at.1 > held.value.index + 4096)
            && (o in {KeyMissing, Superseded, Consumed, TooFar} || o == Opened(run[n].sent[at]))
  {
    RunHonest(run, es, n);
    if run[n].held.Some? { StateMeets(run[n].held.value, at, run[n].sent[at]); }
  }

  lemma StateMeets(st: Recv, at: Slot, m: Message)
    requires OnChain(st)
    ensures var o := Opening(st, Blob(at.0, at.1, Sealed(KeyAt(at.0, at.1), m))).1;
            o == if st.epoch < at.0 then KeyMissing else if st.epoch > at.0 then Superseded
                 else if at.1 < st.index && at.1 !in st.skipped then Consumed else if at.1 > st.index + 4096 then TooFar
                 else Opened(m)
  {
    if at.1 < st.index {
      if at.1 in st.skipped { assert CachedRight(st, at.1); }
    } else {
      KeyFromOnChain(st, at.1);
    }
  }

  /** At every point of every run, whatever is held: once a distribution that is not of a
      lower epoch arrives and is written, the message sealed at its position opens to its
      content. */
  lemma DistributionOpens(run: seq<World>, es: seq<Event>, n: nat, d: Dist)
    requires Behaves(run, es) && n < |run| && d in run[n].keys && (run[n].held.Some? ==> run[n].held.value.epoch <= d.epoch)
    requires d.index >= 0 && (d.epoch, d.index) in run[n].sent
    ensures var w := Do(run[n], KeyArrives(d, true)); var at: Slot := (d.epoch, d.index);
            HandleEnvelope(w.held, Envelope(run[n], at), true).1 == Opened(run[n].sent[at])
  {
    RunHonest(run, es, n);
    assert HonestKey(d);
    KeyIsTaken(run[n].held, d);
    StepKeepsHonest(run[n], KeyArrives(d, true));
    var st := Do(run[n], KeyArrives(d, true)).held.value;
    KeyFromOnChain(st, d.index);
  }
}
