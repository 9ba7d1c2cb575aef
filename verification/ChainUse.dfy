/** No chain position is used twice: my own key material under every interleaving of the
    locked sections of sends, distributions, rekeys and rotations, with crashes between
    writing the chain and delivering the envelope (peer/groups.go). */
module ChainUse {
  import opened Collections
  import opened Ratchet
  import opened Inbound
  import opened Rosters
  import opened Seats

  /** keys.json, the envelopes sealed and not handed over yet, those the relay was given. */
  datatype Wire = Wire(keys: Keys, pending: set<Blob>, delivered: seq<Blob>)

  /** One section under gkMu each, except Deliver and Crash. A distribution is two sections:
      the second writes against a fresh read, only if the epoch is still the same. Several
      operations may be between their sections at any time. */
  datatype Section =
    | MakeKey(k: Luck)
    | SealOne(m: Message, ok: bool)
    | Deliver(b: Blob)
    | Record(epoch: int, reached: set<Fp>, ok: bool)
    | ResetRecord(ok: bool)
    | Rekeying(g: Roster, k: Luck)
    | Rotating(g: Roster, now: int, k: Luck)
    | StoreSender(fp: Fp, st: Recv, ok: bool)
    | Crash

  predicate Enabled(w: Wire, l: Section) {
    match l
    case SealOne(_, _) => w.keys.mine.Some?
    case Deliver(b) => b in w.pending
    case _ => true
  }

  ghost function Turn(w: Wire, l: Section): Wire
    requires Enabled(w, l)
  {
    match l
    case MakeKey(k) =>
      if w.keys.mine.Some? || !RekeyOk(k) then w else w.(keys := w.keys.(mine := Some(Sender(1, 0, Seed(k.rand)))))
    case SealOne(m, ok) =>
      if !ok then w else
        var (mine, b) := Sealing(w.keys.mine.value, m);
        w.(keys := w.keys.(mine := Some(mine)), pending := w.pending + {b})
    case Deliver(b) => w.(pending := w.pending - {b}, delivered := w.delivered + [b])
    case Record(epoch, reached, ok) =>
      if w.keys.mine.None? || w.keys.mine.value.epoch != epoch || !ok then w
      else w.(keys := w.keys.(handed := w.keys.handed + map fp | fp in reached && HandedAt(w.keys.handed, fp) < epoch :: epoch))
    case ResetRecord(ok) => if w.keys.mine.None? || !ok then w else w.(keys := w.keys.(handed := map[]))
    case Rekeying(g, k) => if !RekeyOk(k) then w else w.(keys := FreshKeys(w.keys, g, EpochOf(w.keys) + 1, k.rand))
    case Rotating(g, now, k) => if !RekeyOk(k) then w else w.(keys := FreshKeys(w.keys, g, NextSenderEpoch(EpochOf(w.keys), now), k.rand))
    case StoreSender(fp, st, ok) => if ok then w.(keys := w.keys.(senders := w.keys.senders[fp := st])) else w
    case Crash => w.(pending := {})
  }

  ghost predicate TurnAt(run: seq<Wire>, ls: seq<Section>, n: nat)
    requires n < |ls| && |run| == |ls| + 1
  {
    Enabled(run[n], ls[n]) && run[n + 1] == Turn(run[n], ls[n])
  }

  ghost predicate Runs(run: seq<Wire>, ls: seq<Section>) {
    && |run| == |ls| + 1 && run[0] == Wire(NoKeys, {}, [])
    && forall n :: 0 <= n < |ls| ==> TurnAt(run, ls, n)
  }

  /** The sections are those of the operations on a seat, cut at the lock: an operation leaves
      the keys that its sections leave when nothing comes between. */
  lemma SectionsOfASeat(s: Seat, g: Roster, now: int, m: Message, k: Luck, w: Wire)
    requires w.keys == s.keys
    ensures Ensure(s, k).0.keys == Turn(w, MakeKey(k)).keys
    ensures s.keys.mine.Some? ==> Seal(s, g, m, k).keys == Turn(w, SealOne(m, k.sealOk)).keys
    ensures s.group == Some(g) && s.left == In ==> Rotate(s, now, k).keys == Turn(w, Rotating(g, now, k)).keys
  {
  }

  lemma RecordOfASeat(s: Seat, g: Roster, k: Luck, w: Wire)
    requires w.keys == s.keys && s.keys.mine.Some?
    ensures var epoch := s.keys.mine.value.epoch; var reached := Owed(s.me, g, s.keys.handed, epoch) * k.reached;
            Distribute(s, g, k).keys == Turn(w, Record(epoch, reached, k.recordOk)).keys
  {
    var epoch := s.keys.mine.value.epoch;
    var reached := Owed(s.me, g, s.keys.handed, epoch) * k.reached;
    OwedUnrecorded(s.keys.handed, reached, epoch);
  }

  lemma OwedUnrecorded(handed: map<Fp, int>, reached: set<Fp>, epoch: int)
    requires forall fp :: fp in reached ==> HandedAt(handed, fp) < epoch
    ensures (map fp | fp in reached && HandedAt(handed, fp) < epoch :: epoch) == map fp | fp in reached :: epoch
  {
  }

  lemma RekeyOfASeat(s: Seat, g: Roster, k: Luck, w: Wire)
    requires w.keys == s.keys
    ensures var w1 := Turn(w, Rekeying(g, k));
            Rekey(s, g, k).keys == if RekeyOk(k) then Distribute(s.(keys := w1.keys), g, k).keys else w1.keys
  {
  }

  /** And a delivery hands over one pending envelope. */
  lemma DeliveryHandsOver(w: Wire, b: Blob)
    requires b in w.pending
    ensures Turn(w, Deliver(b)) == Wire(w.keys, w.pending - {b}, w.delivered + [b])
  {
  }

  /* ---- positions ---- */

  predicate Before(e: int, i: int, e': int, i': int) { e < e' || (e == e' && i < i') }

  /** The position the next message will use; without a chain, the one before all others. */
  function Position(keys: Keys): (int, int) { if keys.mine.Some? then (keys.mine.value.epoch, keys.mine.value.index) else (0, 0) }

  predicate Spent(keys: Keys, b: Blob) { Before(b.e, b.i, Position(keys).0, Position(keys).1) }

  ghost predicate DistinctSlots(d: seq<Blob>) {
    forall i, j :: 0 <= i < j < |d| ==> (d[i].e, d[i].i) != (d[j].e, d[j].i)
  }

  ghost predicate NoReuse(w: Wire) {
    && (w.keys.mine.Some? ==> w.keys.mine.value.epoch >= 1)
    && (forall b :: b in w.pending ==> Spent(w.keys, b))
    && (forall n :: 0 <= n < |w.delivered| ==> Spent(w.keys, w.delivered[n]))
    && (forall a, b :: a in w.pending && b in w.pending && a.e == b.e && a.i == b.i ==> a == b)
    && (forall b, n :: b in w.pending && 0 <= n < |w.delivered| ==> (b.e, b.i) != (w.delivered[n].e, w.delivered[n].i))
    && DistinctSlots(w.delivered)
  }

  predicate NotBack(k: Keys, k': Keys) {
    var (e, i), (e', i') := Position(k), Position(k');
    (e, i) == (e', i') || Before(e, i, e', i')
  }

  lemma TurnGoesOn(w: Wire, l: Section)
    requires NoReuse(w) && Enabled(w, l)
    ensures NotBack(w.keys, Turn(w, l).keys)
  {
  }

  /** A section that only moves the position on. */
  lemma MovedOn(w: Wire, keys: Keys)
    requires NoReuse(w) && NotBack(w.keys, keys) && (keys.mine.Some? ==> keys.mine.value.epoch >= 1)
    ensures NoReuse(w.(keys := keys))
  {
  }

  lemma SealKeeps(w: Wire, m: Message)
    requires NoReuse(w) && w.keys.mine.Some?
    ensures NoReuse(Turn(w, SealOne(m, true)))
  {
  }

  lemma DeliverKeeps(w: Wire, b: Blob)
    requires NoReuse(w) && b in w.pending
    ensures NoReuse(Turn(w, Deliver(b)))
  {
  }

  lemma TurnKeeps(w: Wire, l: Section)
    requires NoReuse(w) && Enabled(w, l)
    ensures NoReuse(Turn(w, l))
  {
    TurnGoesOn(w, l);
    match l
    case SealOne(m, ok) => if ok { SealKeeps(w, m); }
    case Deliver(b) => DeliverKeeps(w, b);
    case Crash =>
    case _ => MovedOn(w, Turn(w, l).keys);
  }

  lemma {:induction false} RunKeeps(run: seq<Wire>, ls: seq<Section>, n: nat)
    requires Runs(run, ls) && n < |run|
    ensures NoReuse(run[n])
  {
    if n > 0 {
      RunKeeps(run, ls, n - 1);
      assert TurnAt(run, ls, n - 1);
      TurnKeeps(run[n - 1], ls[n - 1]);
    }
  }

  /** While the group stays on disk the stored position of my chain only grows. */
  lemma {:induction false} PositionOnlyGrows(run: seq<Wire>, ls: seq<Section>, a: nat, b: nat)
    requires Runs(run, ls) && a <= b < |run|
    ensures NotBack(run[a].keys, run[b].keys)
    decreases b - a
  {
    if a < b {
      PositionOnlyGrows(run, ls, a, b - 1);
      RunKeeps(run, ls, b - 1);
      assert TurnAt(run, ls, b - 1);
      TurnGoesOn(run[b - 1], ls[b - 1]);
    }
  }

  /** Any two delivered envelopes carry different positions. */
  lemma DeliveredOnce(run: seq<Wire>, ls: seq<Section>, n: nat, i: nat, j: nat)
    requires Runs(run, ls) && n < |run| && i < j < |run[n].delivered|
    ensures (run[n].delivered[i].e, run[n].delivered[i].i) != (run[n].delivered[j].e, run[n].delivered[j].i)
  {
    RunKeeps(run, ls, n);
  }

  /* ---- the distribution record ---- */

  /** Section m recorded fp for an epoch, while the chain was at that epoch. */
  ghost predicate RecordedBy(run: seq<Wire>, ls: seq<Section>, m: nat, fp: Fp, epoch: int)
    requires m < |ls| < |run|
  {
    && ls[m].Record? && ls[m].ok && ls[m].epoch == epoch && fp in ls[m].reached
    && run[m].keys.mine.Some? && run[m].keys.mine.value.epoch == epoch
  }

  /** The record is never ahead of the chain, and every entry was made by a distribution that
      reached the member while the chain was at that epoch -- so one that finishes after a
      rekey does not pass the new chain off as sent. */
  lemma {:induction false} RecordIsEarned(run: seq<Wire>, ls: seq<Section>, n: nat, fp: Fp)
    requires Runs(run, ls) && n < |run| && fp in run[n].keys.handed
    ensures run[n].keys.mine.Some? && run[n].keys.handed[fp] <= run[n].keys.mine.value.epoch
    ensures exists m :: 0 <= m < n && RecordedBy(run, ls, m, fp, run[n].keys.handed[fp])
  {
    assert n > 0;
    var w, l := run[n - 1], ls[n - 1];
    assert TurnAt(run, ls, n - 1);
    RunKeeps(run, ls, n - 1);
    TurnGoesOn(w, l);
    if fp in w.keys.handed && run[n].keys.handed[fp] == w.keys.handed[fp] {
      RecordIsEarned(run, ls, n - 1, fp);
    } else {
      assert RecordedBy(run, ls, n - 1, fp, run[n].keys.handed[fp]);
    }
  }
}

/** Epochs across the devices of one identity (a2a/group.go, NextSenderEpoch). */
module Epochs {
  import opened Seats

  datatype Kind = Creation | Rekey | Rotation

  /** A new chain made at second `now` from a copy of the keys that holds epoch `from`. */
  datatype Bump = Bump(kind: Kind, now: int, from: int)

  function Epoch(b: Bump): int {
    match b.kind
    case Creation => 1
    case Rekey => b.from + 1
    case Rotation => NextSenderEpoch(b.from, b.now)
  }

  /** The copy is one that existed, however old and on whatever device; 0 is no keys at all. */
  ghost predicate Copied(h: seq<Bump>, n: nat)
    requires n < |h|
  {
    h[n].from == 0 || exists m :: 0 <= m < n && Epoch(h[m]) == h[n].from
  }

  /** Rekeys and rotations fall on seconds of their own. */
  ghost predicate DistinctSeconds(h: seq<Bump>) {
    forall m, n :: 0 <= m < n < |h| ==> h[m].now <= h[n].now && (h[n].kind != Creation ==> h[m].now < h[n].now)
  }

  ghost predicate History(h: seq<Bump>) {
    (forall n :: 0 <= n < |h| ==> Copied(h, n)) && forall n :: 0 <= n < |h| ==> h[n].now >= 1
  }

  lemma {:induction false} EpochAtMostTime(h: seq<Bump>, n: nat)
    requires History(h) && DistinctSeconds(h) && n < |h|
    ensures Epoch(h[n]) <= h[n].now
  {
    assert Copied(h, n);
    if h[n].kind != Creation && h[n].from != 0 {
      var m :| 0 <= m < n && Epoch(h[m]) == h[n].from;
      EpochAtMostTime(h, m);
    }
  }

  /** Each rotation is above every epoch used before it on any device. */
  lemma RotationOutranks(h: seq<Bump>, m: nat, n: nat)
    requires History(h) && DistinctSeconds(h) && m < n < |h| && h[n].kind == Rotation
    ensures Epoch(h[m]) < Epoch(h[n])
  {
    EpochAtMostTime(h, m);
  }

  /** A rotation is above an earlier epoch if and only if the clock has passed that epoch, or
      the copy it starts from is as new: without distinct seconds this is what decides. */
  lemma OutranksIff(h: seq<Bump>, m: nat, n: nat)
    requires m < n < |h| && h[n].kind == Rotation
    ensures Epoch(h[m]) < Epoch(h[n]) <==> Epoch(h[m]) < h[n].now || Epoch(h[m]) <= h[n].from
  {
  }

  /** Two bumps within one second let a later rotation, from a stale copy, repeat an epoch. */
  lemma SameSecondCollides(t: int, h: seq<Bump>)
    requires t >= 3 && h == [Bump(Creation, 1, 0), Bump(Rotation, t, 1), Bump(Rekey, t, t), Bump(Rotation, t + 1, 1)]
    ensures History(h) && !DistinctSeconds(h)
    ensures h[2].now < h[3].now && Epoch(h[2]) == Epoch(h[3])
  {
    assert Epoch(h[0]) == 1 && Epoch(h[1]) == t;
    forall n | 0 <= n < |h| ensures Copied(h, n) {}
    assert h[1].now == h[2].now;
  }
}
