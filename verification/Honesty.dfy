/** The sender of a seat is the honest sender that the ratchet's runs assume: one chain per
    epoch, each position at its own depth. Seats seed a chain with a random number, the
    ratchet's runs with the epoch's number; renaming one to the other changes nothing. */
module Honesty {
  import opened Collections
  import opened Ratchet
  import opened Inbound
  import opened Rosters
  import opened Seats
  import opened Membership
  import opened Secrecy
  import RatchetRuns

  /** The epochs and chains that were ever used, the current one included. */
  ghost function Uses(s: Seat): set<(int, int)> {
    (set m | m in s.out :: (m.dist.epoch, Root(m.dist.chain)))
    + (set p | p in s.posts :: (p.blob.e, Root(ChainOf(p))))
    + (if s.keys.mine.Some? then {(s.keys.mine.value.epoch, Root(s.keys.mine.value.chain))} else {})
  }

  /** Each epoch has one chain and each chain one epoch. */
  ghost predicate OneChainEach(uses: set<(int, int)>) {
    forall a, b :: a in uses && b in uses ==> (a.0 == b.0 <==> a.1 == b.1)
  }

  ghost predicate InDepth(s: Seat) {
    && (forall m :: m in s.out ==> m.dist.index == Depth(m.dist.chain))
    && (forall p :: p in s.posts ==> p.blob.c.Sealed? && p.blob.i == Depth(ChainOf(p)))
    && (s.keys.mine.Some? ==> s.keys.mine.value.index == Depth(s.keys.mine.value.chain))
  }

  ghost predicate Upright(s: Seat) {
    && InDepth(s) && OneChainEach(Uses(s)) && EpochOf(s.keys) >= 0
    && (forall a :: a in Uses(s) ==> 1 <= a.0 <= EpochOf(s.keys))
  }

  lemma DistributeUpright(s: Seat, g: Roster, k: Luck)
    requires Upright(s)
    ensures Upright(Distribute(s, g, k))
  {
    var t := Distribute(s, g, k);
    forall a | a in Uses(t) ensures a in Uses(s) {}
  }

  /** A fresh seed at a higher epoch. */
  lemma NewChainUpright(s: Seat, t: Seat, epoch: int, rand: int)
    requires Upright(s) && Unused(s, rand) && epoch > EpochOf(s.keys)
    requires t.out == s.out && t.posts == s.posts && t.keys.mine == Some(Sender(epoch, 0, Seed(rand)))
    ensures Upright(t)
  {
    forall a | a in Uses(t) ensures a == (epoch, rand) || (a in Uses(s) && a.1 != rand && a.0 < epoch) {}
  }

  lemma SameUpright(s: Seat, t: Seat)
    requires Upright(s) && t.out == s.out && t.posts == s.posts && t.keys.mine == s.keys.mine
    ensures Upright(t)
  {
    assert Uses(t) == Uses(s);
  }

  lemma RekeyUpright(s: Seat, g: Roster, k: Luck)
    requires Upright(s) && Unused(s, k.rand)
    ensures Upright(Rekey(s, g, k))
  {
    if RekeyOk(k) {
      var s1 := s.(keys := FreshKeys(s.keys, g, EpochOf(s.keys) + 1, k.rand));
      NewChainUpright(s, s1, EpochOf(s.keys) + 1, k.rand);
      DistributeUpright(s1, g, k);
    }
  }

  lemma EnsureUpright(s: Seat, k: Luck)
    requires Upright(s) && Unused(s, k.rand)
    ensures Upright(Ensure(s, k).0)
  {
    if s.keys.mine.None? && RekeyOk(k) { NewChainUpright(s, Ensure(s, k).0, 1, k.rand); }
  }

  lemma SealUpright(s: Seat, g: Roster, m: Message, k: Luck)
    requires Upright(s)
    ensures Upright(Seal(s, g, m, k))
  {
    var t := Seal(s, g, m, k);
    forall a | a in Uses(t) ensures a in Uses(s) {}
  }

  lemma FanOutUpright(s: Seat, m: Message, k: Luck)
    requires Upright(s) && Unused(s, k.rand)
    ensures Upright(FanOut(s, m, k))
  {
    EnsureUpright(s, k);
    if s.group.Some? {
      DistributeUpright(Ensure(s, k).0, s.group.value, k);
      SealUpright(Distribute(Ensure(s, k).0, s.group.value, k), s.group.value, m, k);
    }
  }

  lemma JoinUpright(s: Seat, g: Roster, k: Luck)
    requires Upright(s) && Unused(s, k.rand)
    ensures Upright(Join(s, g, k))
  {
    var s1 := s.(group := Some(g));
    SameUpright(s, s1);
    EnsureUpright(s1, k);
    DistributeUpright(Ensure(s1, k).0, g, k);
  }

  lemma ApplyUpright(s: Seat, g: Roster, k: Luck)
    requires Upright(s) && Unused(s, k.rand)
    ensures Upright(ApplyRoster(s, g, k))
  {
    if Acceptable(s, g) && s.me in Members(g) && k.groupOk {
      ConvergeUpright(s, g, k);
    } else {
      SameUpright(s, ApplyRoster(s, g, k));
    }
  }

  lemma ConvergeUpright(s: Seat, g: Roster, k: Luck)
    requires Upright(s) && Unused(s, k.rand) && s.group.Some?
    ensures Upright(Converge(s, g, k))
  {
    var s1 := s.(group := Some(g));
    var s2 := if s.left != In && k.clearOk then s1.(left := In) else s1;
    SameUpright(s, s1);
    SameUpright(s, s2);
    RekeyUpright(s2, g, k);
    DistributeUpright(s1, g, k);
  }

  lemma RefreshUpright(s: Seat, r: Reply, k: Luck)
    requires Upright(s) && Unused(s, k.rand)
    ensures Upright(Refresh(s, r, k))
  {
    if s.group.Some? && r.Got? { ApplyUpright(s, r.roster, k); } else { SameUpright(s, Refresh(s, r, k)); }
  }

  lemma InviteUpright(s: Seat, i: Invite, k: Luck, k': Luck)
    requires Upright(s) && Unused(s, k.rand)
    ensures Upright(TakeInvite(s, i, k, k'))
  {
    if Trusted(s, i) && i.gid == s.gid {
      var g := i.roster.value;
      if s.group.Some? {
        ApplyUpright(s, g, k);
        var s1 := ApplyRoster(s, g, k);
        var s2 := s1.(keys := s1.keys.(handed := map[]));
        SameUpright(s1, s2);
        if s1.group.Some? { DistributeUpright(s2, s1.group.value, k'); }
      } else {
        JoinUpright(s, g, k);
      }
    }
  }

  lemma KeyUpright(s: Seat, from: Fp, d: Dist, r: Reply, k: Luck, k': Luck)
    requires Upright(s) && Unused(s, k.rand)
    ensures Upright(TakeKey(s, from, d, r, k, k'))
  {
    RefreshUpright(s, r, k);
    SameUpright(s, StoreKey(s, from, d));
    SameUpright(Refresh(s, r, k), StoreKey(Refresh(s, r, k), from, d));
  }

  lemma LetterUpright(s: Seat, from: Fp, b: Blob, seen: bool, r: Reply, k: Luck, k': Luck)
    requires Upright(s) && Unused(s, k.rand)
    ensures Upright(TakeLetter(s, from, b, seen, r, k, k').0)
  {
    if from != s.me && s.group.Some? {
      if s.left != In {
        SameUpright(s, DissolveWhileLeft(s, from, b, k));
      } else {
        RefreshUpright(s, r, k);
        var s1 := if from in Members(s.group.value) then s else Refresh(s, r, k);
        if s1.group.Some? { OpenUpright(s1, from, b, seen, k'); }
      }
    }
  }

  lemma OpenUpright(s: Seat, from: Fp, b: Blob, seen: bool, k: Luck)
    requires Upright(s) && s.group.Some?
    ensures Upright(OpenLetter(s, from, b, seen, k).0)
  {
    SameUpright(s, OpenLetter(s, from, b, seen, k).0);
  }

  lemma RepublishUpright(s: Seat, ch: Change, ok: bool, m: Message, k: Luck, k': Luck)
    requires Upright(s) && Unused(s, k.rand) && Unused(s, k'.rand) && k.rand != k'.rand
    ensures Upright(Republish(s, ch, ok, m, k, k'))
  {
    if s.group.Some? {
      var next := NextRoster(s.group.value, ch);
      var s1 := s.(group := Some(next));
      SameUpright(s, s1);
      RekeyUpright(s1, next, k);
      DistributeUpright(s1, next, k);
      UnusedAfter(s, ch, k, k'.rand);
      FanOutUpright(AfterRepublish(s, next, s.group.value, ch, k), m, k');
    }
  }

  lemma StepUpright(s: Seat, op: Op)
    requires Upright(s) && Careful(s, op) && !op.Deleted?
    ensures Upright(Do(s, op))
  {
    match op
    case Created(g, published, k) => JoinUpright(s, g, k);
    case Invited(i, k, k') => InviteUpright(s, i, k, k');
    case KeyCame(from, d, r, k, k') => KeyUpright(s, from, d, r, k, k');
    case LetterCame(from, b, seen, r, k, k') => LetterUpright(s, from, b, seen, r, k, k');
    case Poked(r, k) => RefreshUpright(s, r, k);
    case Posted(m, k) => FanOutUpright(s, m, k);
    case Rotated(now, k) =>
      if s.group.Some? && s.left == In && RekeyOk(k) { NewChainUpright(s, Rotate(s, now, k), NextSenderEpoch(EpochOf(s.keys), now), k.rand); }
    case ToppedUp(k) => if s.group.Some? { DistributeUpright(s, s.group.value, k); }
    case Republished(ch, ok, m, k, k') => RepublishUpright(s, ch, ok, m, k, k');
  }

  lemma {:induction false} RunUpright(run: seq<Seat>, ops: seq<Op>, n: nat)
    requires Behaves(run, ops) && Init(run[0]) && n < |run| && Undeleted(ops, 0, n)
    requires forall j :: 0 <= j < |ops| ==> CarefulAt(run, ops, j)
    ensures Upright(run[n])
  {
    if n > 0 {
      RunUpright(run, ops, n - 1);
      assert DoneAt(run, ops, n - 1) && CarefulAt(run, ops, n - 1);
      StepUpright(run[n - 1], ops[n - 1]);
    }
  }

  /* ---- the same sender ---- */

  /** A key distribution and a ciphertext with the epoch's number for its seed. */
  function Renamed(d: Dist): Dist { Dist(d.epoch, d.index, if d.index < 0 then d.chain else Steps(Seed(d.epoch), d.index)) }

  function RenamedCipher(p: Post): Cipher
    requires p.blob.i >= 0 && p.blob.c.Sealed?
  {
    Sealed(KeyAt(p.blob.e, p.blob.i), p.blob.c.plain)
  }

  /** What a seat sends is, up to the names of the seeds, what the honest sender of the
      ratchet's runs sends: its distributions are honest, its ciphertexts are under the key of
      their own position, and a distribution opens a post before the renaming if and only if
      it does after. */
  lemma SeatSendsHonestly(run: seq<Seat>, ops: seq<Op>, n: nat, m: KeyMsg, p: Post)
    requires Behaves(run, ops) && Init(run[0]) && n < |run| && Undeleted(ops, 0, n)
    requires forall j :: 0 <= j < |ops| ==> CarefulAt(run, ops, j)
    requires m in run[n].out && p in run[n].posts
    ensures RatchetRuns.HonestKey(Renamed(m.dist)) && p.blob.i >= 0 && p.blob.c.Sealed?
    ensures Derives(m.dist.chain, ChainOf(p)) <==> Derives(Renamed(m.dist).chain, RenamedCipher(p).key.chain)
  {
    RunUpright(run, ops, n);
    var s := run[n];
    assert (m.dist.epoch, Root(m.dist.chain)) in Uses(s) && (p.blob.e, Root(ChainOf(p))) in Uses(s);
    DerivesIff(m.dist.chain, ChainOf(p));
    StepsRootDepth(Seed(m.dist.epoch), m.dist.index);
    StepsRootDepth(Seed(p.blob.e), p.blob.i);
    DerivesIff(Renamed(m.dist).chain, RenamedCipher(p).key.chain);
  }

  /** Ratchets only turn forwards, and they reach everything ahead. */
  lemma DerivesIff(c: Chain, d: Chain)
    ensures Derives(c, d) <==> Root(c) == Root(d) && Depth(c) <= Depth(d)
  {
    if Derives(c, d) { DerivesForward(c, d); }
    if Root(c) == Root(d) && Depth(c) <= Depth(d) {
      ByDepth(c);
      ByDepth(d);
      StepsAdd(Seed(Root(c)), Depth(c), Depth(d) - Depth(c));
      assert Steps(c, Depth(d) - Depth(c)) == d;
    }
  }

  /** A chain is its root, so many steps on. */
  lemma ByDepth(c: Chain)
    ensures c == Steps(Seed(Root(c)), Depth(c))
  {
  }
}
