/** Who can open a post: not only who must not, but exactly who was given its key. A send that
    fails gives nothing, and whoever was not reached stays owed. */
module Readers {
  import opened Collections
  import opened Ratchet
  import opened Inbound
  import opened Rosters
  import opened Seats
  import opened Membership
  import opened Secrecy

  /** fp was given a key from which c follows. */
  ghost predicate Given(got: set<KeyMsg>, fp: Fp, c: Chain) {
    exists m :: m in got && m.to == fp && Derives(m.dist.chain, c)
  }

  /** fp was given a key that opens post p. */
  ghost predicate Opens(s: Seat, fp: Fp, p: Post) { Given(s.got, fp, ChainOf(p)) }

  lemma DerivesOn(c: Chain, d: Chain)
    ensures Derives(c, c) && (Derives(c, d) ==> Derives(c, Next(d)))
  {
    assert Steps(c, 0) == c;
    if Derives(c, d) {
      var n: nat :| Steps(c, n) == d;
      assert Steps(c, n + 1) == Next(d);
    }
  }

  lemma GivenMore(got: set<KeyMsg>, got': set<KeyMsg>, fp: Fp, c: Chain)
    requires got <= got' && Given(got, fp, c)
    ensures Given(got', fp, c)
  {
    var m :| m in got && m.to == fp && Derives(m.dist.chain, c);
    assert m in got';
  }

  lemma GivenNext(got: set<KeyMsg>, fp: Fp, c: Chain)
    requires Given(got, fp, c)
    ensures Given(got, fp, Next(c))
  {
    var m :| m in got && m.to == fp && Derives(m.dist.chain, c);
    DerivesOn(m.dist.chain, c);
  }

  /* ---- the distribution record ---- */

  /** Whoever is recorded at the current epoch was given the chain, and what was given was
      sent. */
  ghost predicate RecordTrue(s: Seat) {
    && s.got <= s.out
    && if s.keys.mine.None? then s.keys.handed == map[]
       else
         && s.keys.mine.value.epoch >= 1
         && forall fp :: HandedAt(s.keys.handed, fp) >= s.keys.mine.value.epoch ==> Given(s.got, fp, s.keys.mine.value.chain)
  }

  /** What a distribution gives, exactly. */
  lemma DistributeGives(s: Seat, g: Roster, k: Luck, fp: Fp)
    requires s.keys.mine.Some?
    ensures var c, owed := s.keys.mine.value.chain, Owed(s.me, g, s.keys.handed, s.keys.mine.value.epoch);
            Given(Distribute(s, g, k).got, fp, c) <==> Given(s.got, fp, c) || (fp in owed && fp in k.reached)
  {
    var mine, t := s.keys.mine.value, Distribute(s, g, k);
    var owed := Owed(s.me, g, s.keys.handed, mine.epoch);
    DerivesOn(mine.chain, mine.chain);
    if Given(s.got, fp, mine.chain) { GivenMore(s.got, t.got, fp, mine.chain); }
    if fp in owed && fp in k.reached {
      assert fp in owed * k.reached;
      assert KeyMsg(fp, Dist(mine.epoch, mine.index, mine.chain)) in t.got;
    }
    if Given(t.got, fp, mine.chain) && !(fp in owed && fp in k.reached) {
      var m :| m in t.got && m.to == fp && Derives(m.dist.chain, mine.chain);
      assert m in s.got;
    }
  }

  lemma DistributeRecords(s: Seat, g: Roster, k: Luck)
    requires RecordTrue(s)
    ensures RecordTrue(Distribute(s, g, k))
  {
    var t := Distribute(s, g, k);
    if s.keys.mine.Some? {
      var mine := s.keys.mine.value;
      forall fp | HandedAt(t.keys.handed, fp) >= mine.epoch ensures Given(t.got, fp, mine.chain) {
        DistributeGives(s, g, k, fp);
      }
    }
  }

  lemma RekeyRecords(s: Seat, g: Roster, k: Luck)
    requires RecordTrue(s)
    ensures RecordTrue(Rekey(s, g, k))
  {
    if RekeyOk(k) {
      FreshRecords(s, g, EpochOf(s.keys) + 1, k.rand);
      DistributeRecords(s.(keys := FreshKeys(s.keys, g, EpochOf(s.keys) + 1, k.rand)), g, k);
    }
  }

  /** Nobody is recorded for a fresh chain. */
  lemma FreshRecords(s: Seat, g: Roster, epoch: int, rand: int)
    requires RecordTrue(s) && epoch > EpochOf(s.keys)
    ensures RecordTrue(s.(keys := FreshKeys(s.keys, g, epoch, rand)))
  {
  }

  lemma SealRecords(s: Seat, g: Roster, m: Message, k: Luck)
    requires RecordTrue(s)
    ensures RecordTrue(Seal(s, g, m, k))
  {
    if s.keys.mine.Some? && k.sealOk {
      var c := s.keys.mine.value.chain;
      forall fp | Given(s.got, fp, c) ensures Given(s.got, fp, Next(c)) { GivenNext(s.got, fp, c); }
    }
  }

  lemma FanOutRecords(s: Seat, m: Message, k: Luck)
    requires RecordTrue(s)
    ensures RecordTrue(FanOut(s, m, k))
  {
    if s.group.Some? && s.left == In && Ensure(s, k).1 {
      var g, s1 := s.group.value, Ensure(s, k).0;
      DistributeRecords(s1, g, k);
      SealRecords(Distribute(s1, g, k), g, m, k);
    }
  }

  /** Rosters, markers and receive states do not matter. */
  lemma KeysOnly(s: Seat, t: Seat)
    requires RecordTrue(s) && t.got == s.got && t.out == s.out && t.keys.mine == s.keys.mine && t.keys.handed == s.keys.handed
    ensures RecordTrue(t)
  {
  }

  lemma JoinRecords(s: Seat, g: Roster, k: Luck)
    requires RecordTrue(s)
    ensures RecordTrue(Join(s, g, k))
  {
    if k.groupOk { DistributeRecords(Ensure(s.(group := Some(g)), k).0, g, k); }
  }

  lemma ApplyRecords(s: Seat, g: Roster, k: Luck)
    requires RecordTrue(s)
    ensures RecordTrue(ApplyRoster(s, g, k))
  {
    var s1 := s.(group := Some(g));
    KeysOnly(s, s1);
    KeysOnly(s, s1.(left := In));
    RekeyRecords(s1, g, k);
    RekeyRecords(s1.(left := In), g, k);
    DistributeRecords(s1, g, k);
  }

  lemma RefreshRecords(s: Seat, r: Reply, k: Luck)
    requires RecordTrue(s)
    ensures RecordTrue(Refresh(s, r, k))
  {
    if r.Got? { ApplyRecords(s, r.roster, k); }
  }

  lemma InviteRecords(s: Seat, i: Invite, k: Luck, k': Luck)
    requires RecordTrue(s)
    ensures RecordTrue(TakeInvite(s, i, k, k'))
  {
    if Trusted(s, i) && i.gid == s.gid {
      var g := i.roster.value;
      if s.group.Some? {
        ApplyRecords(s, g, k);
        var s1 := ApplyRoster(s, g, k);
        if s1.group.Some? && s1.keys.mine.Some? { DistributeRecords(s1.(keys := s1.keys.(handed := map[])), s1.group.value, k'); }
      } else {
        JoinRecords(s, g, k);
      }
    }
  }

  lemma KeyRecords(s: Seat, from: Fp, d: Dist, r: Reply, k: Luck, k': Luck)
    requires RecordTrue(s)
    ensures RecordTrue(TakeKey(s, from, d, r, k, k'))
  {
    RefreshRecords(s, r, k);
    KeysOnly(s, StoreKey(s, from, d));
    KeysOnly(Refresh(s, r, k), StoreKey(Refresh(s, r, k), from, d));
  }

  lemma OpenRecords(s: Seat, from: Fp, b: Blob, seen: bool, k: Luck)
    requires RecordTrue(s) && s.group.Some?
    ensures RecordTrue(OpenLetter(s, from, b, seen, k).0)
  {
    KeysOnly(s, OpenLetter(s, from, b, seen, k).0);
  }

  lemma LetterRecords(s: Seat, from: Fp, b: Blob, seen: bool, r: Reply, k: Luck, k': Luck)
    requires RecordTrue(s)
    ensures RecordTrue(TakeLetter(s, from, b, seen, r, k, k').0)
  {
    if from != s.me && s.group.Some? {
      if s.left != In {
        KeysOnly(s, DissolveWhileLeft(s, from, b, k));
      } else {
        RefreshRecords(s, r, k);
        var s1 := if from in Members(s.group.value) then s else Refresh(s, r, k);
        if s1.group.Some? { OpenRecords(s1, from, b, seen, k'); }
      }
    }
  }

  lemma RepublishRecords(s: Seat, ch: Change, ok: bool, m: Message, k: Luck, k': Luck)
    requires RecordTrue(s)
    ensures RecordTrue(Republish(s, ch, ok, m, k, k'))
  {
    if s.group.Some? {
      var next := NextRoster(s.group.value, ch);
      var s1 := s.(group := Some(next));
      KeysOnly(s, s1);
      RekeyRecords(s1, next, k);
      DistributeRecords(s1, next, k);
      FanOutRecords(AfterRepublish(s, next, s.group.value, ch, k), m, k');
    }
  }

  lemma StepRecords(s: Seat, op: Op)
    requires RecordTrue(s)
    ensures RecordTrue(Do(s, op))
  {
    match op
    case Created(g, published, k) => JoinRecords(s, g, k);
    case Invited(i, k, k') => InviteRecords(s, i, k, k');
    case KeyCame(from, d, r, k, k') => KeyRecords(s, from, d, r, k, k');
    case LetterCame(from, b, seen, r, k, k') => LetterRecords(s, from, b, seen, r, k, k');
    case Poked(r, k) => RefreshRecords(s, r, k);
    case Posted(m, k) => FanOutRecords(s, m, k);
    case Rotated(now, k) => if s.group.Some? { FreshRecords(s, s.group.value, NextSenderEpoch(EpochOf(s.keys), now), k.rand); }
    case ToppedUp(k) => if s.group.Some? { DistributeRecords(s, s.group.value, k); }
    case Republished(ch, ok, m, k, k') => RepublishRecords(s, ch, ok, m, k, k');
    case Deleted =>
  }

  lemma {:induction false} RunRecords(run: seq<Seat>, ops: seq<Op>, n: nat)
    requires Behaves(run, ops) && Init(run[0]) && n < |run|
    ensures RecordTrue(run[n])
  {
    if n > 0 {
      RunRecords(run, ops, n - 1);
      assert DoneAt(run, ops, n - 1);
      StepRecords(run[n - 1], ops[n - 1]);
    }
  }

  /** At every point of every run a member who was not given the current chain is owed it: the
      next distribution sends it, whatever happens in between, and if it is then reached it
      holds the chain. */
  lemma UnreachedStaysOwed(run: seq<Seat>, ops: seq<Op>, n: nat, fp: Fp, k: Luck)
    requires Behaves(run, ops) && Init(run[0]) && n < |run|
    requires run[n].keys.mine.Some? && OnRosterAt(run, n, fp) && fp != run[n].me
    requires !Given(run[n].got, fp, run[n].keys.mine.value.chain)
    ensures var s := run[n]; var g, mine := s.group.value, s.keys.mine.value; var t := Distribute(s, g, k);
            && fp in Owed(s.me, g, s.keys.handed, mine.epoch)
            && KeyMsg(fp, Dist(mine.epoch, mine.index, mine.chain)) in t.out
            && (Given(t.got, fp, mine.chain) <==> fp in k.reached)
  {
    RunRecords(run, ops, n);
    DistributeGives(run[n], run[n].group.value, k, fp);
  }

  /* ---- one post ---- */

  /** fanOutGroup gets as far as posting. */
  ghost predicate Posts(s: Seat, k: Luck) { s.group.Some? && s.left == In && Ensure(s, k).1 && k.sealOk }

  /** The chain a post is sealed under, made just before if there was none. */
  ghost function Sealer(s: Seat, k: Luck): Sender
    requires Posts(s, k)
  {
    Ensure(s, k).0.keys.mine.value
  }

  /** The post that fanOutGroup makes of m. */
  ghost function Made(s: Seat, m: Message, k: Luck): Post
    requires Posts(s, k)
  {
    Post(Sealing(Sealer(s, k), m).1, Members(s.group.value))
  }

  lemma Makes(s: Seat, m: Message, k: Luck)
    requires Posts(s, k)
    ensures Made(s, m, k) in FanOut(s, m, k).posts && FanOut(s, m, k).got == Distribute(Ensure(s, k).0, s.group.value, k).got
  {
    DistributeKeeps(Ensure(s, k).0, s.group.value, k);
  }

  /** Who can open a post when it leaves: the members given the chain before, and those the
      distribution in front of it reached. */
  lemma PostOpensFor(s: Seat, m: Message, k: Luck, fp: Fp)
    requires RecordTrue(s) && Posts(s, k) && fp in Members(s.group.value) && fp != s.me
    ensures Opens(FanOut(s, m, k), fp, Made(s, m, k)) <==> Given(s.got, fp, Sealer(s, k).chain) || fp in k.reached
  {
    var s1 := Ensure(s, k).0;
    Makes(s, m, k);
    EnsureRecords(s, k);
    DistributeGives(s1, s.group.value, k, fp);
  }

  lemma EnsureRecords(s: Seat, k: Luck)
    requires RecordTrue(s)
    ensures RecordTrue(Ensure(s, k).0) && Ensure(s, k).0.got == s.got
  {
  }

  /* ---- later keys open nothing old ---- */

  /** No key given in between opens a post that was there before. */
  ghost predicate OldStayShut(s: Seat, t: Seat) {
    && s.got <= t.got && s.posts <= t.posts
    && forall m, p :: m in t.got && m !in s.got && p in s.posts ==> !Derives(m.dist.chain, ChainOf(p))
  }

  lemma ShutTwice(s: Seat, t: Seat, u: Seat)
    requires OldStayShut(s, t) && OldStayShut(t, u)
    ensures OldStayShut(s, u)
  {
  }

  lemma SameKeysShut(s: Seat, t: Seat)
    requires t.got == s.got && s.posts <= t.posts
    ensures OldStayShut(s, t)
  {
  }

  lemma DistributeShut(s: Seat, g: Roster, k: Luck)
    requires Ahead(s.keys.mine, s.posts)
    ensures OldStayShut(s, Distribute(s, g, k))
  {
    var t := Distribute(s, g, k);
    forall m, p | m in t.got && m !in s.got && p in s.posts ensures !Derives(m.dist.chain, ChainOf(p)) {
      assert m.dist.chain == s.keys.mine.value.chain;
      if Derives(m.dist.chain, ChainOf(p)) { DerivesForward(m.dist.chain, ChainOf(p)); }
    }
  }

  lemma FreshAhead(s: Seat, g: Roster, epoch: int, rand: int)
    requires Unused(s, rand)
    ensures Ahead(FreshKeys(s.keys, g, epoch, rand).mine, s.posts)
  {
  }

  lemma RekeyShut(s: Seat, g: Roster, k: Luck)
    requires Unused(s, k.rand)
    ensures OldStayShut(s, Rekey(s, g, k))
  {
    if RekeyOk(k) {
      var s1 := s.(keys := FreshKeys(s.keys, g, EpochOf(s.keys) + 1, k.rand));
      FreshAhead(s, g, EpochOf(s.keys) + 1, k.rand);
      DistributeShut(s1, g, k);
      SameKeysShut(s, s1);
      ShutTwice(s, s1, Distribute(s1, g, k));
    }
  }

  lemma FanOutShut(s: Seat, m: Message, k: Luck)
    requires Ahead(s.keys.mine, s.posts) && Unused(s, k.rand)
    ensures OldStayShut(s, FanOut(s, m, k))
  {
    if s.group.Some? && s.left == In {
      var g, s1 := s.group.value, Ensure(s, k).0;
      SameKeysShut(s, s1);
      if Ensure(s, k).1 {
        DistributeShut(s1, g, k);
        SameKeysShut(Distribute(s1, g, k), FanOut(s, m, k));
        ShutTwice(s, s1, Distribute(s1, g, k));
        ShutTwice(s, Distribute(s1, g, k), FanOut(s, m, k));
      }
    }
  }

  lemma JoinShut(s: Seat, g: Roster, k: Luck)
    requires Ahead(s.keys.mine, s.posts) && Unused(s, k.rand)
    ensures OldStayShut(s, Join(s, g, k))
  {
    var s1 := Ensure(s.(group := Some(g)), k).0;
    SameKeysShut(s, s1);
    if k.groupOk && Ensure(s.(group := Some(g)), k).1 {
      DistributeShut(s1, g, k);
      ShutTwice(s, s1, Distribute(s1, g, k));
    }
  }

  lemma ApplyShut(s: Seat, g: Roster, k: Luck)
    requires Ahead(s.keys.mine, s.posts) && Unused(s, k.rand)
    ensures OldStayShut(s, ApplyRoster(s, g, k))
  {
    var s1 := s.(group := Some(g));
    SameKeysShut(s, s1);
    if Acceptable(s, g) && s.me in Members(g) && k.groupOk {
      var s2 := if s.left != In && k.clearOk then s1.(left := In) else s1;
      RekeyShut(s2, g, k);
      DistributeShut(s1, g, k);
      ShutTwice(s, s2, Rekey(s2, g, k));
      ShutTwice(s, s1, Distribute(s1, g, k));
    } else {
      SameKeysShut(s, ApplyRoster(s, g, k));
    }
  }

  lemma RefreshShut(s: Seat, r: Reply, k: Luck)
    requires Ahead(s.keys.mine, s.posts) && Unused(s, k.rand)
    ensures OldStayShut(s, Refresh(s, r, k))
  {
    if s.group.Some? && r.Got? { ApplyShut(s, r.roster, k); } else { SameKeysShut(s, Refresh(s, r, k)); }
  }

  lemma InviteShut(s: Seat, i: Invite, k: Luck, k': Luck)
    requires Safe(s) && Unused(s, k.rand) && (i.roster.Some? ==> Converges(s, i.roster.value, k))
    ensures OldStayShut(s, TakeInvite(s, i, k, k'))
  {
    if Trusted(s, i) && i.gid == s.gid {
      var g := i.roster.value;
      if s.group.Some? {
        ApplyShut(s, g, k);
        ApplySafe(s, g, k);
        var s1 := ApplyRoster(s, g, k);
        if s1.group.Some? { RedistributeShut(s1, s1.group.value, k'); }
        ShutTwice(s, s1, TakeInvite(s, i, k, k'));
      } else {
        JoinShut(s, g, k);
      }
    }
  }

  lemma RedistributeShut(s: Seat, g: Roster, k: Luck)
    requires Ahead(s.keys.mine, s.posts)
    ensures OldStayShut(s, Redistribute(s, g, k)) && OldStayShut(s, s)
  {
    var s1 := s.(keys := s.keys.(handed := map[]));
    SameKeysShut(s, s1);
    DistributeShut(s1, g, k);
    ShutTwice(s, s1, Distribute(s1, g, k));
  }

  lemma OpenShut(s: Seat, from: Fp, b: Blob, seen: bool, k: Luck)
    requires s.group.Some?
    ensures OldStayShut(s, OpenLetter(s, from, b, seen, k).0)
  {
    SameKeysShut(s, OpenLetter(s, from, b, seen, k).0);
  }

  lemma LetterShut(s: Seat, from: Fp, b: Blob, seen: bool, r: Reply, k: Luck, k': Luck)
    requires Ahead(s.keys.mine, s.posts) && Unused(s, k.rand)
    ensures OldStayShut(s, TakeLetter(s, from, b, seen, r, k, k').0)
  {
    SameKeysShut(s, s);
    if from != s.me && s.group.Some? {
      if s.left != In {
        SameKeysShut(s, DissolveWhileLeft(s, from, b, k));
      } else {
        RefreshShut(s, r, k);
        var s1 := if from in Members(s.group.value) then s else Refresh(s, r, k);
        if s1.group.Some? {
          OpenShut(s1, from, b, seen, k');
          ShutTwice(s, s1, OpenLetter(s1, from, b, seen, k').0);
        }
      }
    }
  }

  lemma KeyShut(s: Seat, from: Fp, d: Dist, r: Reply, k: Luck, k': Luck)
    requires Ahead(s.keys.mine, s.posts) && Unused(s, k.rand)
    ensures OldStayShut(s, TakeKey(s, from, d, r, k, k'))
  {
    var t := TakeKey(s, from, d, r, k, k');
    RefreshShut(s, r, k);
    if s.group.Some? && from !in Members(s.group.value) && t != s {
      SameKeysShut(Refresh(s, r, k), t);
      ShutTwice(s, Refresh(s, r, k), t);
    } else {
      SameKeysShut(s, t);
    }
  }

  lemma RepublishShut(s: Seat, ch: Change, ok: bool, m: Message, k: Luck, k': Luck)
    requires Safe(s) && Unused(s, k.rand) && Unused(s, k'.rand) && k.rand != k'.rand && Filed(ch.renew) && Reissues(s, ch, k)
    ensures OldStayShut(s, Republish(s, ch, ok, m, k, k'))
  {
    SameKeysShut(s, s);
    if s.group.Some? {
      var next := NextRoster(s.group.value, ch);
      var s1 := s.(group := Some(next));
      var s2 := AfterRepublish(s, next, s.group.value, ch, k);
      SameKeysShut(s, s1);
      RekeyShut(s1, next, k);
      DistributeShut(s1, next, k);
      SameKeysShut(s1, s1);
      ShutTwice(s, s1, s2);
      AfterRepublishSafe(s, ch, k);
      UnusedAfter(s, ch, k, k'.rand);
      FanOutShut(s2, m, k');
      ShutTwice(s, s2, FanOut(s2, m, k'));
    }
  }

  lemma StepShut(s: Seat, op: Op)
    requires Safe(s) && Careful(s, op)
    ensures OldStayShut(s, Do(s, op))
  {
    match op
    case Created(g, published, k) => JoinShut(s, g, k); SameKeysShut(s, s);
    case Invited(i, k, k') => InviteShut(s, i, k, k');
    case KeyCame(from, d, r, k, k') => KeyShut(s, from, d, r, k, k');
    case LetterCame(from, b, seen, r, k, k') => LetterShut(s, from, b, seen, r, k, k');
    case Poked(r, k) => RefreshShut(s, r, k);
    case Posted(m, k) => FanOutShut(s, m, k);
    case Rotated(now, k) => SameKeysShut(s, Rotate(s, now, k));
    case ToppedUp(k) => if s.group.Some? { DistributeShut(s, s.group.value, k); } SameKeysShut(s, s);
    case Republished(ch, ok, m, k, k') => RepublishShut(s, ch, ok, m, k, k');
    case Deleted => SameKeysShut(s, Remove(s));
  }

  lemma {:induction false} RunShut(run: seq<Seat>, ops: seq<Op>, i: nat, n: nat)
    requires Behaves(run, ops) && Init(run[0]) && i <= n < |run| && forall j :: 0 <= j < |ops| ==> CarefulAt(run, ops, j)
    ensures OldStayShut(run[i], run[n])
    decreases n - i
  {
    if i < n {
      RunShut(run, ops, i, n - 1);
      RunSafe(run, ops, n - 1);
      assert DoneAt(run, ops, n - 1) && CarefulAt(run, ops, n - 1);
      StepShut(run[n - 1], ops[n - 1]);
      ShutTwice(run[i], run[n - 1], run[n]);
    } else {
      SameKeysShut(run[i], run[i]);
    }
  }

  lemma OpensSame(s: Seat, t: Seat, fp: Fp, p: Post)
    requires OldStayShut(s, t) && p in s.posts
    ensures Opens(t, fp, p) <==> Opens(s, fp, p)
  {
    if Opens(s, fp, p) { GivenMore(s.got, t.got, fp, ChainOf(p)); }
    if Opens(t, fp, p) {
      var m :| m in t.got && m.to == fp && Derives(m.dist.chain, ChainOf(p));
      assert m in s.got;
    }
  }

  /* ---- over runs ---- */

  ghost predicate CarefulRun(run: seq<Seat>, ops: seq<Op>)
    requires |run| == |ops| + 1
  {
    forall j :: 0 <= j < |ops| ==> CarefulAt(run, ops, j)
  }

  /** Who can open a post never changes after it was made. */
  lemma OpeningSettled(run: seq<Seat>, ops: seq<Op>, i: nat, n: nat, p: Post, fp: Fp)
    requires Behaves(run, ops) && Init(run[0]) && i <= n < |run| && CarefulRun(run, ops) && p in run[i].posts
    ensures Opens(run[n], fp, p) <==> Opens(run[i], fp, p)
  {
    RunShut(run, ops, i, n);
    OpensSame(run[i], run[n], fp, p);
  }

  /** A post is made at step i of a run in which the writes a roster change relies on succeed.
      At every later point, fp holds a key that opens it if and only if fp is another member
      of the roster it was made under and had been given my chain before, or was reached by
      the distribution in front of it. */
  lemma ReadersAreTheReached(run: seq<Seat>, ops: seq<Op>, i: nat, n: nat, fp: Fp)
    requires Behaves(run, ops) && Init(run[0]) && i < n < |run| && CarefulRun(run, ops)
    requires ops[i].Posted? && Posts(run[i], ops[i].k) && fp != run[i].me
    ensures var p := Made(run[i], ops[i].m, ops[i].k);
            && p in run[n].posts
            && (Opens(run[n], fp, p) <==>
                  fp in p.audience && (Given(run[i].got, fp, Sealer(run[i], ops[i].k).chain) || fp in ops[i].k.reached))
  {
    var s, m, k := run[i], ops[i].m, ops[i].k;
    var p := Made(s, m, k);
    assert DoneAt(run, ops, i);
    RunRecords(run, ops, i);
    RunRecords(run, ops, i + 1);
    Makes(s, m, k);
    RunShut(run, ops, i + 1, n);
    OpensSame(run[i + 1], run[n], fp, p);
    if fp in p.audience {
      PostOpensFor(s, m, k, fp);
    } else {
      RunSafe(run, ops, i + 1);
      SafeNeverLeaks(run[i + 1], fp);
      OpensCanRead(run[i + 1], fp, p);
    }
  }

  lemma OpensCanRead(s: Seat, fp: Fp, p: Post)
    requires RecordTrue(s)
    ensures Opens(s, fp, p) ==> CanRead(s, fp, p)
  {
    if Opens(s, fp, p) {
      var m :| m in s.got && m.to == fp && Derives(m.dist.chain, ChainOf(p));
      assert m in s.out;
    }
  }

  /* ---- with every record written ---- */

  /** The record is also complete. */
  ghost predicate RecordFull(s: Seat) {
    s.keys.mine.Some? ==> forall fp :: Given(s.got, fp, s.keys.mine.value.chain) ==> HandedAt(s.keys.handed, fp) >= s.keys.mine.value.epoch
  }

  /** Nobody but the recorded was given anything of the chain's root. */
  ghost predicate RootsRecorded(s: Seat) {
    s.keys.mine.Some? ==>
      forall m :: m in s.got && Root(m.dist.chain) == Root(s.keys.mine.value.chain) ==> HandedAt(s.keys.handed, m.to) >= s.keys.mine.value.epoch
  }

  lemma RootsRecordedIsFull(s: Seat)
    requires RootsRecorded(s)
    ensures RecordFull(s)
  {
    if s.keys.mine.Some? {
      var c := s.keys.mine.value.chain;
      forall fp | Given(s.got, fp, c) ensures HandedAt(s.keys.handed, fp) >= s.keys.mine.value.epoch {
        var m :| m in s.got && m.to == fp && Derives(m.dist.chain, c);
        DerivesForward(m.dist.chain, c);
      }
    }
  }

  /** Records are written, and no repeated invite resets them. */
  ghost predicate Diligent(s: Seat, op: Op) {
    match op
    case Created(_, _, k) => k.recordOk
    case Invited(_, k, _) => k.recordOk && s.group.None?
    case KeyCame(_, _, _, k, _) => k.recordOk
    case LetterCame(_, _, _, _, k, _) => k.recordOk
    case Poked(_, k) => k.recordOk
    case Posted(_, k) => k.recordOk
    case Rotated(_, _) => true
    case ToppedUp(k) => k.recordOk
    case Republished(_, _, _, k, k') => k.recordOk && k'.recordOk
    case Deleted => true
  }

  lemma DistributeRoots(s: Seat, g: Roster, k: Luck)
    requires RootsRecorded(s) && k.recordOk
    ensures RootsRecorded(Distribute(s, g, k))
  {
  }

  lemma FreshRoots(s: Seat, g: Roster, epoch: int, rand: int)
    requires RecordTrue(s) && Unused(s, rand)
    ensures RootsRecorded(s.(keys := FreshKeys(s.keys, g, epoch, rand)))
  {
    forall m | m in s.got ensures m in s.out {}
  }

  lemma RekeyRoots(s: Seat, g: Roster, k: Luck)
    requires RecordTrue(s) && RootsRecorded(s) && Unused(s, k.rand) && k.recordOk
    ensures RootsRecorded(Rekey(s, g, k))
  {
    if RekeyOk(k) {
      FreshRoots(s, g, EpochOf(s.keys) + 1, k.rand);
      DistributeRoots(s.(keys := FreshKeys(s.keys, g, EpochOf(s.keys) + 1, k.rand)), g, k);
    }
  }

  lemma EnsureRoots(s: Seat, k: Luck)
    requires RecordTrue(s) && RootsRecorded(s) && Unused(s, k.rand)
    ensures RootsRecorded(Ensure(s, k).0)
  {
    forall m | m in s.got ensures m in s.out {}
  }

  lemma FanOutRoots(s: Seat, m: Message, k: Luck)
    requires RecordTrue(s) && RootsRecorded(s) && Unused(s, k.rand) && k.recordOk
    ensures RootsRecorded(FanOut(s, m, k))
  {
    EnsureRoots(s, k);
    if s.group.Some? { DistributeRoots(Ensure(s, k).0, s.group.value, k); }
  }

  lemma JoinRoots(s: Seat, g: Roster, k: Luck)
    requires RecordTrue(s) && RootsRecorded(s) && Unused(s, k.rand) && k.recordOk
    ensures RootsRecorded(Join(s, g, k))
  {
    var s1 := s.(group := Some(g));
    EnsureRoots(s1, k);
    DistributeRoots(Ensure(s1, k).0, g, k);
  }

  lemma ApplyRoots(s: Seat, g: Roster, k: Luck)
    requires RecordTrue(s) && RootsRecorded(s) && Unused(s, k.rand) && k.recordOk
    ensures RootsRecorded(ApplyRoster(s, g, k))
  {
    if Acceptable(s, g) && s.me in Members(g) && k.groupOk {
      var s1 := s.(group := Some(g));
      var s2 := if s.left != In && k.clearOk then s1.(left := In) else s1;
      KeysOnlyRoots(s, s1);
      KeysOnlyRoots(s, s2);
      RekeyRoots(s2, g, k);
      DistributeRoots(s1, g, k);
    } else {
      KeysOnlyRoots(s, ApplyRoster(s, g, k));
    }
  }

  lemma RefreshRoots(s: Seat, r: Reply, k: Luck)
    requires RecordTrue(s) && RootsRecorded(s) && Unused(s, k.rand) && k.recordOk
    ensures RootsRecorded(Refresh(s, r, k))
  {
    if r.Got? { ApplyRoots(s, r.roster, k); }
  }

  lemma KeysOnlyRoots(s: Seat, t: Seat)
    requires RootsRecorded(s) && t.got == s.got && t.keys.mine == s.keys.mine && t.keys.handed == s.keys.handed
    ensures RootsRecorded(t)
  {
  }

  lemma KeyRoots(s: Seat, from: Fp, d: Dist, r: Reply, k: Luck, k': Luck)
    requires RecordTrue(s) && RootsRecorded(s) && Unused(s, k.rand) && k.recordOk
    ensures RootsRecorded(TakeKey(s, from, d, r, k, k'))
  {
    RefreshRoots(s, r, k);
    KeysOnlyRoots(s, StoreKey(s, from, d));
    KeysOnlyRoots(Refresh(s, r, k), StoreKey(Refresh(s, r, k), from, d));
  }

  lemma LetterRoots(s: Seat, from: Fp, b: Blob, seen: bool, r: Reply, k: Luck, k': Luck)
    requires RecordTrue(s) && RootsRecorded(s) && Unused(s, k.rand) && k.recordOk
    ensures RootsRecorded(TakeLetter(s, from, b, seen, r, k, k').0)
  {
    if from != s.me && s.group.Some? {
      if s.left != In {
        KeysOnlyRoots(s, DissolveWhileLeft(s, from, b, k));
      } else {
        RefreshRoots(s, r, k);
        var s1 := if from in Members(s.group.value) then s else Refresh(s, r, k);
        if s1.group.Some? { OpenRoots(s1, from, b, seen, k'); }
      }
    }
  }

  lemma OpenRoots(s: Seat, from: Fp, b: Blob, seen: bool, k: Luck)
    requires RootsRecorded(s) && s.group.Some?
    ensures RootsRecorded(OpenLetter(s, from, b, seen, k).0)
  {
    KeysOnlyRoots(s, OpenLetter(s, from, b, seen, k).0);
  }

  lemma RepublishRoots(s: Seat, ch: Change, ok: bool, m: Message, k: Luck, k': Luck)
    requires RecordTrue(s) && RootsRecorded(s) && Unused(s, k.rand) && Unused(s, k'.rand) && k.rand != k'.rand && k.recordOk && k'.recordOk
    ensures RootsRecorded(Republish(s, ch, ok, m, k, k'))
  {
    if s.group.Some? {
      var next := NextRoster(s.group.value, ch);
      var s1 := s.(group := Some(next));
      KeysOnly(s, s1);
      RekeyRoots(s1, next, k);
      DistributeRoots(s1, next, k);
      RekeyRecords(s1, next, k);
      DistributeRecords(s1, next, k);
      UnusedAfter(s, ch, k, k'.rand);
      FanOutRoots(AfterRepublish(s, next, s.group.value, ch, k), m, k');
    }
  }

  lemma StepRoots(s: Seat, op: Op)
    requires RecordTrue(s) && RootsRecorded(s) && Careful(s, op) && Diligent(s, op)
    ensures RootsRecorded(Do(s, op))
  {
    match op
    case Created(g, published, k) => JoinRoots(s, g, k);
    case Invited(i, k, k') => if i.roster.Some? { JoinRoots(s, i.roster.value, k); }
    case KeyCame(from, d, r, k, k') => KeyRoots(s, from, d, r, k, k');
    case LetterCame(from, b, seen, r, k, k') => LetterRoots(s, from, b, seen, r, k, k');
    case Poked(r, k) => RefreshRoots(s, r, k);
    case Posted(m, k) => FanOutRoots(s, m, k);
    case Rotated(now, k) => if s.group.Some? { FreshRoots(s, s.group.value, NextSenderEpoch(EpochOf(s.keys), now), k.rand); }
    case ToppedUp(k) => if s.group.Some? { DistributeRoots(s, s.group.value, k); }
    case Republished(ch, ok, m, k, k') => RepublishRoots(s, ch, ok, m, k, k');
    case Deleted =>
  }

  ghost predicate DiligentAt(run: seq<Seat>, ops: seq<Op>, n: nat)
    requires n < |ops| && |run| == |ops| + 1
  {
    Diligent(run[n], ops[n])
  }

  lemma {:induction false} RunRoots(run: seq<Seat>, ops: seq<Op>, n: nat)
    requires Behaves(run, ops) && Init(run[0]) && n < |run| && CarefulRun(run, ops) && forall j :: 0 <= j < n ==> DiligentAt(run, ops, j)
    ensures RootsRecorded(run[n])
  {
    if n > 0 {
      RunRoots(run, ops, n - 1);
      RunRecords(run, ops, n - 1);
      assert DoneAt(run, ops, n - 1) && CarefulAt(run, ops, n - 1) && DiligentAt(run, ops, n - 1);
      StepRoots(run[n - 1], ops[n - 1]);
    }
  }

  /** While records are written and nothing resets them, the members who can open a post, then
      and ever after, are exactly those recorded at its epoch when it was made and those the
      distribution in front of it reached. */
  lemma ReadersAreTheRecorded(run: seq<Seat>, ops: seq<Op>, i: nat, n: nat, fp: Fp)
    requires Behaves(run, ops) && Init(run[0]) && i < n < |run| && CarefulRun(run, ops) && forall j :: 0 <= j < i ==> DiligentAt(run, ops, j)
    requires ops[i].Posted? && Posts(run[i], ops[i].k) && fp != run[i].me
    ensures var p := Made(run[i], ops[i].m, ops[i].k);
            Opens(run[n], fp, p) <==>
              fp in p.audience && (HandedAt(run[i].keys.handed, fp) >= Sealer(run[i], ops[i].k).epoch || fp in ops[i].k.reached)
  {
    var s1 := Ensure(run[i], ops[i].k).0;
    ReadersAreTheReached(run, ops, i, n, fp);
    RunRoots(run, ops, i);
    RunRecords(run, ops, i);
    assert CarefulAt(run, ops, i);
    EnsureRoots(run[i], ops[i].k);
    EnsureRecords(run[i], ops[i].k);
    RootsRecordedIsFull(s1);
  }
}
