/** Who can read a post: over every run of a seat, a post can be opened only by the members
    of the roster it was posted under, whoever joined before or after. */
module Secrecy {
  import opened Collections
  import opened Ratchet
  import opened Inbound
  import opened Rosters
  import opened Seats
  import opened Membership

  /* ---- what a chain key gives away ---- */

  function Root(c: Chain): int { match c case Seed(o) => o case Next(p) => Root(p) }
  function Depth(c: Chain): nat { match c case Seed(_) => 0 case Next(p) => Depth(p) + 1 }

  /** Whoever holds c can compute d: ratchets only turn forwards. */
  ghost predicate Derives(c: Chain, d: Chain) { exists n: nat :: Steps(c, n) == d }

  lemma {:induction false} StepsRootDepth(c: Chain, n: nat)
    ensures Root(Steps(c, n)) == Root(c) && Depth(Steps(c, n)) == Depth(c) + n
  {
    if n > 0 { StepsRootDepth(c, n - 1); }
  }

  lemma DerivesForward(c: Chain, d: Chain)
    requires Derives(c, d)
    ensures Root(c) == Root(d) && Depth(c) <= Depth(d)
  {
    var n: nat :| Steps(c, n) == d;
    StepsRootDepth(c, n);
  }

  function ChainOf(p: Post): Chain { if p.blob.c.Sealed? then p.blob.c.key.chain else Seed(0) }

  /** fp was handed a key from which the key of post p follows. */
  ghost predicate CanRead(s: Seat, fp: Fp, p: Post) {
    exists m :: m in s.out && m.to == fp && Derives(m.dist.chain, ChainOf(p))
  }

  /* ---- the invariant ---- */

  ghost predicate Shut(m: KeyMsg, p: Post) {
    m.to in p.audience || Root(m.dist.chain) != Root(ChainOf(p)) || Depth(m.dist.chain) > Depth(ChainOf(p))
  }

  ghost predicate AllShut(out: set<KeyMsg>, posts: set<Post>) {
    forall m, p :: m in out && p in posts ==> Shut(m, p)
  }

  /** My chain is ahead of every post it sealed. */
  ghost predicate Ahead(mine: Option<Sender>, posts: set<Post>) {
    mine.Some? ==> forall p :: p in posts && Root(ChainOf(p)) == Root(mine.value.chain) ==> Depth(ChainOf(p)) < Depth(mine.value.chain)
  }

  /** Everyone who was handed a key of this chain is in fps. */
  ghost predicate HeldWithin(out: set<KeyMsg>, c: Chain, fps: set<Fp>) {
    forall m :: m in out && Root(m.dist.chain) == Root(c) ==> m.to in fps
  }

  ghost predicate Base(s: Seat) {
    && AllShut(s.out, s.posts) && Ahead(s.keys.mine, s.posts)
    && (s.group.None? ==> s.keys.mine.None? && s.left == In)
  }

  ghost predicate Covered(s: Seat) {
    s.keys.mine.Some? && s.left == In && s.group.Some? ==> HeldWithin(s.out, s.keys.mine.value.chain, Members(s.group.value))
  }

  ghost predicate Safe(s: Seat) { Base(s) && Covered(s) }

  /** A seed never used before. */
  ghost predicate Unused(s: Seat, rand: int) {
    && (s.keys.mine.Some? ==> Root(s.keys.mine.value.chain) != rand)
    && (forall m :: m in s.out ==> Root(m.dist.chain) != rand)
    && (forall p :: p in s.posts ==> Root(ChainOf(p)) != rand)
  }

  /* ---- building blocks ---- */

  lemma DistributeSafe(s: Seat, g: Roster, k: Luck)
    requires Safe(s) && s.group == Some(g)
    ensures Safe(Distribute(s, g, k))
  {
  }

  lemma FreshSafe(s: Seat, g: Roster, epoch: int, rand: int)
    requires Base(s) && s.group.Some? && Unused(s, rand)
    ensures Safe(s.(keys := FreshKeys(s.keys, g, epoch, rand)))
  {
  }

  lemma RekeySafe(s: Seat, g: Roster, k: Luck)
    requires Base(s) && s.group == Some(g) && Unused(s, k.rand) && (RekeyOk(k) || Covered(s))
    ensures Safe(Rekey(s, g, k))
  {
  }

  lemma EnsureSafe(s: Seat, k: Luck)
    requires Safe(s) && s.group.Some? && Unused(s, k.rand)
    ensures Safe(Ensure(s, k).0) && Ensure(s, k).0.group == s.group && Ensure(s, k).0.left == s.left
  {
  }

  lemma SealSafe(s: Seat, g: Roster, m: Message, k: Luck)
    requires Safe(s) && s.group == Some(g) && s.left == In
    ensures Safe(Seal(s, g, m, k))
  {
  }

  lemma FanOutSafe(s: Seat, m: Message, k: Luck)
    requires Safe(s) && Unused(s, k.rand)
    ensures Safe(FanOut(s, m, k))
  {
    if s.group.Some? && s.left == In {
      var g, s1 := s.group.value, Ensure(s, k).0;
      EnsureSafe(s, k);
      DistributeSafe(s1, g, k);
      DistributeKeeps(s1, g, k);
      if Ensure(s, k).1 { SealSafe(Distribute(s1, g, k), g, m, k); }
    }
  }

  /* ---- rosters ---- */

  /** The writes a roster change relies on: the new chain when a member is dropped or I am
      re-admitted, the marker when I am dropped. */
  ghost predicate Converges(s: Seat, g: Roster, k: Luck) {
    Acceptable(s, g) && k.groupOk ==>
      if s.me !in Members(g) then s.left == In ==> k.mark != NotWritten
      else (if s.left == In then Members(s.group.value) - Members(g) != {} else k.clearOk) ==> RekeyOk(k)
  }

  lemma WidenSafe(s: Seat, g: Roster)
    requires Safe(s) && s.group.Some? && Members(s.group.value) - Members(g) == {}
    ensures Safe(s.(group := Some(g)))
  {
    var a, b := Members(s.group.value), Members(g);
    assert a == a * b + (a - b);
    assert a <= b;
  }

  lemma SwapRoster(s: Seat, g: Roster)
    requires Base(s) && s.group.Some?
    ensures Base(s.(group := Some(g))) && Base(s.(group := Some(g), left := In))
  {
  }

  lemma ApplySafe(s: Seat, g: Roster, k: Luck)
    requires Safe(s) && Unused(s, k.rand) && Converges(s, g, k)
    ensures Safe(ApplyRoster(s, g, k))
  {
    if Acceptable(s, g) && s.me in Members(g) && k.groupOk {
      SwapRoster(s, g);
      var s1 := s.(group := Some(g));
      if s.left != In { RekeySafe(if k.clearOk then s1.(left := In) else s1, g, k); }
      else if Members(s.group.value) - Members(g) != {} { RekeySafe(s1, g, k); }
      else { WidenSafe(s, g); DistributeSafe(s1, g, k); }
    }
  }

  lemma RefreshSafe(s: Seat, r: Reply, k: Luck)
    requires Safe(s) && Unused(s, k.rand) && (r.Got? ==> Converges(s, r.roster, k))
    ensures Safe(Refresh(s, r, k))
  {
    if s.group.Some? && r.Got? { ApplySafe(s, r.roster, k); }
  }

  /** Neither the receive states nor a new marker matter. */
  lemma SendersDoNotMatter(s: Seat, t: Seat)
    requires Safe(s) && s.group.Some? && t.keys.mine == s.keys.mine && t == s.(keys := t.keys, left := t.left)
    requires t.left == s.left || t.left != In
    ensures Safe(t)
  {
  }

  lemma JoinSafe(s: Seat, g: Roster, k: Luck)
    requires Safe(s) && s.group.None? && Unused(s, k.rand)
    ensures Safe(Join(s, g, k))
  {
    if k.groupOk {
      var s1 := s.(group := Some(g));
      EnsureSafe(s1, k);
      DistributeSafe(Ensure(s1, k).0, g, k);
    }
  }

  lemma InviteSafe(s: Seat, i: Invite, k: Luck, k': Luck)
    requires Safe(s) && Unused(s, k.rand) && (i.roster.Some? ==> Converges(s, i.roster.value, k))
    ensures Safe(TakeInvite(s, i, k, k'))
  {
    if Trusted(s, i) && i.gid == s.gid {
      var g := i.roster.value;
      if s.group.Some? {
        ApplySafe(s, g, k);
        var s1 := ApplyRoster(s, g, k);
        if s1.group.Some? { DistributeSafe(s1.(keys := s1.keys.(handed := map[])), s1.group.value, k'); }
      } else {
        JoinSafe(s, g, k);
      }
    }
  }

  lemma KeySafe(s: Seat, from: Fp, d: Dist, r: Reply, k: Luck, k': Luck)
    requires Safe(s) && Unused(s, k.rand) && (r.Got? ==> Converges(s, r.roster, k))
    ensures Safe(TakeKey(s, from, d, r, k, k'))
  {
    if s.group.Some? {
      var s1 := if from in Members(s.group.value) then s else Refresh(s, r, k);
      RefreshSafe(s, r, k);
      if s1.group.Some? { SendersDoNotMatter(s1, StoreKey(s1, from, d)); }
    }
  }

  lemma OpenSafe(s: Seat, from: Fp, b: Blob, seen: bool, k: Luck)
    requires Safe(s) && s.group.Some?
    ensures Safe(OpenLetter(s, from, b, seen, k).0)
  {
    SendersDoNotMatter(s, OpenLetter(s, from, b, seen, k).0);
  }

  lemma LetterSafe(s: Seat, from: Fp, b: Blob, seen: bool, r: Reply, k: Luck, k': Luck)
    requires Safe(s) && Unused(s, k.rand) && (r.Got? ==> Converges(s, r.roster, k))
    ensures Safe(TakeLetter(s, from, b, seen, r, k, k').0)
  {
    if from != s.me && s.group.Some? {
      if s.left != In {
        SendersDoNotMatter(s, DissolveWhileLeft(s, from, b, k));
      } else {
        var s1 := if from in Members(s.group.value) then s else Refresh(s, r, k);
        RefreshSafe(s, r, k);
        if s1.group.Some? { OpenSafe(s1, from, b, seen, k'); }
      }
    }
  }

  /* ---- the owner ---- */

  ghost predicate Reissues(s: Seat, ch: Change, k: Luck) {
    s.group.Some? && Members(s.group.value) - Members(NextRoster(s.group.value, ch)) != {} ==> RekeyOk(k)
  }

  lemma AfterRepublishSafe(s: Seat, ch: Change, k: Luck)
    requires Safe(s) && s.group.Some? && Unused(s, k.rand) && Filed(ch.renew) && Reissues(s, ch, k)
    ensures Safe(AfterRepublish(s, NextRoster(s.group.value, ch), s.group.value, ch, k))
  {
    var g := s.group.value;
    var next := NextRoster(g, ch);
    var s1 := s.(group := Some(next));
    NextMembersAre(g, ch);
    SwapRoster(s, next);
    if Members(g) - Members(next) == {} { WidenSafe(s, next); }
    if Members(g) * ch.drop != {} {
      RekeySafe(s1, next, k);
    } else {
      assert Members(g) - Members(next) == {};
      DistributeSafe(s1, next, k);
    }
  }

  lemma UnusedAfter(s: Seat, ch: Change, k: Luck, rand: int)
    requires s.group.Some? && Unused(s, rand) && rand != k.rand
    ensures Unused(AfterRepublish(s, NextRoster(s.group.value, ch), s.group.value, ch, k), rand)
  {
  }

  lemma RepublishSafe(s: Seat, ch: Change, ok: bool, m: Message, k: Luck, k': Luck)
    requires Safe(s) && Unused(s, k.rand) && Unused(s, k'.rand) && k.rand != k'.rand && Filed(ch.renew) && Reissues(s, ch, k)
    ensures Safe(Republish(s, ch, ok, m, k, k'))
  {
    if s.group.Some? {
      var s1 := AfterRepublish(s, NextRoster(s.group.value, ch), s.group.value, ch, k);
      AfterRepublishSafe(s, ch, k);
      UnusedAfter(s, ch, k, k'.rand);
      FanOutSafe(s1, m, k');
    }
  }

  /* ---- runs ---- */

  /** Seeds are fresh and the writes a roster change relies on succeed. */
  ghost predicate Careful(s: Seat, op: Op) {
    match op
    case Created(_, _, k) => Unused(s, k.rand)
    case Invited(i, k, _) => Unused(s, k.rand) && (i.roster.Some? ==> Converges(s, i.roster.value, k))
    case KeyCame(_, _, r, k, _) => Unused(s, k.rand) && (r.Got? ==> Converges(s, r.roster, k))
    case LetterCame(_, _, _, r, k, _) => Unused(s, k.rand) && (r.Got? ==> Converges(s, r.roster, k))
    case Poked(r, k) => Unused(s, k.rand) && (r.Got? ==> Converges(s, r.roster, k))
    case Posted(_, k) => Unused(s, k.rand)
    case Rotated(_, k) => Unused(s, k.rand)
    case ToppedUp(_) => true
    case Republished(ch, _, _, k, k') =>
      Unused(s, k.rand) && Unused(s, k'.rand) && k.rand != k'.rand && Filed(ch.renew) && Reissues(s, ch, k)
    case Deleted => true
  }

  lemma StepSafe(s: Seat, op: Op)
    requires Safe(s) && Careful(s, op)
    ensures Safe(Do(s, op))
  {
    match op
    case Created(g, published, k) => if s.group.None? { JoinSafe(s, g, k); }
    case Invited(i, k, k') => InviteSafe(s, i, k, k');
    case KeyCame(from, d, r, k, k') => KeySafe(s, from, d, r, k, k');
    case LetterCame(from, b, seen, r, k, k') => LetterSafe(s, from, b, seen, r, k, k');
    case Poked(r, k) => RefreshSafe(s, r, k);
    case Posted(m, k) => FanOutSafe(s, m, k);
    case Rotated(now, k) => if s.group.Some? { FreshSafe(s, s.group.value, NextSenderEpoch(EpochOf(s.keys), now), k.rand); }
    case ToppedUp(k) => if s.group.Some? { DistributeSafe(s, s.group.value, k); }
    case Republished(ch, ok, m, k, k') => RepublishSafe(s, ch, ok, m, k, k');
    case Deleted =>
  }

  ghost predicate CarefulAt(run: seq<Seat>, ops: seq<Op>, n: nat)
    requires n < |ops| && |run| == |ops| + 1
  {
    Careful(run[n], ops[n])
  }

  lemma {:induction false} RunSafe(run: seq<Seat>, ops: seq<Op>, n: nat)
    requires Behaves(run, ops) && Init(run[0]) && n < |run| && forall i :: 0 <= i < |ops| ==> CarefulAt(run, ops, i)
    ensures Safe(run[n])
  {
    if n > 0 {
      RunSafe(run, ops, n - 1);
      assert DoneAt(run, ops, n - 1) && CarefulAt(run, ops, n - 1);
      StepSafe(run[n - 1], ops[n - 1]);
    }
  }

  /** At every point of every such run, only the members of the roster a post was made under
      were ever handed a key that opens it: not those dropped before it, and not those who
      joined after it. */
  lemma OnlyTheAudienceReads(run: seq<Seat>, ops: seq<Op>, n: nat, p: Post, fp: Fp)
    requires Behaves(run, ops) && Init(run[0]) && n < |run| && forall i :: 0 <= i < |ops| ==> CarefulAt(run, ops, i)
    requires p in run[n].posts && CanRead(run[n], fp, p)
    ensures fp in p.audience
  {
    RunSafe(run, ops, n);
    SafeNeverLeaks(run[n], fp);
  }

  /** x was handed a key from which my current chain follows. */
  ghost predicate Holds(s: Seat, x: Fp) {
    s.keys.mine.Some? && exists m :: m in s.out && m.to == x && Derives(m.dist.chain, s.keys.mine.value.chain)
  }

  /** Some post is readable by x although x was not among those it was meant for. */
  ghost predicate Leaked(s: Seat, x: Fp) { exists p :: p in s.posts && x !in p.audience && CanRead(s, x, p) }

  lemma SafeNeverLeaks(s: Seat, x: Fp)
    requires Safe(s)
    ensures !Leaked(s, x)
  {
    forall p | p in s.posts && CanRead(s, x, p) ensures x in p.audience {
      var m :| m in s.out && m.to == x && Derives(m.dist.chain, ChainOf(p));
      DerivesForward(m.dist.chain, ChainOf(p));
      assert Shut(m, p);
    }
  }

  /** Posting under a roster without x on a chain that x holds. */
  lemma PostLeaks(s: Seat, x: Fp, m: Message, k: Luck)
    requires s.group.Some? && s.left == In && x !in Members(s.group.value) && Holds(s, x) && k.sealOk
    ensures Leaked(FanOut(s, m, k), x)
  {
  }

  lemma UnconvergedKeepsChain(s: Seat, g: Roster, k: Luck)
    requires Acceptable(s, g) && k.groupOk && !Converges(s, g, k)
    ensures ApplyRoster(s, g, k) == s.(group := Some(g), left := In)
  {
  }

  /** The condition is exact. Let a roster without x be stored while x holds my chain, and
      let me post again: x can read what is not meant for x if and only if a write the change
      relied on failed. */
  lemma LeaksIffUnconverged(s: Seat, g: Roster, k: Luck, x: Fp, m: Message, k': Luck)
    requires Safe(s) && Acceptable(s, g) && k.groupOk && Unused(s, k.rand) && k'.sealOk
    requires Unused(ApplyRoster(s, g, k), k'.rand) && x !in Members(g) && Holds(s, x)
    ensures Leaked(FanOut(ApplyRoster(s, g, k), m, k'), x) <==> !Converges(s, g, k)
  {
    if Converges(s, g, k) {
      ApplySafe(s, g, k);
      FanOutSafe(ApplyRoster(s, g, k), m, k');
      SafeNeverLeaks(FanOut(ApplyRoster(s, g, k), m, k'), x);
    } else {
      UnconvergedKeepsChain(s, g, k);
      PostLeaks(ApplyRoster(s, g, k), x, m, k');
    }
  }

  /** The same for the owner: when the relay took a roster without x and the owner stored it,
      the notice that goes out with it can be read by x if and only if members were dropped
      and the new chain was not written. */
  lemma OwnerLeaksIffNotReissued(s: Seat, ch: Change, m: Message, k: Luck, k': Luck, x: Fp)
    requires Safe(s) && Unused(s, k.rand) && Unused(s, k'.rand) && k.rand != k'.rand && Filed(ch.renew)
    requires s.group.Some? && s.group.value.owner == s.me && s.left == In && Verifies(NextRoster(s.group.value, ch))
    requires k.groupOk && k'.sealOk && x !in Members(NextRoster(s.group.value, ch)) && Holds(s, x)
    ensures Leaked(Republish(s, ch, true, m, k, k'), x) <==> !Reissues(s, ch, k)
  {
    if Reissues(s, ch, k) {
      RepublishSafe(s, ch, true, m, k, k');
      SafeNeverLeaks(Republish(s, ch, true, m, k, k'), x);
    } else {
      NextMembersAre(s.group.value, ch);
      PostLeaks(s.(group := Some(NextRoster(s.group.value, ch))), x, m, k');
    }
  }

  /* ---- who is addressed ---- */

  /** Every key message of this step goes to a member of the roster held after it. */
  ghost predicate SentWithin(s: Seat, t: Seat) {
    forall m :: m in t.out && m !in s.out ==> t.group.Some? && m.to in Members(t.group.value)
  }

  lemma DistributeWithin(s: Seat, g: Roster, k: Luck)
    requires s.group == Some(g)
    ensures SentWithin(s, Distribute(s, g, k)) && SentWithin(s, Rekey(s, g, k)) && SentWithin(s, Redistribute(s, g, k))
  {
  }

  lemma FanOutWithin(s: Seat, m: Message, k: Luck)
    ensures SentWithin(s, FanOut(s, m, k))
  {
  }

  lemma ApplyWithin(s: Seat, g: Roster, k: Luck)
    ensures SentWithin(s, ApplyRoster(s, g, k))
  {
  }

  lemma InviteWithin(s: Seat, i: Invite, k: Luck, k': Luck)
    ensures SentWithin(s, TakeInvite(s, i, k, k'))
  {
    if Trusted(s, i) && i.gid == s.gid {
      var g := i.roster.value;
      if s.group.Some? {
        ApplyWithin(s, g, k);
        var s1 := ApplyRoster(s, g, k);
        if s1.group.Some? {
          DistributeWithin(s1, s1.group.value, k');
          DistributeKeeps(s1.(keys := s1.keys.(handed := map[])), s1.group.value, k');
        }
      } else {
        var s1 := Ensure(s.(group := Some(g)), k).0;
        DistributeWithin(s1, g, k);
      }
    }
  }

  lemma RepublishWithin(s: Seat, ch: Change, ok: bool, m: Message, k: Luck, k': Luck)
    ensures SentWithin(s, Republish(s, ch, ok, m, k, k'))
  {
    if s.group.Some? {
      var next := NextRoster(s.group.value, ch);
      var s1 := s.(group := Some(next));
      var s2 := AfterRepublish(s, next, s.group.value, ch, k);
      DistributeWithin(s1, next, k);
      DistributeKeeps(s1, next, k);
      RekeyKeeps(s1, next, k);
      FanOutWithin(s2, m, k');
      FanOutKeeps(s2, m, k');
    }
  }

  lemma RefreshWithin(s: Seat, r: Reply, k: Luck)
    ensures SentWithin(s, Refresh(s, r, k))
  {
    if r.Got? { ApplyWithin(s, r.roster, k); }
  }

  /** Receive states and markers send nothing. */
  lemma SilentWithin(s: Seat, t: Seat, u: Seat)
    requires SentWithin(s, t) && u.out == t.out && u.group == t.group
    ensures SentWithin(s, u)
  {
  }

  lemma KeyWithin(s: Seat, from: Fp, d: Dist, r: Reply, k: Luck, k': Luck)
    ensures SentWithin(s, TakeKey(s, from, d, r, k, k'))
  {
    RefreshWithin(s, r, k);
    SilentWithin(s, Refresh(s, r, k), StoreKey(Refresh(s, r, k), from, d));
    SilentWithin(s, s, StoreKey(s, from, d));
  }

  lemma OpenSilent(s: Seat, from: Fp, b: Blob, seen: bool, k: Luck)
    requires s.group.Some?
    ensures OpenLetter(s, from, b, seen, k).0.out == s.out && OpenLetter(s, from, b, seen, k).0.group == s.group
  {
  }

  lemma LetterWithin(s: Seat, from: Fp, b: Blob, seen: bool, r: Reply, k: Luck, k': Luck)
    ensures SentWithin(s, TakeLetter(s, from, b, seen, r, k, k').0)
  {
    if from != s.me && s.group.Some? && s.left == In {
      var s1 := if from in Members(s.group.value) then s else Refresh(s, r, k);
      RefreshWithin(s, r, k);
      if s1.group.Some? {
        OpenSilent(s1, from, b, seen, k');
        SilentWithin(s, s1, OpenLetter(s1, from, b, seen, k').0);
      }
    }
  }

  lemma StepWithin(s: Seat, op: Op)
    ensures SentWithin(s, Do(s, op))
  {
    match op
    case Created(g, published, k) => DistributeWithin(Ensure(s.(group := Some(g)), k).0, g, k);
    case Invited(i, k, k') => InviteWithin(s, i, k, k');
    case KeyCame(from, d, r, k, k') => KeyWithin(s, from, d, r, k, k');
    case LetterCame(from, b, seen, r, k, k') => LetterWithin(s, from, b, seen, r, k, k');
    case Poked(r, k) => RefreshWithin(s, r, k);
    case Posted(m, k) => FanOutWithin(s, m, k);
    case Rotated(now, k) =>
    case ToppedUp(k) => if s.group.Some? { DistributeWithin(s, s.group.value, k); }
    case Republished(ch, ok, m, k, k') => RepublishWithin(s, ch, ok, m, k, k');
    case Deleted =>
  }

  /** While x is on no roster I hold, no chain of mine, old or new, is sent to x. */
  lemma {:induction false} DroppedGetsNoKey(run: seq<Seat>, ops: seq<Op>, a: nat, b: nat, x: Fp, m: KeyMsg)
    requires Behaves(run, ops) && a <= b < |run| && forall n :: a <= n <= b ==> !OnRosterAt(run, n, x)
    requires m in run[b].out && m.to == x
    ensures m in run[a].out
    decreases b - a
  {
    if a < b {
      assert DoneAt(run, ops, b - 1);
      StepWithin(run[b - 1], ops[b - 1]);
      assert !OnRosterAt(run, b, x);
      DroppedGetsNoKey(run, ops, a, b - 1, x, m);
    }
  }

  /** After a rekey the receive states and the distribution record name only members. */
  lemma RekeyNamesMembers(s: Seat, g: Roster, k: Luck)
    requires RekeyOk(k)
    ensures var t := Rekey(s, g, k);
            && t.keys.senders.Keys <= Members(g) && t.keys.handed.Keys <= Members(g) - {s.me}
            && t.keys.mine.Some? && t.keys.mine.value.epoch > EpochOf(s.keys)
            && (forall fp :: fp in t.keys.senders ==> fp in s.keys.senders && t.keys.senders[fp] == s.keys.senders[fp])
  {
  }
}
