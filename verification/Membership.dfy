/** The membership state machine of a seat, over every run that handles one thing at a time:
    the roster never goes back, the owner never changes, a staying sender's epoch never
    decreases, and a dissolution is final. */
module Membership {
  import opened Collections
  import opened Ratchet
  import opened Inbound
  import opened Rosters
  import opened Seats

  /** The roster side of one step. */
  ghost predicate RosterKept(s: Seat, t: Seat) {
    s.group.Some? ==>
      && t.group.Some? && t.group.value.owner == s.group.value.owner && t.group.value.gid == s.group.value.gid
      && (t.group == s.group || t.group.value.version > s.group.value.version)
  }

  /** Dissolved stays dissolved, with the roster it had. */
  ghost predicate EndKept(s: Seat, t: Seat) {
    s.group.Some? && s.left == Dissolved ==> t.left == Dissolved && t.group == s.group
  }

  /** A sender on both rosters whose chain was held is still held, at no lower epoch. */
  ghost predicate SenderKept(s: Seat, t: Seat, fp: Fp) {
    s.group.Some? && t.group.Some? && fp in Members(s.group.value) && fp in Members(t.group.value) && fp in s.keys.senders ==>
      fp in t.keys.senders && t.keys.senders[fp].epoch >= s.keys.senders[fp].epoch
  }

  ghost predicate Kept(s: Seat, t: Seat, fp: Fp) {
    t.me == s.me && t.gid == s.gid && RosterKept(s, t) && EndKept(s, t) && SenderKept(s, t, fp)
  }

  /* ---- building blocks ---- */

  lemma DistributeKeeps(s: Seat, g: Roster, k: Luck)
    ensures var t := Distribute(s, g, k);
            t == s.(keys := t.keys, out := t.out, got := t.got) && t.keys.senders == s.keys.senders && t.keys.mine == s.keys.mine
  {
  }

  lemma RekeyKeeps(s: Seat, g: Roster, k: Luck)
    ensures var t := Rekey(s, g, k);
            && t == s.(keys := t.keys, out := t.out, got := t.got)
            && forall fp :: fp in s.keys.senders && fp in Members(g) ==> fp in t.keys.senders && t.keys.senders[fp] == s.keys.senders[fp]
  {
  }

  lemma ApplyKeeps(s: Seat, g: Roster, k: Luck, fp: Fp)
    ensures Kept(s, ApplyRoster(s, g, k), fp)
  {
    if Acceptable(s, g) && s.me in Members(g) && k.groupOk {
      var s1 := s.(group := Some(g));
      DistributeKeeps(s1, g, k);
      RekeyKeeps(s1, g, k);
      RekeyKeeps(s1.(left := In), g, k);
    }
  }

  lemma RefreshKeeps(s: Seat, r: Reply, k: Luck, fp: Fp)
    ensures Kept(s, Refresh(s, r, k), fp)
  {
    if s.group.Some? && r.Got? { ApplyKeeps(s, r.roster, k, fp); }
  }

  lemma FanOutKeeps(s: Seat, m: Message, k: Luck)
    ensures var t := FanOut(s, m, k);
            t == s.(keys := t.keys, out := t.out, got := t.got, posts := t.posts) && t.keys.senders == s.keys.senders
  {
    if s.group.Some? && s.left == In { DistributeKeeps(Ensure(s, k).0, s.group.value, k); }
  }

  /* ---- one operation ---- */

  lemma InviteKeeps(s: Seat, i: Invite, k: Luck, k': Luck, fp: Fp)
    ensures Kept(s, TakeInvite(s, i, k, k'), fp)
  {
    if Trusted(s, i) && i.gid == s.gid {
      var g := i.roster.value;
      if s.group.Some? {
        ApplyKeeps(s, g, k, fp);
        var s1 := ApplyRoster(s, g, k);
        DistributeKeeps(s1.(keys := s1.keys.(handed := map[])), s1.group.value, k');
      } else {
        DistributeKeeps(Ensure(s.(group := Some(g)), k).0, g, k);
      }
    }
  }

  lemma CreateKeeps(s: Seat, g: Roster, published: bool, k: Luck)
    ensures var t := Create(s, g, published, k);
            t.me == s.me && t.gid == s.gid && t.left == s.left && t.keys.senders == s.keys.senders && (s.group.Some? ==> t == s)
  {
    DistributeKeeps(Ensure(s.(group := Some(g)), k).0, g, k);
  }

  lemma KeyKeeps(s: Seat, from: Fp, d: Dist, r: Reply, k: Luck, k': Luck, fp: Fp)
    ensures Kept(s, TakeKey(s, from, d, r, k, k'), fp)
  {
    RefreshKeeps(s, r, k, fp);
  }

  /** Opening a letter never changes the epoch. */
  lemma OpeningKeepsEpoch(held: Option<Recv>, b: Blob, ok: bool)
    ensures var h := HandleEnvelope(held, b, ok).0;
            h.Some? == held.Some? && (h.Some? ==> h.value.epoch == held.value.epoch)
  {
  }

  lemma OpenKeeps(s: Seat, from: Fp, b: Blob, seen: bool, k: Luck, fp: Fp)
    requires s.group.Some? && s.left != Dissolved
    ensures var t := OpenLetter(s, from, b, seen, k).0;
            && t == s.(keys := t.keys, left := t.left)
            && (fp in s.keys.senders ==> fp in t.keys.senders && t.keys.senders[fp].epoch >= s.keys.senders[fp].epoch)
  {
    OpeningKeepsEpoch(Entry(s.keys, from), b, k.keysOk);
  }

  lemma ThenKeeps(s: Seat, t: Seat, u: Seat, fp: Fp)
    requires Kept(s, t, fp) && u == t.(keys := u.keys, left := u.left) && s.left != Dissolved
    requires fp in t.keys.senders ==> fp in u.keys.senders && u.keys.senders[fp].epoch >= t.keys.senders[fp].epoch
    ensures Kept(s, u, fp)
  {
  }

  lemma LetterKeeps(s: Seat, from: Fp, b: Blob, seen: bool, r: Reply, k: Luck, k': Luck, fp: Fp)
    ensures Kept(s, TakeLetter(s, from, b, seen, r, k, k').0, fp)
  {
    if from != s.me && s.group.Some? && s.left == In {
      var s1 := if from in Members(s.group.value) then s else Refresh(s, r, k);
      RefreshKeeps(s, r, k, fp);
      if from in Members(s1.group.value) {
        NotDissolved(s, r, k);
        OpenKeeps(s1, from, b, seen, k', fp);
        ThenKeeps(s, s1, OpenLetter(s1, from, b, seen, k').0, fp);
      }
    }
  }

  lemma NotDissolved(s: Seat, r: Reply, k: Luck)
    requires s.left == In
    ensures Refresh(s, r, k).left != Dissolved
  {
  }

  lemma RepublishKeeps(s: Seat, ch: Change, ok: bool, m: Message, k: Luck, k': Luck, fp: Fp)
    requires s.left != Dissolved
    ensures Kept(s, Republish(s, ch, ok, m, k, k'), fp)
  {
    if s.group.Some? {
      var next := NextRoster(s.group.value, ch);
      var s1 := s.(group := Some(next));
      DistributeKeeps(s1, next, k);
      RekeyKeeps(s1, next, k);
      FanOutKeeps(AfterRepublish(s, next, s.group.value, ch, k), m, k');
    }
  }

  /** Only somebody else's group is ever dissolved here: the owner's notice is fanned out to
      the others, and an envelope of my own is ignored. */
  ghost predicate NotMine(s: Seat) { s.left == Dissolved ==> s.group.Some? && s.group.value.owner != s.me }

  lemma LetterNotMine(s: Seat, from: Fp, b: Blob, seen: bool, r: Reply, k: Luck, k': Luck)
    requires NotMine(s)
    ensures NotMine(TakeLetter(s, from, b, seen, r, k, k').0)
  {
    if from != s.me && s.group.Some? && s.left == In {
      var s1 := if from in Members(s.group.value) then s else Refresh(s, r, k);
      NotDissolved(s, r, k);
      RefreshKeeps(s, r, k, from);
      if s1.group.Some? { OpenNotMine(s1, from, b, seen, k'); }
    }
  }

  lemma OpenNotMine(s: Seat, from: Fp, b: Blob, seen: bool, k: Luck)
    requires s.left != Dissolved && s.group.Some? && from != s.me
    ensures NotMine(OpenLetter(s, from, b, seen, k).0)
  {
  }

  lemma StepNotMine(s: Seat, op: Op)
    requires NotMine(s)
    ensures NotMine(Do(s, op))
  {
    match op
    case LetterCame(from, b, seen, r, k, k') => LetterNotMine(s, from, b, seen, r, k, k');
    case Deleted =>
    case _ =>
      if s.left != Dissolved { OtherNotDissolved(s, op); } else { StepKeeps(s, op, s.me); }
  }

  lemma ApplyNotDissolved(s: Seat, g: Roster, k: Luck)
    requires s.left != Dissolved
    ensures ApplyRoster(s, g, k).left != Dissolved
  {
  }

  lemma OtherNotDissolved(s: Seat, op: Op)
    requires s.left != Dissolved && !op.LetterCame?
    ensures Do(s, op).left != Dissolved
  {
    match op
    case Created(g, published, k) => CreateKeeps(s, g, published, k);
    case Invited(i, k, k') =>
      if Trusted(s, i) && i.gid == s.gid {
        var g := i.roster.value;
        ApplyNotDissolved(s, g, k);
        var s1 := ApplyRoster(s, g, k);
        if s1.group.Some? { DistributeKeeps(s1.(keys := s1.keys.(handed := map[])), s1.group.value, k'); }
        DistributeKeeps(Ensure(s.(group := Some(g)), k).0, g, k);
      }
    case KeyCame(from, d, r, k, k') => if r.Got? { ApplyNotDissolved(s, r.roster, k); }
    case Poked(r, k) => if r.Got? { ApplyNotDissolved(s, r.roster, k); }
    case Posted(m, k) => FanOutKeeps(s, m, k);
    case Rotated(_, _) =>
    case ToppedUp(k) => if s.group.Some? { DistributeKeeps(s, s.group.value, k); }
    case Republished(ch, ok, m, k, k') => RepublishLeft(s, ch, ok, m, k, k');
    case Deleted =>
  }

  lemma RepublishLeft(s: Seat, ch: Change, ok: bool, m: Message, k: Luck, k': Luck)
    ensures Republish(s, ch, ok, m, k, k').left == s.left
  {
    if s.group.Some? {
      var next := NextRoster(s.group.value, ch);
      var s1 := s.(group := Some(next));
      DistributeKeeps(s1, next, k);
      RekeyKeeps(s1, next, k);
      FanOutKeeps(AfterRepublish(s, next, s.group.value, ch, k), m, k');
    }
  }

  /** What no operation but the user's own deletion undoes. */
  lemma StepKeeps(s: Seat, op: Op, fp: Fp)
    requires NotMine(s) && !op.Deleted?
    ensures Kept(s, Do(s, op), fp)
  {
    match op
    case Created(g, published, k) => CreateKeeps(s, g, published, k);
    case Invited(i, k, k') => InviteKeeps(s, i, k, k', fp);
    case KeyCame(from, d, r, k, k') => KeyKeeps(s, from, d, r, k, k', fp);
    case LetterCame(from, b, seen, r, k, k') => LetterKeeps(s, from, b, seen, r, k, k', fp);
    case Poked(r, k) => RefreshKeeps(s, r, k, fp);
    case Posted(m, k) => FanOutKeeps(s, m, k);
    case Rotated(_, _) =>
    case ToppedUp(k) => if s.group.Some? { DistributeKeeps(s, s.group.value, k); }
    case Republished(ch, ok, m, k, k') => if s.left != Dissolved { RepublishKeeps(s, ch, ok, m, k, k', fp); }
  }

  /* ---- runs ---- */

  /** A seat as it starts: no group, no marker. */
  ghost predicate Init(s: Seat) { s.group.None? && s.left == In && s.keys == NoKeys && s.out == {} && s.got == {} && s.posts == {} }

  ghost predicate Undeleted(ops: seq<Op>, from: nat, to: nat)
    requires from <= to <= |ops|
  {
    forall n :: from <= n < to ==> !ops[n].Deleted?
  }

  lemma {:induction false} RunNotMine(run: seq<Seat>, ops: seq<Op>, n: nat)
    requires Behaves(run, ops) && Init(run[0]) && n < |run|
    ensures NotMine(run[n])
  {
    if n > 0 {
      RunNotMine(run, ops, n - 1);
      assert DoneAt(run, ops, n - 1);
      StepNotMine(run[n - 1], ops[n - 1]);
    }
  }

  /** From the moment a group is held until its record is deleted: the owner stays the same,
      the version never decreases (and the same version is the same roster), and once
      dissolved the seat stays dissolved with its roster frozen. */
  lemma {:induction false} MembershipHolds(run: seq<Seat>, ops: seq<Op>, a: nat, b: nat)
    requires Behaves(run, ops) && Init(run[0]) && a <= b < |run| && Undeleted(ops, a, b)
    ensures RosterKept(run[a], run[b]) && EndKept(run[a], run[b])
    decreases b - a
  {
    if a < b {
      MembershipHolds(run, ops, a, b - 1);
      RunNotMine(run, ops, b - 1);
      assert DoneAt(run, ops, b - 1);
      StepKeeps(run[b - 1], ops[b - 1], run[a].me);
    }
  }

  ghost predicate OnRosterAt(run: seq<Seat>, n: nat, fp: Fp)
    requires n < |run|
  {
    run[n].group.Some? && fp in Members(run[n].group.value)
  }

  ghost predicate HoldsAt(s: Seat, fp: Fp, epoch: int) { fp in s.keys.senders && s.keys.senders[fp].epoch >= epoch }

  lemma EpochStep(run: seq<Seat>, ops: seq<Op>, n: nat, fp: Fp, epoch: int)
    requires Behaves(run, ops) && Init(run[0]) && n < |ops| && !ops[n].Deleted?
    requires OnRosterAt(run, n, fp) && OnRosterAt(run, n + 1, fp) && HoldsAt(run[n], fp, epoch)
    ensures HoldsAt(run[n + 1], fp, epoch)
  {
    RunNotMine(run, ops, n);
    assert DoneAt(run, ops, n);
    StepKeeps(run[n], ops[n], fp);
  }

  /** The held epoch of a sender who stays on the roster never decreases. */
  lemma {:induction false} EpochNeverFalls(run: seq<Seat>, ops: seq<Op>, a: nat, b: nat, fp: Fp, epoch: int)
    requires Behaves(run, ops) && Init(run[0]) && a <= b < |run| && Undeleted(ops, a, b)
    requires forall n :: a <= n <= b ==> OnRosterAt(run, n, fp)
    requires HoldsAt(run[a], fp, epoch)
    ensures HoldsAt(run[b], fp, epoch)
    decreases b - a
  {
    if a < b {
      EpochNeverFalls(run, ops, a, b - 1, fp, epoch);
      EpochStep(run, ops, b - 1, fp, epoch);
    }
  }
}
