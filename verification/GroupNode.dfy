/** The group operations of a peer as it runs them: reading, changing and writing the files
    of one group, each proved to do to the seat what Seats says. */
module GroupNode {
  import opened Collections
  import opened Ratchet
  import opened Inbound
  import opened Rosters
  import opened Seats

  /* ---- loops over members ---- */

  /** The co-members of a distribution that still need my key. */
  method Targets(me: Fp, members: seq<Card>, handed: map<Fp, int>, epoch: int) returns (t: set<Fp>)
    ensures t == set fp | fp in Fps(members) && fp != me && HandedAt(handed, fp) < epoch
  {
    t := {};
    for i := 0 to |members|
      invariant t == set fp | fp in Fps(members[..i]) && fp != me && HandedAt(handed, fp) < epoch
    {
      var fp := members[i].fp;
      FpsOfSnoc(members[..i], members[i]);
      assert members[..i + 1] == members[..i] + [members[i]];
      if fp == me || HandedAt(handed, fp) >= epoch { continue; }
      t := t + {fp};
    }
    assert members[..|members|] == members;
  }

  /** Tries to send my key to each target in turn, noting who was reached. */
  method SendKeys(targets: set<Fp>, mine: Sender, reachable: set<Fp>) returns (tried: set<KeyMsg>, sent: set<KeyMsg>, reached: set<Fp>)
    ensures tried == Handing(targets, mine) && reached == targets * reachable && sent == Handing(reached, mine)
  {
    tried, sent, reached := {}, {}, {};
    var order := SortSet(targets);
    ghost var done: set<Fp> := {};
    for i := 0 to |order|
      invariant Lists(order[..i], done) && tried == Handing(done, mine) && reached == done * reachable && sent == Handing(reached, mine)
    {
      var fp := order[i];
      ListsNext(order, targets, i, done);
      var msg := KeyMsg(fp, Dist(mine.epoch, mine.index, mine.chain));
      tried := tried + {msg};
      if fp in reachable { sent, reached := sent + {msg}, reached + {fp}; }
      done := done + {fp};
    }
    ListsAll(order, targets, done);
  }

  method RecordReached(handed: map<Fp, int>, reached: set<Fp>, epoch: int) returns (h: map<Fp, int>)
    requires forall fp :: fp in reached ==> HandedAt(handed, fp) < epoch
    ensures h == Recorded(handed, reached, epoch)
  {
    h := handed;
    var order := SortSet(reached);
    ghost var done: set<Fp> := {};
    for i := 0 to |order|
      invariant Lists(order[..i], done) && h == Recorded(handed, done, epoch)
    {
      var fp := order[i];
      ListsNext(order, reached, i, done);
      RecordOneMore(handed, done, fp, epoch);
      if HandedAt(h, fp) < epoch { h := h[fp := epoch]; }
      done := done + {fp};
    }
    ListsAll(order, reached, done);
  }

  lemma RecordOneMore(handed: map<Fp, int>, done: set<Fp>, fp: Fp, epoch: int)
    requires fp !in done
    ensures Recorded(handed, done + {fp}, epoch) == Recorded(handed, done, epoch)[fp := epoch]
    ensures HandedAt(Recorded(handed, done, epoch), fp) == HandedAt(handed, fp)
  {
  }

  /** pruneGroupKeysToRoster on the receive states. */
  method PruneSenders(senders: map<Fp, Recv>, g: Roster) returns (m: map<Fp, Recv>)
    ensures m == map fp | fp in senders && fp in Members(g) :: senders[fp]
  {
    m := senders;
    var order := SortSet(senders.Keys);
    ghost var done: set<Fp> := {};
    for i := 0 to |order|
      invariant Lists(order[..i], done)
      invariant m == Unpruned(senders, g, done)
    {
      var fp := order[i];
      ListsNext(order, senders.Keys, i, done);
      PruneOneMore(senders, g, done, fp);
      if fp !in Members(g) { m := m - {fp}; }
      done := done + {fp};
    }
    ListsAll(order, senders.Keys, done);
  }

  /** The receive states left when those of `done` were looked at. */
  ghost function Unpruned(senders: map<Fp, Recv>, g: Roster, done: set<Fp>): map<Fp, Recv> {
    map fp | fp in senders && (fp in Members(g) || fp !in done) :: senders[fp]
  }

  lemma PruneOneMore(senders: map<Fp, Recv>, g: Roster, done: set<Fp>, fp: Fp)
    ensures Unpruned(senders, g, done + {fp}) == if fp in Members(g) then Unpruned(senders, g, done) else Unpruned(senders, g, done) - {fp}
  {
  }

  /** Whether some member of the old roster is missing from the next. */
  method SomeRemoved(was: Roster, next: Roster) returns (some: bool)
    ensures some == (Members(was) - Members(next) != {})
  {
    var removed: set<Fp> := {};
    for i := 0 to |was.members|
      invariant removed == Fps(was.members[..i]) - Members(next)
    {
      FpsOfSnoc(was.members[..i], was.members[i]);
      assert was.members[..i + 1] == was.members[..i] + [was.members[i]];
      if was.members[i].fp !in Members(next) { removed := removed + {was.members[i].fp}; }
    }
    assert was.members[..|was.members|] == was.members;
    return removed != {};
  }

  /** GroupOpen on a copy of a stored receive state. */
  method OpenWith(held: Option<Recv>, b: Blob) returns (h: Option<Recv>, r: Outcome)
    ensures (h, r) == HandleEnvelope(held, b, true)
  {
    if held.None? { return held, KeyMissing; }
    var st := new RecvState(held.value);
    r := st.GroupOpen(b);
    h := if r.Opened? then Some(Recv(st.epoch, st.index, st.chain, st.skipped)) else held;
  }

  class Node {
    const me: Fp
    const gid: Gid
    var group: Option<Roster>
    var left: Standing
    var keys: Keys
    var out: set<KeyMsg>
    var got: set<KeyMsg>
    var posts: set<Post>

    ghost function State(): Seat reads this { Seat(me, gid, group, left, keys, out, got, posts) }

    constructor (me: Fp, gid: Gid)
      ensures State() == Seat(me, gid, None, In, NoKeys, {}, {}, {})
    {
      this.me, this.gid := me, gid;
      group, left, keys, out, got, posts := None, In, NoKeys, {}, {}, {};
    }

    method DistributeSenderKey(g: Roster, k: Luck)
      modifies this
      ensures State() == Distribute(old(State()), g, k)
    {
      if keys.mine.None? { return; }
      var mine := keys.mine.value;
      var targets := Targets(me, g.members, keys.handed, mine.epoch);
      var tried, sent, reached := SendKeys(targets, mine, k.reached);
      out, got := out + tried, got + sent;
      if k.recordOk {
        var h := RecordReached(keys.handed, reached, mine.epoch);
        keys := keys.(handed := h);
      }
    }

    method EnsureSenderKey(k: Luck) returns (ok: bool)
      modifies this
      ensures (State(), ok) == Ensure(old(State()), k)
    {
      if keys.mine.Some? { return true; }
      if !k.randOk || !k.keysOk { return false; }
      keys := keys.(mine := Some(Sender(1, 0, Seed(k.rand))));
      return true;
    }

    /** The locked section of a rekey or a rotation. */
    method ReplaceKey(g: Roster, epoch: int, k: Luck)
      modifies this`keys
      ensures keys == FreshKeys(old(keys), g, epoch, k.rand)
    {
      var senders := PruneSenders(keys.senders, g);
      keys := Keys(Some(Sender(epoch, 0, Seed(k.rand))), senders, map[]);
    }

    method RekeyGroup(g: Roster, k: Luck)
      modifies this
      ensures State() == Rekey(old(State()), g, k)
    {
      if !k.randOk || !k.keysOk { return; }
      ReplaceKey(g, if keys.mine.Some? then keys.mine.value.epoch + 1 else 1, k);
      DistributeSenderKey(g, k);
    }

    method RedistributeSenderKey(g: Roster, k: Luck)
      modifies this
      ensures State() == Redistribute(old(State()), g, k)
    {
      if keys.mine.None? || !k.keysOk { return; }
      keys := keys.(handed := map[]);
      DistributeSenderKey(g, k);
    }

    method RotateSenderKey(now: int, k: Luck)
      modifies this
      ensures State() == Rotate(old(State()), now, k)
    {
      if group.None? || left != In || !k.randOk || !k.keysOk { return; }
      var cur := if keys.mine.Some? then keys.mine.value.epoch else 0;
      ReplaceKey(group.value, NextSenderEpoch(cur, now), k);
    }

    method FanOutGroup(m: Message, k: Luck)
      modifies this
      ensures State() == FanOut(old(State()), m, k)
    {
      if group.None? || left != In { return; }
      var g := group.value;
      var ok := EnsureSenderKey(k);
      if !ok { return; }
      DistributeSenderKey(g, k);
      SealAndStore(g, m, k);
    }

    /** Seals under the stored chain and writes the advanced chain before anything leaves. */
    method SealAndStore(g: Roster, m: Message, k: Luck)
      modifies this
      ensures State() == Seal(old(State()), g, m, k)
    {
      if keys.mine.None? || !k.sealOk { return; }
      var sk := new SenderKey.At(keys.mine.value);
      var b := sk.GroupSeal(m);
      keys := keys.(mine := Some(Sender(sk.epoch, sk.index, sk.chain)));
      posts := posts + {Post(b, Fps(g.members))};
    }

    method MarkLeft(why: Standing, w: MarkWrite)
      modifies this`left
      ensures State() == Mark(old(State()), why, w)
    {
      if w == Written { left := why; } else if w == Torn { left := Removed; }
    }

    method ApplyRoster(next: Roster, k: Luck)
      modifies this
      ensures State() == Seats.ApplyRoster(old(State()), next, k)
    {
      var ok := Verify(next);
      if group.None? || next.gid != group.value.gid || !ok || next.owner != group.value.owner { return; }
      if next.version <= group.value.version || left == Dissolved { return; }
      if me !in Fps(next.members) {
        if k.groupOk { group := Some(next); }
        if left == In { MarkLeft(Removed, k.mark); }
        return;
      }
      if !k.groupOk { return; }
      Follow(next, k);
    }

    /** Stores a roster I am on and brings the key material in line with it. */
    method Follow(next: Roster, k: Luck)
      requires group.Some?
      modifies this
      ensures State() == Converge(old(State()), next, k)
    {
      var removed := SomeRemoved(group.value, next);
      group := Some(next);
      if left != In {
        if k.clearOk { left := In; }
        RekeyGroup(next, k);
      } else if removed {
        RekeyGroup(next, k);
      } else {
        DistributeSenderKey(next, k);
      }
    }

    method RefreshRoster(r: Reply, k: Luck)
      modifies this
      ensures State() == Refresh(old(State()), r, k)
    {
      if group.None? { return; }
      match r
      case Failed =>
      case Forbidden => if left == In { MarkLeft(Removed, k.mark); }
      case Got(g) => ApplyRoster(g, k);
    }

    method HandleGroupInvite(i: Invite, k: Luck, k': Luck)
      modifies this
      ensures State() == TakeInvite(old(State()), i, k, k')
    {
      if i.roster.None? { return; }
      var g := i.roster.value;
      var ok := Verify(g);
      if !ok || i.gid != g.gid || (g.owner != i.from && !Administers(g.profile, i.from)) { return; }
      if !i.friend && (i.applied.None? || (i.applied.value.Some? && i.applied.value.value != i.from)) { return; }
      if me !in Fps(g.members) || i.gid != gid { return; }
      if group.None? {
        JoinGroup(g, k);
        return;
      }
      var wasIn := left == In;
      ApplyRoster(g, k);
      if wasIn && left == In && group.Some? { RedistributeSenderKey(group.value, k'); }
    }

    /** GroupCreate, given the roster it signed and whether the relay took it. */
    method GroupCreate(g: Roster, published: bool, k: Luck)
      modifies this
      ensures State() == Create(old(State()), g, published, k)
    {
      var ok := Verify(g);
      if group.Some? || g.gid != gid || g.owner != me || g.version != 1 || |g.members| < 2 || !ok || !published { return; }
      JoinGroup(g, k);
    }

    method JoinGroup(g: Roster, k: Luck)
      modifies this
      ensures State() == Join(old(State()), g, k)
    {
      if !k.groupOk { return; }
      group := Some(g);
      var ok := EnsureSenderKey(k);
      if ok { DistributeSenderKey(g, k); }
    }

    method HandleGroupKey(from: Fp, d: Dist, r: Reply, k: Luck, k': Luck)
      modifies this
      ensures State() == TakeKey(old(State()), from, d, r, k, k')
    {
      if d.epoch < 1 || d.index < 0 || group.None? { return; }
      if from !in Fps(group.value.members) { RefreshRoster(r, k); }
      if group.None? || from !in Fps(group.value.members) || !k'.keysOk { return; }
      StoreSenderKey(from, d);
    }

    method StoreSenderKey(from: Fp, d: Dist)
      requires d.epoch >= 1 && d.index >= 0
      modifies this`keys
      ensures State() == StoreKey(old(State()), from, d)
    {
      if from in keys.senders {
        var st := keys.senders[from];
        if d.epoch < st.epoch || (d.epoch == st.epoch && st.index == d.index && st.chain == d.chain) {
          assert keys.senders == keys.senders[from := st];
          return;
        }
      }
      keys := keys.(senders := keys.senders[from := Recv(d.epoch, d.index, d.chain, map[])]);
    }

    method HandleGroupEnvelope(from: Fp, b: Blob, seen: bool, r: Reply, k: Luck, k': Luck) returns (v: Verdict)
      modifies this
      ensures (State(), v) == TakeLetter(old(State()), from, b, seen, r, k, k')
    {
      if from == me || group.None? { return Ignored; }
      if left != In {
        DissolveIfOwner(from, b, k);
        return Ignored;
      }
      if from !in Fps(group.value.members) { RefreshRoster(r, k); }
      if group.None? || from !in Fps(group.value.members) { return NotMember; }
      v := OpenAndAct(from, b, seen, k');
    }

    method DissolveIfOwner(from: Fp, b: Blob, k: Luck)
      requires group.Some?
      modifies this`left
      ensures State() == DissolveWhileLeft(old(State()), from, b, k)
    {
      if from != group.value.owner { return; }
      var h, r := OpenWith(if from in keys.senders then Some(keys.senders[from]) else None, b);
      if r.Opened? && r.m.kind.Dissolve? && left != Dissolved { MarkLeft(Dissolved, k.mark); }
    }

    method OpenAndAct(from: Fp, b: Blob, seen: bool, k: Luck) returns (v: Verdict)
      requires group.Some?
      modifies this
      ensures (State(), v) == OpenLetter(old(State()), from, b, seen, k)
    {
      var h, r := OpenWith(if from in keys.senders then Some(keys.senders[from]) else None, b);
      if !r.Opened? || !k.keysOk { return Rejected(r); }
      keys := keys.(senders := keys.senders[from := h.value]);
      if r.m.from != from || seen { return Ignored; }
      if r.m.kind.Update? { return Refetch; }
      if r.m.kind.Dissolve? && from == group.value.owner { MarkLeft(Dissolved, k.mark); }
      return Taken;
    }

    method RepublishRoster(ch: Change, published: bool, m: Message, k: Luck, k': Luck)
      requires Filed(ch.renew)
      modifies this
      ensures State() == Republish(old(State()), ch, published, m, k, k')
    {
      if group.None? || group.value.owner != me { return; }
      var g := group.value;
      var next := BuildNext(g, ch);
      var ok := Verify(next);
      if !ok || !published || !k.groupOk { return; }
      group := Some(next);
      if Fps(g.members) * ch.drop != {} {
        RekeyGroup(next, k);
      } else if Fps(next.members) - Fps(g.members) != {} {
        DistributeSenderKey(next, k);
      }
      FanOutGroup(m, k');
    }

    method DeleteGroup()
      modifies this
      ensures State() == Remove(old(State()))
    {
      group, left, keys := None, In, NoKeys;
    }
  }
}
