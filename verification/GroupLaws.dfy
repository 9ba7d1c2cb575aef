/** What each group operation achieves: for every seat, exactly when it takes effect and what
    the seat holds then, written on the seat and what arrived alone. */
module GroupLaws {
  import opened Collections
  import opened Ratchet
  import opened Inbound
  import opened Rosters
  import opened Seats
  import opened Membership
  import Agreement

  /* ---- the relay ---- */

  /** A roster is stored if and only if it verifies, is let through, is the first of its group
      or a newer one of the same owner, and is written; nothing else is ever touched. */
  lemma PublishStores(stored: map<Gid, Roster>, g: Roster, allowed: bool, writeOk: bool)
    ensures var (after, status) := Publishing(stored, g, allowed, writeOk);
            && (status == 200 <==>
                  && Verifies(g) && allowed && writeOk
                  && (g.gid in stored ==> stored[g.gid].owner == g.owner && g.version > stored[g.gid].version))
            && after == (if status == 200 then stored[g.gid := g] else stored)
            && (status == 401 <==> !Verifies(g)) && (status == 429 <==> Verifies(g) && !allowed)
            && (status == 403 <==> Verifies(g) && allowed && g.gid in stored && stored[g.gid].owner != g.owner)
            && (status == 409 <==> Verifies(g) && allowed && g.gid in stored && stored[g.gid].owner == g.owner && g.version <= stored[g.gid].version)
  {
  }

  /** A member is answered with the roster the relay stores. */
  lemma FetchAnswers(stored: map<Gid, Roster>, gid: Gid, who: Fp)
    ensures Fetching(stored, gid, who) ==
            if gid !in stored then Failed else if who in Fps(stored[gid].members) then Got(stored[gid]) else Forbidden
  {
  }

  lemma UnpublishRemoves(stored: map<Gid, Roster>, gid: Gid, who: Fp, removeOk: bool)
    ensures var (after, status) := Unpublishing(stored, gid, who, removeOk);
            && (status == 200 <==> gid in stored && stored[gid].owner == who && removeOk)
            && after == if status == 200 then map x | x in stored && x != gid :: stored[x] else stored
  {
  }

  /* ---- a roster arrives ---- */

  /** A roster is news to a seat: verified, of the same group and owner, and newer, and the
      group was not dissolved. */
  ghost predicate News(s: Seat, g: Roster) {
    && s.group.Some? && s.left != Dissolved && Verifies(g)
    && g.gid == s.group.value.gid && g.owner == s.group.value.owner && g.version > s.group.value.version
  }

  /** A roster that is news is held afterwards, exactly it, if group.json is written; if I am
      not on it and was in, the marker says so as far as it was written; if I was out and am on
      it, I am in again if the marker was cleared; and whatever is not news changes nothing. */
  lemma NewsIsTaken(s: Seat, g: Roster, k: Luck)
    ensures var t := ApplyRoster(s, g, k); var on := s.me in Fps(g.members);
            && (News(s, g) && k.groupOk ==> t.group == Some(g))
            && (News(s, g) && !k.groupOk ==> t.group == s.group)
            && (News(s, g) && !on && s.left == In ==> t.left == if k.mark.NotWritten? then In else Removed)
            && (News(s, g) && !on && s.left != In ==> t.left == s.left)
            && (News(s, g) && !on ==> t.keys == s.keys && t.out == s.out)
            && (News(s, g) && on && k.groupOk && s.left != In ==> t.left == if k.clearOk then In else s.left)
            && (News(s, g) && on && k.groupOk && s.left == In ==> t.left == In)
            && (News(s, g) && on && !k.groupOk ==> t == s)
            && (!News(s, g) ==> t == s)
  {
    var s1 := s.(group := Some(g));
    DistributeKeeps(s1, g, k);
    RekeyKeeps(s1, g, k);
    RekeyKeeps(s1.(left := In), g, k);
  }

  /** Members dropped, or my coming back, start a new chain; otherwise my chain stays. */
  lemma NewsMovesTheChain(s: Seat, g: Roster, k: Luck)
    requires News(s, g) && s.me in Fps(g.members) && k.groupOk && s.keys.mine.Some? && k.randOk && k.keysOk
    ensures var t := ApplyRoster(s, g, k); var dropped := exists fp :: fp in Fps(s.group.value.members) && fp !in Fps(g.members);
            t.keys.mine == if s.left != In || dropped then Some(Sender(s.keys.mine.value.epoch + 1, 0, Seed(k.rand))) else s.keys.mine
  {
    var s1 := s.(group := Some(g));
    var s2 := s1.(left := In);
    var gone := Members(s.group.value) - Members(g);
    var fresh1 := s1.(keys := FreshKeys(s1.keys, g, EpochOf(s1.keys) + 1, k.rand));
    var fresh2 := s2.(keys := FreshKeys(s2.keys, g, EpochOf(s2.keys) + 1, k.rand));
    DistributeKeeps(s1, g, k);
    DistributeKeeps(fresh1, g, k);
    DistributeKeeps(fresh2, g, k);
    if gone != {} {
      Inhabited(gone);
      var fp :| fp in gone;
      assert fp in Fps(s.group.value.members) && fp !in Fps(g.members);
    } else {
      forall fp | fp in Fps(s.group.value.members) ensures fp in Fps(g.members) { assert fp !in gone; }
    }
  }

  /** And whoever is on it then has been sent the chain I use, if it is new or was not on
      record as sent before. */
  lemma NewsReachesMembers(s: Seat, g: Roster, k: Luck, fp: Fp)
    requires News(s, g) && s.me in Fps(g.members) && k.groupOk && s.keys.mine.Some? && s.keys.mine.value.epoch >= 1 && k.randOk && k.keysOk
    requires fp in Fps(g.members) && fp != s.me
    ensures var t := ApplyRoster(s, g, k); var mine := t.keys.mine;
            && mine.Some?
            && (mine != s.keys.mine || fp !in s.keys.handed || s.keys.handed[fp] < mine.value.epoch ==>
                  KeyMsg(fp, Dist(mine.value.epoch, mine.value.index, mine.value.chain)) in t.out)
            && (k.recordOk && fp in k.reached && mine != s.keys.mine ==> fp in t.keys.handed && t.keys.handed[fp] == mine.value.epoch)
  {
    var s1 := s.(group := Some(g));
    NewsMovesTheChain(s, g, k);
    DistributeKeeps(s1, g, k);
    AllOwedSent(s1, g, k);
    RekeyReaches(s1, g, k, fp);
    RekeyReaches(s1.(left := In), g, k, fp);
  }

  /** A rekey sends the new chain to every other member, and records whom it reached. */
  lemma RekeyReaches(s: Seat, g: Roster, k: Luck, fp: Fp)
    requires k.randOk && k.keysOk && fp in Fps(g.members) && fp != s.me && (s.keys.mine.Some? ==> s.keys.mine.value.epoch >= 1)
    ensures var t, e := Rekey(s, g, k), EpochOf(s.keys) + 1;
            && t.keys.mine == Some(Sender(e, 0, Seed(k.rand))) && KeyMsg(fp, Dist(e, 0, Seed(k.rand))) in t.out
            && (k.recordOk ==> (fp in t.keys.handed <==> fp in k.reached) && (fp in k.reached ==> t.keys.handed[fp] == e))
  {
    var n := s.(keys := FreshKeys(s.keys, g, EpochOf(s.keys) + 1, k.rand));
    DistributeKeeps(n, g, k);
    AllOwedSent(n, g, k);
    assert fp in Owed(s.me, g, n.keys.handed, EpochOf(s.keys) + 1);
  }

  /** What a refresh does with each answer of the relay. */
  lemma RefreshTakes(s: Seat, r: Reply, k: Luck)
    requires s.group.Some?
    ensures var t := Refresh(s, r, k);
            && (r.Got? ==> t == ApplyRoster(s, r.roster, k))
            && (r.Forbidden? && s.left == In ==> t == s.(left := if k.mark.NotWritten? then In else Removed))
            && (r.Failed? || (r.Forbidden? && s.left != In) ==> t == s)
  {
  }

  /** A member that refetches, its writes succeeding, holds the relay's roster if it is on it,
      and is marked as removed if it is not -- in every state of every run, until the relay
      gives the file up. */
  lemma FetchedIsHeld(j: Agreement.Subject, run: seq<Agreement.World>, ls: seq<Agreement.Label>, n: nat, node: Agreement.Node, k: Luck)
    requires Agreement.Runs(j, run, ls) && n < |run| && !run[n].gone && node in run[n].seats && k.groupOk && k.mark.Written?
    requires var s := run[n].seats[node]; s.group.Some? && Agreement.Own(j, s.group.value) && s.left != Dissolved
    ensures j.gid in run[n].relay
    ensures var s, g := run[n].seats[node], run[n].relay[j.gid]; var t := Do(s, Poked(Fetching(run[n].relay, j.gid, s.me), k));
            if s.me in Fps(g.members) then t.group == Some(g) else t == s.(left := Removed)
  {
    var w, s := run[n], run[n].seats[node];
    Agreement.RunAgrees(j, run, ls, n);
    assert Agreement.SeatKnown(j, w, node) && s.group.value in w.accepted;
    var g := w.relay[j.gid];
    FetchAnswers(w.relay, j.gid, s.me);
    NewsIsTaken(s, g, k);
    if g.version == s.group.value.version { assert g == s.group.value; }
  }

  /* ---- joining ---- */

  /** Who may invite me: the roster's owner or an admin it names, who is a friend of mine, or
      the owner I applied to. */
  ghost predicate Welcome(s: Seat, i: Invite) {
    && i.roster.Some? && i.gid == s.gid && i.roster.value.gid == s.gid && Verifies(i.roster.value) && s.me in Fps(i.roster.value.members)
    && (i.from == i.roster.value.owner || (i.roster.value.profile.Some? && i.from in i.roster.value.profile.value.admins))
    && (i.friend || i.applied == Some(None) || i.applied == Some(Some(i.from)))
  }

  /** A welcome invite to a group I do not hold makes me hold it, with a chain of my own that
      every other member was sent; an unwelcome one changes nothing. */
  lemma WelcomeInviteJoins(s: Seat, i: Invite, k: Luck, k': Luck)
    requires s.group.None? && s.keys == NoKeys
    ensures var t := TakeInvite(s, i, k, k');
            && (!Welcome(s, i) ==> t == s)
            && (Welcome(s, i) && k.groupOk && k.randOk && k.keysOk ==>
                  && t.group == i.roster && t.left == s.left && t.keys.mine == Some(Sender(1, 0, Seed(k.rand)))
                  && forall fp :: fp in Fps(i.roster.value.members) && fp != s.me ==> KeyMsg(fp, Dist(1, 0, Seed(k.rand))) in t.out)
  {
    if Welcome(s, i) && k.groupOk && k.randOk && k.keysOk {
      var g := i.roster.value;
      var s1 := Ensure(s.(group := Some(g)), k).0;
      DistributeKeeps(s1, g, k);
      AllOwedSent(s1, g, k);
    }
  }

  /** A distribution sends my chain to every other member not recorded for its epoch. */
  lemma AllOwedSent(s: Seat, g: Roster, k: Luck)
    requires s.keys.mine.Some?
    ensures var mine := s.keys.mine.value;
            forall fp :: fp in Fps(g.members) && fp != s.me && (fp in s.keys.handed ==> s.keys.handed[fp] < mine.epoch) && mine.epoch >= 1 ==>
              KeyMsg(fp, Dist(mine.epoch, mine.index, mine.chain)) in Distribute(s, g, k).out
  {
    var mine := s.keys.mine.value;
    forall fp | fp in Fps(g.members) && fp != s.me && (fp in s.keys.handed ==> s.keys.handed[fp] < mine.epoch) && mine.epoch >= 1
      ensures KeyMsg(fp, Dist(mine.epoch, mine.index, mine.chain)) in Distribute(s, g, k).out
    {
      assert fp in Owed(s.me, g, s.keys.handed, mine.epoch);
    }
  }

  /** Nobody is sent an epoch of my chain again that is on record as sent. */
  lemma RecordedNotResent(s: Seat, g: Roster, k: Luck, m: KeyMsg)
    requires s.keys.mine.Some? && m in Distribute(s, g, k).out && m !in s.out
    ensures m.to != s.me && m.to in Fps(g.members) && (m.to in s.keys.handed ==> s.keys.handed[m.to] < s.keys.mine.value.epoch)
    ensures m.dist == Dist(s.keys.mine.value.epoch, s.keys.mine.value.index, s.keys.mine.value.chain)
  {
  }

  /** An unwelcome invite changes nothing, whatever I hold. */
  lemma UnwelcomeInviteIgnored(s: Seat, i: Invite, k: Luck, k': Luck)
    requires !Welcome(s, i)
    ensures TakeInvite(s, i, k, k') == s
  {
    WelcomeIffTrusted(s, i);
  }

  lemma WelcomeIffTrusted(s: Seat, i: Invite)
    ensures Welcome(s, i) <==> Trusted(s, i) && i.gid == s.gid
  {
    match i.applied
    case None =>
    case Some(None) =>
    case Some(Some(fp)) => assert i.applied == Some(Some(i.from)) <==> fp == i.from;
  }

  /** A welcome invite to a group I hold is news like any other, and while I am in, my chain
      goes out to everybody again. */
  lemma WelcomeInviteUpdates(s: Seat, i: Invite, k: Luck, k': Luck)
    requires s.group.Some? && Welcome(s, i)
    ensures var t, a := TakeInvite(s, i, k, k'), ApplyRoster(s, i.roster.value, k);
            && t.group == a.group && t.left == a.left && t.keys.mine == a.keys.mine
            && (s.left == In && a.left == In && a.keys.mine.Some? && a.keys.mine.value.epoch >= 1 && k'.keysOk ==>
                  forall fp :: fp in Fps(a.group.value.members) && fp != s.me ==>
                    KeyMsg(fp, Dist(a.keys.mine.value.epoch, a.keys.mine.value.index, a.keys.mine.value.chain)) in t.out)
  {
    var a := ApplyRoster(s, i.roster.value, k);
    NewsIsTaken(s, i.roster.value, k);
    ApplyKeeps(s, i.roster.value, k, s.me);
    var a1 := a.(keys := a.keys.(handed := map[]));
    if a.group.Some? {
      DistributeKeeps(a1, a.group.value, k');
      if a.keys.mine.Some? { AllOwedSent(a1, a.group.value, k'); }
    }
  }

  /** The owner's new group is held once the relay took it, with a chain that is sent out. */
  lemma CreationHolds(s: Seat, g: Roster, published: bool, k: Luck)
    requires s.group.None? && s.keys == NoKeys && g.gid == s.gid && g.owner == s.me && g.version == 1 && |g.members| >= 2 && Verifies(g)
    requires k.groupOk && k.randOk && k.keysOk
    ensures var t := Create(s, g, published, k);
            && (!published ==> t == s)
            && (published ==> t.group == Some(g) && t.keys.mine == Some(Sender(1, 0, Seed(k.rand))))
            && (published ==> forall fp :: fp in Fps(g.members) && fp != s.me ==> KeyMsg(fp, Dist(1, 0, Seed(k.rand))) in t.out)
  {
    var s1 := Ensure(s.(group := Some(g)), k).0;
    DistributeKeeps(s1, g, k);
    AllOwedSent(s1, g, k);
  }

  /* ---- what a co-member sends ---- */

  /** A well-formed key distribution from a member is stored: afterwards the sender's state
      stands where the distribution says, unless a higher epoch was held. */
  lemma MemberKeyIsStored(s: Seat, from: Fp, d: Dist, r: Reply, k: Luck, k': Luck)
    requires s.group.Some? && from in Fps(s.group.value.members) && d.epoch >= 1 && d.index >= 0 && k'.keysOk
    ensures var t := TakeKey(s, from, d, r, k, k'); var held := from in s.keys.senders;
            && t == s.(keys := s.keys.(senders := t.keys.senders)) && from in t.keys.senders
            && (forall fp :: fp != from ==> (fp in t.keys.senders <==> fp in s.keys.senders) && (fp in t.keys.senders ==> t.keys.senders[fp] == s.keys.senders[fp]))
            && (held && s.keys.senders[from].epoch > d.epoch ==> t.keys.senders[from] == s.keys.senders[from])
            && (!(held && s.keys.senders[from].epoch > d.epoch) ==>
                  var st := t.keys.senders[from]; st.epoch == d.epoch && st.index == d.index && st.chain == d.chain)
  {
    KeyIsTaken(Entry(s.keys, from), d);
  }

  /** A letter of a member that opens is taken in: the moved state is stored; an update asks
      for a refetch; the owner's dissolution marks the group; nothing else of the seat moves. */
  lemma MemberLetterIsTaken(s: Seat, from: Fp, b: Blob, r: Reply, k: Luck, k': Luck)
    requires s.group.Some? && s.left == In && from != s.me && from in Fps(s.group.value.members) && from in s.keys.senders && k'.keysOk
    requires Opening(s.keys.senders[from], b).1.Opened? && Opening(s.keys.senders[from], b).1.m.from == from
    ensures var (st, o) := Opening(s.keys.senders[from], b); var (t, v) := TakeLetter(s, from, b, false, r, k, k');
            && t.keys == s.keys.(senders := s.keys.senders[from := st]) && t.group == s.group
            && (v.Refetch? <==> o.m.kind.Update?) && (v.Taken? <==> !o.m.kind.Update?)
            && t.left == if o.m.kind.Dissolve? && from == s.group.value.owner && !k'.mark.NotWritten?
                         then (if k'.mark.Written? then Dissolved else Removed) else In
  {
  }

  /** What a stranger sends is judged by the roster the relay then answers with: taken as a
      member's if the sender is on it, and otherwise left alone. */
  lemma StrangersAreLookedUp(s: Seat, from: Fp, d: Dist, b: Blob, seen: bool, r: Reply, k: Luck, k': Luck)
    requires s.group.Some? && s.left == In && from != s.me && from !in Fps(s.group.value.members) && d.epoch >= 1 && d.index >= 0
    ensures var a := Refresh(s, r, k); var listed := a.group.Some? && from in Fps(a.group.value.members);
            && TakeKey(s, from, d, r, k, k') == (if listed then TakeKey(a, from, d, Failed, k, k') else a)
            && (listed && a.left == In ==> TakeLetter(s, from, b, seen, r, k, k') == TakeLetter(a, from, b, seen, Failed, k, k'))
            && (!listed ==> TakeLetter(s, from, b, seen, r, k, k') == (a, NotMember))
  {
    if r.Got? { ApplyKeeps(s, r.roster, k, s.me); }
  }

  /** So a key that outruns the roster that names its sender is not lost: the roster is fetched
      and held, and the key is stored with it. */
  lemma NewcomersKeyIsStored(s: Seat, from: Fp, d: Dist, g: Roster, k: Luck, k': Luck)
    requires s.group.Some? && s.left == In && from != s.me && from !in Fps(s.group.value.members) && d.epoch >= 1 && d.index >= 0
    requires News(s, g) && s.me in Fps(g.members) && from in Fps(g.members) && k.groupOk && k'.keysOk
    ensures var t := TakeKey(s, from, d, Got(g), k, k');
            && t.group == Some(g) && t.left == In && from in t.keys.senders && t.keys.senders[from].epoch >= d.epoch
            && (t.keys.senders[from].epoch == d.epoch ==> t.keys.senders[from].index == d.index && t.keys.senders[from].chain == d.chain)
  {
    var a := Refresh(s, Got(g), k);
    NewsIsTaken(s, g, k);
    StrangersAreLookedUp(s, from, d, Blob(0, 0, Junk), false, Got(g), k, k');
    MemberKeyIsStored(a, from, d, Failed, k, k');
  }

  /** A letter that names another sender inside, or was seen before, moves the ratchet and does
      nothing else; one that does not open does nothing at all; one from a stranger is not
      looked at. */
  lemma OtherLettersDoNothing(s: Seat, from: Fp, b: Blob, seen: bool, r: Reply, k: Luck, k': Luck)
    requires s.group.Some? && s.left == In && from != s.me
    ensures var (t, v) := TakeLetter(s, from, b, seen, r, k, k'); var member := from in Fps(s.group.value.members);
            var (h, o) := HandleEnvelope(Entry(s.keys, from), b, k'.keysOk);
            && (member && (!o.Opened? || !k'.keysOk) ==> t == s && v == Rejected(o))
            && (member && o.Opened? && k'.keysOk && (o.m.from != from || seen) ==>
                  t == s.(keys := s.keys.(senders := s.keys.senders[from := h.value])) && v == Ignored)
            && (!member && r.Failed? ==> (t, v) == (s, NotMember))
  {
  }

  /** My own envelopes, and those of groups I do not hold, are ignored. */
  lemma EchoIgnored(s: Seat, from: Fp, b: Blob, seen: bool, r: Reply, k: Luck, k': Luck)
    requires from == s.me || s.group.None?
    ensures TakeLetter(s, from, b, seen, r, k, k') == (s, Ignored)
  {
  }

  /** While I am out, the owner's dissolution is still marked. */
  lemma DissolutionReachesTheRemoved(s: Seat, from: Fp, b: Blob, seen: bool, r: Reply, k: Luck, k': Luck)
    requires s.group.Some? && s.left == Removed && from != s.me && from == s.group.value.owner && from in s.keys.senders
    requires Opening(s.keys.senders[from], b).1.Opened? && k.mark.Written?
    ensures TakeLetter(s, from, b, seen, r, k, k').0 ==
            if Opening(s.keys.senders[from], b).1.m.kind.Dissolve? then s.(left := Dissolved) else s
  {
  }

  /* ---- the owner and my own chain ---- */

  /** The owner's change is held once the relay took it and it is written: the next version,
      with exactly the members asked for. */
  lemma ChangeIsHeld(s: Seat, ch: Change, m: Message, k: Luck, k': Luck)
    requires s.group.Some? && s.group.value.owner == s.me && Filed(ch.renew) && Verifies(NextRoster(s.group.value, ch)) && k.groupOk
    ensures var t := Republish(s, ch, true, m, k, k'); var g := s.group.value;
            && t.group.Some? && t.group.value.version == g.version + 1 && t.group.value.owner == g.owner && t.group.value.gid == g.gid
            && Fps(t.group.value.members) == Fps(g.members) - ch.drop + Fps(ch.add)
    ensures Republish(s, ch, false, m, k, k') == s
  {
    var next := NextRoster(s.group.value, ch);
    var s1 := s.(group := Some(next));
    NextMembersAre(s.group.value, ch);
    DistributeKeeps(s1, next, k);
    RekeyKeeps(s1, next, k);
    FanOutKeeps(AfterRepublish(s, next, s.group.value, ch, k), m, k');
  }

  /** Then every member has been sent the chain the owner goes on with: a new one if somebody
      was dropped, and the old one otherwise, unless it is on record as sent. */
  lemma ChangeReachesMembers(s: Seat, ch: Change, m: Message, k: Luck, k': Luck, fp: Fp)
    requires s.group.Some? && s.group.value.owner == s.me && Filed(ch.renew) && Verifies(NextRoster(s.group.value, ch)) && k.groupOk && k.randOk && k.keysOk
    requires s.keys.mine.Some? && s.keys.mine.value.epoch >= 1 && fp != s.me && fp in Fps(NextRoster(s.group.value, ch).members)
    ensures var t, mine := Republish(s, ch, true, m, k, k'), s.keys.mine.value; var was := Fps(s.group.value.members);
            && ((exists x :: x in was && x in ch.drop) ==> KeyMsg(fp, Dist(mine.epoch + 1, 0, Seed(k.rand))) in t.out)
            && ((forall x :: x in was ==> x !in ch.drop) && fp !in was && (fp in s.keys.handed ==> s.keys.handed[fp] < mine.epoch) ==>
                  KeyMsg(fp, Dist(mine.epoch, mine.index, mine.chain)) in t.out)
  {
    var g, next := s.group.value, NextRoster(s.group.value, ch);
    var s1 := s.(group := Some(next));
    RekeyReaches(s1, next, k, fp);
    AllOwedSent(s1, next, k);
    PostingOnlySends(AfterRepublish(s, next, g, ch, k), m, k');
    if x :| x in Members(g) && x in ch.drop { assert x in Members(g) * ch.drop; }
    if fp !in Members(g) { assert fp in Members(next) - Members(g); }
  }

  lemma PostingOnlySends(s: Seat, m: Message, k: Luck)
    ensures s.out <= FanOut(s, m, k).out
  {
  }

  /** Only an owner's change that verifies and that the relay took is ever stored. */
  lemma ChangeRefused(s: Seat, ch: Change, published: bool, m: Message, k: Luck, k': Luck)
    requires s.group.None? || s.group.value.owner != s.me || !Verifies(NextRoster(s.group.value, ch)) || !published || !k.groupOk
    ensures Republish(s, ch, published, m, k, k') == s
  {
  }

  /** Who is out, or cannot write, does not rotate. */
  lemma RotationRefused(s: Seat, now: int, k: Luck)
    requires s.group.None? || s.left != In || !k.randOk || !k.keysOk
    ensures Rotate(s, now, k) == s
  {
  }

  /** A rotation that is written starts a fresh chain above the old epoch and the clock, which
      nobody is recorded for. */
  lemma RotationStartsAfresh(s: Seat, now: int, k: Luck)
    requires s.group.Some? && s.left == In && k.randOk && k.keysOk
    ensures var t := Rotate(s, now, k);
            && t.keys.mine.Some? && t.keys.mine.value.index == 0 && t.keys.mine.value.chain == Seed(k.rand) && t.keys.handed == map[]
            && t.keys.mine.value.epoch >= now && (s.keys.mine.Some? ==> t.keys.mine.value.epoch > s.keys.mine.value.epoch)
            && (forall fp :: fp in t.keys.senders <==> fp in s.keys.senders && fp in Fps(s.group.value.members))
            && t == s.(keys := t.keys)
  {
  }

  /** Topping up sends my chain to every other member not recorded for its epoch, while I am
      in, and does nothing otherwise. */
  lemma TopUpSends(s: Seat, k: Luck, fp: Fp)
    ensures var t := TopUp(s, k);
            && (s.group.None? || s.left != In || s.keys.mine.None? ==> t == s)
            && (s.group.Some? && s.left == In && s.keys.mine.Some? && s.keys.mine.value.epoch >= 1
                && fp in Fps(s.group.value.members) && fp != s.me && (fp in s.keys.handed ==> s.keys.handed[fp] < s.keys.mine.value.epoch) ==>
                  KeyMsg(fp, Dist(s.keys.mine.value.epoch, s.keys.mine.value.index, s.keys.mine.value.chain)) in t.out)
  {
    if s.group.Some? && s.keys.mine.Some? { AllOwedSent(s, s.group.value, k); }
  }

  /** A post of a member in good standing leaves under the current position and moves the chain
      one step on; one who is out posts nothing. */
  lemma PostingMovesOn(s: Seat, m: Message, k: Luck)
    ensures s.group.None? || s.left != In ==> FanOut(s, m, k) == s
    ensures s.group.Some? && s.left == In && s.keys.mine.Some? && k.sealOk ==>
              var t, mine := FanOut(s, m, k), s.keys.mine.value;
              && t.keys.mine == Some(Sender(mine.epoch, mine.index + 1, Next(mine.chain)))
              && t.posts == s.posts + {Post(Blob(mine.epoch, mine.index, Sealed(MsgKey(mine.chain), m)), Fps(s.group.value.members))}
    ensures !k.sealOk ==> FanOut(s, m, k).posts == s.posts
  {
    if s.group.Some? { DistributeKeeps(Ensure(s, k).0, s.group.value, k); }
  }
}
