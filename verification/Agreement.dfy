/** Roster agreement: the relay, the owner's devices and the members of one group, on a
    network that loses, repeats and reorders requests and replies (relay/group.go,
    peer/groups.go). */
module Agreement {
  import opened Collections
  import opened Ratchet
  import opened Inbound
  import opened Rosters
  import opened Seats
  import opened Membership

  type Node = int

  /** The owner and the group whose rosters are compared. */
  datatype Subject = Subject(owner: Fp, gid: Gid)

  /** `signed` holds every roster the owner's code ever signed, so every publish request that
      may still arrive; `acked` those the relay answered with "ok"; `pool` every roster that
      travelled in a fetch reply or an invite, or was read from disk by an operation still
      under way; `accepted` those the relay stored; `gone` that it lost or gave up the file. */
  datatype World = World(
    relay: map<Gid, Roster>, seats: map<Node, Seat>, created: bool, signed: set<Roster>,
    acked: set<Roster>, pool: set<Roster>, accepted: set<Roster>, gone: bool)

  /** A roster of this group that carries the owner's signature. */
  predicate Own(j: Subject, g: Roster) { g.signed && g.owner == j.owner && g.gid == j.gid }

  /** What arrives is known, or does not carry the owner's signature. */
  predicate Possible(j: Subject, known: set<Roster>, g: Roster) { g in known || !Own(j, g) }

  datatype Label =
    | Create(node: Node, g: Roster)
    | Sign(node: Node, ch: Change)
    | Publish(g: Roster, allowed: bool, writeOk: bool)
    | Unpublish(who: Fp, removeOk: bool)
    | LoseFile
    | StoreOwn(node: Node, g: Roster, writeOk: bool)
    | Fetch(node: Node)
    | Show(node: Node)
    | WriteBack(node: Node, g: Roster)
    | Handle(node: Node, op: Op)

  /** The roster an operation of a member was given, if any. */
  function Carried(op: Op): Option<Roster> {
    match op
    case Invited(i, _, _) => i.roster
    case KeyCame(_, _, r, _, _) => if r.Got? then Some(r.roster) else None
    case LetterCame(_, _, _, r, _, _) => if r.Got? then Some(r.roster) else None
    case Poked(r, _) => if r.Got? then Some(r.roster) else None
    case _ => None
  }

  /** The owner's creating and republishing take several steps of their own: two republishes
      may run at once, both starting from the same roster. */
  ghost predicate Enabled(j: Subject, w: World, l: Label) {
    match l
    case Create(node, g) =>
      !w.created && node in w.seats && w.seats[node].me == j.owner && Verifies(g) && Own(j, g) && g.version == 1
    case Sign(node, ch) =>
      && node in w.seats && w.seats[node].me == j.owner && w.seats[node].group.Some?
      && w.seats[node].group.value.owner == j.owner && Filed(ch.renew) && Verifies(NextRoster(w.seats[node].group.value, ch))
    case Publish(g, _, _) => Possible(j, w.signed, g)
    case StoreOwn(node, g, _) => node in w.seats && g in w.acked
    case Fetch(node) => node in w.seats
    case Show(node) => node in w.seats
    case WriteBack(node, g) => node in w.seats && g in w.pool && g.gid == j.gid
    case Handle(node, op) => node in w.seats && !op.Republished? && !op.Created? && (Carried(op).Some? ==> Possible(j, w.pool, Carried(op).value))
    case _ => true
  }

  ghost function SetGroup(w: World, node: Node, g: Roster): World
    requires node in w.seats
  {
    w.(seats := w.seats[node := w.seats[node].(group := Some(g))])
  }

  ghost function Turn(j: Subject, w: World, l: Label): World
    requires Enabled(j, w, l)
  {
    match l
    case Create(node, g) => w.(created := true, signed := w.signed + {g})
    case Sign(node, ch) => w.(signed := w.signed + {NextRoster(w.seats[node].group.value, ch)})
    case Publish(g, allowed, writeOk) =>
      var (relay, status) := Publishing(w.relay, g, allowed, writeOk);
      var w1 := w.(relay := relay);
      if status == 200 && Own(j, g) then w1.(accepted := w.accepted + {g}, acked := w.acked + {g}) else w1
    case Unpublish(who, ok) =>
      var (relay, status) := Unpublishing(w.relay, j.gid, who, ok);
      w.(relay := relay, gone := w.gone || (status == 200 && who == j.owner))
    case LoseFile => w.(relay := w.relay - {j.gid}, gone := true)
    case StoreOwn(node, g, ok) => if ok then SetGroup(w, node, g) else w
    case Fetch(node) =>
      var r := Fetching(w.relay, j.gid, w.seats[node].me);
      if r.Got? then w.(pool := w.pool + {r.roster}) else w
    case Show(node) =>
      var g := w.seats[node].group;
      if g.Some? then w.(pool := w.pool + {g.value}) else w
    case WriteBack(node, g) => SetGroup(w, node, g)
    case Handle(node, op) => w.(seats := w.seats[node := Do(w.seats[node], op)])
  }

  ghost predicate TurnAt(j: Subject, run: seq<World>, ls: seq<Label>, n: nat)
    requires n < |ls| && |run| == |ls| + 1
  {
    Enabled(j, run[n], ls[n]) && run[n + 1] == Turn(j, run[n], ls[n])
  }

  ghost predicate Started(j: Subject, w: World) {
    && w.relay == map[] && !w.created && w.signed == {} && w.acked == {} && w.pool == {} && w.accepted == {} && !w.gone
    && forall n :: n in w.seats ==> w.seats[n].group.None? && w.seats[n].gid == j.gid
  }

  ghost predicate Runs(j: Subject, run: seq<World>, ls: seq<Label>) {
    && |run| == |ls| + 1 && Started(j, run[0])
    && forall n :: 0 <= n < |ls| ==> TurnAt(j, run, ls, n)
  }

  /* ---- the invariant ---- */

  ghost predicate OneEach(accepted: set<Roster>) {
    forall a, b :: a in accepted && b in accepted && a.version == b.version ==> a == b
  }

  ghost predicate Known(j: Subject, w: World, gs: set<Roster>) { forall g :: g in gs && Own(j, g) ==> g in w.accepted }

  ghost predicate SeatKnown(j: Subject, w: World, node: Node)
    requires node in w.seats
  {
    var s := w.seats[node];
    s.gid == j.gid && (s.group.Some? ==> s.group.value.gid == j.gid && (Own(j, s.group.value) ==> s.group.value in w.accepted))
  }

  /** While nothing was lost the relay holds the newest accepted roster. */
  ghost predicate RelayNewest(j: Subject, w: World) {
    && (w.accepted != {} ==> j.gid in w.relay)
    && (j.gid in w.relay ==> Verifies(w.relay[j.gid]) && w.relay[j.gid].gid == j.gid)
    && (j.gid in w.relay && w.relay[j.gid].owner == j.owner ==> w.relay[j.gid] in w.accepted)
    && forall g :: g in w.accepted ==> Own(j, g) && j.gid in w.relay && w.relay[j.gid].owner == j.owner && g.version <= w.relay[j.gid].version
  }

  ghost predicate Agreed(j: Subject, w: World) {
    && OneEach(w.accepted) && w.acked <= w.accepted && Known(j, w, w.pool) && RelayNewest(j, w)
    && forall node :: node in w.seats ==> SeatKnown(j, w, node)
  }

  /* ---- steps ---- */

  /** t holds the roster s had, or none, or g, which belongs to the same group. */
  ghost predicate From(s: Seat, t: Seat, g: Roster) {
    && t.gid == s.gid
    && (t.group == s.group || t.group == None || (t.group == Some(g) && g.gid == if s.group.Some? then s.group.value.gid else s.gid))
  }

  lemma ApplyFrom(s: Seat, g: Roster, k: Luck)
    ensures From(s, ApplyRoster(s, g, k), g)
  {
  }

  lemma InviteFrom(s: Seat, i: Invite, k: Luck, k': Luck)
    requires i.roster.Some?
    ensures From(s, TakeInvite(s, i, k, k'), i.roster.value)
  {
    var g := i.roster.value;
    if s.group.Some? {
      ApplyFrom(s, g, k);
      var s1 := ApplyRoster(s, g, k);
      if s1.group.Some? { DistributeKeeps(s1.(keys := s1.keys.(handed := map[])), s1.group.value, k'); }
    } else {
      DistributeKeeps(Ensure(s.(group := Some(g)), k).0, g, k);
    }
  }

  ghost predicate FromReply(s: Seat, t: Seat, r: Reply) {
    t.gid == s.gid && (t.group == s.group || t.group == None || (r.Got? && From(s, t, r.roster)))
  }

  lemma RefreshFrom(s: Seat, r: Reply, k: Luck)
    ensures FromReply(s, Refresh(s, r, k), r)
  {
    if r.Got? { ApplyFrom(s, r.roster, k); }
  }

  lemma LetterFrom(s: Seat, from: Fp, b: Blob, seen: bool, r: Reply, k: Luck, k': Luck)
    ensures FromReply(s, TakeLetter(s, from, b, seen, r, k, k').0, r)
  {
    RefreshFrom(s, r, k);
  }

  /** Nobody but the owner, creating or republishing, makes up a roster. */
  lemma GroupFrom(s: Seat, op: Op)
    requires !op.Republished? && !op.Created?
    ensures var t := Do(s, op);
            t.gid == s.gid && (t.group == s.group || t.group == None || (Carried(op).Some? && From(s, t, Carried(op).value)))
  {
    match op
    case Invited(i, k, k') => if i.roster.Some? { InviteFrom(s, i, k, k'); }
    case KeyCame(from, d, r, k, k') => RefreshFrom(s, r, k);
    case LetterCame(from, b, seen, r, k, k') => LetterFrom(s, from, b, seen, r, k, k');
    case Poked(r, k) => RefreshFrom(s, r, k);
    case Posted(m, k) => FanOutKeeps(s, m, k);
    case Rotated(_, _) =>
    case ToppedUp(k) => if s.group.Some? { DistributeKeeps(s, s.group.value, k); }
    case Deleted =>
  }

  lemma HandleAgrees(j: Subject, w: World, node: Node, op: Op)
    requires Agreed(j, w) && Enabled(j, w, Handle(node, op))
    ensures Agreed(j, Turn(j, w, Handle(node, op)))
  {
    var w' := Turn(j, w, Handle(node, op));
    GroupFrom(w.seats[node], op);
    assert SeatKnown(j, w, node);
    forall n | n in w'.seats ensures SeatKnown(j, w', n) {
      if n != node { assert SeatKnown(j, w, n); }
    }
  }

  lemma StoreAgrees(j: Subject, w: World, node: Node, g: Roster)
    requires Agreed(j, w) && node in w.seats && (Own(j, g) ==> g in w.accepted) && g.gid == j.gid
    ensures Agreed(j, SetGroup(w, node, g))
  {
  }

  lemma PublishAgrees(j: Subject, w: World, g: Roster, allowed: bool, ok: bool)
    requires Agreed(j, w) && Enabled(j, w, Publish(g, allowed, ok))
    ensures Agreed(j, Turn(j, w, Publish(g, allowed, ok)))
  {
    var w' := Turn(j, w, Publish(g, allowed, ok));
    forall n | n in w'.seats ensures SeatKnown(j, w', n) { assert SeatKnown(j, w, n); }
    PublishNewest(j, w, g, allowed, ok);
  }

  /** What the relay takes is newer than everything it took before. */
  lemma PublishNewest(j: Subject, w: World, g: Roster, allowed: bool, ok: bool)
    requires RelayNewest(j, w) && OneEach(w.accepted) && Enabled(j, w, Publish(g, allowed, ok))
    ensures RelayNewest(j, Turn(j, w, Publish(g, allowed, ok))) && OneEach(Turn(j, w, Publish(g, allowed, ok)).accepted)
  {
    if Own(j, g) && Publishing(w.relay, g, allowed, ok).1 == 200 {
      assert forall a :: a in w.accepted ==> a.version < g.version;
    }
  }

  lemma PoolAgrees(j: Subject, w: World, g: Roster)
    requires Agreed(j, w) && (Own(j, g) ==> g in w.accepted)
    ensures Agreed(j, w.(pool := w.pool + {g}))
  {
  }

  lemma SameHoldings(j: Subject, w: World, w': World)
    requires Agreed(j, w) && w' == w.(created := w'.created, signed := w'.signed)
    ensures Agreed(j, w')
  {
    forall n | n in w'.seats ensures SeatKnown(j, w', n) { assert SeatKnown(j, w, n); }
  }

  lemma UnpublishAgrees(j: Subject, w: World, who: Fp, ok: bool)
    requires Agreed(j, w) && !Turn(j, w, Unpublish(who, ok)).gone
    ensures Agreed(j, Turn(j, w, Unpublish(who, ok)))
  {
  }

  lemma TurnAgrees(j: Subject, w: World, l: Label)
    requires Agreed(j, w) && Enabled(j, w, l) && !Turn(j, w, l).gone
    ensures Agreed(j, Turn(j, w, l))
  {
    match l
    case Create(_, _) => SameHoldings(j, w, Turn(j, w, l));
    case Sign(_, _) => SameHoldings(j, w, Turn(j, w, l));
    case Publish(g, allowed, ok) => PublishAgrees(j, w, g, allowed, ok);
    case Unpublish(who, ok) => UnpublishAgrees(j, w, who, ok);
    case LoseFile =>
    case StoreOwn(node, g, ok) => if ok { StoreAgrees(j, w, node, g); }
    case Fetch(node) => if j.gid in w.relay { PoolAgrees(j, w, w.relay[j.gid]); }
    case Show(node) =>
      assert SeatKnown(j, w, node);
      if w.seats[node].group.Some? { PoolAgrees(j, w, w.seats[node].group.value); }
    case WriteBack(node, g) => StoreAgrees(j, w, node, g);
    case Handle(node, op) => HandleAgrees(j, w, node, op);
  }

  lemma {:induction false} RunAgrees(j: Subject, run: seq<World>, ls: seq<Label>, n: nat)
    requires Runs(j, run, ls) && n < |run| && !run[n].gone
    ensures Agreed(j, run[n])
  {
    if n > 0 {
      assert TurnAt(j, run, ls, n - 1);
      RunAgrees(j, run, ls, n - 1);
      TurnAgrees(j, run[n - 1], ls[n - 1]);
    } else {
      forall node | node in run[0].seats ensures SeatKnown(j, run[0], node) {}
    }
  }

  /** g is held by the relay, by the owner or by a member. */
  ghost predicate Held(j: Subject, w: World, g: Roster) {
    (j.gid in w.relay && w.relay[j.gid] == g) || exists node :: node in w.seats && w.seats[node].group == Some(g)
  }

  lemma HeldAccepted(j: Subject, w: World, g: Roster)
    requires Agreed(j, w) && Held(j, w, g) && Own(j, g)
    ensures g in w.accepted
  {
  }

  /** Until the owner unpublishes the group, any two of the relay, the owner's devices and
      the members that hold the same version of the owner's roster hold the same roster, and
      nobody is ahead of the relay. */
  lemma HoldersAgree(j: Subject, run: seq<World>, ls: seq<Label>, n: nat, a: Roster, b: Roster)
    requires Runs(j, run, ls) && n < |run| && !run[n].gone
    requires Held(j, run[n], a) && Held(j, run[n], b) && Own(j, a) && Own(j, b)
    ensures a.version == b.version ==> a == b
    ensures j.gid in run[n].relay && a.version <= run[n].relay[j.gid].version
  {
    RunAgrees(j, run, ls, n);
    HeldAccepted(j, run[n], a);
    HeldAccepted(j, run[n], b);
  }

  /* ---- after an unpublish ---- */

  /** The labels of two racing changes of one roster, the loser arriving once more after the
      group was unpublished. */
  ghost function RaceThenUnpublish(node: Node, a: Change, b: Change, ga: Roster, gb: Roster, o: Fp): seq<Label> {
    [Sign(node, a), Sign(node, b), Publish(ga, true, true), StoreOwn(node, ga, true), Unpublish(o, true), Publish(gb, true, true)]
  }

  /** Agreement ends there: two different changes of the roster the relay holds can leave the
      owner with one and the relay with the other under the same version. */
  lemma UnpublishBreaksAgreement(j: Subject, w: World, node: Node, a: Change, b: Change) returns (run: seq<World>)
    requires Enabled(j, w, Sign(node, a)) && Enabled(j, w, Sign(node, b))
    requires j.gid in w.relay && w.seats[node].group == Some(w.relay[j.gid]) && w.relay[j.gid].gid == j.gid
    requires NextRoster(w.relay[j.gid], a) != NextRoster(w.relay[j.gid], b)
    ensures var g := w.relay[j.gid];
            var ls := RaceThenUnpublish(node, a, b, NextRoster(g, a), NextRoster(g, b), j.owner);
            && |run| == |ls| + 1 && run[0] == w && (forall n :: 0 <= n < |ls| ==> TurnAt(j, run, ls, n))
            && var ga, gb := NextRoster(g, a), NextRoster(g, b);
               Held(j, run[6], ga) && Held(j, run[6], gb) && Own(j, ga) && Own(j, gb) && ga.version == gb.version && ga != gb
  {
    var g := w.relay[j.gid];
    var ga, gb := NextRoster(g, a), NextRoster(g, b);
    var ls := RaceThenUnpublish(node, a, b, ga, gb, j.owner);
    var w1 := Turn(j, w, ls[0]);
    var w2 := Turn(j, w1, ls[1]);
    var w3 := Turn(j, w2, ls[2]);
    var w4 := Turn(j, w3, ls[3]);
    var w5 := Turn(j, w4, ls[4]);
    var w6 := Turn(j, w5, ls[5]);
    run := [w, w1, w2, w3, w4, w5, w6];
    assert w6.relay[j.gid] == gb && w6.seats[node].group == Some(ga);
  }
}
