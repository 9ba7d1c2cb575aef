/** Group rosters: what makes one valid, how the owner builds the next version, and the
    relay's store of them (a2a/group.go, peer/groups.go, relay/group.go). Signatures are
    ideal: `signed` says that the owner's key made the signature. */
module Rosters {
  import opened Collections

  type Fp = int
  type Gid = int

  /** A member's card; `genuine` is the outcome of its self-signature check. */
  datatype Card = Card(fp: Fp, name: int, genuine: bool)

  /** Governance; `sound` stands for the switches and texts that mention no member. */
  datatype Profile = Profile(admins: seq<Fp>, rules: int, sound: bool)

  /** `shaped` stands for format version, group id and name being acceptable. */
  datatype Roster = Roster(gid: Gid, owner: Fp, version: int, members: seq<Card>, profile: Option<Profile>, stamp: int, shaped: bool, signed: bool)

  const MAX_MEMBERS: nat := 128
  const MAX_ADMINS: nat := 16

  function Fps(ms: seq<Card>): set<Fp> { set c | c in ms :: c.fp }

  ghost predicate Distinct(ms: seq<Card>) { forall i, j :: 0 <= i < j < |ms| ==> ms[i].fp != ms[j].fp }

  ghost predicate AllGenuine(ms: seq<Card>) { forall i :: 0 <= i < |ms| ==> ms[i].genuine }

  predicate Administers(p: Option<Profile>, fp: Fp) { p.Some? && fp in p.value.admins }

  ghost predicate ProfileFits(p: Profile, fps: set<Fp>) {
    p.sound && |p.admins| <= MAX_ADMINS && forall i :: 0 <= i < |p.admins| ==> p.admins[i] in fps
  }

  ghost predicate Verifies(g: Roster) {
    && g.shaped && g.version >= 1 && 1 <= |g.members| <= MAX_MEMBERS
    && AllGenuine(g.members) && Distinct(g.members) && g.owner in Fps(g.members)
    && (g.profile.Some? ==> ProfileFits(g.profile.value, Fps(g.members)))
    && g.signed
  }

  lemma FpsOfSnoc(ms: seq<Card>, c: Card)
    ensures Fps(ms + [c]) == Fps(ms) + {c.fp}
  {
  }

  lemma DistinctSnoc(ms: seq<Card>, c: Card)
    ensures Distinct(ms + [c]) <==> Distinct(ms) && c.fp !in Fps(ms)
  {
    var ns := ms + [c];
    if Distinct(ns) {
      forall i, j | 0 <= i < j < |ms| ensures ms[i].fp != ms[j].fp { assert ns[i] == ms[i] && ns[j] == ms[j]; }
      forall x | x in ms ensures x.fp != c.fp {
        var i :| 0 <= i < |ms| && ms[i] == x;
        assert ns[i] == x && ns[|ms|] == c;
      }
    }
    if Distinct(ms) && c.fp !in Fps(ms) {
      forall i, j | 0 <= i < j < |ns| ensures ns[i].fp != ns[j].fp {
        assert ms[i] in ms;
      }
    }
  }

  /** What a verified roster is, in other words: nobody is listed twice, so there are as many
      fingerprints as cards, all of them genuine, the owner among them; every admin is a
      member; and the owner signed it. */
  lemma VerifiedMeans(g: Roster)
    ensures Verifies(g) <==>
              && g.shaped && g.signed && g.version >= 1 && 1 <= |g.members| <= 128
              && |Fps(g.members)| == |g.members| && (forall c :: c in g.members ==> c.genuine) && g.owner in Fps(g.members)
              && (g.profile.Some? ==>
                    g.profile.value.sound && |g.profile.value.admins| <= 16 && forall a :: a in g.profile.value.admins ==> a in Fps(g.members))
  {
    DistinctBySize(g.members);
    assert AllGenuine(g.members) <==> forall c :: c in g.members ==> c.genuine;
    if g.profile.Some? { AdminsByIndex(g.profile.value.admins, Fps(g.members)); }
  }

  lemma AdminsByIndex(admins: seq<Fp>, fps: set<Fp>)
    ensures (forall i :: 0 <= i < |admins| ==> admins[i] in fps) <==> forall a :: a in admins ==> a in fps
  {
    if forall a :: a in admins ==> a in fps {
      forall i | 0 <= i < |admins| ensures admins[i] in fps { assert admins[i] in admins; }
    }
  }

  lemma {:induction false} DistinctBySize(ms: seq<Card>)
    ensures |Fps(ms)| <= |ms| && (Distinct(ms) <==> |Fps(ms)| == |ms|)
  {
    if ms == [] {
      assert Fps(ms) == {};
    } else {
      var n := |ms| - 1;
      DistinctBySize(ms[..n]);
      assert ms == ms[..n] + [ms[n]];
      FpsOfSnoc(ms[..n], ms[n]);
      DistinctSnoc(ms[..n], ms[n]);
    }
  }

  method Verify(g: Roster) returns (ok: bool)
    ensures ok == Verifies(g)
  {
    if !g.shaped || g.version < 1 || |g.members| < 1 || |g.members| > MAX_MEMBERS { return false; }
    var seen, fit := CheckCards(g.members);
    if !fit || g.owner !in seen { return false; }
    if g.profile.Some? {
      var fits := Validate(g.profile.value, seen);
      if !fits { return false; }
    }
    return g.signed;
  }

  /** Every card genuine and no fingerprint twice. */
  method CheckCards(ms: seq<Card>) returns (seen: set<Fp>, ok: bool)
    ensures ok == (AllGenuine(ms) && Distinct(ms))
    ensures ok ==> seen == Fps(ms)
  {
    seen, ok := {}, true;
    for i := 0 to |ms|
      invariant AllGenuine(ms[..i]) && Distinct(ms[..i]) && seen == Fps(ms[..i])
    {
      assert ms[..i + 1] == ms[..i] + [ms[i]];
      FpsOfSnoc(ms[..i], ms[i]);
      DistinctSnoc(ms[..i], ms[i]);
      if !ms[i].genuine || ms[i].fp in seen {
        PrefixDistinct(ms, i + 1);
        return seen, false;
      }
      seen := seen + {ms[i].fp};
    }
    assert ms[..|ms|] == ms;
  }

  lemma PrefixDistinct(ms: seq<Card>, n: nat)
    requires n <= |ms|
    ensures Distinct(ms) ==> Distinct(ms[..n])
  {
  }

  method Validate(p: Profile, fps: set<Fp>) returns (ok: bool)
    ensures ok == ProfileFits(p, fps)
  {
    if !p.sound || |p.admins| > MAX_ADMINS { return false; }
    for i := 0 to |p.admins|
      invariant forall j :: 0 <= j < i ==> p.admins[j] in fps
    {
      if p.admins[i] !in fps { return false; }
    }
    return true;
  }

  /* ---- the owner's next version ---- */

  /** A change of the roster: who goes, who comes, whose card is replaced, the new profile. */
  datatype Change = Change(drop: set<Fp>, add: seq<Card>, renew: map<Fp, Card>, profile: Option<Profile>, stamp: int)

  /** Replacement cards are filed under their own fingerprint. */
  ghost predicate Filed(renew: map<Fp, Card>) { forall f :: f in renew ==> renew[f].fp == f }

  function Renewed(c: Card, renew: map<Fp, Card>): Card { if c.fp in renew then renew[c.fp] else c }

  /** The members that stay, in order, with their replaced cards. */
  ghost function Stayers(ms: seq<Card>, drop: set<Fp>, renew: map<Fp, Card>): seq<Card> {
    if ms == [] then [] else
      var n := |ms| - 1;
      var s := Stayers(ms[..n], drop, renew);
      if ms[n].fp in drop then s else s + [Renewed(ms[n], renew)]
  }

  /** base followed by the cards of add that are not there yet. */
  ghost function Joined(base: seq<Card>, add: seq<Card>): seq<Card> {
    if add == [] then base else
      var n := |add| - 1;
      var s := Joined(base, add[..n]);
      if add[n].fp in Fps(s) then s else s + [add[n]]
  }

  ghost function AdminsAmong(admins: seq<Fp>, fps: set<Fp>): seq<Fp> {
    if admins == [] then [] else
      var n := |admins| - 1;
      var s := AdminsAmong(admins[..n], fps);
      if admins[n] in fps then s + [admins[n]] else s
  }

  ghost function NextMembers(g: Roster, ch: Change): seq<Card> { Joined(Stayers(g.members, ch.drop, ch.renew), ch.add) }

  ghost function NextRoster(g: Roster, ch: Change): Roster {
    var ms := NextMembers(g, ch);
    var p := if ch.profile.Some? then ch.profile else g.profile;
    Roster(g.gid, g.owner, g.version + 1, ms,
           if p.None? then None else Some(p.value.(admins := AdminsAmong(p.value.admins, Fps(ms)))),
           ch.stamp, g.shaped, true)
  }

  method BuildNext(g: Roster, ch: Change) returns (next: Roster)
    requires Filed(ch.renew)
    ensures next == NextRoster(g, ch)
  {
    var ms, present := DropMembers(g.members, ch.drop, ch.renew);
    ms, present := AddMembers(ms, present, ch.add);
    var p := if ch.profile.Some? then ch.profile else g.profile;
    if p.Some? {
      var admins := KeepAdmins(p.value.admins, present);
      p := Some(p.value.(admins := admins));
    }
    next := Roster(g.gid, g.owner, g.version + 1, ms, p, ch.stamp, g.shaped, true);
  }

  method DropMembers(members: seq<Card>, drop: set<Fp>, renew: map<Fp, Card>) returns (ms: seq<Card>, present: set<Fp>)
    requires Filed(renew)
    ensures ms == Stayers(members, drop, renew) && present == Fps(ms)
  {
    ms, present := [], {};
    for i := 0 to |members|
      invariant ms == Stayers(members[..i], drop, renew) && present == Fps(ms)
    {
      var c := members[i];
      assert members[..i + 1][..i] == members[..i];
      if c.fp !in drop {
        FpsOfSnoc(ms, Renewed(c, renew));
        ms, present := ms + [Renewed(c, renew)], present + {c.fp};
      }
    }
    assert members[..|members|] == members;
  }

  method AddMembers(base: seq<Card>, there: set<Fp>, add: seq<Card>) returns (ms: seq<Card>, present: set<Fp>)
    requires there == Fps(base)
    ensures ms == Joined(base, add) && present == Fps(ms)
  {
    ms, present := base, there;
    for i := 0 to |add|
      invariant ms == Joined(base, add[..i]) && present == Fps(ms)
    {
      assert add[..i + 1][..i] == add[..i];
      if add[i].fp !in present {
        FpsOfSnoc(ms, add[i]);
        ms, present := ms + [add[i]], present + {add[i].fp};
      }
    }
    assert add[..|add|] == add;
  }

  method KeepAdmins(admins: seq<Fp>, present: set<Fp>) returns (kept: seq<Fp>)
    ensures kept == AdminsAmong(admins, present)
  {
    kept := [];
    for i := 0 to |admins|
      invariant kept == AdminsAmong(admins[..i], present)
    {
      assert admins[..i + 1][..i] == admins[..i];
      if admins[i] in present { kept := kept + [admins[i]]; }
    }
    assert admins[..|admins|] == admins;
  }

  /* ---- what the next version is ---- */

  lemma {:induction false} StayersAre(ms: seq<Card>, drop: set<Fp>, renew: map<Fp, Card>)
    requires Filed(renew)
    ensures Fps(Stayers(ms, drop, renew)) == Fps(ms) - drop
    ensures Distinct(ms) ==> Distinct(Stayers(ms, drop, renew))
    ensures AllGenuine(ms) && (forall f :: f in renew ==> renew[f].genuine) ==> AllGenuine(Stayers(ms, drop, renew))
  {
    if ms != [] {
      var n := |ms| - 1;
      var s := Stayers(ms[..n], drop, renew);
      StayersAre(ms[..n], drop, renew);
      assert ms == ms[..n] + [ms[n]];
      FpsOfSnoc(ms[..n], ms[n]);
      DistinctSnoc(ms[..n], ms[n]);
      FpsOfSnoc(s, Renewed(ms[n], renew));
      DistinctSnoc(s, Renewed(ms[n], renew));
    }
  }

  lemma {:induction false} JoinedAre(base: seq<Card>, add: seq<Card>)
    ensures Fps(Joined(base, add)) == Fps(base) + Fps(add)
    ensures Distinct(base) ==> Distinct(Joined(base, add))
    ensures AllGenuine(base) && AllGenuine(add) ==> AllGenuine(Joined(base, add))
  {
    if add != [] {
      var n := |add| - 1;
      var s := Joined(base, add[..n]);
      JoinedAre(base, add[..n]);
      assert add == add[..n] + [add[n]];
      FpsOfSnoc(add[..n], add[n]);
      FpsOfSnoc(s, add[n]);
      DistinctSnoc(s, add[n]);
    }
  }

  lemma {:induction false} AdminsStay(admins: seq<Fp>, fps: set<Fp>)
    ensures |AdminsAmong(admins, fps)| <= |admins|
    ensures forall i :: 0 <= i < |AdminsAmong(admins, fps)| ==> AdminsAmong(admins, fps)[i] in fps
  {
    if admins != [] { AdminsStay(admins[..|admins| - 1], fps); }
  }

  /** The members of the next version are the old ones without the dropped, and the added. */
  lemma NextMembersAre(g: Roster, ch: Change)
    requires Filed(ch.renew)
    ensures Fps(NextRoster(g, ch).members) == Fps(g.members) - ch.drop + Fps(ch.add)
  {
    StayersAre(g.members, ch.drop, ch.renew);
    JoinedAre(Stayers(g.members, ch.drop, ch.renew), ch.add);
  }

  /** Who stays keeps its card unless it is replaced, and the additions come with theirs. */
  lemma NextCardsAre(g: Roster, ch: Change, c: Card)
    requires Filed(ch.renew)
    ensures c in g.members && c.fp !in ch.drop ==> (if c.fp in ch.renew then ch.renew[c.fp] else c) in NextRoster(g, ch).members
    ensures c in ch.add ==> exists x :: x in NextRoster(g, ch).members && x.fp == c.fp
    ensures c in NextRoster(g, ch).members ==> c in ch.add || exists x :: x in g.members && x.fp !in ch.drop && x.fp == c.fp
  {
    StayersHold(g.members, ch.drop, ch.renew, c);
    JoinedHold(Stayers(g.members, ch.drop, ch.renew), ch.add, Renewed(c, ch.renew));
    JoinedHold(Stayers(g.members, ch.drop, ch.renew), ch.add, c);
    NextMembersAre(g, ch);
    if c in ch.add { assert c.fp in Fps(ch.add) && c.fp in Fps(NextRoster(g, ch).members); }
    if c in Stayers(g.members, ch.drop, ch.renew) {
      StayersAre(g.members, ch.drop, ch.renew);
      assert c.fp in Fps(Stayers(g.members, ch.drop, ch.renew)) && c.fp in Fps(g.members);
    }
  }

  lemma {:induction false} StayersHold(ms: seq<Card>, drop: set<Fp>, renew: map<Fp, Card>, c: Card)
    ensures c in ms && c.fp !in drop ==> Renewed(c, renew) in Stayers(ms, drop, renew)
  {
    if ms != [] {
      var n := |ms| - 1;
      assert ms == ms[..n] + [ms[n]];
      StayersHold(ms[..n], drop, renew, c);
    }
  }

  lemma {:induction false} JoinedHold(base: seq<Card>, add: seq<Card>, c: Card)
    ensures c in base ==> c in Joined(base, add)
    ensures c in Joined(base, add) ==> c in base || c in add
  {
    if add != [] {
      var n := |add| - 1;
      assert add == add[..n] + [add[n]];
      JoinedHold(base, add[..n], c);
    }
  }

  /** The order is kept: those who stay stand in their old order, one card for each who is not
      dropped, and the additions come after them. */
  lemma NextKeepsOrder(g: Roster, ch: Change, a: seq<Card>, c: Card, b: seq<Card>)
    requires g.members == a + [c] + b
    ensures var stay := Stayers(a, ch.drop, ch.renew) + (if c.fp in ch.drop then [] else [Renewed(c, ch.renew)]) + Stayers(b, ch.drop, ch.renew);
            stay <= NextRoster(g, ch).members
  {
    StayersSplit(a + [c], b, ch.drop, ch.renew);
    StayersSnoc(a, c, ch.drop, ch.renew);
    JoinedExtends(Stayers(g.members, ch.drop, ch.renew), ch.add);
  }

  lemma StayersSnoc(a: seq<Card>, c: Card, drop: set<Fp>, renew: map<Fp, Card>)
    ensures Stayers(a + [c], drop, renew) == Stayers(a, drop, renew) + (if c.fp in drop then [] else [Renewed(c, renew)])
  {
    assert (a + [c])[..|a|] == a;
  }

  lemma {:induction false} StayersSplit(a: seq<Card>, b: seq<Card>, drop: set<Fp>, renew: map<Fp, Card>)
    ensures Stayers(a + b, drop, renew) == Stayers(a, drop, renew) + Stayers(b, drop, renew)
  {
    if b == [] {
      assert a + b == a;
    } else {
      var n := |b| - 1;
      StayersSplit(a, b[..n], drop, renew);
      assert (a + b)[..|a| + n] == a + b[..n];
    }
  }

  lemma {:induction false} JoinedExtends(base: seq<Card>, add: seq<Card>)
    ensures base <= Joined(base, add)
  {
    if add != [] { JoinedExtends(base, add[..|add| - 1]); }
  }

  /** The profile is the new one if there is one, with exactly those admins who are members. */
  lemma NextProfileIs(g: Roster, ch: Change, a: Fp)
    requires Filed(ch.renew)
    ensures var p, next := if ch.profile.Some? then ch.profile else g.profile, NextRoster(g, ch);
            && (next.profile.Some? <==> p.Some?) && next.version == g.version + 1 && next.owner == g.owner && next.gid == g.gid
            && (p.Some? ==> next.profile.value.rules == p.value.rules && next.profile.value.sound == p.value.sound)
            && (p.Some? ==> (a in next.profile.value.admins <==> a in p.value.admins && a in Fps(next.members)))
  {
    var p := if ch.profile.Some? then ch.profile else g.profile;
    if p.Some? { AdminsKept(p.value.admins, Fps(NextRoster(g, ch).members), a); }
  }

  lemma {:induction false} AdminsKept(admins: seq<Fp>, fps: set<Fp>, a: Fp)
    ensures a in AdminsAmong(admins, fps) <==> a in admins && a in fps
  {
    if admins != [] {
      var n := |admins| - 1;
      assert admins == admins[..n] + [admins[n]];
      AdminsKept(admins[..n], fps, a);
    }
  }

  lemma {:induction false} AdminsInOrder(a: seq<Fp>, b: seq<Fp>, fps: set<Fp>)
    ensures AdminsAmong(a + b, fps) == AdminsAmong(a, fps) + AdminsAmong(b, fps)
  {
    if b == [] {
      assert a + b == a;
    } else {
      var n := |b| - 1;
      AdminsInOrder(a, b[..n], fps);
      assert (a + b)[..|a| + n] == a + b[..n];
    }
  }

  /** From a roster that verifies and genuine cards, the owner's next version verifies
      exactly when it is not too long and still lists the owner: no member twice, and no
      dropped member lingers among the admins. */
  lemma RepublishedVerifies(g: Roster, ch: Change)
    requires Verifies(g) && Filed(ch.renew) && AllGenuine(ch.add)
    requires forall f :: f in ch.renew ==> ch.renew[f].genuine
    requires ch.profile.Some? ==> ch.profile.value.sound && |ch.profile.value.admins| <= MAX_ADMINS
    ensures Verifies(NextRoster(g, ch)) <==>
            |NextMembers(g, ch)| <= MAX_MEMBERS && g.owner in Fps(g.members) - ch.drop + Fps(ch.add)
  {
    var next := NextRoster(g, ch);
    NextMembersAre(g, ch);
    StayersAre(g.members, ch.drop, ch.renew);
    JoinedAre(Stayers(g.members, ch.drop, ch.renew), ch.add);
    var p := if ch.profile.Some? then ch.profile else g.profile;
    if p.Some? { AdminsStay(p.value.admins, Fps(next.members)); }
    if g.owner in Fps(next.members) {
      var c :| c in next.members && c.fp == g.owner;
      assert |next.members| >= 1;
    }
  }

  /* ---- the relay ---- */

  /** groupPublish: the stored rosters and the status code. */
  ghost function Publishing(stored: map<Gid, Roster>, g: Roster, allowed: bool, writeOk: bool): (map<Gid, Roster>, int) {
    if !Verifies(g) then (stored, 401)
    else if !allowed then (stored, 429)
    else if g.gid in stored && stored[g.gid].owner != g.owner then (stored, 403)
    else if g.gid in stored && g.version <= stored[g.gid].version then (stored, 409)
    else if !writeOk then (stored, 500)
    else (stored[g.gid := g], 200)
  }

  function Unpublishing(stored: map<Gid, Roster>, gid: Gid, who: Fp, removeOk: bool): (map<Gid, Roster>, int) {
    if gid !in stored then (stored, 404)
    else if stored[gid].owner != who then (stored, 403)
    else if !removeOk then (stored, 500)
    else (stored - {gid}, 200)
  }

  /** What a fetch answers. */
  datatype Reply = Failed | Forbidden | Got(roster: Roster)

  function Fetching(stored: map<Gid, Roster>, gid: Gid, who: Fp): Reply {
    if gid !in stored then Failed
    else if who !in Fps(stored[gid].members) then Forbidden
    else Got(stored[gid])
  }

  class GroupRelay {
    var stored: map<Gid, Roster>

    constructor ()
      ensures stored == map[]
    {
      stored := map[];
    }

    method Publish(g: Roster, allowed: bool, writeOk: bool) returns (status: int)
      modifies this
      ensures (stored, status) == Publishing(old(stored), g, allowed, writeOk)
    {
      var ok := Verify(g);
      if !ok { return 401; }
      if !allowed { return 429; }
      if g.gid in stored {
        if stored[g.gid].owner != g.owner { return 403; }
        if g.version <= stored[g.gid].version { return 409; }
      }
      if !writeOk { return 500; }
      stored := stored[g.gid := g];
      return 200;
    }

    method Unpublish(gid: Gid, who: Fp, removeOk: bool) returns (status: int)
      modifies this
      ensures (stored, status) == Unpublishing(old(stored), gid, who, removeOk)
    {
      if gid !in stored { return 404; }
      if stored[gid].owner != who { return 403; }
      if !removeOk { return 500; }
      stored := stored - {gid};
      return 200;
    }

    /** groupMail: the sender's signature, the rate limit, membership and the sender's active
        device are checked in turn; then every other member whose mailbox takes it gets one
        copy. */
    method FanOut(gid: Gid, sender: Fp, signed: bool, allowed: bool, active: bool, full: set<Fp>) returns (status: int, copies: seq<Fp>)
      ensures status == if !signed then 401 else if !allowed then 429 else if gid !in stored then 404
                        else if sender !in Fps(stored[gid].members) then 403 else if !active then 409
                        else if copies == [] && (Fps(stored[gid].members) - {sender}) * full != {} then 500 else 200
      ensures status != 200 ==> copies == []
      ensures status == 200 ==> gid in stored && Lists(copies, Fps(stored[gid].members) - {sender} - full)
    {
      if !signed { return 401, []; }
      if !allowed { return 429, []; }
      if gid !in stored { return 404, []; }
      var fps := Fps(stored[gid].members);
      if sender !in fps { return 403, []; }
      if !active { return 409, []; }
      var boxes := SortSet(fps);
      var failed;
      copies, failed := CopyTo(boxes, fps, sender, full);
      return if copies == [] && failed then 500 else 200, copies;
    }
  }

  method CopyTo(boxes: seq<Fp>, ghost fps: set<Fp>, sender: Fp, full: set<Fp>) returns (copies: seq<Fp>, failed: bool)
    requires Lists(boxes, fps)
    ensures Lists(copies, fps - {sender} - full) && failed == ((fps - {sender}) * full != {})
  {
    copies, failed := [], false;
    ghost var tried: set<Fp> := {};
    for i := 0 to |boxes|
      invariant Lists(boxes[..i], tried)
      invariant Lists(copies, tried - {sender} - full) && failed == ((tried - {sender}) * full != {})
    {
      var fp := boxes[i];
      ListsNext(boxes, fps, i, tried);
      ghost var before := tried;
      tried := tried + {fp};
      if fp == sender {
        assert tried - {sender} == before - {sender};
      } else if fp in full {
        failed := true;
        assert fp in (tried - {sender}) * full;
        assert tried - {sender} - full == before - {sender} - full;
      } else {
        assert (tried - {sender}) * full == (before - {sender}) * full;
        assert tried - {sender} - full == before - {sender} - full + {fp};
        forall x | x in copies ensures x < fp { assert x in before; }
        ListsSnoc(copies, before - {sender} - full, fp);
        copies := copies + [fp];
      }
    }
    ListsAll(boxes, fps, tried);
  }
}
