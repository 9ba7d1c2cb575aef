/** Runs from an empty mailbox to the states in which the vault's promises need care. */
module VaultReach {
  import opened Collections
  import opened VaultLog
  import opened Vault
  import opened VaultRuns
  import opened VaultSound
  import opened VaultQuota

  /* ---- building runs ---- */

  /** A run from s to s' that never forgets the index. */
  ghost predicate Leads(c: Config, s: Sys, run: seq<Sys>, ls: seq<Label>, s': Sys)
    requires ValidConfig(c)
  {
    Behaves(c, run, ls) && CarefulRun(c, run, ls) && run[0] == s && run[|ls|] == s'
  }

  lemma OneStep(c: Config, s: Sys, l: Label, s': Sys) returns (run: seq<Sys>, ls: seq<Label>)
    requires ValidConfig(c) && Step(c, s, l, s') && !Forgets(c, s, l)
    ensures Leads(c, s, run, ls, s')
  {
    run, ls := [s, s'], [l];
    assert StepAt(c, run, ls, 0) && CarefulAt(c, run, ls, 0);
  }

  lemma Join(c: Config, s: Sys, run1: seq<Sys>, ls1: seq<Label>, m: Sys, run2: seq<Sys>, ls2: seq<Label>, s': Sys) returns (run: seq<Sys>, ls: seq<Label>)
    requires ValidConfig(c) && Leads(c, s, run1, ls1, m) && Leads(c, m, run2, ls2, s')
    ensures Leads(c, s, run, ls, s')
  {
    run, ls := run1[..|ls1|] + run2, ls1 + ls2;
    forall i | 0 <= i < |ls| ensures StepAt(c, run, ls, i) && CarefulAt(c, run, ls, i) {
      if i < |ls1| {
        assert StepAt(c, run1, ls1, i) && CarefulAt(c, run1, ls1, i) && run[i] == run1[i] && run[i + 1] == run1[i + 1];
      } else {
        var k := i - |ls1|;
        assert StepAt(c, run2, ls2, k) && CarefulAt(c, run2, ls2, k) && run[i] == run2[k] && run[i + 1] == run2[k + 1];
      }
    }
  }

  /** Extends a run by one step. */
  lemma Then(c: Config, s: Sys, run1: seq<Sys>, ls1: seq<Label>, m: Sys, l: Label, s': Sys) returns (run: seq<Sys>, ls: seq<Label>)
    requires ValidConfig(c) && Leads(c, s, run1, ls1, m) && Step(c, m, l, s') && !Forgets(c, m, l)
    ensures Leads(c, s, run, ls, s')
  {
    var run2, ls2 := OneStep(c, m, l, s');
    run, ls := Join(c, s, run1, ls1, m, run2, ls2, s');
  }

  /* ---- ordinary steps ---- */

  const NoFaults := GCFaults(false, true, true, {}, true)

  /** A loaded mailbox without lanes in its first generation. */
  ghost predicate Quiet(s: Sys) { s.box.loaded && s.box.gen == 0 && s.box.heads == map[] && s.box.lastGC == 0 }

  lemma FirstLoad(c: Config, s: Sys) returns (s': Sys, run: seq<Sys>, ls: seq<Label>)
    requires ValidConfig(c) && Init(s)
    ensures Leads(c, s, run, ls, s') && Quiet(s') && s'.now == s.now && s'.box.index == map[] && s'.box.bytes == 0 && s'.box.blobs == 0
    ensures s'.box.reserved == 0 && s'.uploads == map[] && s'.box.inflight == map[]
  {
    var l := Load(_ => s.now, Clean);
    s' := s.(box := LoadBox(c, s.box, _ => s.now, Clean));
    assert Sizes(map[]) == map[];
    run, ls := OneStep(c, s, l, s');
  }

  /** The state after a granted reservation. */
  ghost function Reserved(c: Config, s: Sys, u: UploadId, x: Id): Sys {
    s.(box := Grant(c, s.box, x), uploads := s.uploads[u := Upload(x, s.box.gen, Storing)])
  }

  lemma ReserveStep(c: Config, s: Sys, u: UploadId, x: Id)
    requires ValidConfig(c) && HasRoom(c, s, u, x)
    ensures Step(c, s, PutReserve(u, x, true, NoFaults), Reserved(c, s, u, x))
  {
  }

  /** The state after the store took the bytes of an upload. */
  ghost function Accepted(s: Sys, u: UploadId): Sys
    requires u in s.uploads
  {
    s.(box := s.box.(store := s.box.store + {s.uploads[u].id}), uploads := s.uploads[u := s.uploads[u].(phase := Stored)])
  }

  lemma AcceptStep(c: Config, s: Sys, u: UploadId)
    requires ValidConfig(c) && u in s.uploads && s.uploads[u].phase.Storing?
    ensures Step(c, s, StorePut(u, true, true), Accepted(s, u))
  {
  }

  /** The state after an upload was recorded. */
  ghost function Indexed(c: Config, s: Sys, u: UploadId): Sys
    requires u in s.uploads
  {
    var x := s.uploads[u].id;
    var kept := Record(c, Release(c, s.box, x), x, s.now);
    s.(box := kept.(bytes := kept.bytes + c.sizeOf(x), blobs := kept.blobs + 1), uploads := s.uploads - {u})
  }

  lemma IndexStep(c: Config, s: Sys, u: UploadId)
    requires ValidConfig(c) && Sound(c, s) && s.box.loaded && u in s.uploads && s.uploads[u].phase.Stored?
    requires s.uploads[u].gen == s.box.gen && s.uploads[u].id !in s.box.index
    ensures Step(c, s, PutFinish(u, true, true), Indexed(c, s, u))
    ensures var x, b' := s.uploads[u].id, Indexed(c, s, u).box;
            && b'.index == s.box.index[x := Meta(c.sizeOf(x), s.now)] && x in Disk(b')
            && b'.loaded && b'.gen == s.box.gen && b'.heads == s.box.heads && b'.lastGC == s.box.lastGC
            && b'.bytes == s.box.bytes + c.sizeOf(x) && b'.blobs == s.box.blobs + 1 && b'.reserved == s.box.reserved - c.sizeOf(x)
  {
    IndexedBox(c, s.box, s.now, s.uploads[u].id);
  }

  lemma IndexedBox(c: Config, b: Box, now: int, x: Id)
    requires LogInv(c, b, now) && b.loaded && x !in b.index && c.sizeOf(x) > 0
    ensures var kept := Record(c, Release(c, b, x), x, now);
            var b' := kept.(bytes := kept.bytes + c.sizeOf(x), blobs := kept.blobs + 1);
            && b'.index == b.index[x := Meta(c.sizeOf(x), now)] && x in Disk(b')
  {
    var r := Release(c, b, x);
    ReleaseKeepsBox(c, b, now, x);
    RecordKeeps(c, r, x, now);
    var kept := Record(c, r, x, now);
    assert LogOf(kept.(bytes := kept.bytes + c.sizeOf(x), blobs := kept.blobs + 1)) == LogOf(kept);
    assert x in kept.index.Keys;
  }

  /** x can be reserved. */
  ghost predicate HasRoom(c: Config, s: Sys, u: UploadId, x: Id) {
    && s.box.loaded && u !in s.uploads && x !in s.box.index
    && 0 < c.sizeOf(x) <= MAX_BLOB && s.box.bytes + s.box.reserved + c.sizeOf(x) <= c.quota
  }

  /** An upload up to the point where the store has its bytes. */
  lemma BringIn(c: Config, s: Sys, u: UploadId, x: Id) returns (run: seq<Sys>, ls: seq<Label>)
    requires ValidConfig(c) && Sound(c, s) && HasRoom(c, s, u, x)
    ensures Leads(c, s, run, ls, Accepted(Reserved(c, s, u, x), u)) && Sound(c, Accepted(Reserved(c, s, u, x), u))
  {
    var s1 := Reserved(c, s, u, x);
    ReserveStep(c, s, u, x);
    StepKeepsSound(c, s, PutReserve(u, x, true, NoFaults), s1);
    run, ls := OneStep(c, s, PutReserve(u, x, true, NoFaults), s1);
    AcceptStep(c, s1, u);
    StepKeepsSound(c, s1, StorePut(u, true, true), Accepted(s1, u));
    run, ls := Then(c, s, run, ls, s1, StorePut(u, true, true), Accepted(s1, u));
  }

  /** One whole upload. */
  lemma UploadOne(c: Config, s: Sys, u: UploadId, x: Id) returns (s': Sys, run: seq<Sys>, ls: seq<Label>)
    requires ValidConfig(c) && Sound(c, s) && Quiet(s) && HasRoom(c, s, u, x) && x !in s.box.inflight
    ensures Leads(c, s, run, ls, s') && Sound(c, s') && Quiet(s') && s'.now == s.now && s'.uploads == s.uploads
    ensures s'.box.index == s.box.index[x := Meta(c.sizeOf(x), s.now)] && s'.box.inflight == s.box.inflight
    ensures s'.box.bytes == s.box.bytes + c.sizeOf(x) && s'.box.blobs == s.box.blobs + 1 && s'.box.reserved == s.box.reserved
  {
    run, ls := BringIn(c, s, u, x);
    var s2 := Accepted(Reserved(c, s, u, x), u);
    s' := Indexed(c, s2, u);
    IndexStep(c, s2, u);
    StepKeepsSound(c, s2, PutFinish(u, true, true), s');
    run, ls := Then(c, s, run, ls, s2, PutFinish(u, true, true), s');
    Undone(c, s, u, x);
  }

  /** An upload leaves the other uploads and the in-flight counts as they were. */
  lemma Undone(c: Config, s: Sys, u: UploadId, x: Id)
    requires u !in s.uploads && x !in s.box.inflight
    ensures var s' := Indexed(c, Accepted(Reserved(c, s, u, x), u), u);
            s'.uploads == s.uploads && s'.box.inflight == s.box.inflight && s'.now == s.now
  {
  }

  /** Time passes until the grace of everything indexed is over and a collection is due. */
  lemma WaitOut(c: Config, s: Sys) returns (s': Sys, run: seq<Sys>, ls: seq<Label>)
    requires ValidConfig(c) && Sound(c, s) && Quiet(s)
    ensures Leads(c, s, run, ls, s') && Sound(c, s') && s' == s.(now := s'.now)
    ensures s'.now > s.now + c.grace && s'.now >= c.gcEvery
  {
    var dt: nat := c.grace + c.gcEvery + 1 + (if s.now < 0 then -s.now else 0);
    s' := s.(now := s.now + dt);
    StepKeepsSound(c, s, Tick(dt), s');
    run, ls := OneStep(c, s, Tick(dt), s');
  }

  /** An indexed blob past its grace that no lane needs and nobody uploads is a victim. */
  lemma IsVictim(c: Config, b: Box, x: Id, now: int)
    requires ValidConfig(c) && b.heads == map[] && x in b.index && b.index[x].at < now - c.grace && x !in b.inflight
    ensures x in Victims(c, b, now) && RefsReadable(c, b.heads, b.store)
  {
    assert Live(c, b.heads) == {};
  }

  /* ---- the states ---- */

  const TwiceFailing := GCFaults(false, false, false, {}, true)

  /** An overcommit is reached by storing x, letting its grace pass, and uploading y while
      the collection can neither log nor re-read. */
  lemma OvercommitReached(c: Config, s: Sys, x: Id, y: Id) returns (s': Sys, run: seq<Sys>, ls: seq<Label>)
    requires ValidConfig(c) && Init(s) && x != y && 0 < c.sizeOf(x) <= MAX_BLOB && 0 < c.sizeOf(y) <= MAX_BLOB
    requires c.sizeOf(x) <= c.quota && c.sizeOf(y) <= c.quota < c.sizeOf(x) + c.sizeOf(y)
    ensures Leads(c, s, run, ls, s') && Sound(c, s') && s'.box.loaded && s'.uploads == map[]
    ensures Accounted(c, s'.box, s'.uploads) && Overcommits(c, s'.box, y, s'.now, TwiceFailing)
  {
    var s1, run1, ls1 := FirstLoad(c, s);
    RunSound(c, run1, ls1, |ls1|);
    var s2, run2, ls2 := UploadOne(c, s1, 0, x);
    run, ls := Join(c, s, run1, ls1, s1, run2, ls2, s2);
    var run3, ls3;
    s', run3, ls3 := WaitOut(c, s2);
    run, ls := Join(c, s, run, ls, s2, run3, ls3, s');
    IsVictim(c, s'.box, x, s'.now);
    OnlyVictim(c, s'.box, x, s'.now);
    OneAccounted(c, s', x);
  }

  /** With one recorded blob that fits and nothing in flight the accounting holds. */
  lemma OneAccounted(c: Config, s: Sys, x: Id)
    requires Sound(c, s) && s.box.loaded && s.uploads == map[] && s.box.reserved == 0 && s.box.index.Keys == {x}
    requires s.box.index[x].size == c.sizeOf(x) == s.box.bytes && s.box.blobs == 1 && c.sizeOf(x) <= c.quota
    ensures Accounted(c, s.box, s.uploads)
  {
    var m := s.box.index;
    assert m == map[][x := m[x]];
    UsedAfterPut(map[], x, m[x]);
    assert Sizes(map[]) == map[] && UploadSizes(c, map[]) == map[];
    UsedByKeys(c, Disk(s.box), m);
    assert |m| == |m.Keys|;
  }

  lemma OnlyVictim(c: Config, b: Box, x: Id, now: int)
    requires ValidConfig(c) && b.index.Keys == {x}
    requires x in Victims(c, b, now)
    ensures b.index - Victims(c, b, now) == map[] && Used(b.index - Victims(c, b, now)) == 0
  {
    assert Sizes(map[]) == map[];
  }

  /** Two uploads of x whose bytes the store has. */
  ghost function BothIn(c: Config, s: Sys, x: Id): Sys {
    var s2 := Accepted(Reserved(c, s, 0, x), 0);
    Accepted(Reserved(c, s2, 1, x), 1)
  }

  lemma BringBothIn(c: Config, s: Sys, x: Id) returns (run: seq<Sys>, ls: seq<Label>)
    requires ValidConfig(c) && Sound(c, s) && Quiet(s) && s.uploads == map[] && x !in s.box.index
    requires 0 < c.sizeOf(x) <= MAX_BLOB && s.box.bytes + s.box.reserved + 2 * c.sizeOf(x) <= c.quota
    ensures Leads(c, s, run, ls, BothIn(c, s, x)) && Sound(c, BothIn(c, s, x))
  {
    run, ls := BringIn(c, s, 0, x);
    var s2 := Accepted(Reserved(c, s, 0, x), 0);
    var run2, ls2 := BringIn(c, s2, 1, x);
    run, ls := Join(c, s, run, ls, s2, run2, ls2, BothIn(c, s, x));
  }

  lemma BothInFacts(c: Config, s: Sys, x: Id)
    requires s.uploads == map[]
    ensures var s4 := BothIn(c, s, x);
            && s4.uploads == map[0 := Upload(x, s.box.gen, Stored), 1 := Upload(x, s.box.gen, Stored)] && s4.now == s.now
            && s4.box == s.box.(store := s4.box.store, reserved := s4.box.reserved, inflight := s4.box.inflight)
            && forall id :: id != x && id !in s.box.inflight ==> id !in s4.box.inflight
  {
  }

  /** Two uploads of one id overlap and the first of them finishes. */
  lemma Race(c: Config, s: Sys, x: Id) returns (s': Sys, run: seq<Sys>, ls: seq<Label>)
    requires ValidConfig(c) && Sound(c, s) && Quiet(s) && s.uploads == map[] && x !in s.box.index
    requires 0 < c.sizeOf(x) <= MAX_BLOB && s.box.bytes + s.box.reserved + 2 * c.sizeOf(x) <= c.quota
    ensures Leads(c, s, run, ls, s') && Quiet(s') && s'.now == s.now
    ensures s'.uploads == map[1 := Upload(x, 0, Stored)] && x in Disk(s'.box)
    ensures s'.box.index == s.box.index[x := Meta(c.sizeOf(x), s.now)]
    ensures forall id :: id != x && id !in s.box.inflight ==> id !in s'.box.inflight
  {
    run, ls := BringBothIn(c, s, x);
    BothInFacts(c, s, x);
    s', run, ls := FinishFirst(c, s, run, ls, BothIn(c, s, x), x);
  }

  /** The first of two uploads of x finishes. */
  lemma FinishFirst(c: Config, s: Sys, run1: seq<Sys>, ls1: seq<Label>, m: Sys, x: Id) returns (s': Sys, run: seq<Sys>, ls: seq<Label>)
    requires ValidConfig(c) && Leads(c, s, run1, ls1, m) && Sound(c, m) && Quiet(m) && x !in m.box.index
    requires m.uploads == map[0 := Upload(x, 0, Stored), 1 := Upload(x, 0, Stored)]
    ensures Leads(c, s, run, ls, s') && Quiet(s') && s'.now == m.now
    ensures s'.uploads == map[1 := Upload(x, 0, Stored)] && x in Disk(s'.box)
    ensures s'.box.index == m.box.index[x := Meta(c.sizeOf(x), m.now)]
    ensures forall id :: id != x && id !in m.box.inflight ==> id !in s'.box.inflight
  {
    s' := Indexed(c, m, 0);
    IndexStep(c, m, 0);
    FirstFinished(c, m, x);
    run, ls := Then(c, s, run1, ls1, m, PutFinish(0, true, true), s');
  }

  lemma FirstFinished(c: Config, m: Sys, x: Id)
    requires m.uploads == map[0 := Upload(x, 0, Stored), 1 := Upload(x, 0, Stored)]
    ensures Indexed(c, m, 0).uploads == map[1 := Upload(x, 0, Stored)] && Indexed(c, m, 0).now == m.now
    ensures forall id :: id != x && id !in m.box.inflight ==> id !in Indexed(c, m, 0).box.inflight
  {
    IndexedFlight(c, m, 0);
    assert m.uploads - {0} == map[1 := Upload(x, 0, Stored)];
  }

  lemma IndexedFlight(c: Config, s: Sys, u: UploadId)
    requires u in s.uploads
    ensures Indexed(c, s, u).uploads == s.uploads - {u} && Indexed(c, s, u).now == s.now
    ensures forall id :: id != s.uploads[u].id && id !in s.box.inflight ==> id !in Indexed(c, s, u).box.inflight
  {
  }

  /** A loaded mailbox in which an upload of a logged id may still succeed. */
  lemma RacingUploads(c: Config, s: Sys, x: Id) returns (s': Sys, run: seq<Sys>, ls: seq<Label>)
    requires ValidConfig(c) && Init(s) && 0 < c.sizeOf(x) <= MAX_BLOB && 2 * c.sizeOf(x) <= c.quota
    ensures Leads(c, s, run, ls, s') && s'.box.loaded && s'.uploads == map[1 := Upload(x, 0, Stored)] && x in Disk(s'.box)
  {
    var s1, run1, ls1 := FirstLoad(c, s);
    RunSound(c, run1, ls1, |ls1|);
    var run2, ls2;
    s', run2, ls2 := Race(c, s1, x);
    run, ls := Join(c, s, run1, ls1, s1, run2, ls2, s');
  }

  /** The same in a box that is no longer loaded: a third blob v is past its grace, and the
      collection that finds it can neither log nor re-read. */
  lemma RacingUnloaded(c: Config, s: Sys, x: Id, v: Id) returns (s': Sys, run: seq<Sys>, ls: seq<Label>)
    requires ValidConfig(c) && Init(s) && x != v && 0 < c.sizeOf(x) <= MAX_BLOB && 0 < c.sizeOf(v) <= MAX_BLOB
    requires c.sizeOf(v) + 2 * c.sizeOf(x) <= c.quota
    ensures Leads(c, s, run, ls, s') && !s'.box.loaded && s'.uploads == map[1 := Upload(x, 0, Stored)] && x in Disk(s'.box)
  {
    var s1, run1, ls1 := FirstLoad(c, s);
    RunSound(c, run1, ls1, |ls1|);
    var s2, run2, ls2 := UploadOne(c, s1, 0, v);
    run, ls := Join(c, s, run1, ls1, s1, run2, ls2, s2);
    var s3, run3, ls3 := WaitOut(c, s2);
    run, ls := Join(c, s, run, ls, s2, run3, ls3, s3);
    var s4, run4, ls4 := Race(c, s3, x);
    run, ls := Join(c, s, run, ls, s3, run4, ls4, s4);
    s' := s4.(box := GC(c, s4.box, s4.now, TwiceFailing));
    IsVictim(c, s4.box, v, s4.now);
    FailedCollection(c, s4.box, s4.now, TwiceFailing);
    run, ls := Then(c, s, run, ls, s4, Collect(TwiceFailing), s');
    assert LogOf(s'.box) == LogOf(s4.box);
  }
}
