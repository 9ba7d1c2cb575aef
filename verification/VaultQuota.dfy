/** Quota accounting of a mailbox's vault under concurrent uploads. */
module VaultQuota {
  import opened Collections
  import opened VaultLog
  import opened Vault
  import opened VaultRuns
  import opened VaultSound

  ghost function UploadSizes(c: Config, ups: map<UploadId, Upload>): map<UploadId, nat> {
    map u | u in ups :: c.sizeOf(ups[u].id)
  }

  ghost function Used(m: Index): nat { Sum(Sizes(m)) }

  ghost predicate Counted(b: Box) { b.bytes == Used(b.index) && b.blobs == |b.index| }

  /** The counters are exact, and what a reload would count plus the reservations fits. */
  ghost predicate Accounted(c: Config, b: Box, ups: map<UploadId, Upload>) {
    && b.reserved == Sum(UploadSizes(c, ups))
    && (b.loaded ==> Counted(b))
    && Used(Disk(b)) + b.reserved <= c.quota
  }

  /** An upload that does not fit starts a collection that has something to delete but can
      neither log the deletions nor re-read the index, and would fit if they had been done. */
  ghost predicate Overcommits(c: Config, b: Box, id: Id, now: int, f: GCFaults)
    requires ValidConfig(c)
  {
    && 0 < c.sizeOf(id) <= MAX_BLOB && id !in b.index
    && b.bytes + b.reserved + c.sizeOf(id) > c.quota && now - b.lastGC >= c.gcEvery
    && !(f.readErr && b.heads != map[]) && RefsReadable(c, b.heads, b.store) && Victims(c, b, now) != {}
    && !f.appendOk && !f.reloadOk
    && Used(b.index - Victims(c, b, now)) + b.reserved + c.sizeOf(id) <= c.quota
  }

  /** A load that adopts the blobs found on disk, because there is no index file, although
      they do not fit beside the uploads in flight. */
  ghost predicate OverAdopts(c: Config, b: Box, modTime: Id -> int, f: LoadFault) {
    !f.IndexUnreadable? && Rebuilds(c, b) && Used(Scan(c, b.store, modTime)) + b.reserved > c.quota
  }

  /** The two kinds of step that lose count, told by what the step starts from. */
  ghost predicate Wasteful(c: Config, s: Sys, l: Label)
    requires ValidConfig(c)
  {
    || (l.PutReserve? && Overcommits(c, s.box, l.id, s.now, l.gcFaults))
    || (l.Load? && OverAdopts(c, s.box, l.modTime, l.loadFault))
  }

  ghost function SizesOf(c: Config, ids: set<Id>): map<Id, nat> { map id | id in ids :: c.sizeOf(id) }

  lemma SizedSizes(c: Config, m: Index)
    requires Sized(c, m)
    ensures Sizes(m) == SizesOf(c, m.Keys)
  {
    assert forall id :: id in m ==> Sizes(m)[id] == SizesOf(c, m.Keys)[id];
  }

  lemma UsedByKeys(c: Config, m: Index, m': Index)
    requires Sized(c, m) && Sized(c, m') && m'.Keys <= m.Keys
    ensures Used(m') <= Used(m)
    ensures m'.Keys == m.Keys ==> Used(m') == Used(m)
  {
    SizedSizes(c, m);
    SizedSizes(c, m');
    var gone := m.Keys - m'.Keys;
    assert m.Keys - gone == m'.Keys;
    assert SizesOf(c, m.Keys) - gone == SizesOf(c, m.Keys - gone);
    SumShrinks(SizesOf(c, m.Keys), gone);
  }

  lemma UsedAfterPut(m: Index, id: Id, meta: Meta)
    requires id !in m
    ensures Used(m[id := meta]) == Used(m) + meta.size
  {
    assert Sizes(m[id := meta]) == Sizes(m)[id := meta.size];
    SumAdd(Sizes(m), id, meta.size);
  }

  /** Steps that log no new blob and leave the reservations alone. */
  lemma Frame(c: Config, b: Box, b': Box, ups: map<UploadId, Upload>)
    requires Accounted(c, b, ups) && Sized(c, Disk(b)) && Sized(c, Disk(b'))
    requires Disk(b').Keys <= Disk(b).Keys && b'.reserved == b.reserved
    requires b'.loaded ==> Counted(b')
    ensures Accounted(c, b', ups)
  {
    UsedByKeys(c, Disk(b), Disk(b'));
  }

  lemma TouchCounted(c: Config, b: Box, ids: seq<Id>, now: int, ok: bool)
    requires LogInv(c, b, now) && b.loaded && Counted(b)
    ensures Counted(TouchIds(c, b, ids, now, ok)) && TouchIds(c, b, ids, now, ok).reserved == b.reserved
  {
    var t := TouchAll(b.index, ids, now);
    assert Sizes(t) == Sizes(b.index);
    assert t.Keys == b.index.Keys;
    assert |t| == |t.Keys| && |b.index| == |b.index.Keys|;
  }

  lemma GCCounted(c: Config, b: Box, now: int, f: GCFaults)
    requires ValidConfig(c) && LogInv(c, b, now) && b.loaded && Counted(b)
    ensures var g := GC(c, b, now, f); g.reserved == b.reserved && (g.loaded ==> Counted(g))
    ensures var g := GC(c, b, now, f); !g.loaded ==> Disk(g) == Disk(b)
  {
  }

  lemma GrantAccounted(c: Config, b: Box, now: int, ups: map<UploadId, Upload>, u: UploadId, id: Id)
    requires Accounted(c, b, ups) && LogInv(c, b, now) && b.loaded && u !in ups
    requires b.bytes + b.reserved + c.sizeOf(id) <= c.quota
    ensures Accounted(c, Grant(c, b, id), ups[u := Upload(id, b.gen, Storing)])
  {
    UploadAdded(c, ups, u, Upload(id, b.gen, Storing));
    UsedByKeys(c, Disk(b), b.index);
    assert Disk(Grant(c, b, id)) == Disk(b);
  }

  lemma UploadAdded(c: Config, ups: map<UploadId, Upload>, u: UploadId, up: Upload)
    requires u !in ups
    ensures Sum(UploadSizes(c, ups[u := up])) == Sum(UploadSizes(c, ups)) + c.sizeOf(up.id)
  {
    assert UploadSizes(c, ups[u := up]) == UploadSizes(c, ups)[u := c.sizeOf(up.id)];
    SumAdd(UploadSizes(c, ups), u, c.sizeOf(up.id));
  }

  lemma TouchAccounted(c: Config, b: Box, now: int, ups: map<UploadId, Upload>, ids: seq<Id>, ok: bool)
    requires Accounted(c, b, ups) && LogInv(c, b, now) && b.loaded
    ensures Accounted(c, TouchIds(c, b, ids, now, ok), ups)
  {
    TouchKeeps(c, b, ids, now, ok);
    TouchCounted(c, b, ids, now, ok);
    Frame(c, b, TouchIds(c, b, ids, now, ok), ups);
  }

  lemma GCAccounted(c: Config, b: Box, now: int, ups: map<UploadId, Upload>, f: GCFaults)
    requires ValidConfig(c) && Accounted(c, b, ups) && LogInv(c, b, now) && b.loaded
    ensures Accounted(c, GC(c, b, now, f), ups)
  {
    GCKeeps(c, b, now, f);
    GCCounted(c, b, now, f);
    Frame(c, b, GC(c, b, now, f), ups);
  }

  /** The guard is exact: those are the grants that leave the box unloaded. */
  lemma OvercommitsExactly(c: Config, b: Box, id: Id, now: int, touchOk: bool, f: GCFaults)
    requires ValidConfig(c) && b.loaded
    ensures var (b', reply) := Reserve(c, b, id, now, touchOk, f); reply.Granted? && !b'.loaded <==> Overcommits(c, b, id, now, f)
  {
    var n := c.sizeOf(id);
    if 0 < n <= MAX_BLOB && id !in b.index && b.bytes + b.reserved + n > c.quota {
      var (g, fits) := Reclaim(c, b, n, now, f);
      ReserveCollects(c, b, id, now, touchOk, f, g, fits);
      if now - b.lastGC >= c.gcEvery { FailedCollection(c, b, now, f); }
    } else {
      Unforced(c, b, id, now, touchOk, f);
    }
  }

  lemma Unforced(c: Config, b: Box, id: Id, now: int, touchOk: bool, f: GCFaults)
    requires ValidConfig(c) && b.loaded && !(0 < c.sizeOf(id) <= MAX_BLOB && id !in b.index && b.bytes + b.reserved + c.sizeOf(id) > c.quota)
    ensures Reserve(c, b, id, now, touchOk, f).0.loaded
  {
  }

  /** When a collection leaves the box unloaded, and what is left then. */
  lemma FailedCollection(c: Config, b: Box, now: int, f: GCFaults)
    requires ValidConfig(c) && b.loaded
    ensures var g := GC(c, b, now, f); var victims := Victims(c, b, now);
            && (!g.loaded <==> !f.appendOk && !f.reloadOk && !(f.readErr && b.heads != map[]) && RefsReadable(c, b.heads, b.store) && victims != {})
            && (!g.loaded ==> g.log == b.log && g.torn == b.torn && g.reserved == b.reserved && g.bytes == Used(b.index - victims))
  {
  }

  lemma ReserveAccounted(c: Config, s: Sys, u: UploadId, id: Id, touchOk: bool, f: GCFaults)
    requires ValidConfig(c) && Sound(c, s) && Accounted(c, s.box, s.uploads) && s.box.loaded && u !in s.uploads
    ensures var (b, reply) := Reserve(c, s.box, id, s.now, touchOk, f);
            && (!reply.Granted? ==> Accounted(c, b, s.uploads))
            && (reply.Granted? && b.loaded ==> Accounted(c, b, s.uploads[u := Upload(id, reply.gen, Storing)]))
  {
    var b, g := s.box, GC(c, s.box, s.now, f);
    TouchAccounted(c, b, s.now, s.uploads, [id], touchOk);
    GCAccounted(c, b, s.now, s.uploads, f);
    GCKeeps(c, b, s.now, f);
    if b.bytes + b.reserved + c.sizeOf(id) <= c.quota { GrantAccounted(c, b, s.now, s.uploads, u, id); }
    if g.loaded && g.bytes + g.reserved + c.sizeOf(id) <= c.quota { GrantAccounted(c, g, s.now, s.uploads, u, id); }
    ReserveCases(c, b, id, s.now, touchOk, f);
  }

  /** An overcommitting grant leaves more logged and reserved than the quota. */
  lemma OvercommitUnaccounted(c: Config, b: Box, now: int, ups: map<UploadId, Upload>, ups': map<UploadId, Upload>, id: Id, touchOk: bool, f: GCFaults)
    requires ValidConfig(c) && LogInv(c, b, now) && b.loaded && Accounted(c, b, ups) && Overcommits(c, b, id, now, f)
    ensures var b' := Reserve(c, b, id, now, touchOk, f).0;
            b'.log == b.log && b'.torn == b.torn && b'.reserved == b.reserved + c.sizeOf(id) && !Accounted(c, b', ups')
  {
    var (g, fits) := Reclaim(c, b, c.sizeOf(id), now, f);
    ReserveCollects(c, b, id, now, touchOk, f, g, fits);
    FailedCollection(c, b, now, f);
    UsedByKeys(c, Disk(b), b.index);
    var b' := Reserve(c, b, id, now, touchOk, f).0;
    assert LogOf(b') == LogOf(b);
  }

  lemma ReleaseAccounted(c: Config, b: Box, ups: map<UploadId, Upload>, u: UploadId)
    requires Accounted(c, b, ups) && u in ups
    ensures var r := Release(c, b, ups[u].id);
            Accounted(c, r, ups - {u}) && Used(Disk(r)) + r.reserved + c.sizeOf(ups[u].id) <= c.quota
  {
    SumSplit(UploadSizes(c, ups), u);
    assert UploadSizes(c, ups) - {u} == UploadSizes(c, ups - {u});
    assert Disk(Release(c, b, ups[u].id)) == Disk(b);
  }

  lemma RecordAccounted(c: Config, b: Box, now: int, ups: map<UploadId, Upload>, id: Id)
    requires Accounted(c, b, ups) && LogInv(c, b, now) && b.loaded && id !in b.index && c.sizeOf(id) > 0
    requires Used(Disk(b)) + b.reserved + c.sizeOf(id) <= c.quota
    ensures var kept := Record(c, b, id, now);
            Accounted(c, kept.(bytes := kept.bytes + c.sizeOf(id), blobs := kept.blobs + 1), ups)
  {
    var kept := Record(c, b, id, now);
    RecordKeeps(c, b, id, now);
    UsedAfterPut(b.index, id, Meta(c.sizeOf(id), now));
    UsedByKeys(c, Disk(b), b.index);
    UsedByKeys(c, Disk(kept), kept.index);
    var b' := kept.(bytes := kept.bytes + c.sizeOf(id), blobs := kept.blobs + 1);
    assert Disk(b') == Disk(kept);
  }

  /** Accounting looks at the index, not at the store. */
  lemma StoreUncounted(c: Config, b: Box, ups: map<UploadId, Upload>, store: set<Id>)
    requires Accounted(c, b, ups)
    ensures Accounted(c, b.(store := store), ups)
  {
    assert LogOf(b.(store := store)) == LogOf(b);
  }

  lemma FinishAccounted(c: Config, s: Sys, u: UploadId, appendOk: bool, delOk: bool)
    requires ValidConfig(c) && Sound(c, s) && Accounted(c, s.box, s.uploads) && u in s.uploads
    ensures var up := s.uploads[u];
            Accounted(c, Finish(c, s.box, up.id, up.gen, up.phase.Stored?, s.now, appendOk, delOk).0, s.uploads - {u})
  {
    var up := s.uploads[u];
    var r := Release(c, s.box, up.id);
    ReleaseAccounted(c, s.box, s.uploads, u);
    ReleaseKeepsBox(c, s.box, s.now, up.id);
    FinishCases(c, s.box, up.id, up.gen, up.phase.Stored?, s.now, appendOk, delOk);
    var b' := Finish(c, s.box, up.id, up.gen, up.phase.Stored?, s.now, appendOk, delOk).0;
    if b' == r {
    } else if b' == r.(store := r.store - {up.id}) {
      StoreUncounted(c, r, s.uploads - {u}, r.store - {up.id});
    } else if b' == TouchIds(c, r, [up.id], s.now, appendOk) {
      TouchAccounted(c, r, s.now, s.uploads - {u}, [up.id], appendOk);
    } else {
      RecordAccounted(c, r, s.now, s.uploads - {u}, up.id);
    }
  }

  /** Adopting what lies on disk keeps the accounting just when the blobs found there fit
      beside the uploads in flight, whether or not the lanes can be read afterwards. */
  lemma AdoptionFits(c: Config, b: Box, ups: map<UploadId, Upload>, modTime: Id -> int, f: LoadFault)
    requires Accounted(c, b, ups) && !b.loaded && Rebuilds(c, b) && !f.IndexUnreadable?
    ensures Accounted(c, LoadBox(c, b, modTime, f), ups) <==> !OverAdopts(c, b, modTime, f)
  {
    var b1 := b.(index := Scan(c, b.store, modTime));
    CompactDisk(b1);
    var b' := LoadBox(c, b, modTime, f);
    assert LogOf(b') == LogOf(CompactBox(b1));
    assert b'.index == b1.index;
  }

  lemma LoadAccounted(c: Config, b: Box, now: int, ups: map<UploadId, Upload>, modTime: Id -> int, f: LoadFault)
    requires LogInv(c, b, now) && Accounted(c, b, ups) && !b.loaded && (forall id :: id in b.store ==> modTime(id) <= now)
    ensures Accounted(c, LoadBox(c, b, modTime, f), ups) <==> !OverAdopts(c, b, modTime, f)
  {
    if !f.IndexUnreadable? && Rebuilds(c, b) {
      AdoptionFits(c, b, ups, modTime, f);
    } else {
      LoadKeeps(c, b, now, modTime, f);
      LoadIndexKeeps(c, b, now, modTime);
      Frame(c, b, LoadBox(c, b, modTime, f), ups);
    }
  }

  lemma PurgeAccounted(c: Config, b: Box, now: int, ups: map<UploadId, Upload>, e: PurgeEnd)
    requires LogInv(c, b, now) && Accounted(c, b, ups) && b.loaded
    ensures Accounted(c, Purge(c, b, e), ups)
  {
    if !(HasDir(c, b) && e.IndexStays?) {
      PurgeEmpties(c, b, e);
      assert Sizes(map[]) == map[];
      Frame(c, b, Purge(c, b, e), ups);
    }
  }

  lemma CrashAccounted(c: Config, b: Box, ups: map<UploadId, Upload>, tail: bool)
    requires Accounted(c, b, ups)
    ensures Accounted(c, CrashBox(b, tail), map[])
  {
  }

  lemma StorePutAccounted(c: Config, s: Sys, u: UploadId, landed: bool, ok: bool, s': Sys)
    requires ValidConfig(c) && Accounted(c, s.box, s.uploads) && Step(c, s, StorePut(u, landed, ok), s')
    ensures Accounted(c, s'.box, s'.uploads)
  {
    assert UploadSizes(c, s'.uploads) == UploadSizes(c, s.uploads);
    assert LogOf(s'.box) == LogOf(s.box);
  }

  lemma ReserveStepAccounted(c: Config, s: Sys, u: UploadId, id: Id, touchOk: bool, f: GCFaults, s': Sys)
    requires ValidConfig(c) && Sound(c, s) && Accounted(c, s.box, s.uploads) && Step(c, s, PutReserve(u, id, touchOk, f), s')
    ensures Accounted(c, s'.box, s'.uploads) <==> !Overcommits(c, s.box, id, s.now, f)
  {
    OvercommitsExactly(c, s.box, id, s.now, touchOk, f);
    if Overcommits(c, s.box, id, s.now, f) {
      OvercommitUnaccounted(c, s.box, s.now, s.uploads, s'.uploads, id, touchOk, f);
    } else {
      ReserveAccounted(c, s, u, id, touchOk, f);
    }
  }

  /** One step keeps the accounting if and only if it is not wasteful. */
  lemma StepAccounted(c: Config, s: Sys, l: Label, s': Sys)
    requires ValidConfig(c) && Sound(c, s) && Accounted(c, s.box, s.uploads) && Step(c, s, l, s')
    ensures Accounted(c, s'.box, s'.uploads) <==> !Wasteful(c, s, l)
  {
    match l {
      case Tick(dt) =>
      case Load(m, f) => LoadAccounted(c, s.box, s.now, s.uploads, m, f);
      case PutReserve(u, id, ok, f) => ReserveStepAccounted(c, s, u, id, ok, f, s');
      case StorePut(u, landed, ok) => StorePutAccounted(c, s, u, landed, ok, s');
      case PutFinish(u, a, d) => FinishAccounted(c, s, u, a, d);
      case Confirm(ids, ok) => TouchAccounted(c, s.box, s.now, s.uploads, Present(s.box.index, ids), ok);
      case Collect(f) => GCAccounted(c, s.box, s.now, s.uploads, f);
      case SetHead(_, _, _, _, _, _) => HeadStepSame(c, s, l, s');
      case DropHead(_, _, _) => HeadStepSame(c, s, l, s');
      case PurgeAll(e) => PurgeAccounted(c, s.box, s.now, s.uploads, e);
      case Crash(tail) => CrashAccounted(c, s.box, s.uploads, tail);
    }
  }

  lemma InitAccounted(c: Config, s: Sys)
    requires Init(s)
    ensures Accounted(c, s.box, s.uploads)
  {
    assert UploadSizes(c, map[]) == map[] && Sizes(map[]) == map[];
  }

  ghost predicate WastefulAt(c: Config, run: seq<Sys>, ls: seq<Label>, k: nat)
    requires ValidConfig(c) && k < |ls| && |run| == |ls| + 1
  {
    Wasteful(c, run[k], ls[k])
  }

  /** No step before n is wasteful. */
  ghost predicate Thrifty(c: Config, run: seq<Sys>, ls: seq<Label>, n: nat)
    requires ValidConfig(c) && n < |run| && |run| == |ls| + 1
  {
    forall k :: 0 <= k < n ==> !WastefulAt(c, run, ls, k)
  }

  lemma {:induction false} RunAccounted(c: Config, run: seq<Sys>, ls: seq<Label>, n: nat)
    requires ValidConfig(c) && Behaves(c, run, ls) && Init(run[0]) && n < |run| && Thrifty(c, run, ls, n)
    ensures Accounted(c, run[n].box, run[n].uploads)
  {
    if n == 0 {
      InitAccounted(c, run[0]);
    } else {
      RunAccounted(c, run, ls, n - 1);
      AccountedNext(c, run, ls, n - 1);
    }
  }

  lemma AccountedNext(c: Config, run: seq<Sys>, ls: seq<Label>, k: nat)
    requires ValidConfig(c) && Behaves(c, run, ls) && Init(run[0]) && k < |ls| && Accounted(c, run[k].box, run[k].uploads)
    ensures Accounted(c, run[k + 1].box, run[k + 1].uploads) <==> !WastefulAt(c, run, ls, k)
  {
    RunSound(c, run, ls, k);
    assert StepAt(c, run, ls, k);
    StepAccounted(c, run[k], ls[k], run[k + 1]);
  }

  /** Whatever the interleaving of uploads that succeed, fail, lose to an upload of the same
      id or are overtaken by a purge: until a wasteful step the counters are exact and the
      quota is never exceeded. */
  lemma QuotaKept(c: Config, run: seq<Sys>, ls: seq<Label>, n: nat)
    requires ValidConfig(c) && Behaves(c, run, ls) && Init(run[0]) && n < |run| && Thrifty(c, run, ls, n)
    ensures var b := run[n].box;
            && b.reserved == Sum(UploadSizes(c, run[n].uploads))
            && (b.loaded ==> b.bytes == Sum(Sizes(b.index)) && b.blobs == |b.index| && b.bytes + b.reserved <= c.quota)
  {
    RunAccounted(c, run, ls, n);
    RunSound(c, run, ls, n);
    if run[n].box.loaded { UsedByKeys(c, Disk(run[n].box), run[n].box.index); }
  }

  ghost predicate AccountedAt(c: Config, run: seq<Sys>, k: nat)
    requires k < |run|
  {
    Accounted(c, run[k].box, run[k].uploads)
  }

  /** And the condition is exact: the accounting holds at every point up to n if and only if
      no step before n is wasteful. */
  lemma QuotaExact(c: Config, run: seq<Sys>, ls: seq<Label>, n: nat)
    requires ValidConfig(c) && Behaves(c, run, ls) && Init(run[0]) && n < |run|
    ensures (forall k :: 0 <= k <= n ==> AccountedAt(c, run, k)) <==> Thrifty(c, run, ls, n)
  {
    if Thrifty(c, run, ls, n) {
      forall k | 0 <= k <= n ensures AccountedAt(c, run, k) { RunAccounted(c, run, ls, k); }
    }
    if forall k :: 0 <= k <= n ==> AccountedAt(c, run, k) {
      forall k | 0 <= k < n ensures !WastefulAt(c, run, ls, k) {
        assert AccountedAt(c, run, k) && AccountedAt(c, run, k + 1);
        AccountedNext(c, run, ls, k);
      }
    }
  }

  /** What a client sees of an overcommit: the next load counts more than the quota. */
  lemma OvercommitOverruns(c: Config, b: Box, now: int, ups: map<UploadId, Upload>, id: Id, touchOk: bool, f: GCFaults, modTime: Id -> int)
    requires ValidConfig(c) && LogInv(c, b, now) && b.loaded && Accounted(c, b, ups) && Overcommits(c, b, id, now, f)
    ensures var b' := LoadBox(c, Reserve(c, b, id, now, touchOk, f).0, modTime, Clean);
            b'.loaded && b'.bytes + b'.reserved > c.quota
  {
    var b1 := Reserve(c, b, id, now, touchOk, f).0;
    OvercommitUnaccounted(c, b, now, ups, ups, id, touchOk, f);
    UsedByKeys(c, Disk(b), b.index);
    LoggedBlobs(b);
    Reloaded(c, b, b1, modTime);
  }

  /** A loaded box with blobs has a log. */
  lemma LoggedBlobs(b: Box)
    requires b.index != map[] && b.index.Keys <= Disk(b).Keys
    ensures b.log.Some?
  {
    assert b.log.None? ==> b.index.Keys == {};
    assert b.index.Keys == {} ==> b.index == map[];
  }

  lemma Reloaded(c: Config, b: Box, b1: Box, modTime: Id -> int)
    requires b.log.Some? && !b.torn && b1.log == b.log && !b1.torn
    ensures var b' := LoadBox(c, b1, modTime, Clean); b'.loaded && b'.bytes == Used(Disk(b)) && b'.reserved == b1.reserved
  {
  }
}
