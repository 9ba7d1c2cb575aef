/** What each request of the vault achieves: for every box, exactly when it succeeds and what
    it then changes, written on the state and the request alone. */
module VaultLaws {
  import opened Collections
  import opened VaultLog
  import opened Vault
  import opened VaultRuns
  import opened VaultSound
  import opened VaultQuota
  import opened VaultGrace

  /* ---- lane heads ---- */

  /** The version a lane is at; a lane that does not exist is at 0. */
  ghost predicate IsAt(b: Box, lane: Lane, v: nat) { if lane in b.heads then b.heads[lane].cur.version == v else v == 0 }

  /** Every id that the refs blob names is indexed. */
  ghost predicate NamesIndexed(c: Config, refs: Id, index: Index) {
    c.refsOf(refs).Some? && forall i :: 0 <= i < |c.refsOf(refs).value| ==> c.refsOf(refs).value[i] in index
  }

  lemma NamedMissing(c: Config, refs: Id, index: Index)
    requires c.refsOf(refs).Some?
    ensures (set id | id in RefIds(c, refs) && id !in index) == {} <==> NamesIndexed(c, refs, index)
  {
    var ids, missing := c.refsOf(refs).value, set id | id in RefIds(c, refs) && id !in index;
    if missing == {} {
      forall i | 0 <= i < |ids| ensures ids[i] in index { assert ids[i] in RefIds(c, refs) && ids[i] !in missing; }
    }
    if NamesIndexed(c, refs, index) {
      forall id | id in RefIds(c, refs) ensures id in index {}
    }
  }

  /** A head update is accepted if and only if it names the lane's current version, there is
      room for the lane, everything the version needs is indexed, the refs blob can be read as
      a list, and the record is written; then the lane is at the next version with the given
      root and refs, in memory and on disk, and nothing else changed. */
  lemma PutHeadAccepts(c: Config, b: Box, lane: Lane, prev: nat, root: Id, refs: Id, readErr: bool, writeOk: bool)
    requires ValidConfig(c)
    ensures var (b', reply) := PutHead(c, b, lane, prev, root, refs, readErr, writeOk);
            && (reply.Done? <==>
                  && IsAt(b, lane, prev) && (lane in b.heads || |b.heads| < 64)
                  && root in b.index && refs in b.index && NamesIndexed(c, refs, b.index)
                  && refs in b.store && !readErr && writeOk)
            && (reply.Done? ==>
                  && lane in b'.heads && b'.heads[lane].cur == Rev(prev + 1, root, refs)
                  && b' == b.(heads := b.heads[lane := b'.heads[lane]], files := b.files[lane := b'.heads[lane]]))
            && (!reply.Done? ==> b' == b)
  {
    if c.refsOf(refs).Some? { NamedMissing(c, refs, b.index); }
  }

  /** Why a head update was refused. */
  lemma PutHeadRefuses(c: Config, b: Box, lane: Lane, prev: nat, root: Id, refs: Id, readErr: bool, writeOk: bool)
    requires ValidConfig(c)
    ensures var reply := PutHead(c, b, lane, prev, root, refs, readErr, writeOk).1;
            var room, both := lane in b.heads || |b.heads| < 64, root in b.index && refs in b.index;
            && (reply.Conflict? <==> !IsAt(b, lane, prev)) && (reply.Conflict? ==> IsAt(b, lane, reply.version))
            && (reply.TooManyLanes? <==> IsAt(b, lane, prev) && !room)
            && (reply.RefsUnreadable? <==> IsAt(b, lane, prev) && room && both && (readErr || refs !in b.store))
            && (reply.BadRefs? <==> IsAt(b, lane, prev) && room && both && !readErr && refs in b.store && c.refsOf(refs).None?)
            && (reply.MissingBlobs? <==>
                  && IsAt(b, lane, prev) && room
                  && (!both || (!readErr && refs in b.store && c.refsOf(refs).Some? && !NamesIndexed(c, refs, b.index))))
            && (reply.WriteFailed? <==> IsAt(b, lane, prev) && room && both && !readErr && refs in b.store && NamesIndexed(c, refs, b.index) && !writeOk)
  {
    if c.refsOf(refs).Some? { NamedMissing(c, refs, b.index); }
  }

  /** The ids a refusal reports are exactly those asked for that are not indexed. */
  lemma MissingReported(c: Config, b: Box, lane: Lane, prev: nat, root: Id, refs: Id, readErr: bool, writeOk: bool, id: Id)
    requires ValidConfig(c) && PutHead(c, b, lane, prev, root, refs, readErr, writeOk).1.MissingBlobs?
    ensures id in PutHead(c, b, lane, prev, root, refs, readErr, writeOk).1.ids <==>
              id !in b.index && if root in b.index && refs in b.index then id in RefIds(c, refs) else id == root || id == refs
  {
  }

  /** A lane is dropped if and only if it exists at the named version and its file goes. */
  lemma DeleteHeadDrops(b: Box, lane: Lane, prev: nat, removeOk: bool)
    ensures var (b', reply) := DeleteHead(b, lane, prev, removeOk);
            && (reply.Done? <==> lane in b.heads && b.heads[lane].cur.version == prev && removeOk)
            && (reply.NoLane? <==> lane !in b.heads)
            && (reply.Conflict? <==> lane in b.heads && b.heads[lane].cur.version != prev)
            && (reply.Conflict? ==> reply.version == b.heads[lane].cur.version)
            && (reply.WriteFailed? <==> lane in b.heads && b.heads[lane].cur.version == prev && !removeOk)
            && (if reply.Done? then b' == b.(heads := b.heads - {lane}, files := b.files - {lane}) else b' == b)
  {
  }

  /* ---- collections and purges ---- */

  /** The versions a lane retains: the current one and the newest keep - 1 before it. */
  ghost predicate Retained(c: Config, h: Head, r: Rev) {
    r == h.cur || exists i :: 0 <= i < |h.history| && i < c.keep - 1 && h.history[i] == r
  }

  lemma RetainedAreRevs(c: Config, h: Head, r: Rev)
    requires ValidConfig(c)
    ensures r in RevsOf(c, h) <==> Retained(c, h, r)
  {
    var revs := RevsOf(c, h);
    assert revs[0] == h.cur;
    forall i | 0 <= i < |h.history| && i < c.keep - 1 ensures revs[i + 1] == h.history[i] {}
  }

  ghost predicate Needs(c: Config, r: Rev, id: Id) {
    id == r.root || id == r.refs || (c.refsOf(r.refs).Some? && id in c.refsOf(r.refs).value)
  }

  /** Nothing keeps the blob: no retained version needs it, its grace is over, and nobody is
      uploading it. */
  ghost predicate Doomed(c: Config, b: Box, now: int, id: Id)
    requires ValidConfig(c)
  {
    && id in b.index && b.index[id].at < now - c.grace && (id in b.inflight ==> b.inflight[id] == 0)
    && forall lane, r :: lane in b.heads && Retained(c, b.heads[lane], r) ==> !Needs(c, r, id)
  }

  lemma DoomedAreVictims(c: Config, b: Box, now: int, id: Id)
    requires ValidConfig(c)
    ensures id in Victims(c, b, now) <==> Doomed(c, b, now, id)
  {
    if Doomed(c, b, now, id) { Unneeded(c, b.heads, id); }
    if id in Victims(c, b, now) {
      forall lane, r | lane in b.heads && Retained(c, b.heads[lane], r) ensures !Needs(c, r, id) {
        RetainedAreRevs(c, b.heads[lane], r);
        Needed(c, b.heads, lane, r, id);
      }
    }
  }

  lemma Needed(c: Config, heads: map<Lane, Head>, lane: Lane, r: Rev, id: Id)
    requires ValidConfig(c) && lane in heads && r in RevsOf(c, heads[lane]) && id !in Live(c, heads)
    ensures !Needs(c, r, id)
  {
    assert id !in HeadIds(c, heads[lane]);
    assert id !in RevIds(c, r);
    if c.refsOf(r.refs).Some? {
      var ids := c.refsOf(r.refs).value;
      forall i | 0 <= i < |ids| ensures ids[i] != id { assert ids[i] in RefIds(c, r.refs); }
    }
  }

  lemma Unneeded(c: Config, heads: map<Lane, Head>, id: Id)
    requires ValidConfig(c)
    requires forall lane, r :: lane in heads && Retained(c, heads[lane], r) ==> !Needs(c, r, id)
    ensures id !in Live(c, heads)
  {
    forall lane, r | lane in heads && r in RevsOf(c, heads[lane]) ensures id !in RevIds(c, r) {
      RetainedAreRevs(c, heads[lane], r);
      assert !Needs(c, r, id);
    }
    forall lane | lane in heads ensures id !in HeadIds(c, heads[lane]) {}
  }

  /** The surroundings let a collection do its work. */
  ghost predicate Works(c: Config, b: Box, f: GCFaults)
    requires ValidConfig(c)
  {
    && !f.readErr && f.appendOk
    && forall lane, r :: lane in b.heads && Retained(c, b.heads[lane], r) ==> r.refs in b.store && c.refsOf(r.refs).Some?
  }

  lemma WorksReads(c: Config, b: Box, f: GCFaults)
    requires ValidConfig(c) && Works(c, b, f)
    ensures RefsReadable(c, b.heads, b.store)
  {
    forall lane, r | lane in b.heads && r in RevsOf(c, b.heads[lane]) ensures r.refs in b.store && c.refsOf(r.refs).Some? {
      RetainedAreRevs(c, b.heads[lane], r);
    }
  }

  /** A collection that can read the lanes and log its deletions forgets exactly the doomed
      blobs, frees the bytes of each whose delete succeeds, touches no other bytes, and counts
      what is left. */
  lemma CollectionFrees(c: Config, b: Box, now: int, f: GCFaults, id: Id)
    requires ValidConfig(c) && LogInv(c, b, now) && b.loaded && Counted(b) && Works(c, b, f)
    ensures var g := GC(c, b, now, f);
            && g.loaded && g.bytes == Used(g.index) && g.reserved == b.reserved && g.lastGC == now
            && (id in g.index <==> id in b.index && !Doomed(c, b, now, id)) && (id in g.index ==> g.index[id] == b.index[id])
            && (id in Disk(g) <==> id in b.index && !Doomed(c, b, now, id))
            && (id in g.store <==> id in b.store && !(Doomed(c, b, now, id) && id !in f.undeleted))
  {
    var b0, victims := b.(lastGC := now), Victims(c, b, now);
    DoomedAreVictims(c, b, now, id);
    WorksReads(c, b, f);
    SweptKeeps(c, b0, now, victims, f);
    SweptFacts(c, b0, victims, f);
    assert id in victims ==> victims != {};
    assert b.index.Keys == Disk(b).Keys && Disk(b0) == Disk(b);
    assert id in Disk(Swept(c, b0, victims, f)).Keys <==> id in Swept(c, b0, victims, f).index.Keys;
  }

  lemma SweptFacts(c: Config, b: Box, gone: set<Id>, f: GCFaults)
    ensures var g := Swept(c, b, gone, f);
            && g.index == b.index - gone && g.store == b.store - (gone - f.undeleted) && g.bytes == Used(g.index)
            && g.reserved == b.reserved && g.lastGC == b.lastGC && g.loaded == b.loaded
  {
    var b1 := AppendRec(c, b.(index := b.index - gone), Del(Sorted(gone)), true);
    assert b1.index == b.index - gone && b1.store == b.store && b1.reserved == b.reserved && b1.lastGC == b.lastGC && b1.loaded == b.loaded;
  }

  /** A purge that completes leaves nothing: no lane, no index entry, no log, no bytes; only
      the reservations of uploads in flight stay, and a later generation keeps them out. */
  lemma PurgeLeavesNothing(c: Config, b: Box)
    ensures var b' := Purge(c, b, Completed);
            && b'.index == map[] && b'.heads == map[] && b'.files == map[] && b'.store == {} && Disk(b') == map[]
            && b'.bytes == 0 && b'.blobs == 0 && b'.log == None
            && b'.loaded == b.loaded && b'.gen == b.gen + 1 && b'.reserved == b.reserved && b'.inflight == b.inflight
  {
    assert Sizes(map[]) == map[];
  }

  /** A reload after a crash gives back exactly what was logged, and the lanes. */
  lemma ReloadRestores(c: Config, b: Box, tail: bool, modTime: Id -> int)
    requires b.log.Some?
    ensures var b' := LoadBox(c, CrashBox(b, tail), modTime, Clean);
            && b'.loaded && b'.index == Disk(b) && Disk(b') == Disk(b) && b'.heads == b.files && b'.files == b.files
            && b'.store == b.store && b'.bytes == Used(Disk(b)) && !b'.torn
  {
    var crashed := CrashBox(b, tail);
    assert LogOf(crashed) == LogOf(b);
    CompactDisk(crashed.(index := Disk(b), lines := |LogOf(b)|));
  }

  /** Without an index file a disk store is adopted: every blob in it, with its size and file
      time; where there is nothing to adopt the index is empty. */
  lemma RebuildAdopts(c: Config, b: Box, modTime: Id -> int, id: Id)
    requires b.log.None?
    ensures var b' := LoadBox(c, b, modTime, Clean); var adopted := c.onDisk && id in b.store && c.sizeOf(id) > 0;
            && b'.loaded && (id in b'.index <==> adopted) && (adopted ==> b'.index[id] == Meta(c.sizeOf(id), modTime(id)))
            && Disk(b') == b'.index
  {
    CompactDisk(b.(index := Scan(c, b.store, modTime)));
    assert Rebuilds(c, b) ==> LogOf(LoadBox(c, b, modTime, Clean)) == LogOf(CompactBox(b.(index := Scan(c, b.store, modTime))));
    assert id in b.store ==> b.store != {};
  }

  /* ---- uploads ---- */

  /** An upload that fits is granted, whatever else; one that does not fit is granted after a
      collection that works if and only if it is due and frees enough. */
  lemma ReserveAdmits(c: Config, b: Box, id: Id, now: int, touchOk: bool, f: GCFaults)
    requires ValidConfig(c) && b.loaded
    ensures var (b', reply) := Reserve(c, b, id, now, touchOk, f); var n := c.sizeOf(id);
            && (reply.BadSize? <==> n == 0 || n > MAX_BLOB)
            && (reply.Existed? <==> 0 < n <= MAX_BLOB && id in b.index)
            && (reply.Granted? || reply.QuotaExceeded? <==> 0 < n <= MAX_BLOB && id !in b.index)
            && (0 < n <= MAX_BLOB && id !in b.index && b.bytes + b.reserved + n <= c.quota ==>
                  reply == Granted(b.gen) && b' == b.(reserved := b.reserved + n, inflight := b'.inflight)
                  && b'.inflight == b.inflight[id := 1 + if id in b.inflight then b.inflight[id] else 0])
            && (0 < n <= MAX_BLOB && id !in b.index && b.bytes + b.reserved + n > c.quota ==>
                  (reply.Granted? <==> now - b.lastGC >= c.gcEvery && GC(c, b, now, f).bytes + GC(c, b, now, f).reserved + n <= c.quota))
  {
    var n := c.sizeOf(id);
    if 0 < n <= MAX_BLOB && id !in b.index && b.bytes + b.reserved + n > c.quota {
      var (g, fits) := Reclaim(c, b, n, now, f);
      ReserveCollects(c, b, id, now, touchOk, f, g, fits);
    } else {
      ReserveWithout(c, b, id, now, touchOk, f);
    }
  }

  lemma ReserveWithout(c: Config, b: Box, id: Id, now: int, touchOk: bool, f: GCFaults)
    requires ValidConfig(c) && !(0 < c.sizeOf(id) <= MAX_BLOB && id !in b.index && b.bytes + b.reserved + c.sizeOf(id) > c.quota)
    ensures var n := c.sizeOf(id);
            Reserve(c, b, id, now, touchOk, f) ==
              if n == 0 || n > MAX_BLOB then (b, BadSize)
              else if id in b.index then (TouchIds(c, b, [id], now, touchOk), Existed)
              else (Grant(c, b, id), Granted(b.gen))
  {
  }

  /** How an upload ends, for every state it may come back to. A recorded one is indexed at
      the current time with its size, in memory and in the log. */
  lemma FinishEnds(c: Config, b: Box, id: Id, gen: nat, stored: bool, now: int, appendOk: bool, delOk: bool)
    requires LogInv(c, b, now) && c.sizeOf(id) > 0
    ensures var (b', reply) := Finish(c, b, id, gen, stored, now, appendOk, delOk);
            && (reply.StoreFailed? <==> !stored)
            && (reply.Purged? <==> stored && (b.gen != gen || !b.loaded))
            && (reply.Existed? <==> stored && b.gen == gen && b.loaded && id in b.index)
            && (reply.NotRecorded? <==> stored && b.gen == gen && b.loaded && id !in b.index && !appendOk)
            && (reply.Recorded? <==> stored && b.gen == gen && b.loaded && id !in b.index && appendOk)
            && (reply.Recorded? ==> b'.index == b.index[id := Meta(c.sizeOf(id), now)] && id in Disk(b') && b'.bytes == b.bytes + c.sizeOf(id))
            && (reply.StoreFailed? || reply.Purged? || reply.NotRecorded? ==> b'.index == b.index && Disk(b') == Disk(b))
            && b'.reserved == b.reserved - c.sizeOf(id)
  {
    var r := Release(c, b, id);
    ReleaseKeepsBox(c, b, now, id);
    var b' := Finish(c, b, id, gen, stored, now, appendOk, delOk).0;
    if stored && b.gen == gen && b.loaded && id !in b.index && appendOk {
      RecordKeeps(c, r, id, now);
      var kept := Record(c, r, id, now);
      assert LogOf(b') == LogOf(kept) && id in kept.index.Keys;
    } else if !(stored && b.gen == gen && b.loaded && id in b.index) {
      assert LogOf(b') == LogOf(b);
    }
  }

  /** An upload that a purge overtook takes its bytes away again, if the delete succeeds and
      the id is neither indexed nor being uploaded by anybody else; no other end of an upload
      touches the store. */
  lemma FinishCleans(c: Config, b: Box, id: Id, gen: nat, stored: bool, now: int, appendOk: bool, delOk: bool)
    requires id in b.inflight && b.inflight[id] >= 1
    ensures var overtaken := stored && (b.gen != gen || !b.loaded);
            Finish(c, b, id, gen, stored, now, appendOk, delOk).0.store
              == if overtaken && id !in b.index && b.inflight[id] == 1 && delOk then b.store - {id} else b.store
  {
    ReleasesOne(c, b, id, id);
    LoggingKeepsBytes(c, Release(c, b, id), id, now, appendOk);
  }

  /** However an upload ends, it is one less in flight, and the others stay. */
  lemma FinishCountsDown(c: Config, b: Box, id: Id, gen: nat, stored: bool, now: int, appendOk: bool, delOk: bool, x: Id)
    requires id in b.inflight && b.inflight[id] >= 1
    ensures Inflight(Finish(c, b, id, gen, stored, now, appendOk, delOk).0, x) == Inflight(b, x) - (if x == id then 1 else 0)
  {
    ReleasesOne(c, b, id, x);
    LoggingKeepsBytes(c, Release(c, b, id), id, now, appendOk);
  }

  lemma ReleasesOne(c: Config, b: Box, id: Id, x: Id)
    requires id in b.inflight && b.inflight[id] >= 1
    ensures var r := Release(c, b, id); r.store == b.store && Inflight(r, x) == Inflight(b, x) - (if x == id then 1 else 0)
  {
  }

  lemma LoggingKeepsBytes(c: Config, b: Box, id: Id, now: int, ok: bool)
    ensures var t := TouchIds(c, b, [id], now, ok); t.store == b.store && t.inflight == b.inflight
    ensures var t := Record(c, b, id, now); t.store == b.store && t.inflight == b.inflight
  {
  }

  /* ---- queries and the log ---- */

  /** The answer to a query lists the missing ids in the order asked, each as often as asked. */
  lemma {:induction false} MissingInOrder(m: Index, a: seq<Id>, b: seq<Id>, id: Id)
    ensures Missing(m, a + b) == Missing(m, a) + Missing(m, b)
    ensures Missing(m, [id]) == if id in m then [] else [id]
    decreases |b|
  {
    if b == [] {
      assert a + b == a;
    } else {
      var n := |b| - 1;
      MissingInOrder(m, a, b[..n], id);
      assert (a + b)[..|a| + n] == a + b[..n];
    }
    assert [id][..0] == [];
  }

  /** A query confirms every indexed id it names at the current time and moves no other. */
  lemma QueryConfirms(c: Config, b: Box, ids: seq<Id>, now: int, touchOk: bool, id: Id)
    ensures var b' := Has(c, b, ids, now, touchOk).0;
            && b'.index.Keys == b.index.Keys
            && (id in b.index ==> b'.index[id] == if id in ids then Meta(b.index[id].size, now) else b.index[id])
  {
    PresentExact(b.index, ids);
    var p := Present(b.index, ids);
    if p == [] { assert id in b.index ==> id !in ids; }
    assert TouchAll(b.index, p, now).Keys == b.index.Keys;
  }

  /** The log is only rewritten when it has grown past its bound; until then a record is one
      more line. */
  lemma LogOnlyGrows(log: seq<Rec>, r: Rec, live: Index, slack: nat)
    ensures |log| + 1 <= 2 * |live| + slack ==> LogAfter(log, |log|, r, live, slack) == log + [r]
    ensures |log| + 1 > 2 * |live| + slack ==> Replay(LogAfter(log, |log|, r, live, slack)) == live && |LogAfter(log, |log|, r, live, slack)| == |live| + 1
  {
    ReplayCompact(live);
  }

  /* ---- publishing a version ---- */

  /** Everything the version needs was confirmed to the client within the grace, with no purge
      since, and each crash or aborted collection since then found it in the log. */
  ghost predicate ToldInTime(c: Config, run: seq<Sys>, ls: seq<Label>, i: nat, j: nat, id: Id)
    requires ValidConfig(c) && |run| == |ls| + 1 && j < |run|
  {
    && i < j && Tells(c, run[i], ls[i], id) && run[j].now <= run[i].now + c.grace
    && forall k :: i < k < j ==> !ls[k].PurgeAll? && LoggedAt(c, run, ls, k, id, run[i].now)
  }

  /** So a client that had every blob of a version confirmed in time and names the lane's
      current version gets the version published. */
  lemma PublishingSucceeds(c: Config, run: seq<Sys>, ls: seq<Label>, j: nat, told: Id -> nat, lane: Lane, prev: nat, root: Id, refs: Id)
    requires ValidConfig(c) && Behaves(c, run, ls) && Init(run[0]) && CarefulRun(c, run, ls) && j < |run| && run[j].box.loaded
    requires c.refsOf(refs).Some? && forall id :: id == root || id == refs || id in c.refsOf(refs).value ==> ToldInTime(c, run, ls, told(id), j, id)
    requires IsAt(run[j].box, lane, prev) && (lane in run[j].box.heads || |run[j].box.heads| < 64)
    ensures var (b', reply) := PutHead(c, run[j].box, lane, prev, root, refs, false, true);
            reply.Done? && b'.heads[lane].cur == Rev(prev + 1, root, refs)
  {
    var b, ids := run[j].box, c.refsOf(refs).value;
    forall id | id == root || id == refs || id in ids ensures id in b.index {
      assert ToldInTime(c, run, ls, told(id), j, id);
      GraceKept(c, run, ls, told(id), j, id);
    }
    IndexedIsStored(c, run, ls, j);
    assert refs in b.index.Keys;
    forall i | 0 <= i < |ids| ensures ids[i] in b.index { assert ids[i] in ids; }
    PutHeadAccepts(c, b, lane, prev, root, refs, false, true);
  }
}
