/** The in-memory record of one mailbox's vault as an object: each method is one section the
    source runs under the box lock, and is proved to be the function of module Vault of the
    same name. Fault parameters say which disk and store operations fail. */
module VaultBox {
  import opened Collections
  import opened VaultLog
  import opened V = Vault

  class Mailbox {
    const c: Config
    // on disk and in the blob store
    var log: Option<seq<Rec>>
    var torn: bool
    var store: set<Id>
    var files: map<Lane, Head>
    // in memory
    var loaded: bool
    var index: Index
    var lines: nat
    var bytes: int
    var blobs: int
    var reserved: int
    var inflight: map<Id, nat>
    var gen: nat
    var heads: map<Lane, Head>
    var lastGC: int

    ghost function State(): Box
      reads this
    {
      Box(log, torn, store, files, loaded, index, lines, bytes, blobs, reserved, inflight, gen, heads, lastGC)
    }

    /** A box nobody touched yet: nothing on disk, nothing loaded. */
    constructor (c: Config)
      ensures this.c == c
      ensures State() == CrashBox(Box(None, false, {}, map[], false, map[], 0, 0, 0, 0, map[], 0, map[], 0), false)
    {
      this.c := c;
      log, torn, store, files := None, false, {}, map[];
      loaded, index, lines, bytes, blobs, reserved := false, map[], 0, 0, 0, 0;
      inflight, gen, heads, lastGC := map[], 0, map[], 0;
    }

    /** recount: sums the index into the usage counters. */
    method Recount()
      modifies this
      ensures State() == V.Recount(old(State()))
    {
      bytes, blobs := SumIndex(index);
    }

    /** vaultIndexCompactLocked: one put line per blob in id order, then an atomic replace. */
    method CompactIndex()
      modifies this
      ensures State() == CompactBox(old(State()))
    {
      var recs := SnapshotLines(index);
      log, torn, lines := Some(recs), false, |index| + 1;
    }

    /** vaultIndexAppendLocked; the caller has applied r to the index already. */
    method AppendIndex(r: Rec, ok: bool)
      requires !torn
      modifies this
      ensures State() == AppendRec(c, old(State()), r, ok)
    {
      if !ok { return; }
      var prior := if log.Some? then log.value else [];
      if lines + 1 > 2 * |index| + c.slack {
        CompactIndex();
      } else {
        log, lines := Some(prior + [r]), lines + 1;
      }
    }

    /** vaultTouchLocked. */
    method TouchBlobs(ids: seq<Id>, now: int, ok: bool)
      requires !torn && forall id :: id in ids ==> id in index
      modifies this
      ensures State() == TouchIds(c, old(State()), ids, now, ok)
    {
      if |ids| == 0 { return; }
      index := ReplayTouch(index, ids, now);
      AppendIndex(Touch(ids, now), ok);
    }

    /** vaultLoadIndexLocked. The file is read back line by line; without a file the on-disk
        layout is scanned. */
    method LoadIndex(modTime: Id -> int)
      requires ReadableLog(LogOf(State()))
      modifies this
      ensures State() == V.LoadIndex(c, old(State()), modTime)
    {
      if log.Some? {
        var r := ReadIndex(FileOf(log.value, torn), !torn);
        FileReads(log.value, torn, r);
        index, lines := r.index, |log.value|;
        if torn { CompactIndex(); }
      } else if c.onDisk && store != {} {
        index := map id | id in store && c.sizeOf(id) > 0 :: Meta(c.sizeOf(id), modTime(id));
        CompactIndex();
      } else {
        index, lines := map[], 0;
      }
    }

    /** vaultLoadModeLocked on a box that is not loaded. */
    method Load(modTime: Id -> int, f: LoadFault)
      requires ReadableLog(LogOf(State()))
      modifies this
      ensures State() == LoadBox(c, old(State()), modTime, f)
    {
      if f.IndexUnreadable? { index := map[]; return; }
      LoadIndex(modTime);
      if f.HeadsUnreadable? { return; }
      Recount();
      heads, loaded := files, true;
    }

    /** vaultGCLocked on a loaded box: mark from the retained versions, sweep the index, log
        the deletion, and only then delete from the store. */
    method Collect(now: int, f: GCFaults)
      requires ValidConfig(c) && !torn && ReadableLog(LogOf(State()))
      modifies this
      ensures State() == GC(c, old(State()), now, f)
    {
      lastGC := now;
      var readable, live := MarkLive(c, heads, store, f.readErr);
      if !readable { return; }
      var victims := SelectVictims(index, live, inflight, now - c.grace);
      assert victims == Victims(c, old(State()), now);
      if victims == {} { return; }
      if f.appendOk { Sweep(victims, f); } else { Abort(victims, f.reloadOk); }
    }

    /** The del line could not be logged: put the victims back by reading the log again. */
    method Abort(victims: set<Id>, reloadOk: bool)
      requires !torn && ReadableLog(LogOf(State()))
      modifies this
      ensures State() == var b := old(State());
                         if reloadOk then V.Recount(b.(index := Disk(b), lines := |LogOf(b)|))
                         else V.Recount(b.(index := b.index - victims, loaded := false))
    {
      index := index - victims;
      if reloadOk {
        var recs := if log.Some? then log.value else [];
        var r := ReadIndex(FileOf(recs, false), true);
        FileReads(recs, false, r);
        index, lines := r.index, |recs|;
      } else {
        loaded := false;
      }
      Recount();
    }

    method Sweep(victims: set<Id>, f: GCFaults)
      requires !torn
      modifies this
      ensures State() == Swept(c, old(State()), victims, f)
    {
      var ids := SortSet(victims);
      ListingUnique(ids, Sorted(victims), victims);
      LogDeletion(victims, ids);
      RemoveBlobs(victims, ids, f);
    }

    method RemoveBlobs(victims: set<Id>, ids: seq<Id>, f: GCFaults)
      requires Lists(ids, victims)
      modifies this
      ensures State() == var b := old(State()).(store := old(store) - (victims - f.undeleted)); if f.compactOk then CompactBox(b) else b
    {
      store := DeleteBlobs(store, ids, victims, f.undeleted);
      if f.compactOk { CompactIndex(); }
    }

    method LogDeletion(victims: set<Id>, ids: seq<Id>)
      requires !torn
      modifies this
      ensures State() == V.Recount(AppendRec(c, old(State()).(index := old(index) - victims), Del(ids), true))
    {
      index := index - victims;
      AppendIndex(Del(ids), true);
      Recount();
    }

    /** The reserving section of vaultPutBlob on a loaded box. */
    method Reserve(id: Id, n: nat, now: int, touchOk: bool, f: GCFaults) returns (reply: PutReply)
      requires ValidConfig(c) && !torn && ReadableLog(LogOf(State())) && n == c.sizeOf(id)
      modifies this
      ensures (State(), reply) == V.Reserve(c, old(State()), id, now, touchOk, f)
    {
      if n == 0 || n > MAX_BLOB { return BadSize; }
      if id in index {
        TouchBlobs([id], now, touchOk);
        return Existed;
      }
      if bytes + reserved + n > c.quota {
        var fits := MakeRoom(n, now, f);
        if !fits { return QuotaExceeded; }
      }
      TakeSlot(id, n);
      return Granted(gen);
    }

    /** vaultReclaimLocked. */
    method MakeRoom(n: nat, now: int, f: GCFaults) returns (fits: bool)
      requires ValidConfig(c) && !torn && ReadableLog(LogOf(State()))
      modifies this
      ensures (State(), fits) == Reclaim(c, old(State()), n, now, f)
    {
      if now - lastGC < c.gcEvery { return false; }
      Collect(now, f);
      return bytes + reserved + n <= c.quota;
    }

    method TakeSlot(id: Id, n: nat)
      requires n == c.sizeOf(id)
      modifies this
      ensures State() == Grant(c, old(State()), id)
    {
      reserved := reserved + n;
      inflight := inflight[id := (if id in inflight then inflight[id] else 0) + 1];
    }

    method ReleaseSlot(id: Id, n: nat)
      requires n == c.sizeOf(id) && Inflight(State(), id) >= 1
      modifies this
      ensures State() == Release(c, old(State()), id)
    {
      reserved := reserved - n;
      if inflight[id] <= 1 { inflight := inflight - {id}; } else { inflight := inflight[id := inflight[id] - 1]; }
    }

    method RecordBlob(id: Id, n: nat, now: int)
      requires !torn && n == c.sizeOf(id)
      modifies this
      ensures State() == var kept := Record(c, old(State()), id, now); kept.(bytes := kept.bytes + n, blobs := kept.blobs + 1)
    {
      index := index[id := Meta(n, now)];
      AppendIndex(Put(id, n, now), true);
      bytes, blobs := bytes + n, blobs + 1;
    }

    /** The last section of vaultPutBlob. */
    method Finish(id: Id, n: nat, seen: nat, stored: bool, now: int, appendOk: bool, delOk: bool) returns (reply: PutReply)
      requires !torn && n == c.sizeOf(id) && Inflight(State(), id) >= 1
      modifies this
      ensures (State(), reply) == V.Finish(c, old(State()), id, seen, stored, now, appendOk, delOk)
    {
      ReleaseSlot(id, n);
      if !stored { return StoreFailed; }
      if gen != seen || !loaded {
        if id !in index && (if id in inflight then inflight[id] else 0) == 0 && delOk { store := store - {id}; }
        return Purged;
      }
      if id in index {
        TouchBlobs([id], now, appendOk);
        return Existed;
      }
      if !appendOk { return NotRecorded; }
      RecordBlob(id, n, now);
      return Recorded;
    }

    /** vaultHas on a loaded box. */
    method Has(ids: seq<Id>, now: int, touchOk: bool) returns (missing: seq<Id>)
      requires !torn
      modifies this
      ensures (State(), missing) == V.Has(c, old(State()), ids, now, touchOk)
    {
      missing := [];
      var present: seq<Id> := [];
      for i := 0 to |ids|
        invariant present == Present(index, ids[..i]) && missing == Missing(index, ids[..i])
        invariant State() == old(State())
      {
        assert ids[..i + 1][..i] == ids[..i];
        if ids[i] in index {
          if ids[i] !in present { present := present + [ids[i]]; }
        } else {
          missing := missing + [ids[i]];
        }
      }
      assert ids[..|ids|] == ids;
      PresentExact(index, ids);
      TouchBlobs(present, now, touchOk);
    }

    /** vaultPutHead on a loaded box. */
    method PutHead(lane: Lane, prev: nat, root: Id, refs: Id, readErr: bool, writeOk: bool) returns (reply: HeadReply)
      requires ValidConfig(c)
      modifies this
      ensures (State(), reply) == V.PutHead(c, old(State()), lane, prev, root, refs, readErr, writeOk)
    {
      var version := if lane in heads then heads[lane].cur.version else 0;
      if prev != version { return Conflict(version); }
      if lane !in heads && |heads| >= MAX_LANES { return TooManyLanes; }
      var missing := Absent(index, [root, refs]);
      AbsentPair(index, root, refs, missing);
      if missing != {} { return MissingBlobs(missing); }
      if readErr || refs !in store { return RefsUnreadable; }
      var ids := c.refsOf(refs);
      if ids.None? { return BadRefs; }
      missing := Absent(index, ids.value);
      AbsentRefs(c, index, refs, missing);
      if missing != {} { return MissingBlobs(missing); }
      var hist: seq<Rev> := [];
      if lane in heads {
        hist := [heads[lane].cur] + heads[lane].history;
        if |hist| > c.keep - 1 { hist := hist[..c.keep - 1]; }
      }
      if !writeOk { return WriteFailed; }
      var next := Head(Rev(version + 1, root, refs), hist);
      files, heads := files[lane := next], heads[lane := next];
      return Done;
    }

    /** vaultDeleteHead on a loaded box. */
    method DeleteHead(lane: Lane, prev: nat, removeOk: bool) returns (reply: HeadReply)
      modifies this
      ensures (State(), reply) == V.DeleteHead(old(State()), lane, prev, removeOk)
    {
      if lane !in heads { return NoLane; }
      if heads[lane].cur.version != prev { return Conflict(heads[lane].cur.version); }
      if !removeOk { return WriteFailed; }
      files, heads := files - {lane}, heads - {lane};
      return Done;
    }

    /** vaultPurge on a loaded box. */
    method Purge(e: PurgeEnd)
      modifies this
      ensures State() == V.Purge(c, old(State()), e)
    {
      var dir := log.Some? || files != map[] || (c.onDisk && store != {});
      gen, index := gen + 1, map[];
      if dir { PurgeDir(e); } else { Wipe(e); }
    }

    method PurgeDir(e: PurgeEnd)
      modifies this
      ensures State() == V.PurgeDir(old(State()), e)
    {
      if e.IndexStays? { loaded := false; return; }
      CompactIndex();
      if e.HeadsStay? { files, loaded := files - e.removed, false; return; }
      Wipe(e);
    }

    method Wipe(e: PurgeEnd)
      modifies this
      ensures State() == V.Wipe(old(State()), e)
    {
      ClearLanes();
      if e.BlobsStay? {
        store := store * e.left;
      } else if e.DirStays? {
        store, loaded, log := {}, false, if e.logGone then None else log;
      } else {
        store, log, torn, lines := {}, None, false, 0;
      }
    }

    method ClearLanes()
      modifies this
      ensures State() == V.Recount(old(State()).(files := map[], heads := map[]))
    {
      files, heads := map[], map[];
      Recount();
    }
  }

  lemma AbsentPair(m: Index, root: Id, refs: Id, missing: set<Id>)
    requires missing == set i | 0 <= i < |[root, refs]| && [root, refs][i] !in m :: [root, refs][i]
    ensures missing == set id | id in {root, refs} && id !in m
    ensures missing == {} <==> root in m && refs in m
  {
    var pair := [root, refs];
    assert pair[0] == root && pair[1] == refs;
    if root !in m { assert pair[0] in missing; }
    if refs !in m { assert pair[1] in missing; }
  }

  lemma AbsentRefs(c: Config, m: Index, refs: Id, missing: set<Id>)
    requires c.refsOf(refs).Some?
    requires var ids := c.refsOf(refs).value; missing == set i | 0 <= i < |ids| && ids[i] !in m :: ids[i]
    ensures missing == set id | id in RefIds(c, refs) && id !in m
  {
  }

  /* ---- the loops, on values ---- */

  method SumIndex(m: Index) returns (bytes: nat, blobs: nat)
    ensures bytes == Sum(Sizes(m)) && blobs == |m|
  {
    bytes, blobs := 0, 0;
    var rest := m;
    while rest != map[]
      invariant bytes + Sum(Sizes(rest)) == Sum(Sizes(m)) && blobs + |rest| == |m|
      decreases |rest|
    {
      Inhabited(rest.Keys);
      var id :| id in rest.Keys;
      ShrinkSum(rest, id);
      bytes, blobs, rest := bytes + rest[id].size, blobs + 1, rest - {id};
    }
    assert Sizes(rest) == map[];
  }

  lemma ShrinkSum(m: Index, id: Id)
    requires id in m
    ensures Sum(Sizes(m)) == m[id].size + Sum(Sizes(m - {id}))
    ensures |m| == |m - {id}| + 1
  {
    SumSplit(Sizes(m), id);
    assert Sizes(m) - {id} == Sizes(m - {id});
    assert (m - {id}).Keys == m.Keys - {id};
  }

  method SnapshotLines(m: Index) returns (recs: seq<Rec>)
    ensures recs == Compact(m)
  {
    var ids := SortSet(m.Keys);
    ListingUnique(ids, Sorted(m.Keys), m.Keys);
    ListedKeys(m, ids);
    ghost var all := [Header(INDEX_VERSION)] + PutLines(m, ids);
    recs := [Header(INDEX_VERSION)];
    for i := 0 to |ids|
      invariant recs == all[..i + 1]
    {
      PutLineAt(m, ids, i);
      TakeNext(all, i + 1);
      recs := recs + [Put(ids[i], m[ids[i]].size, m[ids[i]].at)];
    }
    assert all[..|all|] == all;
  }

  lemma ListedKeys(m: Index, ids: seq<int>)
    requires Lists(ids, m.Keys)
    ensures forall i :: 0 <= i < |ids| ==> ids[i] in m
  {
    forall i | 0 <= i < |ids| ensures ids[i] in m { assert ids[i] in ids && ids[i] in m.Keys; }
  }

  lemma PutLineAt(m: Index, ids: seq<int>, i: nat)
    requires i < |ids| && forall j :: 0 <= j < |ids| ==> ids[j] in m
    ensures |PutLines(m, ids)| == |ids|
    ensures ([Header(INDEX_VERSION)] + PutLines(m, ids))[i + 1] == Put(ids[i], m[ids[i]].size, m[ids[i]].at)
  {
    assert PutLines(m, ids)[i] == Put(ids[i], m[ids[i]].size, m[ids[i]].at);
  }

  lemma TakeNext(s: seq<Rec>, i: nat)
    requires i < |s|
    ensures s[..i + 1] == s[..i] + [s[i]]
  {
  }

  /** Collects everything the retained versions of all lanes need, or reports that some refs
      blob cannot be read. */
  method MarkLive(c: Config, heads: map<Lane, Head>, store: set<Id>, readErr: bool) returns (ok: bool, live: set<Id>)
    requires ValidConfig(c)
    ensures ok <==> !(readErr && heads != map[]) && RefsReadable(c, heads, store)
    ensures ok ==> live == Live(c, heads)
  {
    live := {};
    var left := heads.Keys;
    ghost var done: map<Lane, Head> := map[];
    while left != {}
      invariant left <= heads.Keys && done == heads - left
      invariant live == Live(c, done) && RefsReadable(c, done, store) && (readErr ==> done == map[])
      decreases left
    {
      var lane :| lane in left;
      var readable, ids := MarkHead(c, heads[lane], store, readErr);
      if !readable {
        assert readErr || !HeadReadable(c, heads[lane], store);
        return false, live;
      }
      LiveGrows(c, done, lane, heads[lane]);
      live := live + ids;
      left, done := left - {lane}, done[lane := heads[lane]];
      assert done == heads - left;
    }
    assert done == heads;
    ok := true;
  }

  lemma LiveGrows(c: Config, heads: map<Lane, Head>, lane: Lane, h: Head)
    requires ValidConfig(c) && lane !in heads
    ensures Live(c, heads[lane := h]) == Live(c, heads) + HeadIds(c, h)
  {
    var more := heads[lane := h];
    forall id | id in Live(c, heads) + HeadIds(c, h) ensures id in Live(c, more) {
      if id in Live(c, heads) {
        var l :| l in heads && id in HeadIds(c, heads[l]);
        assert l in more && id in HeadIds(c, more[l]);
      } else {
        assert lane in more && id in HeadIds(c, more[lane]);
      }
    }
  }

  ghost function RevsIds(c: Config, revs: seq<Rev>): set<Id> { set r, id | r in revs && id in RevIds(c, r) :: id }

  lemma RevsIdsSnoc(c: Config, revs: seq<Rev>, r: Rev)
    ensures RevsIds(c, revs + [r]) == RevsIds(c, revs) + RevIds(c, r)
  {
    forall id | id in RevsIds(c, revs) + RevIds(c, r) ensures id in RevsIds(c, revs + [r]) {
      if id in RevsIds(c, revs) {
        var q :| q in revs && id in RevIds(c, q);
        assert q in revs + [r];
      } else {
        assert r in revs + [r];
      }
    }
  }

  method MarkHead(c: Config, h: Head, store: set<Id>, readErr: bool) returns (ok: bool, ids: set<Id>)
    requires ValidConfig(c)
    ensures ok <==> !readErr && HeadReadable(c, h, store)
    ensures ok ==> ids == HeadIds(c, h)
  {
    var hist := h.history;
    if |hist| > c.keep - 1 { hist := hist[..c.keep - 1]; }
    var revs := [h.cur] + hist;
    assert revs == RevsOf(c, h);
    ids := {};
    for i := 0 to |revs|
      invariant ids == RevsIds(c, revs[..i])
      invariant (i > 0 ==> !readErr) && forall r :: r in revs[..i] ==> r.refs in store && c.refsOf(r.refs).Some?
    {
      var r := revs[i];
      assert r in revs;
      if readErr || r.refs !in store || c.refsOf(r.refs).None? { return false, ids; }
      assert revs[..i + 1] == revs[..i] + [r];
      RevsIdsSnoc(c, revs[..i], r);
      var named := Named(c.refsOf(r.refs).value);
      ids := ids + ({r.root, r.refs} + named);
    }
    assert revs[..|revs|] == revs;
    ok := true;
  }

  method Named(ids: seq<Id>) returns (s: set<Id>)
    ensures s == set i | 0 <= i < |ids| :: ids[i]
  {
    s := {};
    for i := 0 to |ids|
      invariant s == set j | 0 <= j < i :: ids[j]
    {
      s := s + {ids[i]};
    }
  }

  method SelectVictims(m: Index, live: set<Id>, inflight: map<Id, nat>, cutoff: int) returns (victims: set<Id>)
    ensures victims == set id | id in m && id !in live && m[id].at < cutoff && (if id in inflight then inflight[id] else 0) == 0
  {
    victims := {};
    var left := m.Keys;
    while left != {}
      invariant left <= m.Keys
      invariant victims == set id | id in m && id !in left && id !in live && m[id].at < cutoff && (if id in inflight then inflight[id] else 0) == 0
      decreases left
    {
      Inhabited(left);
      var id :| id in left;
      if id !in live && m[id].at < cutoff && (if id in inflight then inflight[id] else 0) == 0 {
        victims := victims + {id};
      }
      left := left - {id};
    }
  }

  method DeleteBlobs(store: set<Id>, ids: seq<Id>, ghost victims: set<Id>, failing: set<Id>) returns (left: set<Id>)
    requires forall id :: id in ids <==> id in victims
    ensures left == store - (victims - failing)
  {
    left := store;
    for i := 0 to |ids|
      invariant left == store - ((set id | id in ids[..i]) - failing)
    {
      assert ids[..i + 1] == ids[..i] + [ids[i]];
      if ids[i] !in failing { left := left - {ids[i]}; }
    }
    assert ids[..|ids|] == ids;
    var all := set id | id in ids;
    forall id ensures id in all <==> id in victims {
      assert id in ids <==> id in victims;
    }
    assert all == victims;
  }

  method Absent(m: Index, ids: seq<Id>) returns (missing: set<Id>)
    ensures missing == set i | 0 <= i < |ids| && ids[i] !in m :: ids[i]
  {
    missing := {};
    for i := 0 to |ids|
      invariant missing == set j | 0 <= j < i && ids[j] !in m :: ids[j]
    {
      if ids[i] !in m { missing := missing + {ids[i]}; }
    }
  }

  /** The physical lines of an index file with these records, perhaps with a torn tail. */
  function FileOf(recs: seq<Rec>, torn: bool): seq<Line> {
    seq(|recs|, i requires 0 <= i < |recs| => Good(recs[i])) + (if torn then [Garbage] else [])
  }

  lemma FileReads(recs: seq<Rec>, torn: bool, r: ReadResult)
    requires ReadableLog(recs) && ReadSpec(FileOf(recs, torn), !torn, r)
    ensures r.Read? && r.index == Replay(recs) && r.torn == torn
  {
    var lines := FileOf(recs, torn);
    var body := if torn then lines[..|lines| - 1] else lines;
    assert torn ==> lines[|lines| - 1] == Garbage;
    assert |body| == |recs| && forall i :: 0 <= i < |body| ==> body[i] == Good(recs[i]);
    assert !torn && lines != [] ==> lines[|lines| - 1].Good?;
    GoodRecs(body, recs);
  }

  lemma {:induction false} GoodRecs(lines: seq<Line>, recs: seq<Rec>)
    requires |lines| == |recs| && forall i :: 0 <= i < |lines| ==> lines[i] == Good(recs[i])
    ensures Recs(lines) == recs
  {
    if lines != [] {
      var n := |lines| - 1;
      GoodRecs(lines[..n], recs[..n]);
      assert recs == recs[..n] + [recs[n]];
    }
  }
}
