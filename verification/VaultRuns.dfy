/** The vault as a step machine: any number of concurrent uploads, queries, head updates,
    collections and purges of one mailbox, with crashes in between. Each section under the
    box lock is one step; handing bytes to the blob store is a step of its own. */
module VaultRuns {
  import opened Collections
  import opened VaultLog
  import opened Vault

  datatype Phase = Storing | Stored | Failed

  /** A running vaultPutBlob call that holds a reservation. */
  datatype Upload = Upload(id: Id, gen: nat, phase: Phase)

  type UploadId = nat

  /** published and cut are history variables: every version a lane was given since it was
      last created, and whether a purge stopped between emptying the index and dropping
      the lanes. */
  datatype Sys = Sys(box: Box, now: int, uploads: map<UploadId, Upload>,
                     published: map<Lane, seq<Rev>>, cut: bool)

  datatype Label =
    | Tick(dt: nat)
    | Load(modTime: Id -> int, loadFault: LoadFault)
    | PutReserve(u: UploadId, id: Id, touchOk: bool, gcFaults: GCFaults)
    | StorePut(u: UploadId, landed: bool, ok: bool)
    | PutFinish(u: UploadId, appendOk: bool, delOk: bool)
    | Confirm(ids: seq<Id>, touchOk: bool)
    | Collect(gcFaults: GCFaults)
    | SetHead(lane: Lane, prev: nat, root: Id, refs: Id, readErr: bool, writeOk: bool)
    | DropHead(lane: Lane, prev: nat, writeOk: bool)
    | PurgeAll(end: PurgeEnd)
    | Crash(tail: bool)

  /** One step. Sections that start by loading the box are preceded by Load. */
  ghost predicate Step(c: Config, s: Sys, l: Label, s': Sys)
    requires ValidConfig(c)
  {
    match l
    case Tick(dt) => s' == s.(now := s.now + dt)
    case Load(modTime, f) =>
      && !s.box.loaded && (forall id :: id in s.box.store ==> modTime(id) <= s.now)
      && s' == s.(box := LoadBox(c, s.box, modTime, f))
    case PutReserve(u, id, touchOk, f) =>
      && s.box.loaded && u !in s.uploads
      && var (b, reply) := Reserve(c, s.box, id, s.now, touchOk, f);
         s' == s.(box := b, uploads := if reply.Granted? then s.uploads[u := Upload(id, reply.gen, Storing)] else s.uploads)
    case StorePut(u, landed, ok) =>
      && u in s.uploads && s.uploads[u].phase.Storing? && (ok ==> landed)
      && s' == s.(box := if landed then s.box.(store := s.box.store + {s.uploads[u].id}) else s.box,
                  uploads := s.uploads[u := s.uploads[u].(phase := if ok then Stored else Failed)])
    case PutFinish(u, appendOk, delOk) =>
      && u in s.uploads && !s.uploads[u].phase.Storing?
      && var up := s.uploads[u];
         s' == s.(box := Finish(c, s.box, up.id, up.gen, up.phase.Stored?, s.now, appendOk, delOk).0, uploads := s.uploads - {u})
    case Confirm(ids, touchOk) => s.box.loaded && s' == s.(box := Has(c, s.box, ids, s.now, touchOk).0)
    case Collect(f) => s.box.loaded && s' == s.(box := GC(c, s.box, s.now, f))
    case SetHead(lane, prev, root, refs, readErr, writeOk) =>
      && s.box.loaded
      && var (b, reply) := PutHead(c, s.box, lane, prev, root, refs, readErr, writeOk);
         s' == s.(box := b, published := if reply.Done? then s.published[lane := Published(s, lane) + [b.heads[lane].cur]] else s.published)
    case DropHead(lane, prev, writeOk) =>
      && s.box.loaded
      && var (b, reply) := DeleteHead(s.box, lane, prev, writeOk);
         s' == s.(box := b, published := if reply.Done? then s.published - {lane} else s.published)
    case PurgeAll(e) =>
      && s.box.loaded
      && var b := Purge(c, s.box, e);
         s' == s.(box := b, published := map lane | lane in s.published && lane in b.files :: s.published[lane],
                  cut := if b.files == map[] then false else s.cut || b.log != s.box.log)
    case Crash(tail) => s' == s.(box := CrashBox(s.box, tail), uploads := map[])
  }

  function Published(s: Sys, lane: Lane): seq<Rev> { if lane in s.published then s.published[lane] else [] }

  ghost predicate Behaves(c: Config, run: seq<Sys>, ls: seq<Label>)
    requires ValidConfig(c)
  {
    |run| == |ls| + 1 && forall i :: 0 <= i < |ls| ==> StepAt(c, run, ls, i)
  }

  ghost predicate StepAt(c: Config, run: seq<Sys>, ls: seq<Label>, i: int)
    requires ValidConfig(c) && 0 <= i < |ls| && |run| == |ls| + 1
  {
    Step(c, run[i], ls[i], run[i + 1])
  }

  /** A mailbox without a vault. */
  ghost predicate Init(s: Sys) {
    s.box == CrashBox(Box(None, false, {}, map[], false, map[], 0, 0, 0, 0, map[], 0, map[], 0), false)
    && s.uploads == map[] && s.published == map[] && !s.cut
  }

  /* ---- the safety invariant ---- */

  ghost function UploadsOf(ups: map<UploadId, Upload>, id: Id): set<UploadId> {
    set u | u in ups && ups[u].id == id
  }

  ghost predicate Sized(c: Config, m: Index) {
    forall id :: id in m ==> m[id].size == c.sizeOf(id) && c.sizeOf(id) > 0
  }

  ghost predicate Dated(m: Index, now: int) { forall id :: id in m ==> m[id].at <= now }

  /** Log and memory agree. */
  ghost predicate LogInv(c: Config, b: Box, now: int) {
    && (b.torn ==> !b.loaded && b.log.Some?)
    && b.index.Keys <= Disk(b).Keys
    && Sized(c, Disk(b)) && Dated(Disk(b), now) && Dated(b.index, now) && ReadableLog(LogOf(b))
    && (b.loaded ==> Refines(b.index, Disk(b)) && b.lines == |LogOf(b)| && b.heads == b.files)
  }

  /** What the log claims, the store holds. */
  ghost predicate Backed(b: Box) { Disk(b).Keys <= b.store }

  ghost predicate BoxInv(c: Config, b: Box, now: int) { LogInv(c, b, now) && Backed(b) }

  /** The in-flight counter counts the uploads; an upload of the current generation whose
      bytes were accepted still has them in the store; and an id that is logged while an
      upload of it may still succeed is also known in memory. */
  ghost predicate FlightInv(b: Box, ups: map<UploadId, Upload>) {
    && (forall id :: Inflight(b, id) == |UploadsOf(ups, id)|)
    && (forall id :: id in b.inflight ==> b.inflight[id] > 0)
    && (forall u :: u in ups ==> ups[u].gen <= b.gen)
    && (forall u :: u in ups && ups[u].phase.Stored? && ups[u].gen == b.gen ==> ups[u].id in b.store)
    && Known(b, ups)
  }

  ghost predicate Known(b: Box, ups: map<UploadId, Upload>) {
    forall u :: u in ups && !ups[u].phase.Failed? && ups[u].id in Disk(b) ==> ups[u].id in b.index
  }

  ghost predicate Consistent(c: Config, s: Sys) {
    && BoxInv(c, s.box, s.now) && FlightInv(s.box, s.uploads)
    && forall u :: u in s.uploads ==> c.sizeOf(s.uploads[u].id) > 0
  }

  /** The step throws the in-memory index away while the log still lists blobs: a purge whose
      index rewrite failed, or a reload that could not read the index file. */
  ghost predicate Forgets(c: Config, s: Sys, l: Label) {
    || (l.PurgeAll? && l.end.IndexStays? && HasDir(c, s.box))
    || (l.Load? && l.loadFault.IndexUnreadable?)
  }

  ghost predicate NothingLoggedInFlight(s: Sys) {
    forall u :: u in s.uploads && !s.uploads[u].phase.Failed? ==> s.uploads[u].id !in Disk(s.box)
  }

  /** The exact condition under which the ordering argument of relay/vaultindex.go holds. */
  ghost predicate Careful(c: Config, s: Sys, l: Label) { Forgets(c, s, l) ==> NothingLoggedInFlight(s) }

  /* ---- facts about the pieces ---- */

  lemma UploadsAfterAdd(ups: map<UploadId, Upload>, u: UploadId, up: Upload, id: Id)
    requires u !in ups
    ensures |UploadsOf(ups[u := up], id)| == |UploadsOf(ups, id)| + (if up.id == id then 1 else 0)
  {
    if up.id == id { assert UploadsOf(ups[u := up], id) == UploadsOf(ups, id) + {u}; }
    else { assert UploadsOf(ups[u := up], id) == UploadsOf(ups, id); }
  }

  lemma UploadsAfterRemove(ups: map<UploadId, Upload>, u: UploadId, id: Id)
    requires u in ups
    ensures |UploadsOf(ups - {u}, id)| == |UploadsOf(ups, id)| - (if ups[u].id == id then 1 else 0)
  {
    if ups[u].id == id { assert UploadsOf(ups, id) == UploadsOf(ups - {u}, id) + {u}; }
    else { assert UploadsOf(ups - {u}, id) == UploadsOf(ups, id); }
  }

  lemma UploadsAfterPhase(ups: map<UploadId, Upload>, u: UploadId, p: Phase, id: Id)
    requires u in ups
    ensures UploadsOf(ups[u := ups[u].(phase := p)], id) == UploadsOf(ups, id)
  {
  }

  lemma CompactDisk(b: Box)
    ensures Disk(CompactBox(b)) == b.index
    ensures |LogOf(CompactBox(b))| == |b.index| + 1 == CompactBox(b).lines
    ensures Positive(b.index) ==> ReadableLog(LogOf(CompactBox(b)))
  {
    ReplayCompact(b.index);
    if Positive(b.index) { CompactReadable(b.index); }
  }

  /** A successful append leaves log and memory in step (b already has r applied in memory). */
  lemma AppendDisk(c: Config, mem: Index, b: Box, r: Rec)
    requires b.index == Apply(mem, r) && b.lines == |LogOf(b)|
    requires Refines(mem, Disk(b))
    ensures var b' := AppendRec(c, b, r, true);
            && Refines(b.index, Disk(b')) && b'.lines == |LogOf(b')|
            && (Disk(b') == Apply(Disk(b), r) || Disk(b') == b.index)
  {
    AppendInStep(LogOf(b), r, mem, c.slack);
  }

  lemma AppendReadable(c: Config, b: Box, r: Rec, ok: bool)
    requires ReadableLog(LogOf(b)) && Readable(r) && Positive(b.index)
    ensures ReadableLog(LogOf(AppendRec(c, b, r, ok)))
  {
    LogAfterReadable(LogOf(b), b.lines, r, b.index, c.slack);
  }

  lemma TouchRefines(mem: Index, disk: Index, ids: seq<Id>, now: int)
    requires Refines(mem, disk) && forall id :: id in disk ==> disk[id].at <= now
    ensures Refines(TouchAll(mem, ids, now), disk)
    ensures TouchAll(mem, ids, now).Keys == mem.Keys
    ensures forall id :: id in mem ==> TouchAll(mem, ids, now)[id].size == mem[id].size
    ensures Dated(mem, now) ==> Dated(TouchAll(mem, ids, now), now)
  {
    assert TouchAll(mem, ids, now).Keys == mem.Keys;
  }

  lemma TouchKeeps(c: Config, b: Box, ids: seq<Id>, now: int, ok: bool)
    requires LogInv(c, b, now) && b.loaded
    ensures var b' := TouchIds(c, b, ids, now, ok);
            && LogInv(c, b', now) && b'.loaded && b'.index.Keys == b.index.Keys && Disk(b').Keys == Disk(b).Keys && b'.store == b.store
  {
    var r := Touch(ids, now);
    var t := b.(index := TouchAll(b.index, ids, now));
    TouchRefines(b.index, Disk(b), ids, now);
    TouchRefines(Disk(b), Disk(b), ids, now);
    if ids != [] && ok {
      AppendDisk(c, b.index, t, r);
      AppendReadable(c, t, r, ok);
      TouchedLog(c, t, AppendRec(c, t, r, ok), now);
    }
  }

  /** After a logged touch the log holds the touched times or those of the memory. */
  lemma TouchedLog(c: Config, t: Box, b': Box, now: int)
    requires b' == t.(log := b'.log, lines := b'.lines) && t.loaded && t.heads == t.files && !t.torn
    requires Refines(t.index, Disk(b')) && b'.lines == |LogOf(b')| && ReadableLog(LogOf(b'))
    requires Sized(c, t.index) && Dated(t.index, now)
    ensures LogInv(c, b', now)
  {
  }

  /** The in-flight part of the invariant looks only at a few things. */
  lemma FlightFrame(b: Box, b': Box, ups: map<UploadId, Upload>)
    requires FlightInv(b, ups) && b'.inflight == b.inflight && b'.gen == b.gen
    requires forall id :: id in b.store && Inflight(b, id) > 0 ==> id in b'.store
    requires Known(b', ups)
    ensures FlightInv(b', ups)
  {
    forall u | u in ups && ups[u].phase.Stored? && ups[u].gen == b'.gen ensures ups[u].id in b'.store {
      InFlight(b, ups, u);
    }
  }

  lemma InFlight(b: Box, ups: map<UploadId, Upload>, u: UploadId)
    requires FlightInv(b, ups) && u in ups
    ensures Inflight(b, ups[u].id) > 0
  {
    assert u in UploadsOf(ups, ups[u].id);
  }

  lemma ScanFacts(c: Config, store: set<Id>, modTime: Id -> int, now: int)
    requires forall id :: id in store ==> modTime(id) <= now
    ensures var m := Scan(c, store, modTime); m.Keys <= store && Sized(c, m) && Dated(m, now) && Positive(m)
  {
  }

  /** Whatever path a load of the index takes, memory and log then agree exactly. */
  lemma LoadIndexKeeps(c: Config, b: Box, now: int, modTime: Id -> int)
    requires LogInv(c, b, now) && forall id :: id in b.store ==> modTime(id) <= now
    ensures var m := LoadIndex(c, b, modTime);
            && m.index == Disk(m) && m.lines == |LogOf(m)| && !m.torn && ReadableLog(LogOf(m))
            && m.store == b.store && m.files == b.files && m.loaded == b.loaded
            && m.gen == b.gen && m.inflight == b.inflight && m.reserved == b.reserved
            && (m.index == Disk(b) || (b.log.None? && m.index == Scan(c, b.store, modTime)))
  {
    if Rebuilds(c, b) {
      ScanFacts(c, b.store, modTime, now);
      CompactDisk(b.(index := Scan(c, b.store, modTime)));
    } else if b.log.Some? {
      assert Positive(Disk(b));
      CompactDisk(b.(index := Disk(b), lines := |b.log.value|));
    }
  }

  lemma LoadKeeps(c: Config, b: Box, now: int, modTime: Id -> int, f: LoadFault)
    requires LogInv(c, b, now) && !b.loaded && forall id :: id in b.store ==> modTime(id) <= now
    ensures LogInv(c, LoadBox(c, b, modTime, f), now) && (Backed(b) ==> Backed(LoadBox(c, b, modTime, f)))
  {
    LoadIndexKeeps(c, b, now, modTime);
    ScanFacts(c, b.store, modTime, now);
    var m := LoadIndex(c, b, modTime);
    assert Sized(c, m.index) && Dated(m.index, now);
  }

  /** Deleting a set of ids by a del record. */
  lemma DelIsMinus(m: Index, gone: set<Id>)
    ensures Apply(m, Del(Sorted(gone))) == m - gone
  {
  }

  /** The collection after its del line was logged, before the store deletes. */
  lemma CollectLogged(c: Config, b: Box, now: int, gone: set<Id>)
    requires LogInv(c, b, now) && b.loaded && gone <= b.index.Keys
    ensures var b2 := AppendRec(c, b.(index := b.index - gone), Del(Sorted(gone)), true);
            && b2.index == b.index - gone && Refines(b2.index, Disk(b2)) && b2.lines == |LogOf(b2)|
            && Disk(b2).Keys == Disk(b).Keys - gone && ReadableLog(LogOf(b2)) && Sized(c, Disk(b2)) && Dated(Disk(b2), now) && Dated(b2.index, now)
  {
    var b1 := b.(index := b.index - gone);
    DelIsMinus(b.index, gone);
    DelIsMinus(Disk(b), gone);
    AppendDisk(c, b.index, b1, Del(Sorted(gone)));
    assert Sized(c, b1.index) && Dated(b1.index, now);
    AppendReadable(c, b1, Del(Sorted(gone)), true);
  }

  lemma SweptKeeps(c: Config, b: Box, now: int, gone: set<Id>, f: GCFaults)
    requires LogInv(c, b, now) && b.loaded && gone <= b.index.Keys
    ensures var b' := Swept(c, b, gone, f);
            && LogInv(c, b', now) && (Backed(b) ==> Backed(b'))
            && b'.loaded && b'.index == b.index - gone && Disk(b').Keys == b'.index.Keys
  {
    CollectLogged(c, b, now, gone);
    var b2 := Recount(AppendRec(c, b.(index := b.index - gone), Del(Sorted(gone)), true));
    var b3 := b2.(store := b2.store - (gone - f.undeleted));
    CompactDisk(b3);
    assert Sized(c, b3.index);
  }

  /** A collection keeps the box consistent and never touches an id that is in flight. */
  lemma GCKeeps(c: Config, b: Box, now: int, f: GCFaults)
    requires ValidConfig(c) && LogInv(c, b, now) && b.loaded
    ensures var b' := GC(c, b, now, f);
            && LogInv(c, b', now) && (Backed(b) ==> Backed(b'))
            && b'.inflight == b.inflight && b'.gen == b.gen && b'.files == b.files
            && b'.index.Keys <= b.index.Keys && Disk(b').Keys <= Disk(b).Keys
            && (forall id :: Inflight(b, id) > 0 && id in b.index ==> id in b'.index)
            && (forall id :: Inflight(b, id) > 0 && id in b.store ==> id in b'.store)
  {
    var gone := Victims(c, b, now);
    var b0 := b.(lastGC := now);
    SweptKeeps(c, b0, now, gone, f);
    assert GC(c, b, now, f) == b0 || GC(c, b, now, f) == Swept(c, b0, gone, f) || !f.appendOk;
  }

  lemma GCFlight(c: Config, b: Box, now: int, f: GCFaults, ups: map<UploadId, Upload>)
    requires ValidConfig(c) && LogInv(c, b, now) && b.loaded && FlightInv(b, ups)
    ensures FlightInv(GC(c, b, now, f), ups)
  {
    GCKeeps(c, b, now, f);
    forall u | u in ups ensures Inflight(b, ups[u].id) > 0 { InFlight(b, ups, u); }
    FlightFrame(b, GC(c, b, now, f), ups);
  }

  /** The possible outcomes of the reserving section. */
  lemma ReserveCases(c: Config, b: Box, id: Id, now: int, touchOk: bool, f: GCFaults)
    requires ValidConfig(c)
    ensures var (b', reply) := Reserve(c, b, id, now, touchOk, f); var g := GC(c, b, now, f);
            || (b' == b && !reply.Granted?)
            || (b' == TouchIds(c, b, [id], now, touchOk) && !reply.Granted?)
            || (b' == g && !reply.Granted?)
            || (id !in b.index && c.sizeOf(id) > 0 && b' == Grant(c, b, id) && reply == Granted(b.gen)
                && b.bytes + b.reserved + c.sizeOf(id) <= c.quota)
            || (id !in b.index && c.sizeOf(id) > 0 && b' == Grant(c, g, id) && reply == Granted(g.gen)
                && g.bytes + g.reserved + c.sizeOf(id) <= c.quota)
  {
    var n := c.sizeOf(id);
    if 0 < n <= MAX_BLOB && id !in b.index && b.bytes + b.reserved + n > c.quota {
      ReserveCollects(c, b, id, now, touchOk, f, Reclaim(c, b, n, now, f).0, Reclaim(c, b, n, now, f).1);
    }
  }

  lemma ReserveCollects(c: Config, b: Box, id: Id, now: int, touchOk: bool, f: GCFaults, g: Box, fits: bool)
    requires ValidConfig(c) && 0 < c.sizeOf(id) <= MAX_BLOB && id !in b.index && b.bytes + b.reserved + c.sizeOf(id) > c.quota
    requires (g, fits) == Reclaim(c, b, c.sizeOf(id), now, f)
    ensures Reserve(c, b, id, now, touchOk, f) == if fits then (Grant(c, g, id), Granted(g.gen)) else (g, QuotaExceeded)
    ensures g == b || g == GC(c, b, now, f)
    ensures fits ==> g == GC(c, b, now, f) && g.bytes + g.reserved + c.sizeOf(id) <= c.quota
  {
  }

  lemma ReserveKeeps(c: Config, s: Sys, id: Id, touchOk: bool, f: GCFaults, u: UploadId, s': Sys)
    requires ValidConfig(c) && Consistent(c, s) && Step(c, s, PutReserve(u, id, touchOk, f), s')
    ensures Consistent(c, s')
  {
    var b, g := s.box, GC(c, s.box, s.now, f);
    ReserveCases(c, b, id, s.now, touchOk, f);
    if s'.box == TouchIds(c, b, [id], s.now, touchOk) && s'.uploads == s.uploads {
      TouchKeeps(c, b, [id], s.now, touchOk);
      FlightFrame(b, s'.box, s.uploads);
    } else {
      GCKeeps(c, b, s.now, f);
      GCFlight(c, b, s.now, f, s.uploads);
      if s'.uploads != s.uploads {
        if s'.box == Grant(c, b, id) { Granting(c, b, s.uploads, u, id); } else { Granting(c, g, s.uploads, u, id); }
      }
    }
  }

  lemma Granting(c: Config, b: Box, ups: map<UploadId, Upload>, u: UploadId, id: Id)
    requires FlightInv(b, ups) && u !in ups && id !in Disk(b)
    ensures FlightInv(Grant(c, b, id), ups[u := Upload(id, b.gen, Storing)])
  {
    var ups' := ups[u := Upload(id, b.gen, Storing)];
    forall i ensures Inflight(Grant(c, b, id), i) == |UploadsOf(ups', i)| {
      UploadsAfterAdd(ups, u, Upload(id, b.gen, Storing), i);
    }
  }

  lemma Releasing(c: Config, b: Box, ups: map<UploadId, Upload>, u: UploadId)
    requires FlightInv(b, ups) && u in ups
    ensures FlightInv(Release(c, b, ups[u].id), ups - {u})
    ensures Inflight(Release(c, b, ups[u].id), ups[u].id) == Inflight(b, ups[u].id) - 1
  {
    var b', ups' := Release(c, b, ups[u].id), ups - {u};
    InFlight(b, ups, u);
    forall i ensures Inflight(b', i) == |UploadsOf(ups', i)| {
      UploadsAfterRemove(ups, u, i);
    }
  }

  lemma RecordKeeps(c: Config, b: Box, id: Id, now: int)
    requires LogInv(c, b, now) && b.loaded && id !in b.index && c.sizeOf(id) > 0
    ensures LogInv(c, Record(c, b, id, now), now) && (Backed(b) && id in b.store ==> Backed(Record(c, b, id, now)))
    ensures Record(c, b, id, now).index == b.index[id := Meta(c.sizeOf(id), now)]
    ensures Disk(Record(c, b, id, now)).Keys == Record(c, b, id, now).index.Keys
  {
    var m := b.index[id := Meta(c.sizeOf(id), now)];
    AppendDisk(c, b.index, b.(index := m), Put(id, c.sizeOf(id), now));
    assert Sized(c, m) && Dated(m, now);
    AppendReadable(c, b.(index := m), Put(id, c.sizeOf(id), now), true);
  }

  lemma ReleaseKeepsBox(c: Config, b: Box, now: int, id: Id)
    requires LogInv(c, b, now)
    ensures LogInv(c, Release(c, b, id), now) && Disk(Release(c, b, id)) == Disk(b)
  {
    assert LogOf(Release(c, b, id)) == LogOf(b);
  }

  lemma FinishCases(c: Config, b: Box, id: Id, gen: nat, stored: bool, now: int, appendOk: bool, delOk: bool)
    ensures var b' := Finish(c, b, id, gen, stored, now, appendOk, delOk).0; var r := Release(c, b, id); var kept := Record(c, r, id, now);
            || b' == r
            || (b' == r.(store := r.store - {id}) && (b.gen != gen || !b.loaded) && id !in b.index && Inflight(r, id) == 0 && stored)
            || (b' == TouchIds(c, r, [id], now, appendOk) && b.loaded && b.gen == gen && id in b.index)
            || (b' == kept.(bytes := kept.bytes + c.sizeOf(id), blobs := kept.blobs + 1) && b.loaded && b.gen == gen && id !in b.index && stored)
  {
  }

  /** Dropping the bytes of an overtaken upload is safe because nothing else in flight needs
      them and, in flight itself until now, the id would be in memory if it were logged. */
  lemma DiscardKeeps(c: Config, s: Sys, u: UploadId)
    requires Consistent(c, s) && u in s.uploads && s.uploads[u].phase.Stored?
    requires var r := Release(c, s.box, s.uploads[u].id); s.uploads[u].id !in s.box.index && Inflight(r, s.uploads[u].id) == 0
    ensures var r := Release(c, s.box, s.uploads[u].id); var b' := r.(store := r.store - {s.uploads[u].id});
            BoxInv(c, b', s.now) && FlightInv(b', s.uploads - {u})
  {
    var id := s.uploads[u].id;
    var r := Release(c, s.box, id);
    var b' := r.(store := r.store - {id});
    assert id !in Disk(s.box);
    Releasing(c, s.box, s.uploads, u);
    FlightFrame(r, b', s.uploads - {u});
  }

  lemma RecordingKeeps(c: Config, s: Sys, u: UploadId)
    requires Consistent(c, s) && u in s.uploads && s.box.loaded
    requires s.uploads[u].phase.Stored? && s.uploads[u].gen == s.box.gen && s.uploads[u].id !in s.box.index
    ensures var b' := Record(c, Release(c, s.box, s.uploads[u].id), s.uploads[u].id, s.now);
            BoxInv(c, b', s.now) && FlightInv(b', s.uploads - {u})
  {
    var id := s.uploads[u].id;
    var r := Release(c, s.box, id);
    Releasing(c, s.box, s.uploads, u);
    RecordKeeps(c, r, id, s.now);
    FlightFrame(r, Record(c, r, id, s.now), s.uploads - {u});
  }

  lemma FinishKeeps(c: Config, s: Sys, u: UploadId, appendOk: bool, delOk: bool, s': Sys)
    requires ValidConfig(c) && Consistent(c, s) && Step(c, s, PutFinish(u, appendOk, delOk), s')
    ensures Consistent(c, s')
  {
    FinishBoxKeeps(c, s, u, appendOk, delOk, s'.box);
  }

  lemma FinishBoxKeeps(c: Config, s: Sys, u: UploadId, appendOk: bool, delOk: bool, b': Box)
    requires ValidConfig(c) && Consistent(c, s) && u in s.uploads && !s.uploads[u].phase.Storing?
    requires var up := s.uploads[u]; b' == Finish(c, s.box, up.id, up.gen, up.phase.Stored?, s.now, appendOk, delOk).0
    ensures BoxInv(c, b', s.now) && FlightInv(b', s.uploads - {u})
  {
    var up := s.uploads[u];
    var r := Release(c, s.box, up.id);
    Releasing(c, s.box, s.uploads, u);
    FinishCases(c, s.box, up.id, up.gen, up.phase.Stored?, s.now, appendOk, delOk);
    if b' == r {
    } else if b' == r.(store := r.store - {up.id}) {
      DiscardKeeps(c, s, u);
    } else if b' == TouchIds(c, r, [up.id], s.now, appendOk) {
      TouchKeeps(c, r, [up.id], s.now, appendOk);
      FlightFrame(r, b', s.uploads - {u});
    } else {
      RecordingKeeps(c, s, u);
      FlightFrame(Record(c, r, up.id, s.now), b', s.uploads - {u});
    }
  }

  /** The box after a purge that got past the index rewrite has an empty log. */
  lemma PurgeEmpties(c: Config, b: Box, e: PurgeEnd)
    requires !(HasDir(c, b) && e.IndexStays?) && !b.torn && b.lines == |LogOf(b)|
    ensures var b' := Purge(c, b, e);
            && Disk(b') == map[] && ReadableLog(LogOf(b')) && b'.index == map[] && b'.gen == b.gen + 1 && b'.inflight == b.inflight && !b'.torn
            && (b'.loaded ==> b'.lines == |LogOf(b')| && b'.heads == b'.files)
            && b'.reserved == b.reserved && (b'.loaded ==> b'.bytes == 0 && b'.blobs == 0)
  {
    assert Sizes(map[]) == map[];
    CompactDisk(b.(gen := b.gen + 1, index := map[]));
  }

  lemma PurgeKeeps(c: Config, s: Sys, e: PurgeEnd, s': Sys)
    requires ValidConfig(c) && Consistent(c, s) && Step(c, s, PurgeAll(e), s') && Careful(c, s, PurgeAll(e))
    ensures Consistent(c, s')
  {
    if !(HasDir(c, s.box) && e.IndexStays?) { PurgeEmpties(c, s.box, e); }
  }

  lemma CrashKeeps(c: Config, s: Sys, tail: bool)
    requires Consistent(c, s)
    ensures Consistent(c, s.(box := CrashBox(s.box, tail), uploads := map[]))
  {
  }

  lemma StorePutKeeps(c: Config, s: Sys, u: UploadId, landed: bool, ok: bool, s': Sys)
    requires ValidConfig(c) && Consistent(c, s) && Step(c, s, StorePut(u, landed, ok), s')
    ensures Consistent(c, s')
  {
    forall id ensures UploadsOf(s'.uploads, id) == UploadsOf(s.uploads, id) {
      UploadsAfterPhase(s.uploads, u, s'.uploads[u].phase, id);
    }
  }

  lemma LoadStepKeeps(c: Config, s: Sys, l: Label, s': Sys)
    requires ValidConfig(c) && Consistent(c, s) && l.Load? && Step(c, s, l, s') && Careful(c, s, l)
    ensures Consistent(c, s')
  {
    LoadKeeps(c, s.box, s.now, l.modTime, l.loadFault);
    LoadIndexKeeps(c, s.box, s.now, l.modTime);
    FlightFrame(s.box, s'.box, s.uploads);
  }

  lemma ConfirmKeeps(c: Config, s: Sys, ids: seq<Id>, touchOk: bool)
    requires Consistent(c, s) && s.box.loaded
    ensures Consistent(c, s.(box := Has(c, s.box, ids, s.now, touchOk).0))
  {
    TouchKeeps(c, s.box, Present(s.box.index, ids), s.now, touchOk);
    FlightFrame(s.box, Has(c, s.box, ids, s.now, touchOk).0, s.uploads);
  }

  lemma CollectKeeps(c: Config, s: Sys, f: GCFaults)
    requires ValidConfig(c) && Consistent(c, s) && s.box.loaded
    ensures Consistent(c, s.(box := GC(c, s.box, s.now, f)))
  {
    GCKeeps(c, s.box, s.now, f);
    GCFlight(c, s.box, s.now, f, s.uploads);
  }

  /** Head updates and deletes touch neither index nor blobs. */
  lemma HeadStepKeeps(c: Config, s: Sys, l: Label, s': Sys)
    requires ValidConfig(c) && Consistent(c, s) && (l.SetHead? || l.DropHead?) && Step(c, s, l, s')
    ensures Consistent(c, s')
    ensures s'.box == s.box.(files := s'.box.files, heads := s'.box.heads)
  {
    match l {
      case SetHead(lane, prev, root, refs, readErr, writeOk) => PutHeadFrame(c, s.box, lane, prev, root, refs, readErr, writeOk);
      case DropHead(lane, prev, writeOk) => DeleteHeadFrame(s.box, lane, prev, writeOk);
    }
    HeadFrameKeeps(c, s.box, s'.box, s.now, s.uploads);
  }

  /** b' differs from b at most in its lanes, and keeps them the same in memory and on disk. */
  ghost predicate LanesOnly(b: Box, b': Box) {
    b' == b.(files := b'.files, heads := b'.heads) && (b.heads == b.files ==> b'.heads == b'.files)
  }

  lemma PutHeadFrame(c: Config, b: Box, lane: Lane, prev: nat, root: Id, refs: Id, readErr: bool, writeOk: bool)
    requires ValidConfig(c)
    ensures LanesOnly(b, PutHead(c, b, lane, prev, root, refs, readErr, writeOk).0)
  {
  }

  lemma DeleteHeadFrame(b: Box, lane: Lane, prev: nat, writeOk: bool)
    ensures LanesOnly(b, DeleteHead(b, lane, prev, writeOk).0)
  {
  }

  lemma HeadFrameKeeps(c: Config, b: Box, b': Box, now: int, ups: map<UploadId, Upload>)
    requires BoxInv(c, b, now) && FlightInv(b, ups) && LanesOnly(b, b')
    ensures BoxInv(c, b', now) && FlightInv(b', ups)
  {
    FlightFrame(b, b', ups);
  }

  /** Every step keeps log, memory, store and uploads consistent, except a step that forgets
      the in-memory index while an upload of a logged id is in flight. */
  lemma StepKeepsConsistent(c: Config, s: Sys, l: Label, s': Sys)
    requires ValidConfig(c) && Consistent(c, s) && Step(c, s, l, s') && Careful(c, s, l)
    ensures Consistent(c, s')
  {
    match l {
      case Tick(dt) =>
      case Load(modTime, f) => LoadStepKeeps(c, s, l, s');
      case PutReserve(u, id, touchOk, f) => ReserveKeeps(c, s, id, touchOk, f, u, s');
      case StorePut(u, landed, ok) => StorePutKeeps(c, s, u, landed, ok, s');
      case PutFinish(u, appendOk, delOk) => FinishKeeps(c, s, u, appendOk, delOk, s');
      case Confirm(ids, touchOk) => ConfirmKeeps(c, s, ids, touchOk);
      case Collect(f) => CollectKeeps(c, s, f);
      case SetHead(lane, prev, root, refs, readErr, writeOk) => HeadStepKeeps(c, s, l, s');
      case DropHead(lane, prev, writeOk) => HeadStepKeeps(c, s, l, s');
      case PurgeAll(e) => PurgeKeeps(c, s, e, s');
      case Crash(tail) => CrashKeeps(c, s, tail);
    }
  }

  /* ---- runs ---- */

  ghost predicate CarefulRun(c: Config, run: seq<Sys>, ls: seq<Label>)
    requires ValidConfig(c) && Behaves(c, run, ls)
  {
    forall i :: 0 <= i < |ls| ==> CarefulAt(c, run, ls, i)
  }

  ghost predicate CarefulAt(c: Config, run: seq<Sys>, ls: seq<Label>, i: int)
    requires 0 <= i < |ls| && |run| == |ls| + 1
  {
    Careful(c, run[i], ls[i])
  }

  lemma {:induction false} RunConsistent(c: Config, run: seq<Sys>, ls: seq<Label>, n: nat)
    requires ValidConfig(c) && Behaves(c, run, ls) && Init(run[0]) && CarefulRun(c, run, ls) && n < |run|
    ensures Consistent(c, run[n])
  {
    if n == 0 {
      forall id ensures |UploadsOf(run[0].uploads, id)| == 0 { assert UploadsOf(run[0].uploads, id) == {}; }
    } else {
      RunConsistent(c, run, ls, n - 1);
      assert StepAt(c, run, ls, n - 1) && CarefulAt(c, run, ls, n - 1);
      StepKeepsConsistent(c, run[n - 1], ls[n - 1], run[n]);
    }
  }

  /** What relay/vaultindex.go promises: at every point of every run, with any interleaving of
      uploads, collections and purges and a crash anywhere, each id the index names -- in
      memory or as a reload would read it from the log -- has its bytes in the store. */
  lemma IndexedIsStored(c: Config, run: seq<Sys>, ls: seq<Label>, n: nat)
    requires ValidConfig(c) && Behaves(c, run, ls) && Init(run[0]) && CarefulRun(c, run, ls) && n < |run|
    ensures run[n].box.index.Keys <= run[n].box.store
    ensures Disk(run[n].box).Keys <= run[n].box.store
    ensures run[n].box.loaded ==> Refines(run[n].box.index, Disk(run[n].box))
    ensures ReadableLog(LogOf(run[n].box))
  {
    RunConsistent(c, run, ls, n);
  }
}
