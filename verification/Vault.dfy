/** One mailbox's vault (relay/vault.go): what each section under the box lock does to the
    in-memory record and to the durable state, as functions of the state before it and of
    the faults that happen inside it. A crash between two durable effects of a section is
    the section with the matching fault followed by Crash. */
module Vault {
  import opened Collections
  import opened VaultLog

  type Lane = string

  /** What is fixed during a run. An id is a hash of its bytes, so size and (for a refs blob)
      the list of ids it names are functions of the id; refsOf is None for bytes that are
      not a list of ids. onDisk: the blob store is the relay's own directory layout. */
  datatype Config = Config(quota: nat, keep: nat, grace: nat, gcEvery: nat, slack: nat, onDisk: bool,
                           sizeOf: Id -> nat, refsOf: Id -> Option<seq<Id>>)

  predicate ValidConfig(c: Config) { c.keep >= 1 && c.slack >= 1 }

  const MAX_BLOB: nat := 0x40_0000
  const MAX_LANES: nat := 64

  datatype Rev = Rev(version: nat, root: Id, refs: Id)
  datatype Head = Head(cur: Rev, history: seq<Rev>)

  datatype Box = Box(
    // on disk and in the blob store
    log: Option<seq<Rec>>, torn: bool, store: set<Id>, files: map<Lane, Head>,
    // in memory
    loaded: bool, index: Index, lines: nat, bytes: int, blobs: int, reserved: int,
    inflight: map<Id, nat>, gen: nat, heads: map<Lane, Head>, lastGC: int)

  function LogOf(b: Box): seq<Rec> { if b.log.Some? then b.log.value else [] }

  /** The index as a reload would see it. */
  function Disk(b: Box): Index { Replay(LogOf(b)) }

  function Inflight(b: Box, id: Id): nat { if id in b.inflight then b.inflight[id] else 0 }

  ghost function Sizes(m: Index): map<Id, nat> { map id | id in m :: m[id].size }

  ghost function Recount(b: Box): Box {
    b.(bytes := Sum(Sizes(b.index)), blobs := |b.index|)
  }

  /* ---- the index log ---- */

  /** vaultIndexCompactLocked, when its atomic file replacement succeeds. */
  ghost function CompactBox(b: Box): Box {
    b.(log := Some(Compact(b.index)), torn := false, lines := |b.index| + 1)
  }

  /** vaultIndexAppendLocked; a failed append leaves everything as it was. */
  ghost function AppendRec(c: Config, b: Box, r: Rec, ok: bool): Box {
    if !ok then b
    else b.(log := Some(LogAfter(LogOf(b), b.lines, r, b.index, c.slack)), lines := LinesAfter(b.lines, b.index, c.slack))
  }

  /** vaultTouchLocked: the in-memory clock is set even when the log append fails. */
  ghost function TouchIds(c: Config, b: Box, ids: seq<Id>, now: int, ok: bool): Box {
    if ids == [] then b
    else AppendRec(c, b.(index := TouchAll(b.index, ids, now)), Touch(ids, now), ok)
  }

  /* ---- loading ---- */

  datatype LoadFault = Clean | IndexUnreadable | HeadsUnreadable

  ghost predicate Rebuilds(c: Config, b: Box) { b.log.None? && c.onDisk && b.store != {} }

  ghost function Scan(c: Config, store: set<Id>, modTime: Id -> int): Index {
    map id | id in store && c.sizeOf(id) > 0 :: Meta(c.sizeOf(id), modTime(id))
  }

  /** vaultLoadIndexLocked: replay (compacting away a torn tail), or, without an index file,
      a scan of the on-disk blob layout. */
  ghost function LoadIndex(c: Config, b: Box, modTime: Id -> int): Box {
    if b.log.Some? then
      var read := b.(index := Disk(b), lines := |b.log.value|);
      if b.torn then CompactBox(read) else read
    else if Rebuilds(c, b) then CompactBox(b.(index := Scan(c, b.store, modTime)))
    else b.(index := map[], lines := 0)
  }

  /** vaultLoadModeLocked on a box that is not loaded. */
  ghost function LoadBox(c: Config, b: Box, modTime: Id -> int, f: LoadFault): Box {
    match f
    case Clean => Recount(LoadIndex(c, b, modTime)).(heads := b.files, loaded := true)
    case IndexUnreadable => b.(index := map[])
    case HeadsUnreadable => LoadIndex(c, b, modTime)
  }

  /* ---- garbage collection ---- */

  function RevsOf(c: Config, h: Head): seq<Rev>
    requires ValidConfig(c)
  {
    [h.cur] + (if |h.history| > c.keep - 1 then h.history[..c.keep - 1] else h.history)
  }

  function RefIds(c: Config, refs: Id): set<Id> {
    match c.refsOf(refs)
    case None => {}
    case Some(ids) => set i | 0 <= i < |ids| :: ids[i]
  }

  /** Everything one version needs: its root, its refs blob and what the refs blob names. */
  function RevIds(c: Config, r: Rev): set<Id> { {r.root, r.refs} + RefIds(c, r.refs) }

  function HeadIds(c: Config, h: Head): set<Id>
    requires ValidConfig(c)
  {
    set r, id | r in RevsOf(c, h) && id in RevIds(c, r) :: id
  }

  function Live(c: Config, heads: map<Lane, Head>): set<Id>
    requires ValidConfig(c)
  {
    set lane, id | lane in heads && id in HeadIds(c, heads[lane]) :: id
  }

  /** Every refs blob of a retained version is in the store and is a list of ids. */
  ghost predicate RefsReadable(c: Config, heads: map<Lane, Head>, store: set<Id>)
    requires ValidConfig(c)
  {
    forall lane :: lane in heads ==> HeadReadable(c, heads[lane], store)
  }

  ghost predicate HeadReadable(c: Config, h: Head, store: set<Id>)
    requires ValidConfig(c)
  {
    forall r :: r in RevsOf(c, h) ==> r.refs in store && c.refsOf(r.refs).Some?
  }

  function Victims(c: Config, b: Box, now: int): set<Id>
    requires ValidConfig(c)
  {
    set id | id in b.index && id !in Live(c, b.heads) && b.index[id].at < now - c.grace && Inflight(b, id) == 0
  }

  /** Faults inside one collection: a refs blob cannot be read, the del line cannot be
      appended, the index cannot be re-read after that, some store deletes fail, the final
      compaction fails. */
  datatype GCFaults = GCFaults(readErr: bool, appendOk: bool, reloadOk: bool, undeleted: set<Id>, compactOk: bool)

  /** vaultGCLocked on a loaded box. */
  ghost function GC(c: Config, b: Box, now: int, f: GCFaults): Box
    requires ValidConfig(c)
  {
    var b0 := b.(lastGC := now);
    var victims := Victims(c, b, now);
    if (f.readErr && b.heads != map[]) || !RefsReadable(c, b.heads, b.store) || victims == {} then b0
    else
      var b1 := b0.(index := b.index - victims);
      if !f.appendOk then
        if f.reloadOk then Recount(b1.(index := Disk(b), lines := |LogOf(b)|))
        else Recount(b1.(loaded := false))
      else Swept(c, b0, victims, f)
  }

  /** The collection once its del line is logged: counters, store deletes, compaction. */
  ghost function Swept(c: Config, b: Box, gone: set<Id>, f: GCFaults): Box {
    var b2 := Recount(AppendRec(c, b.(index := b.index - gone), Del(Sorted(gone)), true));
    var b3 := b2.(store := b2.store - (gone - f.undeleted));
    if f.compactOk then CompactBox(b3) else b3
  }

  /* ---- uploads ---- */

  /** vaultReclaimLocked: one collection, at most every gcEvery; does the upload fit now? */
  ghost function Reclaim(c: Config, b: Box, need: nat, now: int, f: GCFaults): (Box, bool)
    requires ValidConfig(c)
  {
    if now - b.lastGC < c.gcEvery then (b, false)
    else var g := GC(c, b, now, f); (g, g.bytes + g.reserved + need <= c.quota)
  }

  datatype PutReply = BadSize | Existed | QuotaExceeded | Granted(gen: nat) | StoreFailed | Purged | NotRecorded | Recorded

  /** The locked section of vaultPutBlob that reserves quota, on a loaded box. */
  ghost function Reserve(c: Config, b: Box, id: Id, now: int, touchOk: bool, f: GCFaults): (Box, PutReply)
    requires ValidConfig(c)
  {
    var n := c.sizeOf(id);
    if n == 0 || n > MAX_BLOB then (b, BadSize)
    else if id in b.index then (TouchIds(c, b, [id], now, touchOk), Existed)
    else
      var (b1, fits) := if b.bytes + b.reserved + n > c.quota then Reclaim(c, b, n, now, f) else (b, true);
      if !fits then (b1, QuotaExceeded)
      else (Grant(c, b1, id), Granted(b1.gen))
  }

  ghost function Grant(c: Config, b: Box, id: Id): Box {
    b.(reserved := b.reserved + c.sizeOf(id), inflight := b.inflight[id := Inflight(b, id) + 1])
  }

  ghost function Release(c: Config, b: Box, id: Id): Box {
    b.(reserved := b.reserved - c.sizeOf(id),
       inflight := if Inflight(b, id) <= 1 then b.inflight - {id} else b.inflight[id := Inflight(b, id) - 1])
  }

  /** The last locked section of vaultPutBlob: gen is what the reservation saw, stored
      whether the store accepted the bytes. */
  ghost function Finish(c: Config, b: Box, id: Id, gen: nat, stored: bool, now: int, appendOk: bool, delOk: bool): (Box, PutReply) {
    var b1 := Release(c, b, id);
    if !stored then (b1, StoreFailed)
    else if b.gen != gen || !b.loaded then
      (if id !in b.index && Inflight(b1, id) == 0 && delOk then b1.(store := b1.store - {id}) else b1, Purged)
    else if id in b.index then (TouchIds(c, b1, [id], now, appendOk), Existed)
    else if !appendOk then (b1, NotRecorded)
    else
      var b2 := Record(c, b1, id, now);
      (b2.(bytes := b2.bytes + c.sizeOf(id), blobs := b2.blobs + 1), Recorded)
  }

  /** The index learns the blob, once the store has its bytes. */
  ghost function Record(c: Config, b: Box, id: Id, now: int): Box {
    AppendRec(c, b.(index := b.index[id := Meta(c.sizeOf(id), now)]), Put(id, c.sizeOf(id), now), true)
  }

  /* ---- has ---- */

  /** The queried ids that are indexed, each once, in order of first occurrence. */
  function Present(m: Index, ids: seq<Id>): seq<Id> {
    if ids == [] then []
    else
      var front, id := Present(m, ids[..|ids| - 1]), ids[|ids| - 1];
      if id in m && id !in front then front + [id] else front
  }

  function Missing(m: Index, ids: seq<Id>): seq<Id> {
    if ids == [] then []
    else
      var front, id := Missing(m, ids[..|ids| - 1]), ids[|ids| - 1];
      if id in m then front else front + [id]
  }

  lemma PresentExact(m: Index, ids: seq<Id>)
    ensures forall id :: id in Present(m, ids) <==> id in ids && id in m
    ensures forall id :: id in Missing(m, ids) <==> id in ids && id !in m
  {
  }

  /** vaultHas on a loaded box. */
  ghost function Has(c: Config, b: Box, ids: seq<Id>, now: int, touchOk: bool): (Box, seq<Id>) {
    (TouchIds(c, b, Present(b.index, ids), now, touchOk), Missing(b.index, ids))
  }

  /* ---- lane heads ---- */

  datatype HeadReply = Conflict(version: nat) | TooManyLanes | RefsUnreadable | BadRefs | MissingBlobs(ids: set<Id>) | WriteFailed | NoLane | Done

  function VersionOf(b: Box, lane: Lane): nat { if lane in b.heads then b.heads[lane].cur.version else 0 }

  function NextHead(c: Config, b: Box, lane: Lane, root: Id, refs: Id): Head
    requires ValidConfig(c)
  {
    var rev := Rev(VersionOf(b, lane) + 1, root, refs);
    if lane !in b.heads then Head(rev, [])
    else
      var hist := [b.heads[lane].cur] + b.heads[lane].history;
      Head(rev, if |hist| > c.keep - 1 then hist[..c.keep - 1] else hist)
  }

  /** vaultPutHead on a loaded box: compare-and-swap on the version, refused unless the
      version is complete. */
  function PutHead(c: Config, b: Box, lane: Lane, prev: nat, root: Id, refs: Id, readErr: bool, writeOk: bool): (Box, HeadReply)
    requires ValidConfig(c)
  {
    if prev != VersionOf(b, lane) then (b, Conflict(VersionOf(b, lane)))
    else if lane !in b.heads && |b.heads| >= MAX_LANES then (b, TooManyLanes)
    else if root !in b.index || refs !in b.index then (b, MissingBlobs(set id | id in {root, refs} && id !in b.index))
    else if readErr || refs !in b.store then (b, RefsUnreadable)
    else if c.refsOf(refs).None? then (b, BadRefs)
    else
      var missing := set id | id in RefIds(c, refs) && id !in b.index;
      if missing != {} then (b, MissingBlobs(missing))
      else if !writeOk then (b, WriteFailed)
      else
        var next := NextHead(c, b, lane, root, refs);
        (b.(files := b.files[lane := next], heads := b.heads[lane := next]), Done)
  }

  /** vaultDeleteHead on a loaded box. */
  function DeleteHead(b: Box, lane: Lane, prev: nat, removeOk: bool): (Box, HeadReply) {
    if lane !in b.heads then (b, NoLane)
    else if b.heads[lane].cur.version != prev then (b, Conflict(b.heads[lane].cur.version))
    else if !removeOk then (b, WriteFailed)
    else (b.(files := b.files - {lane}, heads := b.heads - {lane}), Done)
  }

  /* ---- purge ---- */

  /** How far a purge gets: the index rewrite fails; the lane files are only partly removed;
      the store keeps some blobs; the directory removal fails (with or without the index
      file gone); or it completes. */
  datatype PurgeEnd = IndexStays | HeadsStay(removed: set<Lane>) | BlobsStay(left: set<Id>) | DirStays(logGone: bool) | Completed

  predicate HasDir(c: Config, b: Box) { b.log.Some? || b.files != map[] || (c.onDisk && b.store != {}) }

  /** vaultPurge on a loaded box. */
  ghost function Purge(c: Config, b: Box, e: PurgeEnd): Box {
    var b0 := b.(gen := b.gen + 1, index := map[]);
    if HasDir(c, b) then PurgeDir(b0, e) else Wipe(b0, e)
  }

  /** Where there is a directory, the emptied index is written before anything is removed. */
  ghost function PurgeDir(b: Box, e: PurgeEnd): Box {
    if e.IndexStays? then b.(loaded := false)
    else if e.HeadsStay? then var b1 := CompactBox(b); b1.(files := b1.files - e.removed, loaded := false)
    else Wipe(CompactBox(b), e)
  }

  /** The rest of a purge, once the index is empty: lanes, counters, blobs, directory. */
  ghost function Wipe(b: Box, e: PurgeEnd): Box {
    var b2 := Recount(b.(files := map[], heads := map[]));
    match e
    case BlobsStay(left) => b2.(store := b2.store * left)
    case DirStays(gone) => b2.(store := {}, loaded := false, log := if gone then None else b2.log)
    case _ => b2.(store := {}, log := None, torn := false, lines := 0)
  }

  /* ---- crash ---- */

  /** The process dies, perhaps in the middle of an append. */
  function CrashBox(b: Box, tail: bool): Box {
    Box(if tail then Some(LogOf(b)) else b.log, b.torn || tail, b.store, b.files,
        false, map[], 0, 0, 0, 0, map[], 0, map[], 0)
  }
}
