/** Lane heads: every retained version stays complete, and the head record of a lane is
    exactly the newest versions it was given. */
module VaultLanes {
  import opened Collections
  import opened VaultLog
  import opened Vault
  import opened VaultRuns
  import opened VaultSound

  function Min(a: int, b: int): int { if a < b then a else b }

  /** The head record of a lane that was given the versions p, oldest first. */
  ghost predicate Records(c: Config, h: Head, p: seq<Rev>) {
    && |p| >= 1 && h.cur == p[|p| - 1]
    && (forall i :: 0 <= i < |p| ==> p[i].version == i + 1)
    && |h.history| == Min(|p| - 1, c.keep - 1)
    && forall i :: 0 <= i < |h.history| ==> h.history[i] == p[|p| - 2 - i]
  }

  /** Root, refs blob and everything the refs blob names are among ids. */
  ghost predicate Complete(c: Config, r: Rev, ids: set<Id>) {
    c.refsOf(r.refs).Some? && RevIds(c, r) <= ids
  }

  ghost predicate HeadComplete(c: Config, h: Head, ids: set<Id>)
    requires ValidConfig(c)
  {
    forall r :: r in RevsOf(c, h) ==> Complete(c, r, ids)
  }

  ghost predicate AllComplete(c: Config, files: map<Lane, Head>, ids: set<Id>)
    requires ValidConfig(c)
  {
    forall lane :: lane in files ==> HeadComplete(c, files[lane], ids)
  }

  ghost predicate LanesInv(c: Config, s: Sys)
    requires ValidConfig(c)
  {
    && s.published.Keys == s.box.files.Keys
    && (forall lane :: lane in s.box.files ==> Records(c, s.box.files[lane], s.published[lane]))
    && (!s.cut ==> AllComplete(c, s.box.files, Disk(s.box).Keys))
  }

  /* ---- what each section does to the set of logged ids ---- */

  lemma LiveHas(c: Config, heads: map<Lane, Head>, lane: Lane, r: Rev)
    requires ValidConfig(c) && lane in heads && r in RevsOf(c, heads[lane])
    ensures RevIds(c, r) <= Live(c, heads)
  {
    forall id | id in RevIds(c, r) ensures id in Live(c, heads) {
      assert id in HeadIds(c, heads[lane]);
    }
  }

  /** A collection forgets only what no retained version needs. */
  lemma GCSparesLive(c: Config, b: Box, now: int, f: GCFaults)
    requires ValidConfig(c) && LogInv(c, b, now) && b.loaded
    ensures Disk(b).Keys * Live(c, b.files) <= Disk(GC(c, b, now, f)).Keys
  {
    var gone := Victims(c, b, now);
    var b0 := b.(lastGC := now);
    SweptKeeps(c, b0, now, gone, f);
    assert GC(c, b, now, f) == b0 || GC(c, b, now, f) == Swept(c, b0, gone, f) || !f.appendOk;
    assert gone !! Live(c, b.files);
  }

  /** The lanes are untouched and what they need is still logged. */
  ghost predicate Spares(c: Config, b: Box, b': Box)
    requires ValidConfig(c)
  {
    b'.files == b.files && Disk(b).Keys * Live(c, b.files) <= Disk(b').Keys
  }

  lemma GrantSpares(c: Config, b: Box, g: Box, id: Id)
    requires ValidConfig(c) && Spares(c, b, g)
    ensures Spares(c, b, Grant(c, g, id))
  {
    assert LogOf(Grant(c, g, id)) == LogOf(g);
  }

  lemma ReserveSpares(c: Config, s: Sys, id: Id, touchOk: bool, f: GCFaults)
    requires ValidConfig(c) && Sound(c, s) && s.box.loaded
    ensures Spares(c, s.box, Reserve(c, s.box, id, s.now, touchOk, f).0)
  {
    var b, t, g := s.box, TouchIds(c, s.box, [id], s.now, touchOk), GC(c, s.box, s.now, f);
    assert Spares(c, b, t) by { TouchKeeps(c, b, [id], s.now, touchOk); }
    assert Spares(c, b, g) by {
      GCSparesLive(c, b, s.now, f);
      GCKeeps(c, b, s.now, f);
    }
    GrantSpares(c, b, b, id);
    GrantSpares(c, b, g, id);
    ReserveCases(c, b, id, s.now, touchOk, f);
  }

  lemma FinishSpares(c: Config, s: Sys, u: UploadId, appendOk: bool, delOk: bool)
    requires Sound(c, s) && u in s.uploads
    ensures var up := s.uploads[u]; var b := Finish(c, s.box, up.id, up.gen, up.phase.Stored?, s.now, appendOk, delOk).0;
            b.files == s.box.files && Disk(s.box).Keys <= Disk(b).Keys
  {
    var up := s.uploads[u];
    var r := Release(c, s.box, up.id);
    ReleaseKeepsBox(c, s.box, s.now, up.id);
    FinishCases(c, s.box, up.id, up.gen, up.phase.Stored?, s.now, appendOk, delOk);
    if r.loaded {
      TouchKeeps(c, r, [up.id], s.now, appendOk);
      if up.id !in r.index { RecordKeeps(c, r, up.id, s.now); }
    }
  }

  lemma CollectSpares(c: Config, b: Box, now: int, f: GCFaults)
    requires ValidConfig(c) && LogInv(c, b, now) && b.loaded
    ensures Spares(c, b, GC(c, b, now, f))
  {
    GCSparesLive(c, b, now, f);
    GCKeeps(c, b, now, f);
  }

  lemma TouchSpares(c: Config, b: Box, ids: seq<Id>, now: int, ok: bool)
    requires ValidConfig(c) && LogInv(c, b, now) && b.loaded
    ensures Spares(c, b, TouchIds(c, b, ids, now, ok))
  {
    TouchKeeps(c, b, ids, now, ok);
  }

  lemma LoadSpares(c: Config, b: Box, now: int, m: Id -> int, f: LoadFault)
    requires ValidConfig(c) && LogInv(c, b, now) && !b.loaded && (forall id :: id in b.store ==> m(id) <= now)
    ensures Spares(c, b, LoadBox(c, b, m, f))
  {
    LoadIndexKeeps(c, b, now, m);
  }

  lemma SameLogSpares(c: Config, b: Box, b': Box)
    requires ValidConfig(c) && b'.files == b.files && LogOf(b') == LogOf(b)
    ensures Spares(c, b, b')
  {
  }

  /** Everything but head steps and purges leaves the lanes alone and logs at least what
      they need. */
  lemma StepSpares(c: Config, s: Sys, l: Label, s': Sys)
    requires ValidConfig(c) && Sound(c, s) && Step(c, s, l, s') && !l.SetHead? && !l.DropHead? && !l.PurgeAll?
    ensures Spares(c, s.box, s'.box)
  {
    match l {
      case Tick(dt) =>
      case Load(m, f) => LoadSpares(c, s.box, s.now, m, f);
      case PutReserve(u, id, ok, f) => ReserveSpares(c, s, id, ok, f);
      case StorePut(_, _, _) => SameLogSpares(c, s.box, s'.box);
      case PutFinish(u, a, d) => FinishSpares(c, s, u, a, d);
      case Confirm(ids, ok) => TouchSpares(c, s.box, Present(s.box.index, ids), s.now, ok);
      case Collect(f) => CollectSpares(c, s.box, s.now, f);
      case Crash(tail) => SameLogSpares(c, s.box, s'.box);
    }
  }

  lemma SparedStaysComplete(c: Config, files: map<Lane, Head>, ids: set<Id>, ids': set<Id>)
    requires ValidConfig(c) && AllComplete(c, files, ids) && ids * Live(c, files) <= ids'
    ensures AllComplete(c, files, ids')
  {
    forall lane, r | lane in files && r in RevsOf(c, files[lane]) ensures Complete(c, r, ids') {
      LiveHas(c, files, lane, r);
      assert HeadComplete(c, files[lane], ids);
      assert Complete(c, r, ids);
    }
  }

  lemma OtherStepKeepsLanes(c: Config, s: Sys, l: Label, s': Sys)
    requires ValidConfig(c) && Sound(c, s) && LanesInv(c, s) && Step(c, s, l, s') && !l.SetHead? && !l.DropHead? && !l.PurgeAll?
    ensures LanesInv(c, s')
  {
    StepSpares(c, s, l, s');
    if !s.cut { SparedStaysComplete(c, s.box.files, Disk(s.box).Keys, Disk(s'.box).Keys); }
  }

  /* ---- head updates ---- */

  /** The next head record holds the new version and the newest of the old ones. */
  lemma NextHeadRecords(c: Config, b: Box, lane: Lane, root: Id, refs: Id, p: seq<Rev>)
    requires ValidConfig(c)
    requires if lane in b.heads then Records(c, b.heads[lane], p) else p == []
    ensures var h := NextHead(c, b, lane, root, refs); Records(c, h, p + [h.cur])
  {
  }

  lemma NextHeadComplete(c: Config, b: Box, lane: Lane, root: Id, refs: Id, ids: set<Id>)
    requires ValidConfig(c) && (lane in b.heads ==> HeadComplete(c, b.heads[lane], ids) && |b.heads[lane].history| <= c.keep - 1)
    requires Complete(c, Rev(VersionOf(b, lane) + 1, root, refs), ids)
    ensures HeadComplete(c, NextHead(c, b, lane, root, refs), ids)
  {
  }

  /** What an accepted head update established. */
  lemma AcceptedHead(c: Config, b: Box, lane: Lane, prev: nat, root: Id, refs: Id, readErr: bool, writeOk: bool)
    requires ValidConfig(c) && PutHead(c, b, lane, prev, root, refs, readErr, writeOk).1.Done?
    ensures prev == VersionOf(b, lane)
    ensures Complete(c, Rev(VersionOf(b, lane) + 1, root, refs), b.index.Keys)
    ensures PutHead(c, b, lane, prev, root, refs, readErr, writeOk).0
            == var next := NextHead(c, b, lane, root, refs); b.(files := b.files[lane := next], heads := b.heads[lane := next])
  {
    var missing := set id | id in RefIds(c, refs) && id !in b.index;
    forall id | id in RefIds(c, refs) ensures id in b.index.Keys { assert id !in missing; }
  }

  /** A new head record in place of one lane's keeps the invariant of all lanes. */
  lemma ReplaceLane(c: Config, s: Sys, lane: Lane, h: Head, s': Sys)
    requires ValidConfig(c) && LanesInv(c, s)
    requires Records(c, h, Published(s, lane) + [h.cur]) && (!s.cut ==> HeadComplete(c, h, Disk(s.box).Keys))
    requires s'.box.files == s.box.files[lane := h] && s'.box.log == s.box.log && s'.cut == s.cut
    requires s'.published == s.published[lane := Published(s, lane) + [h.cur]]
    ensures LanesInv(c, s')
  {
    assert Disk(s'.box) == Disk(s.box);
  }

  lemma SetHeadKeepsLanes(c: Config, s: Sys, l: Label, s': Sys)
    requires ValidConfig(c) && Sound(c, s) && LanesInv(c, s) && Step(c, s, l, s') && l.SetHead?
    ensures LanesInv(c, s')
  {
    var b, lane := s.box, l.lane;
    var h := NextHead(c, b, lane, l.root, l.refs);
    if PutHead(c, b, lane, l.prev, l.root, l.refs, l.readErr, l.writeOk).1.Done? {
      AcceptedHead(c, b, lane, l.prev, l.root, l.refs, l.readErr, l.writeOk);
      NextHeadRecords(c, b, lane, l.root, l.refs, Published(s, lane));
      if !s.cut { NextHeadComplete(c, b, lane, l.root, l.refs, Disk(b).Keys); }
      ReplaceLane(c, s, lane, h, s');
    } else {
      RefusedHead(c, b, lane, l.prev, l.root, l.refs, l.readErr, l.writeOk);
    }
  }

  lemma RefusedHead(c: Config, b: Box, lane: Lane, prev: nat, root: Id, refs: Id, readErr: bool, writeOk: bool)
    requires ValidConfig(c) && !PutHead(c, b, lane, prev, root, refs, readErr, writeOk).1.Done?
    ensures PutHead(c, b, lane, prev, root, refs, readErr, writeOk).0 == b
  {
  }

  lemma DropHeadKeepsLanes(c: Config, s: Sys, l: Label, s': Sys)
    requires ValidConfig(c) && Sound(c, s) && LanesInv(c, s) && Step(c, s, l, s') && l.DropHead?
    ensures LanesInv(c, s')
  {
    assert Disk(s'.box) == Disk(s.box);
  }

  /* ---- purges ---- */

  lemma PurgeLanes(c: Config, b: Box, e: PurgeEnd)
    ensures var b' := Purge(c, b, e);
            && (b'.files == map[] || (HasDir(c, b) && (b'.files == b.files || (e.HeadsStay? && b'.files == b.files - e.removed))))
            && (b'.files != map[] && b'.log == b.log ==> Disk(b') == Disk(b))
  {
    if HasDir(c, b) && (e.IndexStays? || e.HeadsStay?) {
      if e.HeadsStay? { CompactBoxFiles(b.(gen := b.gen + 1, index := map[])); }
    } else {
      WipeEmpties(b.(gen := b.gen + 1, index := map[]), e);
      WipeEmpties(CompactBox(b.(gen := b.gen + 1, index := map[])), e);
    }
  }

  lemma WipeEmpties(b: Box, e: PurgeEnd)
    ensures Wipe(b, e).files == map[]
  {
  }

  lemma CompactBoxFiles(b: Box)
    ensures CompactBox(b).files == b.files
  {
  }

  lemma PurgeKeepsLanes(c: Config, s: Sys, l: Label, s': Sys)
    requires ValidConfig(c) && LanesInv(c, s) && Step(c, s, l, s') && l.PurgeAll?
    ensures LanesInv(c, s')
  {
    PurgeLanes(c, s.box, l.end);
    assert s'.published.Keys == s'.box.files.Keys;
    if !s'.cut && s'.box.files != map[] {
      assert Disk(s'.box) == Disk(s.box);
    }
  }

  /* ---- runs ---- */

  lemma {:induction false} RunKeepsLanes(c: Config, run: seq<Sys>, ls: seq<Label>, n: nat)
    requires ValidConfig(c) && Behaves(c, run, ls) && Init(run[0]) && n < |run|
    ensures LanesInv(c, run[n])
  {
    if n > 0 {
      RunKeepsLanes(c, run, ls, n - 1);
      RunSound(c, run, ls, n - 1);
      var s, l, s' := run[n - 1], ls[n - 1], run[n];
      assert StepAt(c, run, ls, n - 1);
      if l.SetHead? { SetHeadKeepsLanes(c, s, l, s'); }
      else if l.DropHead? { DropHeadKeepsLanes(c, s, l, s'); }
      else if l.PurgeAll? { PurgeKeepsLanes(c, s, l, s'); }
      else { OtherStepKeepsLanes(c, s, l, s'); }
    }
  }

  /** At every point of every run each retained version of each lane has its root, its refs
      blob and every id the refs blob names in the index, and the head record is exactly the
      last min(version, keep) versions the lane was given, consecutively numbered -- unless
      the last purge stopped between emptying the index and dropping the lanes. */
  lemma LanesStayComplete(c: Config, run: seq<Sys>, ls: seq<Label>, n: nat, lane: Lane, r: Rev)
    requires ValidConfig(c) && Behaves(c, run, ls) && Init(run[0]) && n < |run|
    requires lane in run[n].box.files && (r == run[n].box.files[lane].cur || r in run[n].box.files[lane].history)
    ensures lane in run[n].published && Records(c, run[n].box.files[lane], run[n].published[lane])
    ensures !run[n].cut ==> RevIds(c, r) <= Disk(run[n].box).Keys
    ensures !run[n].cut && run[n].box.loaded ==> RevIds(c, r) <= run[n].box.index.Keys
  {
    RunKeepsLanes(c, run, ls, n);
    RunSound(c, run, ls, n);
    if !run[n].cut {
      assert RevsOf(c, run[n].box.files[lane]) == [run[n].box.files[lane].cur] + run[n].box.files[lane].history;
      assert HeadComplete(c, run[n].box.files[lane], Disk(run[n].box).Keys);
      assert Complete(c, r, Disk(run[n].box).Keys);
    }
  }

  /** And such a purge does break it: any lane file it leaves behind names blobs that the
      index no longer has. */
  lemma CutPurgeBreaksLanes(c: Config, s: Sys, removed: set<Lane>, lane: Lane)
    requires ValidConfig(c) && LanesInv(c, s) && s.box.loaded && lane in s.box.files && lane !in removed
    ensures var b := Purge(c, s.box, HeadsStay(removed));
            && lane in b.files && Disk(b) == map[] && !AllComplete(c, b.files, Disk(b).Keys)
  {
    var b := Purge(c, s.box, HeadsStay(removed));
    CompactDisk(s.box.(gen := s.box.gen + 1, index := map[]));
    assert LogOf(b) == Compact(map[]);
    ReplayCompact(map[]);
    var h := s.box.files[lane];
    assert RevsOf(c, h)[0] == h.cur;
    assert h.cur.root in RevIds(c, h.cur);
    assert !Complete(c, h.cur, {});
    assert !HeadComplete(c, b.files[lane], {});
  }
}
