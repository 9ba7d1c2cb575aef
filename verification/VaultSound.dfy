/** What holds of log and memory in every run of the vault, whatever fails. */
module VaultSound {
  import opened Collections
  import opened VaultLog
  import opened Vault
  import opened VaultRuns

  /** Log and memory agree, and no upload is empty. */
  ghost predicate Sound(c: Config, s: Sys) {
    LogInv(c, s.box, s.now) && forall u :: u in s.uploads ==> c.sizeOf(s.uploads[u].id) > 0
  }

  lemma ReserveSound(c: Config, b: Box, id: Id, now: int, touchOk: bool, f: GCFaults)
    requires ValidConfig(c) && LogInv(c, b, now) && b.loaded
    ensures var (b', reply) := Reserve(c, b, id, now, touchOk, f); LogInv(c, b', now) && (reply.Granted? ==> c.sizeOf(id) > 0)
  {
    var g := GC(c, b, now, f);
    ReserveCases(c, b, id, now, touchOk, f);
    TouchKeeps(c, b, [id], now, touchOk);
    GCKeeps(c, b, now, f);
    GrantSound(c, b, now, id);
    GrantSound(c, g, now, id);
  }

  lemma GrantSound(c: Config, b: Box, now: int, id: Id)
    requires LogInv(c, b, now)
    ensures LogInv(c, Grant(c, b, id), now)
  {
    assert LogOf(Grant(c, b, id)) == LogOf(b);
  }

  lemma FinishSound(c: Config, b: Box, now: int, id: Id, gen: nat, stored: bool, appendOk: bool, delOk: bool)
    requires LogInv(c, b, now) && c.sizeOf(id) > 0
    ensures LogInv(c, Finish(c, b, id, gen, stored, now, appendOk, delOk).0, now)
  {
    var r := Release(c, b, id);
    var b' := Finish(c, b, id, gen, stored, now, appendOk, delOk).0;
    ReleaseKeepsBox(c, b, now, id);
    FinishCases(c, b, id, gen, stored, now, appendOk, delOk);
    if b' == r || b' == r.(store := r.store - {id}) {
      assert LogOf(b') == LogOf(r);
    } else if b' == TouchIds(c, r, [id], now, appendOk) {
      TouchKeeps(c, r, [id], now, appendOk);
    } else {
      RecordKeeps(c, r, id, now);
      assert LogOf(b') == LogOf(Record(c, r, id, now));
    }
  }

  lemma PurgeSound(c: Config, b: Box, now: int, e: PurgeEnd)
    requires LogInv(c, b, now) && b.loaded
    ensures LogInv(c, Purge(c, b, e), now)
  {
    if HasDir(c, b) && e.IndexStays? {
      assert LogOf(Purge(c, b, e)) == LogOf(b);
    } else {
      PurgeEmpties(c, b, e);
    }
  }

  /** Head updates and deletes change nothing but the lanes. */
  lemma HeadStepSame(c: Config, s: Sys, l: Label, s': Sys)
    requires ValidConfig(c) && (l.SetHead? || l.DropHead?) && Step(c, s, l, s')
    ensures s'.box == s.box.(files := s'.box.files, heads := s'.box.heads) && LogOf(s'.box) == LogOf(s.box) && s'.uploads == s.uploads
    ensures s.box.heads == s.box.files ==> s'.box.heads == s'.box.files
  {
    match l {
      case SetHead(lane, prev, root, refs, readErr, writeOk) => PutHeadFrame(c, s.box, lane, prev, root, refs, readErr, writeOk);
      case DropHead(lane, prev, writeOk) => DeleteHeadFrame(s.box, lane, prev, writeOk);
    }
  }

  lemma SameSound(c: Config, b: Box, now: int, b': Box, now': int)
    requires LogInv(c, b, now) && now <= now' && LogOf(b') == LogOf(b) && (b'.torn ==> !b'.loaded && b'.log.Some?)
    requires b'.index == b.index || (b'.index == map[] && !b'.loaded)
    requires b'.loaded ==> b.loaded && b'.lines == b.lines && b'.heads == b'.files
    ensures LogInv(c, b', now')
  {
  }

  lemma OtherSound(c: Config, s: Sys, l: Label, s': Sys)
    requires ValidConfig(c) && Sound(c, s) && Step(c, s, l, s') && (l.Tick? || l.StorePut? || l.SetHead? || l.DropHead? || l.Crash?)
    ensures Sound(c, s')
  {
    if l.SetHead? || l.DropHead? { HeadStepSame(c, s, l, s'); }
    SameSound(c, s.box, s.now, s'.box, s'.now);
  }

  lemma StepKeepsSound(c: Config, s: Sys, l: Label, s': Sys)
    requires ValidConfig(c) && Sound(c, s) && Step(c, s, l, s')
    ensures Sound(c, s')
  {
    match l {
      case Load(modTime, f) => LoadKeeps(c, s.box, s.now, modTime, f);
      case PutReserve(u, id, touchOk, f) => ReserveSound(c, s.box, id, s.now, touchOk, f);
      case PutFinish(u, a, d) => FinishSound(c, s.box, s.now, s.uploads[u].id, s.uploads[u].gen, s.uploads[u].phase.Stored?, a, d);
      case Confirm(ids, touchOk) => TouchKeeps(c, s.box, Present(s.box.index, ids), s.now, touchOk);
      case Collect(f) => GCKeeps(c, s.box, s.now, f);
      case PurgeAll(e) => PurgeSound(c, s.box, s.now, e);
      case _ => OtherSound(c, s, l, s');
    }
  }

  /** In every run, whatever fails, memory never claims more than the log, and while loaded
      they name the same blobs with the same sizes. */
  lemma {:induction false} RunSound(c: Config, run: seq<Sys>, ls: seq<Label>, n: nat)
    requires ValidConfig(c) && Behaves(c, run, ls) && Init(run[0]) && n < |run|
    ensures Sound(c, run[n])
  {
    if n > 0 {
      RunSound(c, run, ls, n - 1);
      assert StepAt(c, run, ls, n - 1);
      StepKeepsSound(c, run[n - 1], ls[n - 1], run[n]);
    }
  }

  /* ---- equal times ---- */

  /** The step sets a time in memory that it fails to log. */
  ghost predicate TouchLost(s: Sys, l: Label) {
    || (l.Confirm? && !l.touchOk)
    || (l.PutReserve? && !l.touchOk && l.id in s.box.index)
    || (l.PutFinish? && !l.appendOk && l.u in s.uploads && s.uploads[l.u].id in s.box.index)
  }

  ghost predicate InStep(b: Box) { b.loaded ==> b.index == Disk(b) }

  lemma TouchInStep(c: Config, b: Box, ids: seq<Id>, now: int)
    requires LogInv(c, b, now) && b.loaded && InStep(b)
    ensures InStep(TouchIds(c, b, ids, now, true))
  {
    AppendExact(c, b, b.(index := TouchAll(b.index, ids, now)), Touch(ids, now));
  }

  lemma AppendExact(c: Config, b: Box, t: Box, r: Rec)
    requires b.index == Disk(b) && b.lines == |LogOf(b)| && t == b.(index := Apply(b.index, r))
    ensures Disk(AppendRec(c, t, r, true)) == t.index
  {
    assert Refines(b.index, b.index);
    AppendInStep(LogOf(b), r, b.index, c.slack);
  }

  lemma SweptInStep(c: Config, b: Box, gone: set<Id>, f: GCFaults)
    requires b.index == Disk(b) && b.lines == |LogOf(b)|
    ensures InStep(Swept(c, b, gone, f))
  {
    var b1 := b.(index := b.index - gone);
    DelIsMinus(b.index, gone);
    AppendExact(c, b, b1, Del(Sorted(gone)));
    var b2 := AppendRec(c, b1, Del(Sorted(gone)), true);
    ReplayCompact(b2.index);
    assert LogOf(Swept(c, b, gone, f)) == if f.compactOk then Compact(b2.index) else LogOf(b2);
  }

  lemma GCInStep(c: Config, b: Box, now: int, f: GCFaults)
    requires ValidConfig(c) && LogInv(c, b, now) && b.loaded && InStep(b)
    ensures InStep(GC(c, b, now, f))
  {
    var b0 := b.(lastGC := now);
    SweptInStep(c, b0, Victims(c, b, now), f);
    assert GC(c, b, now, f) == b0 || GC(c, b, now, f) == Swept(c, b0, Victims(c, b, now), f) || !f.appendOk;
  }

  lemma ReserveInStep(c: Config, b: Box, id: Id, now: int, touchOk: bool, f: GCFaults)
    requires ValidConfig(c) && LogInv(c, b, now) && b.loaded && InStep(b) && (touchOk || id !in b.index)
    ensures InStep(Reserve(c, b, id, now, touchOk, f).0)
  {
    var g := GC(c, b, now, f);
    GCInStep(c, b, now, f);
    assert LogOf(Grant(c, g, id)) == LogOf(g) && LogOf(Grant(c, b, id)) == LogOf(b);
    if id in b.index { TouchInStep(c, b, [id], now); } else { ReserveNew(c, b, id, now, touchOk, f); }
  }

  lemma ReserveNew(c: Config, b: Box, id: Id, now: int, touchOk: bool, f: GCFaults)
    requires ValidConfig(c) && id !in b.index
    ensures var b' := Reserve(c, b, id, now, touchOk, f).0; var g := GC(c, b, now, f);
            b' == b || b' == g || b' == Grant(c, b, id) || b' == Grant(c, g, id)
  {
    var n := c.sizeOf(id);
    if 0 < n <= MAX_BLOB && b.bytes + b.reserved + n > c.quota {
      ReserveCollects(c, b, id, now, touchOk, f, Reclaim(c, b, n, now, f).0, Reclaim(c, b, n, now, f).1);
    }
  }

  lemma FinishInStep(c: Config, b: Box, now: int, id: Id, gen: nat, stored: bool, appendOk: bool, delOk: bool)
    requires LogInv(c, b, now) && InStep(b) && (appendOk || id !in b.index)
    ensures InStep(Finish(c, b, id, gen, stored, now, appendOk, delOk).0)
  {
    var r := Release(c, b, id);
    var b' := Finish(c, b, id, gen, stored, now, appendOk, delOk).0;
    ReleaseKeepsBox(c, b, now, id);
    FinishCases(c, b, id, gen, stored, now, appendOk, delOk);
    if b' == r || b' == r.(store := r.store - {id}) {
      assert LogOf(b') == LogOf(r);
    } else if r.loaded && id in r.index {
      TouchInStep(c, r, [id], now);
    } else {
      AppendExact(c, r, r.(index := r.index[id := Meta(c.sizeOf(id), now)]), Put(id, c.sizeOf(id), now));
      assert LogOf(b') == LogOf(Record(c, r, id, now));
    }
  }

  /** Steps that leave log and index alone. */
  lemma SameInStep(b: Box, b': Box)
    requires InStep(b) && (b'.loaded ==> b.loaded && LogOf(b') == LogOf(b) && b'.index == b.index)
    ensures InStep(b')
  {
  }

  lemma OtherInStep(c: Config, s: Sys, l: Label, s': Sys)
    requires ValidConfig(c) && InStep(s.box) && Step(c, s, l, s') && (l.Tick? || l.StorePut? || l.SetHead? || l.DropHead? || l.Crash?)
    ensures InStep(s'.box)
  {
    if l.SetHead? || l.DropHead? { HeadStepSame(c, s, l, s'); }
    SameInStep(s.box, s'.box);
  }

  lemma PurgeInStep(c: Config, b: Box, now: int, e: PurgeEnd)
    requires LogInv(c, b, now) && b.loaded
    ensures InStep(Purge(c, b, e))
  {
    if !(HasDir(c, b) && e.IndexStays?) { PurgeEmpties(c, b, e); }
  }

  lemma LoadInStep(c: Config, b: Box, now: int, modTime: Id -> int, f: LoadFault)
    requires LogInv(c, b, now) && !b.loaded && forall id :: id in b.store ==> modTime(id) <= now
    ensures InStep(LoadBox(c, b, modTime, f))
  {
    LoadIndexKeeps(c, b, now, modTime);
    if f.Clean? { assert LogOf(LoadBox(c, b, modTime, f)) == LogOf(LoadIndex(c, b, modTime)); }
  }

  lemma StepInStep(c: Config, s: Sys, l: Label, s': Sys)
    requires ValidConfig(c) && Sound(c, s) && Step(c, s, l, s') && (InStep(s.box) || l.Load?) && !TouchLost(s, l)
    ensures InStep(s'.box)
  {
    match l {
      case Load(modTime, f) => LoadInStep(c, s.box, s.now, modTime, f);
      case PutReserve(u, id, touchOk, f) => ReserveInStep(c, s.box, id, s.now, touchOk, f);
      case PutFinish(u, a, d) => FinishInStep(c, s.box, s.now, s.uploads[u].id, s.uploads[u].gen, s.uploads[u].phase.Stored?, a, d);
      case Confirm(ids, touchOk) => TouchInStep(c, s.box, Present(s.box.index, ids), s.now);
      case Collect(f) => GCInStep(c, s.box, s.now, f);
      case PurgeAll(e) => PurgeInStep(c, s.box, s.now, e);
      case _ => OtherInStep(c, s, l, s');
    }
  }

  ghost predicate TouchLostAt(run: seq<Sys>, ls: seq<Label>, k: nat)
    requires k < |ls| && |run| == |ls| + 1
  {
    TouchLost(run[k], ls[k])
  }

  lemma NextInStep(c: Config, run: seq<Sys>, ls: seq<Label>, k: nat)
    requires ValidConfig(c) && Behaves(c, run, ls) && Init(run[0]) && k < |ls|
    requires (InStep(run[k].box) || ls[k].Load?) && !TouchLostAt(run, ls, k)
    ensures InStep(run[k + 1].box)
  {
    RunSound(c, run, ls, k);
    assert StepAt(c, run, ls, k);
    StepInStep(c, run[k], ls[k], run[k + 1]);
  }

  /** From the start, or from any load on, until a touch fails to be logged, the log replays
      to exactly the index in memory, times included. */
  lemma {:induction false} LogRepeatsMemory(c: Config, run: seq<Sys>, ls: seq<Label>, i: nat, n: nat)
    requires ValidConfig(c) && Behaves(c, run, ls) && Init(run[0]) && i <= n < |run|
    requires i == 0 || ls[i - 1].Load?
    requires forall k :: i <= k < n ==> !TouchLostAt(run, ls, k)
    ensures InStep(run[n].box)
    decreases n - i
  {
    if i < n {
      LogRepeatsMemory(c, run, ls, i, n - 1);
      NextInStep(c, run, ls, n - 1);
    } else if i > 0 {
      NextInStep(c, run, ls, i - 1);
    }
  }
}
