/** The grace promise: a client that was told a blob is stored has vaultGrace to publish a
    head that names it. */
module VaultGrace {
  import opened Collections
  import opened VaultLog
  import opened Vault
  import opened VaultRuns
  import opened VaultSound

  /** The log says id was confirmed at time t or later. */
  ghost predicate Held(b: Box, id: Id, t: int) { id in Disk(b) && Disk(b)[id].at >= t }

  /** Memory says so. */
  ghost predicate Remembered(b: Box, id: Id, t: int) { b.loaded && id in b.index && b.index[id].at >= t }

  /** The step tells a client that id is stored: has, an idempotent put, a finished upload. */
  ghost predicate Tells(c: Config, s: Sys, l: Label, id: Id) {
    || (l.Confirm? && id in l.ids && id in s.box.index)
    || (l.PutReserve? && l.id == id && 0 < c.sizeOf(id) <= MAX_BLOB && id in s.box.index)
    || (l.PutFinish? && l.u in s.uploads && s.uploads[l.u].id == id && s.uploads[l.u].phase.Stored?
        && s.uploads[l.u].gen == s.box.gen && s.box.loaded && (l.appendOk || id in s.box.index))
  }

  /** And the log takes it down. */
  ghost predicate Confirms(c: Config, s: Sys, l: Label, id: Id) {
    Tells(c, s, l, id) && (if l.PutFinish? then l.appendOk else l.touchOk)
  }

  /* ---- a confirmation is logged ---- */

  lemma TouchHolds(c: Config, b: Box, ids: seq<Id>, now: int, id: Id)
    requires LogInv(c, b, now) && b.loaded && id in ids && id in b.index
    ensures Held(TouchIds(c, b, ids, now, true), id, now)
  {
    var t := b.(index := TouchAll(b.index, ids, now));
    assert TouchAll(Disk(b), ids, now)[id].at == now && t.index[id].at == now;
    AppendDisk(c, b.index, t, Touch(ids, now));
  }

  lemma RecordHolds(c: Config, b: Box, id: Id, now: int)
    requires LogInv(c, b, now) && b.loaded && id !in b.index
    ensures Held(Record(c, b, id, now), id, now)
  {
    var t := b.(index := b.index[id := Meta(c.sizeOf(id), now)]);
    AppendDisk(c, b.index, t, Put(id, c.sizeOf(id), now));
  }

  lemma FinishHolds(c: Config, s: Sys, u: UploadId, delOk: bool)
    requires Sound(c, s) && u in s.uploads && s.uploads[u].phase.Stored? && s.uploads[u].gen == s.box.gen && s.box.loaded
    ensures var up := s.uploads[u]; Held(Finish(c, s.box, up.id, up.gen, true, s.now, true, delOk).0, up.id, s.now)
  {
    var up := s.uploads[u];
    var r := Release(c, s.box, up.id);
    ReleaseKeepsBox(c, s.box, s.now, up.id);
    if up.id in r.index {
      TouchHolds(c, r, [up.id], s.now, up.id);
    } else {
      RecordHolds(c, r, up.id, s.now);
      var b := Finish(c, s.box, up.id, up.gen, true, s.now, true, delOk).0;
      assert LogOf(b) == LogOf(Record(c, r, up.id, s.now));
    }
  }

  lemma ConfirmedIsHeld(c: Config, s: Sys, l: Label, s': Sys, id: Id)
    requires ValidConfig(c) && Sound(c, s) && Step(c, s, l, s') && Confirms(c, s, l, id)
    ensures Held(s'.box, id, s.now)
  {
    if l.Confirm? {
      PresentExact(s.box.index, l.ids);
      TouchHolds(c, s.box, Present(s.box.index, l.ids), s.now, id);
    } else if l.PutReserve? {
      TouchHolds(c, s.box, [id], s.now, id);
    } else {
      FinishHolds(c, s, l.u, l.delOk);
    }
  }

  /* ---- and stays logged ---- */

  lemma TouchKeepsHeld(c: Config, b: Box, ids: seq<Id>, now: int, ok: bool, id: Id, t: int)
    requires LogInv(c, b, now) && b.loaded && Held(b, id, t)
    ensures Held(TouchIds(c, b, ids, now, ok), id, t)
  {
    var u := b.(index := TouchAll(b.index, ids, now));
    assert TouchAll(Disk(b), ids, now)[id].at >= t && u.index[id].at >= t;
    AppendDisk(c, b.index, u, Touch(ids, now));
  }

  lemma GCKeepsHeld(c: Config, b: Box, now: int, f: GCFaults, id: Id, t: int)
    requires ValidConfig(c) && LogInv(c, b, now) && b.loaded && Held(b, id, t) && now <= t + c.grace
    ensures Held(GC(c, b, now, f), id, t)
  {
    var gone := Victims(c, b, now);
    var b0 := b.(lastGC := now);
    assert id in b.index && id !in gone;
    SweptHeld(c, b0, now, gone, f, id, t);
    assert GC(c, b, now, f) == b0 || GC(c, b, now, f) == Swept(c, b0, gone, f) || !f.appendOk;
  }

  lemma LoggedHeld(c: Config, b: Box, now: int, gone: set<Id>, id: Id, t: int)
    requires LogInv(c, b, now) && b.loaded && Held(b, id, t) && gone <= b.index.Keys && id !in gone
    ensures var b2 := AppendRec(c, b.(index := b.index - gone), Del(Sorted(gone)), true);
            Held(b2, id, t) && b2.index == b.index - gone && b2.index[id].at >= t
  {
    var b1 := b.(index := b.index - gone);
    DelIsMinus(b.index, gone);
    DelIsMinus(Disk(b), gone);
    AppendDisk(c, b.index, b1, Del(Sorted(gone)));
  }

  lemma SweptHeld(c: Config, b: Box, now: int, gone: set<Id>, f: GCFaults, id: Id, t: int)
    requires LogInv(c, b, now) && b.loaded && Held(b, id, t) && gone <= b.index.Keys && id !in gone
    ensures Held(Swept(c, b, gone, f), id, t)
  {
    LoggedHeld(c, b, now, gone, id, t);
    var b2 := AppendRec(c, b.(index := b.index - gone), Del(Sorted(gone)), true);
    var b' := Swept(c, b, gone, f);
    ReplayCompact(b2.index);
    assert LogOf(b') == if f.compactOk then Compact(b2.index) else LogOf(b2);
  }

  lemma ReserveKeepsHeld(c: Config, s: Sys, x: Id, touchOk: bool, f: GCFaults, id: Id, t: int)
    requires ValidConfig(c) && Sound(c, s) && s.box.loaded && Held(s.box, id, t) && s.now <= t + c.grace
    ensures Held(Reserve(c, s.box, x, s.now, touchOk, f).0, id, t)
  {
    var g := GC(c, s.box, s.now, f);
    TouchKeepsHeld(c, s.box, [x], s.now, touchOk, id, t);
    GCKeepsHeld(c, s.box, s.now, f, id, t);
    assert LogOf(Grant(c, g, x)) == LogOf(g) && LogOf(Grant(c, s.box, x)) == LogOf(s.box);
    ReserveCases(c, s.box, x, s.now, touchOk, f);
  }

  lemma RecordKeepsHeld(c: Config, b: Box, x: Id, now: int, id: Id, t: int)
    requires LogInv(c, b, now) && b.loaded && x !in b.index && Held(b, id, t)
    ensures Held(Record(c, b, x, now), id, t)
  {
    AppendDisk(c, b.index, b.(index := b.index[x := Meta(c.sizeOf(x), now)]), Put(x, c.sizeOf(x), now));
  }

  lemma FinishKeepsHeld(c: Config, s: Sys, u: UploadId, appendOk: bool, delOk: bool, id: Id, t: int)
    requires Sound(c, s) && u in s.uploads && Held(s.box, id, t)
    ensures var up := s.uploads[u]; Held(Finish(c, s.box, up.id, up.gen, up.phase.Stored?, s.now, appendOk, delOk).0, id, t)
  {
    var up := s.uploads[u];
    var r := Release(c, s.box, up.id);
    ReleaseKeepsBox(c, s.box, s.now, up.id);
    FinishCases(c, s.box, up.id, up.gen, up.phase.Stored?, s.now, appendOk, delOk);
    if r.loaded {
      TouchKeepsHeld(c, r, [up.id], s.now, appendOk, id, t);
      if up.id !in r.index { RecordKeepsHeld(c, r, up.id, s.now, id, t); }
    }
  }

  lemma StepKeepsHeld(c: Config, s: Sys, l: Label, s': Sys, id: Id, t: int)
    requires ValidConfig(c) && Sound(c, s) && Step(c, s, l, s') && !l.PurgeAll?
    requires Held(s.box, id, t) && s.now <= t + c.grace
    ensures Held(s'.box, id, t)
  {
    match l {
      case Tick(dt) =>
      case Load(m, f) => LoadKeepsHeld(c, s.box, s.now, m, f, id, t);
      case PutReserve(u, x, ok, f) => ReserveKeepsHeld(c, s, x, ok, f, id, t);
      case StorePut(_, _, _) => SameLogHeld(s.box, s'.box, id, t);
      case PutFinish(u, a, d) => FinishKeepsHeld(c, s, u, a, d, id, t);
      case Confirm(ids, ok) => TouchKeepsHeld(c, s.box, Present(s.box.index, ids), s.now, ok, id, t);
      case Collect(f) => GCKeepsHeld(c, s.box, s.now, f, id, t);
      case SetHead(_, _, _, _, _, _) => HeadStepSame(c, s, l, s');
      case DropHead(_, _, _) => HeadStepSame(c, s, l, s');
      case Crash(tail) => SameLogHeld(s.box, s'.box, id, t);
    }
  }

  lemma SameLogHeld(b: Box, b': Box, id: Id, t: int)
    requires Held(b, id, t) && LogOf(b') == LogOf(b)
    ensures Held(b', id, t)
  {
  }

  lemma LoadKeepsHeld(c: Config, b: Box, now: int, m: Id -> int, f: LoadFault, id: Id, t: int)
    requires LogInv(c, b, now) && Held(b, id, t) && !b.loaded && (forall x :: x in b.store ==> m(x) <= now)
    ensures Held(LoadBox(c, b, m, f), id, t)
  {
    assert b.log.None? ==> Disk(b) == map[];
    LoadIndexKeeps(c, b, now, m);
    if f.IndexUnreadable? { SameLogHeld(b, LoadBox(c, b, m, f), id, t); }
    else { SameLogHeld(LoadIndex(c, b, m), LoadBox(c, b, m, f), id, t); }
  }

  lemma ClockForward(c: Config, s: Sys, l: Label, s': Sys)
    requires ValidConfig(c) && Step(c, s, l, s')
    ensures s.now <= s'.now
  {
  }

  /* ---- what memory keeps ---- */

  lemma TouchRemembers(c: Config, b: Box, ids: seq<Id>, now: int, ok: bool, id: Id, t: int)
    requires b.loaded && t <= now && id in b.index && (b.index[id].at >= t || id in ids)
    ensures Remembered(TouchIds(c, b, ids, now, ok), id, t)
  {
    if ids != [] { assert id in TouchAll(b.index, ids, now); }
  }

  /** The collection cannot log its deletions, so it gives up what memory knows. */
  ghost predicate Aborts(c: Config, b: Box, now: int, f: GCFaults)
    requires ValidConfig(c)
  {
    !f.appendOk && !(f.readErr && b.heads != map[]) && RefsReadable(c, b.heads, b.store) && Victims(c, b, now) != {}
  }

  lemma GCRemembers(c: Config, b: Box, now: int, f: GCFaults, id: Id, t: int)
    requires ValidConfig(c) && Remembered(b, id, t) && now <= t + c.grace && !Aborts(c, b, now, f)
    ensures Remembered(GC(c, b, now, f), id, t)
  {
    assert id !in Victims(c, b, now);
  }

  /** The reserving section runs a collection. */
  ghost predicate Collects(c: Config, b: Box, id: Id, now: int) {
    0 < c.sizeOf(id) <= MAX_BLOB && id !in b.index && b.bytes + b.reserved + c.sizeOf(id) > c.quota && now - b.lastGC >= c.gcEvery
  }

  lemma ReserveRemembers(c: Config, b: Box, x: Id, now: int, touchOk: bool, f: GCFaults, id: Id, t: int)
    requires ValidConfig(c) && Remembered(b, id, t) && t <= now <= t + c.grace && !(Collects(c, b, x, now) && Aborts(c, b, now, f))
    ensures Remembered(Reserve(c, b, x, now, touchOk, f).0, id, t)
  {
    TouchRemembers(c, b, [x], now, touchOk, id, t);
    if Collects(c, b, x, now) {
      GCRemembers(c, b, now, f, id, t);
      ReserveNew(c, b, x, now, touchOk, f);
    } else {
      ReserveQuiet(c, b, x, now, touchOk, f);
    }
  }

  lemma ReserveQuiet(c: Config, b: Box, x: Id, now: int, touchOk: bool, f: GCFaults)
    requires ValidConfig(c) && !Collects(c, b, x, now)
    ensures var b' := Reserve(c, b, x, now, touchOk, f).0;
            b' == b || b' == TouchIds(c, b, [x], now, touchOk) || b' == Grant(c, b, x)
  {
  }

  lemma FinishRemembers(c: Config, b: Box, x: Id, gen: nat, stored: bool, now: int, appendOk: bool, delOk: bool, id: Id, t: int)
    requires Remembered(b, id, t) && t <= now
    ensures Remembered(Finish(c, b, x, gen, stored, now, appendOk, delOk).0, id, t)
  {
    var r := Release(c, b, x);
    FinishCases(c, b, x, gen, stored, now, appendOk, delOk);
    TouchRemembers(c, r, [x], now, appendOk, id, t);
  }

  /** Steps after which memory is what the log says: a crash, or a collection that aborts. */
  ghost predicate Reloads(c: Config, s: Sys, l: Label)
    requires ValidConfig(c)
  {
    || l.Crash?
    || (l.Collect? && Aborts(c, s.box, s.now, l.gcFaults))
    || (l.PutReserve? && Collects(c, s.box, l.id, s.now) && Aborts(c, s.box, s.now, l.gcFaults))
  }

  lemma StepRemembers(c: Config, s: Sys, l: Label, s': Sys, id: Id, t: int)
    requires ValidConfig(c) && Step(c, s, l, s') && !l.PurgeAll? && !Reloads(c, s, l)
    requires Remembered(s.box, id, t) && t <= s.now <= t + c.grace
    ensures Remembered(s'.box, id, t)
  {
    match l {
      case PutReserve(u, x, ok, f) => ReserveRemembers(c, s.box, x, s.now, ok, f, id, t);
      case PutFinish(u, a, d) => FinishRemembers(c, s.box, s.uploads[u].id, s.uploads[u].gen, s.uploads[u].phase.Stored?, s.now, a, d, id, t);
      case Confirm(ids, ok) => TouchRemembers(c, s.box, Present(s.box.index, ids), s.now, ok, id, t);
      case Collect(f) => GCRemembers(c, s.box, s.now, f, id, t);
      case SetHead(lane, prev, root, refs, readErr, writeOk) => PutHeadFrame(c, s.box, lane, prev, root, refs, readErr, writeOk);
      case DropHead(lane, prev, writeOk) => DeleteHeadFrame(s.box, lane, prev, writeOk);
      case _ =>
    }
  }

  lemma ToldIsRemembered(c: Config, s: Sys, l: Label, s': Sys, id: Id)
    requires ValidConfig(c) && Step(c, s, l, s') && Tells(c, s, l, id)
    ensures Remembered(s'.box, id, s.now)
  {
    if l.Confirm? {
      PresentExact(s.box.index, l.ids);
      TouchRemembers(c, s.box, Present(s.box.index, l.ids), s.now, l.touchOk, id, s.now);
    } else if l.PutReserve? {
      TouchRemembers(c, s.box, [id], s.now, l.touchOk, id, s.now);
    } else if id in s.box.index {
      TouchRemembers(c, Release(c, s.box, id), [id], s.now, l.appendOk, id, s.now);
    }
  }

  /* ---- the promise ---- */

  /** The confirmation of time t is known, in memory or in the log. */
  ghost predicate Promised(b: Box, id: Id, t: int) { Held(b, id, t) || Remembered(b, id, t) }

  /** A reload keeps the promise if and only if the log had taken it down. */
  lemma ReloadKeepsIffHeld(c: Config, s: Sys, l: Label, s': Sys, id: Id, t: int)
    requires ValidConfig(c) && Sound(c, s) && Step(c, s, l, s') && Reloads(c, s, l) && s.now <= t + c.grace
    ensures Promised(s'.box, id, t) <==> Held(s.box, id, t)
  {
    if l.Crash? {
      assert LogOf(s'.box) == LogOf(s.box);
    } else {
      var g := GC(c, s.box, s.now, l.gcFaults);
      AbortForgets(c, s.box, s.now, l.gcFaults);
      if l.PutReserve? { ReserveRuns(c, s.box, l.id, s.now, l.touchOk, l.gcFaults); }
      Forgotten(c, s.box, g, s'.box, id, t);
    }
  }

  /** A box whose log is unchanged and whose memory, if any, is what the log says. */
  lemma Forgotten(c: Config, b: Box, g: Box, b': Box, id: Id, t: int)
    requires LogOf(g) == LogOf(b) && (g.loaded ==> g.index == Disk(b))
    requires b' == g.(reserved := b'.reserved, inflight := b'.inflight)
    ensures Promised(b', id, t) <==> Held(b, id, t)
  {
    assert LogOf(b') == LogOf(b);
  }

  lemma AbortForgets(c: Config, b: Box, now: int, f: GCFaults)
    requires ValidConfig(c) && Aborts(c, b, now, f)
    ensures var g := GC(c, b, now, f); LogOf(g) == LogOf(b) && (g.loaded ==> g.index == Disk(b))
  {
  }

  lemma ReserveRuns(c: Config, b: Box, id: Id, now: int, touchOk: bool, f: GCFaults)
    requires ValidConfig(c) && Collects(c, b, id, now)
    ensures var b' := Reserve(c, b, id, now, touchOk, f).0; var g := GC(c, b, now, f); b' == g || b' == Grant(c, g, id)
  {
  }

  lemma StepKeepsPromise(c: Config, s: Sys, l: Label, s': Sys, id: Id, t: int)
    requires ValidConfig(c) && Sound(c, s) && Step(c, s, l, s') && !l.PurgeAll?
    requires Promised(s.box, id, t) && t <= s.now <= t + c.grace && (Reloads(c, s, l) ==> Held(s.box, id, t))
    ensures Promised(s'.box, id, t)
  {
    if Held(s.box, id, t) { StepKeepsHeld(c, s, l, s', id, t); } else { StepRemembers(c, s, l, s', id, t); }
  }

  /** Every reload so far found the confirmation in the log. */
  ghost predicate LoggedAt(c: Config, run: seq<Sys>, ls: seq<Label>, k: nat, id: Id, t: int)
    requires ValidConfig(c) && k < |ls| && |run| == |ls| + 1
  {
    Reloads(c, run[k], ls[k]) ==> Held(run[k].box, id, t)
  }

  lemma ClockNext(c: Config, run: seq<Sys>, ls: seq<Label>, k: nat)
    requires ValidConfig(c) && Behaves(c, run, ls) && k < |ls|
    ensures run[k].now <= run[k + 1].now
  {
    assert StepAt(c, run, ls, k);
    ClockForward(c, run[k], ls[k], run[k + 1]);
  }

  lemma PromiseNext(c: Config, run: seq<Sys>, ls: seq<Label>, k: nat, id: Id, t: int)
    requires ValidConfig(c) && Behaves(c, run, ls) && Init(run[0]) && k < |ls|
    requires Promised(run[k].box, id, t) && !ls[k].PurgeAll? && t <= run[k].now <= t + c.grace && LoggedAt(c, run, ls, k, id, t)
    ensures Promised(run[k + 1].box, id, t)
  {
    RunSound(c, run, ls, k);
    assert StepAt(c, run, ls, k);
    StepKeepsPromise(c, run[k], ls[k], run[k + 1], id, t);
  }

  lemma PromiseStarts(c: Config, run: seq<Sys>, ls: seq<Label>, i: nat, id: Id)
    requires ValidConfig(c) && Behaves(c, run, ls) && Init(run[0]) && i < |ls| && Tells(c, run[i], ls[i], id)
    ensures Promised(run[i + 1].box, id, run[i].now) && run[i].now <= run[i + 1].now
    ensures Confirms(c, run[i], ls[i], id) ==> Held(run[i + 1].box, id, run[i].now)
  {
    RunSound(c, run, ls, i);
    ClockNext(c, run, ls, i);
    assert StepAt(c, run, ls, i);
    ToldIsRemembered(c, run[i], ls[i], run[i + 1], id);
    if Confirms(c, run[i], ls[i], id) { ConfirmedIsHeld(c, run[i], ls[i], run[i + 1], id); }
  }

  lemma {:induction false} PromisedThroughout(c: Config, run: seq<Sys>, ls: seq<Label>, i: nat, j: nat, id: Id, t: int)
    requires ValidConfig(c) && Behaves(c, run, ls) && Init(run[0]) && i <= j < |run|
    requires Promised(run[i].box, id, t) && t <= run[i].now && run[j].now <= t + c.grace
    requires forall k :: i <= k < j ==> !ls[k].PurgeAll? && LoggedAt(c, run, ls, k, id, t)
    ensures Promised(run[j].box, id, t) && t <= run[j].now
    decreases j
  {
    if i < j {
      ClockNext(c, run, ls, j - 1);
      PromisedThroughout(c, run, ls, i, j - 1, id, t);
      assert LoggedAt(c, run, ls, j - 1, id, t);
      PromiseNext(c, run, ls, j - 1, id, t);
    }
  }

  predicate RefusedFor(reply: HeadReply, id: Id) { reply.MissingBlobs? && id in reply.ids }

  /** The promise, as a client sees it: the id is indexed, and no head update is refused
      because of it. */
  ghost predicate Honoured(c: Config, b: Box, id: Id, t: int)
    requires ValidConfig(c)
  {
    && id in Disk(b)
    && (b.loaded ==> id in b.index && b.index[id].at >= t)
    && (b.loaded ==> forall lane, prev, root, refs, readErr, writeOk ::
          !RefusedFor(PutHead(c, b, lane, prev, root, refs, readErr, writeOk).1, id))
  }

  lemma PromisedIsHonoured(c: Config, b: Box, now: int, id: Id, t: int)
    requires ValidConfig(c) && LogInv(c, b, now) && Promised(b, id, t)
    ensures Honoured(c, b, id, t)
  {
  }

  /** If a client was told at time t that id is stored, then in every continuation without a
      purge id is indexed at every moment up to t + grace, and no head update in that time is
      refused because of it -- provided that every crash or aborted collection since found
      the confirmation in the log. */
  lemma GraceKept(c: Config, run: seq<Sys>, ls: seq<Label>, i: nat, j: nat, id: Id)
    requires ValidConfig(c) && Behaves(c, run, ls) && Init(run[0]) && i < j < |run|
    requires Tells(c, run[i], ls[i], id) && run[j].now <= run[i].now + c.grace
    requires forall k :: i < k < j ==> !ls[k].PurgeAll? && LoggedAt(c, run, ls, k, id, run[i].now)
    ensures Honoured(c, run[j].box, id, run[i].now)
  {
    PromiseStarts(c, run, ls, i, id);
    PromisedThroughout(c, run, ls, i + 1, j, id, run[i].now);
    RunSound(c, run, ls, j);
    PromisedIsHonoured(c, run[j].box, run[j].now, id, run[i].now);
  }

  /** In particular if the confirmation was logged, whatever crashes. */
  lemma LoggedGraceKept(c: Config, run: seq<Sys>, ls: seq<Label>, i: nat, j: nat, id: Id)
    requires ValidConfig(c) && Behaves(c, run, ls) && Init(run[0]) && i < j < |run|
    requires Confirms(c, run[i], ls[i], id) && run[j].now <= run[i].now + c.grace
    requires forall k :: i < k < j ==> !ls[k].PurgeAll?
    ensures Honoured(c, run[j].box, id, run[i].now)
  {
    PromiseStarts(c, run, ls, i, id);
    HeldThroughout(c, run, ls, i + 1, j, id, run[i].now);
    RunSound(c, run, ls, j);
    PromisedIsHonoured(c, run[j].box, run[j].now, id, run[i].now);
  }

  lemma HeldNext(c: Config, run: seq<Sys>, ls: seq<Label>, k: nat, id: Id, t: int)
    requires ValidConfig(c) && Behaves(c, run, ls) && Init(run[0]) && k < |ls|
    requires Held(run[k].box, id, t) && !ls[k].PurgeAll? && run[k].now <= t + c.grace
    ensures Held(run[k + 1].box, id, t)
  {
    RunSound(c, run, ls, k);
    assert StepAt(c, run, ls, k);
    StepKeepsHeld(c, run[k], ls[k], run[k + 1], id, t);
  }

  lemma {:induction false} HeldThroughout(c: Config, run: seq<Sys>, ls: seq<Label>, i: nat, j: nat, id: Id, t: int)
    requires ValidConfig(c) && Behaves(c, run, ls) && Init(run[0]) && i <= j < |run|
    requires Held(run[i].box, id, t) && forall k :: i <= k < j ==> !ls[k].PurgeAll?
    requires run[j].now <= t + c.grace
    ensures Held(run[j].box, id, t)
    decreases j
  {
    if i < j {
      ClockNext(c, run, ls, j - 1);
      HeldThroughout(c, run, ls, i, j - 1, id, t);
      HeldNext(c, run, ls, j - 1, id, t);
    }
  }

  /** The logging matters: a confirmation whose append failed is undone by a crash. The
      reloaded index is back at the old time, and an unreferenced blob whose old time is past
      its grace is a victim of the next collection. */
  lemma UnloggedConfirmationLost(c: Config, s: Sys, id: Id, modTime: Id -> int, later: int)
    requires ValidConfig(c) && Sound(c, s) && s.box.loaded && id in s.box.index
    requires id !in Live(c, s.box.files) && Disk(s.box)[id].at < later - c.grace
    ensures var told := Has(c, s.box, [id], s.now, false);
            var again := LoadBox(c, CrashBox(told.0, false), modTime, Clean);
            told.1 == [] && id in again.index && again.index[id] == Disk(s.box)[id] && id in Victims(c, again, later)
  {
    PresentExact(s.box.index, [id]);
    assert Missing(s.box.index, [id]) == Missing(s.box.index, []);
    var told := Has(c, s.box, [id], s.now, false).0;
    assert told.log == s.box.log && told.files == s.box.files && !told.torn;
    assert s.box.log.None? ==> Disk(s.box) == map[];
    var crashed := CrashBox(told, false);
    assert LogOf(crashed) == LogOf(s.box);
    var again := LoadBox(c, crashed, modTime, Clean);
    assert again.index == Disk(s.box) && again.heads == s.box.files && again.inflight == map[];
  }
}
