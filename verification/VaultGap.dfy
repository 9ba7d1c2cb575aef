/** The one way the vault's ordering argument fails, and that it really does. */
module VaultGap {
  import opened Collections
  import opened VaultLog
  import opened Vault
  import opened VaultRuns

  /** Finishing the uploads of an id one after the other in an unloaded box whose memory has
      forgotten the id: the last one that the store accepted deletes the bytes. */
  lemma {:induction false} Drain(c: Config, s: Sys, u: UploadId) returns (run: seq<Sys>, ls: seq<Label>)
    requires ValidConfig(c) && u in s.uploads && !s.uploads[u].phase.Failed?
    requires !s.box.loaded && s.uploads[u].id !in s.box.index
    requires Inflight(s.box, s.uploads[u].id) == |UploadsOf(s.uploads, s.uploads[u].id)|
    ensures Behaves(c, run, ls) && run[0] == s
    ensures run[|ls|].box.log == s.box.log && s.uploads[u].id !in run[|ls|].box.store
    decreases |UploadsOf(s.uploads, s.uploads[u].id)|
  {
    var x := s.uploads[u].id;
    var us := UploadsOf(s.uploads, x);
    if us == {u} {
      run, ls := FinishOne(c, s, u, true);
      assert Inflight(s.box, x) == 1;
    } else {
      var v := Other(us, u);
      var run1, ls1 := FinishOne(c, s, v, false);
      var s1 := run1[|ls1|];
      UploadsAfterRemove(s.uploads, v, x);
      var run2, ls2 := Drain(c, s1, u);
      run, ls := Glue(c, run1, ls1, run2, ls2);
    }
  }

  lemma Other(us: set<UploadId>, u: UploadId) returns (v: UploadId)
    requires u in us && us != {u}
    ensures v in us && v != u && |us| >= 2
  {
    var rest := us - {u};
    assert us == rest + {u};
    v := Pick(rest);
  }

  /** The state after upload u's store write has come back. */
  ghost function Settled(s: Sys, u: UploadId, ok: bool): Sys
    requires u in s.uploads
  {
    if !s.uploads[u].phase.Storing? then s
    else s.(box := if ok then s.box.(store := s.box.store + {s.uploads[u].id}) else s.box,
            uploads := s.uploads[u := s.uploads[u].(phase := if ok then Stored else Failed)])
  }

  ghost function Finished(c: Config, s: Sys, u: UploadId): Sys
    requires u in s.uploads
  {
    var up := s.uploads[u];
    s.(box := Finish(c, s.box, up.id, up.gen, up.phase.Stored?, s.now, false, true).0, uploads := s.uploads - {u})
  }

  lemma FinishedFacts(c: Config, s: Sys, u: UploadId)
    requires u in s.uploads && !s.box.loaded && s.uploads[u].id !in s.box.index && Inflight(s.box, s.uploads[u].id) >= 1
    ensures var s' := Finished(c, s, u); var id := s.uploads[u].id;
            && s'.box.log == s.box.log && !s'.box.loaded && s'.box.index == s.box.index
            && Inflight(s'.box, id) == Inflight(s.box, id) - 1
            && (s.uploads[u].phase.Stored? && Inflight(s.box, id) == 1 ==> id !in s'.box.store)
  {
  }

  /** One upload ends: with the bytes accepted (then an overtaken upload cleans up after
      itself when it is the last one), or with a failed store write. */
  lemma FinishOne(c: Config, s: Sys, u: UploadId, ok: bool) returns (run: seq<Sys>, ls: seq<Label>)
    requires ValidConfig(c) && u in s.uploads && !s.box.loaded && s.uploads[u].id !in s.box.index
    requires Inflight(s.box, s.uploads[u].id) >= 1
    ensures Behaves(c, run, ls) && run[0] == s
    ensures var s' := run[|ls|]; var id := s.uploads[u].id;
            && s'.box.log == s.box.log && !s'.box.loaded && s'.box.index == s.box.index
            && s'.uploads == s.uploads - {u} && Inflight(s'.box, id) == Inflight(s.box, id) - 1
            && (ok && !s.uploads[u].phase.Failed? && Inflight(s.box, id) == 1 ==> id !in s'.box.store)
  {
    var s1 := Settled(s, u, ok);
    var s2 := Finished(c, s1, u);
    FinishedFacts(c, s1, u);
    assert s2.uploads == s.uploads - {u};
    assert Step(c, s1, PutFinish(u, false, true), s2);
    if s.uploads[u].phase.Storing? {
      assert Step(c, s, StorePut(u, ok, ok), s1);
      run, ls := [s, s1, s2], [StorePut(u, ok, ok), PutFinish(u, false, true)];
    } else {
      run, ls := [s, s2], [PutFinish(u, false, true)];
    }
  }

  lemma Glue(c: Config, run1: seq<Sys>, ls1: seq<Label>, run2: seq<Sys>, ls2: seq<Label>) returns (run: seq<Sys>, ls: seq<Label>)
    requires ValidConfig(c) && Behaves(c, run1, ls1) && Behaves(c, run2, ls2) && run2[0] == run1[|ls1|]
    ensures Behaves(c, run, ls) && run[0] == run1[0] && run[|ls|] == run2[|ls2|]
  {
    run, ls := run1[..|ls1|] + run2, ls1 + ls2;
    forall i | 0 <= i < |ls| ensures StepAt(c, run, ls, i) {
      if i < |ls1| {
        assert StepAt(c, run1, ls1, i) && run[i] == run1[i] && run[i + 1] == run1[i + 1];
      } else {
        assert StepAt(c, run2, ls2, i - |ls1|) && run[i] == run2[i - |ls1|] && run[i + 1] == run2[i + 1 - |ls1|];
      }
    }
  }

  /** A first step, then a run. */
  lemma Prepend(c: Config, s: Sys, l: Label, run: seq<Sys>, ls: seq<Label>)
    requires ValidConfig(c) && Behaves(c, run, ls) && Step(c, s, l, run[0])
    ensures Behaves(c, [s] + run, [l] + ls) && ([s] + run)[|ls| + 1] == run[|ls|]
  {
    var run', ls' := [s] + run, [l] + ls;
    forall i | 0 <= i < |ls'| ensures StepAt(c, run', ls', i) {
      if i > 0 { assert StepAt(c, run, ls, i - 1) && run'[i] == run[i - 1] && run'[i + 1] == run[i]; }
    }
  }

  /** Where a purge fails to rewrite the index while an upload of a logged id may still
      succeed, some continuation leaves the log naming an id whose bytes are gone. */
  lemma ForgettingLosesBytes(c: Config, s: Sys, u: UploadId) returns (run: seq<Sys>, ls: seq<Label>)
    requires ValidConfig(c) && Consistent(c, s) && s.box.loaded
    requires u in s.uploads && !s.uploads[u].phase.Failed? && s.uploads[u].id in Disk(s.box)
    ensures Behaves(c, run, ls) && run[0] == s && |ls| > 0 && ls[0] == PurgeAll(IndexStays)
    ensures s.uploads[u].id in Disk(run[|ls|].box) && s.uploads[u].id !in run[|ls|].box.store
  {
    assert HasDir(c, s.box) by { assert s.box.log.None? ==> Disk(s.box) == map[]; }
    var b := Purge(c, s.box, IndexStays);
    var s1 := s.(box := b, published := map lane | lane in s.published && lane in b.files :: s.published[lane],
                 cut := if b.files == map[] then false else s.cut || b.log != s.box.log);
    assert Step(c, s, PurgeAll(IndexStays), s1);
    var run2, ls2 := Drain(c, s1, u);
    run, ls := [s] + run2, [PurgeAll(IndexStays)] + ls2;
    Prepend(c, s, PurgeAll(IndexStays), run2, ls2);
  }

  /** The same where a reload cannot read the index. With the previous lemma: neither half of
      the condition Careful can be dropped. */
  lemma UnreadableIndexLosesBytes(c: Config, s: Sys, u: UploadId, modTime: Id -> int) returns (run: seq<Sys>, ls: seq<Label>)
    requires ValidConfig(c) && Consistent(c, s) && !s.box.loaded && (forall id :: id in s.box.store ==> modTime(id) <= s.now)
    requires u in s.uploads && !s.uploads[u].phase.Failed? && s.uploads[u].id in Disk(s.box)
    ensures Behaves(c, run, ls) && run[0] == s && |ls| > 0 && ls[0] == Load(modTime, IndexUnreadable)
    ensures s.uploads[u].id in Disk(run[|ls|].box) && s.uploads[u].id !in run[|ls|].box.store
  {
    var s1 := s.(box := LoadBox(c, s.box, modTime, IndexUnreadable));
    var run2, ls2 := Drain(c, s1, u);
    run, ls := [s] + run2, [Load(modTime, IndexUnreadable)] + ls2;
    Prepend(c, s, Load(modTime, IndexUnreadable), run2, ls2);
  }
}
