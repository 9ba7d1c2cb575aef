/** The blob index of a mailbox's vault (relay/vaultindex.go): an append-only log of
    records whose replay is the map from blob id to size and confirmation time.

    A blob id is 64 lowercase hex digits; it is modelled as the number it spells, so that
    the lexical order in which a compaction writes the ids is the numeric order. */
module VaultLog {
  import opened Collections

  type Id = int

  datatype Meta = Meta(size: nat, at: int)

  type Index = map<Id, Meta>

  /** One parsed line of index.jsonl. */
  datatype Rec =
    | Header(v: nat)
    | Put(id: Id, size: nat, at: int)
    | Touch(ids: seq<Id>, at: int)
    | Del(ids: seq<Id>)

  /** One physical line: a record, bytes that do not parse, or white space. */
  datatype Line = Good(rec: Rec) | Garbage | Blank

  const INDEX_VERSION: nat := 1

  /* ---- replay, as a fold over the records ---- */

  function TouchAll(m: Index, ids: seq<Id>, at: int): Index {
    map id | id in m :: if id in ids then m[id].(at := at) else m[id]
  }

  function DelAll(m: Index, ids: seq<Id>): Index {
    map id | id in m && id !in ids :: m[id]
  }

  function Apply(m: Index, r: Rec): Index {
    match r
    case Header(_) => m
    case Put(id, size, at) => m[id := Meta(size, at)]
    case Touch(ids, at) => TouchAll(m, ids, at)
    case Del(ids) => DelAll(m, ids)
  }

  function Replay(recs: seq<Rec>): Index {
    if recs == [] then map[]
    else Apply(Replay(recs[..|recs| - 1]), recs[|recs| - 1])
  }

  lemma ReplayAppend(recs: seq<Rec>, r: Rec)
    ensures Replay(recs + [r]) == Apply(Replay(recs), r)
  {
    assert (recs + [r])[..|recs|] == recs;
  }

  predicate Readable(r: Rec) {
    match r
    case Header(v) => v <= INDEX_VERSION
    case Put(_, size, _) => size > 0
    case _ => true
  }

  ghost predicate ReadableLog(recs: seq<Rec>) { forall i :: 0 <= i < |recs| ==> Readable(recs[i]) }

  ghost predicate Positive(m: Index) { forall id :: id in m ==> m[id].size > 0 }

  /* ---- compaction ---- */

  /** The rewritten log: a header and one put line per blob, in id order. */
  ghost function Compact(m: Index): seq<Rec> {
    [Header(INDEX_VERSION)] + PutLines(m, Sorted(m.Keys))
  }

  ghost function PutLines(m: Index, ids: seq<int>): (recs: seq<Rec>)
    requires forall i :: 0 <= i < |ids| ==> ids[i] in m
    ensures |recs| == |ids|
    ensures forall i :: 0 <= i < |ids| ==> ids[i] in m && recs[i] == Put(ids[i], m[ids[i]].size, m[ids[i]].at)
  {
    seq(|ids|, i requires 0 <= i < |ids| => Put(ids[i], m[ids[i]].size, m[ids[i]].at))
  }

  /** Compaction loses nothing: replaying the rewritten log gives the map it was written from. */
  lemma ReplayCompact(m: Index)
    ensures Replay(Compact(m)) == m
    ensures |Compact(m)| == |m| + 1
  {
    var ids := Sorted(m.Keys);
    ReplayListing(m, ids);
    ListingSize(ids, m.Keys);
  }

  lemma ReplayListing(m: Index, ids: seq<int>)
    requires Lists(ids, m.Keys) && forall i :: 0 <= i < |ids| ==> ids[i] in m
    ensures Replay([Header(INDEX_VERSION)] + PutLines(m, ids)) == m
  {
    ReplayPrefix(m, ids, |ids|);
    WholePrefix(m, ids);
    RestrictAll(m, ids);
  }

  lemma RestrictAll(m: Index, ids: seq<int>)
    requires Lists(ids, m.Keys)
    ensures Restrict(m, ids) == m
  {
    forall k | k in m ensures k in ids { assert k in m.Keys; }
  }

  lemma CompactReadable(m: Index)
    requires Positive(m)
    ensures ReadableLog(Compact(m))
  {
  }

  ghost function Restrict(m: Index, ids: seq<int>): Index {
    map k | k in m && k in ids :: m[k]
  }

  lemma WholePrefix(m: Index, ids: seq<int>)
    requires forall i :: 0 <= i < |ids| ==> ids[i] in m
    ensures var recs := [Header(INDEX_VERSION)] + PutLines(m, ids); recs[..|ids| + 1] == recs
    ensures ids[..|ids|] == ids
  {
  }

  lemma {:induction false} ReplayPrefix(m: Index, ids: seq<int>, n: nat)
    requires n <= |ids| && forall i :: 0 <= i < |ids| ==> ids[i] in m
    ensures Replay(([Header(INDEX_VERSION)] + PutLines(m, ids))[..n + 1]) == Restrict(m, ids[..n])
  {
    var recs := [Header(INDEX_VERSION)] + PutLines(m, ids);
    if n == 0 {
      assert recs[..1] == [] + [Header(INDEX_VERSION)];
      ReplayAppend([], Header(INDEX_VERSION));
      assert Restrict(m, ids[..0]) == map[];
    } else {
      ReplayPrefix(m, ids, n - 1);
      assert recs[..n + 1] == recs[..n] + [recs[n]];
      ReplayAppend(recs[..n], recs[n]);
      assert ids[..n] == ids[..n - 1] + [ids[n - 1]];
      var k := ids[n - 1];
      assert Restrict(m, ids[..n]) == Restrict(m, ids[..n - 1])[k := m[k]];
    }
  }

  /* ---- reading the file back (readVaultIndex) ---- */

  datatype ReadResult =
    | Read(index: Index, lines: nat, torn: bool)
    | Unreadable

  /** The records of the lines, blank ones left out. */
  function Recs(lines: seq<Line>): seq<Rec> {
    if lines == [] then [] else
      var n := |lines| - 1;
      Recs(lines[..n]) + (if lines[n].Good? then [lines[n].rec] else [])
  }

  /** Lines that are not blank. */
  function Solid(lines: seq<Line>): nat {
    if lines == [] then 0 else
      var n := |lines| - 1;
      Solid(lines[..n]) + if lines[n].Blank? then 0 else 1
  }

  predicate Acceptable(l: Line) { l.Blank? || (l.Good? && Readable(l.rec)) }

  ghost predicate AllReadable(lines: seq<Line>) { forall i :: 0 <= i < |lines| ==> Acceptable(lines[i]) }

  /** What the loop below must compute: an unparsable last line of a file that does not end
      in a newline is dropped, any other unreadable line refuses the whole file, and blank
      lines count for nothing. */
  ghost predicate ReadSpec(lines: seq<Line>, endsClean: bool, r: ReadResult) {
    var torn := lines != [] && !endsClean && lines[|lines| - 1].Garbage?;
    var body := if torn then lines[..|lines| - 1] else lines;
    if AllReadable(body)
    then r == Read(Replay(Recs(body)), Solid(lines), torn)
    else r.Unreadable?
  }

  method ReplayTouch(idx: Index, ids: seq<Id>, at: int) returns (m: Index)
    ensures m == TouchAll(idx, ids, at)
  {
    m := idx;
    for i := 0 to |ids|
      invariant m == TouchAll(idx, ids[..i], at)
    {
      assert ids[..i + 1] == ids[..i] + [ids[i]];
      if ids[i] in m { m := m[ids[i] := m[ids[i]].(at := at)]; }
    }
    assert ids[..|ids|] == ids;
  }

  method ReplayDel(idx: Index, ids: seq<Id>) returns (m: Index)
    ensures m == DelAll(idx, ids)
  {
    m := idx;
    for i := 0 to |ids|
      invariant m == DelAll(idx, ids[..i])
    {
      assert ids[..i + 1] == ids[..i] + [ids[i]];
      m := m - {ids[i]};
    }
    assert ids[..|ids|] == ids;
  }

  /** The body of readVaultIndex's flush: applies one parsed record, or refuses it. */
  method FlushRec(idx: Index, r: Rec) returns (ok: bool, m: Index)
    ensures ok == Readable(r)
    ensures ok ==> m == Apply(idx, r)
  {
    ok, m := true, idx;
    match r {
      case Header(v) => ok := v <= INDEX_VERSION;
      case Put(id, size, at) =>
        ok := size > 0;
        m := m[id := Meta(size, at)];
      case Touch(ids, at) => m := ReplayTouch(m, ids, at);
      case Del(ids) => m := ReplayDel(m, ids);
    }
  }

  /** One more line. */
  lemma LinesSnoc(lines: seq<Line>, i: nat)
    requires i < |lines|
    ensures AllReadable(lines[..i + 1]) <==> AllReadable(lines[..i]) && Acceptable(lines[i])
    ensures Replay(Recs(lines[..i + 1])) == if lines[i].Good? then Apply(Replay(Recs(lines[..i])), lines[i].rec) else Replay(Recs(lines[..i]))
    ensures Solid(lines[..i + 1]) == Solid(lines[..i]) + if lines[i].Blank? then 0 else 1
  {
    assert lines[..i + 1] == lines[..i] + [lines[i]];
    assert lines[..i + 1][..i] == lines[..i];
    if lines[i].Good? { ReplayAppend(Recs(lines[..i]), lines[i].rec); } else { assert Recs(lines[..i]) + [] == Recs(lines[..i]); }
  }

  /** The closure flush of readVaultIndex for a line that is not the torn tail. */
  method Flush(idx: Index, count: nat, l: Line) returns (ok: bool, m: Index, n: nat)
    ensures ok == Acceptable(l)
    ensures ok ==> m == (if l.Good? then Apply(idx, l.rec) else idx) && n == count + if l.Blank? then 0 else 1
  {
    if l.Blank? { return true, idx, count; }
    if l.Garbage? { return false, idx, count + 1; }
    ok, m := FlushRec(idx, l.rec);
    n := count + 1;
  }

  /** readVaultIndex: every line is held back until the next one arrives, because only the
      last line of the file may be torn. */
  method ReadIndex(lines: seq<Line>, endsClean: bool) returns (r: ReadResult)
    ensures ReadSpec(lines, endsClean, r)
  {
    if lines == [] { return Read(map[], 0, false); }
    var ok, idx, count, pending := FlushEarlier(lines);
    if !ok {
      ghost var i :| 0 <= i < |lines| - 1 && !Acceptable(lines[i]);
      RefusedEarly(lines, endsClean, i);
      return Unreadable;
    }
    r := FlushLast(lines, endsClean, idx, count, pending);
  }

  /** The scan: flushes each line when the next one is read, and ends with the last pending. */
  method FlushEarlier(lines: seq<Line>) returns (ok: bool, idx: Index, count: nat, pending: Line)
    requires lines != []
    ensures ok ==> var done := lines[..|lines| - 1];
              AllReadable(done) && idx == Replay(Recs(done)) && count == Solid(done) && pending == lines[|lines| - 1]
    ensures !ok ==> exists i :: 0 <= i < |lines| - 1 && !Acceptable(lines[i])
  {
    ok, idx, count, pending := true, map[], 0, lines[0];
    for i := 1 to |lines|
      invariant pending == lines[i - 1]
      invariant AllReadable(lines[..i - 1]) && idx == Replay(Recs(lines[..i - 1])) && count == Solid(lines[..i - 1])
    {
      LinesSnoc(lines, i - 1);
      ok, idx, count := Flush(idx, count, pending);
      if !ok { return; }
      pending := lines[i];
    }
    ok := true;
  }

  /** The last line, which may be torn. */
  method FlushLast(lines: seq<Line>, endsClean: bool, idx: Index, count: nat, pending: Line) returns (r: ReadResult)
    requires lines != [] && pending == lines[|lines| - 1]
    requires var done := lines[..|lines| - 1]; AllReadable(done) && idx == Replay(Recs(done)) && count == Solid(done)
    ensures ReadSpec(lines, endsClean, r)
  {
    var n := |lines|;
    assert lines[..n] == lines;
    LinesSnoc(lines, n - 1);
    if pending.Garbage? && !endsClean { return Read(idx, count + 1, true); }
    var ok, m, k := Flush(idx, count, pending);
    if !ok { return Unreadable; }
    return Read(m, k, false);
  }

  /** An unreadable line that is not the last one refuses the file, torn tail or not. */
  lemma RefusedEarly(lines: seq<Line>, endsClean: bool, i: nat)
    requires i + 1 < |lines| && !Acceptable(lines[i])
    ensures ReadSpec(lines, endsClean, Unreadable)
  {
    var torn := !endsClean && lines[|lines| - 1].Garbage?;
    var body := if torn then lines[..|lines| - 1] else lines;
    assert body[i] == lines[i];
  }

  /** A torn tail is invisible: the file reads exactly as it would without it. */
  lemma TornTailInvisible(lines: seq<Line>, whole: ReadResult, cut: ReadResult)
    requires ReadSpec(lines, true, whole) && ReadSpec(lines + [Garbage], false, cut)
    ensures whole.Read? <==> cut.Read?
    ensures whole.Read? ==> cut == Read(whole.index, whole.lines + 1, true)
    ensures whole.Read? ==> !whole.torn
  {
    var torn := lines + [Garbage];
    LinesSnoc(torn, |lines|);
    assert torn[..|lines|] == lines && torn[..|torn|] == torn;
  }

  /* ---- appending, with the compaction it may trigger (vaultIndexAppendLocked) ---- */

  predicate Grown(lines: nat, live: Index, slack: nat) { lines + 1 > 2 * |live| + slack }

  /** The log after a successful append of r, and the line counter; live is the in-memory
      index, to which r was already applied. */
  ghost function LogAfter(log: seq<Rec>, lines: nat, r: Rec, live: Index, slack: nat): seq<Rec> {
    if Grown(lines, live, slack) then Compact(live) else log + [r]
  }

  function LinesAfter(lines: nat, live: Index, slack: nat): nat {
    if Grown(lines, live, slack) then |live| + 1 else lines + 1
  }

  lemma LogAfterReadable(log: seq<Rec>, lines: nat, r: Rec, live: Index, slack: nat)
    requires ReadableLog(log) && Readable(r) && Positive(live)
    ensures ReadableLog(LogAfter(log, lines, r, live, slack))
  {
    CompactReadable(live);
  }

  /** Two indexes name the same blobs with the same sizes, and the first has confirmation
      times at least as recent (a touch whose append failed is known in memory only). */
  ghost predicate Refines(mem: Index, disk: Index) {
    && mem.Keys == disk.Keys
    && forall id :: id in mem ==> mem[id].size == disk[id].size && mem[id].at >= disk[id].at
  }

  /** Applying one record on both sides keeps them in step. */
  lemma ApplyRefines(mem: Index, disk: Index, r: Rec)
    requires Refines(mem, disk)
    ensures Refines(Apply(mem, r), Apply(disk, r))
  {
  }

  /** Appending the record that was applied in memory keeps log, counter and memory in step;
      when log and memory agreed exactly before, they agree exactly after; and the log stays
      within a constant of twice the live entries. */
  lemma AppendInStep(log: seq<Rec>, r: Rec, mem: Index, slack: nat)
    requires Refines(mem, Replay(log))
    ensures var log' := LogAfter(log, |log|, r, Apply(mem, r), slack);
            && LinesAfter(|log|, Apply(mem, r), slack) == |log'|
            && Refines(Apply(mem, r), Replay(log'))
            && (mem == Replay(log) ==> Apply(mem, r) == Replay(log'))
            && Replay(log') in {Apply(Replay(log), r), Apply(mem, r)}
            && (slack >= 1 ==> |log'| <= 2 * |Apply(mem, r)| + slack)
  {
    var live := Apply(mem, r);
    ReplayAppend(log, r);
    ReplayCompact(live);
    ApplyRefines(mem, Replay(log), r);
    assert Refines(live, live);
  }
}
