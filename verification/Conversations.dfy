/** The conversation archive (a2a/store.go): one append-only file of lines per peer, and two
    caches that are built on first use, the set of seen ids and the line count. */
module Conversations {
  import opened Collections

  type Fp = int
  type Id = int
  const NO_ID: Id := 0

  datatype Dir = Incoming | Outgoing
  datatype Kind = Words | Chunk
  datatype Entry = Entry(dir: Dir, id: Id, kind: Kind, body: int, recalled: bool)

  /** A physical line: an entry, or something that does not parse. */
  datatype Line = Parsed(e: Entry) | Unparsed

  /** The files, and the caches of the running process. */
  datatype Archive = Archive(files: map<Fp, seq<Line>>, seen: map<Fp, set<Id>>, lines: map<Fp, int>)

  function File(a: Archive, p: Fp): seq<Line> { if p in a.files then a.files[p] else [] }

  /** The message ids in a file. */
  ghost function Ids(f: seq<Line>): set<Id> { set l | l in f && l.Parsed? && l.e.id != NO_ID :: l.e.id }

  /** What a scan yields; one that cannot open the file yields nothing. */
  ghost function Scanned(f: seq<Line>, readOk: bool): set<Id> { if readOk then Ids(f) else {} }

  function Counted(f: seq<Line>, readOk: bool): int { if readOk then |f| else 0 }

  /** Seen. */
  ghost function LookUp(a: Archive, p: Fp, id: Id, readOk: bool): (Archive, bool) {
    if p in a.seen then (a, id in a.seen[p])
    else
      var s := Scanned(File(a, p), readOk);
      (a.(seen := a.seen[p := s]), id in s)
  }

  /** AppendSeq: the line number the entry landed on, if it was written. */
  ghost function Append(a: Archive, p: Fp, e: Entry, readOk: bool, writeOk: bool): (Archive, Option<int>) {
    if !writeOk then (a, None)
    else
      var n := (if p in a.lines then a.lines[p] else Counted(File(a, p), readOk)) + 1;
      (Archive(a.files[p := File(a, p) + [Parsed(e)]],
               if p in a.seen then a.seen[p := a.seen[p] + {e.id}] else a.seen,
               a.lines[p := n]),
       Some(n))
  }

  /** What an edit makes of an entry: an error, no change, or a new value. */
  datatype Edited = Refused | Same | Changed(e: Entry)

  predicate Hit(l: Line, id: Id) { l.Parsed? && l.e.id == id && l.e.kind != Chunk }

  /** The newest line below n that carries id, or -1. */
  ghost function Newest(f: seq<Line>, id: Id, n: nat): (i: int)
    requires n <= |f|
    ensures -1 <= i < n
    ensures i >= 0 ==> Hit(f[i], id)
    ensures forall j :: i < j < n ==> !Hit(f[j], id)
  {
    if n == 0 then -1 else if Hit(f[n - 1], id) then n - 1 else Newest(f, id, n - 1)
  }

  /** Update. */
  ghost function Rewrite(a: Archive, p: Fp, id: Id, edit: Entry -> Edited, writeOk: bool): Archive {
    var f := File(a, p);
    var i := Newest(f, id, |f|);
    if id == NO_ID || i < 0 then a
    else if edit(f[i].e).Changed? && writeOk then a.(files := a.files[p := f[i := Parsed(edit(f[i].e).e)]])
    else a
  }

  /** The process restarts: only the files remain. */
  function Restarted(a: Archive): Archive { Archive(a.files, map[], map[]) }

  /* ---- the store ---- */

  class ConvStore {
    var files: map<Fp, seq<Line>>
    var seen: map<Fp, set<Id>>
    var lines: map<Fp, int>

    ghost function State(): Archive reads this { Archive(files, seen, lines) }

    constructor (files: map<Fp, seq<Line>>)
      ensures State() == Archive(files, map[], map[])
    {
      this.files, seen, lines := files, map[], map[];
    }

    method Seen(p: Fp, id: Id, readOk: bool) returns (yes: bool)
      modifies this`seen
      ensures (State(), yes) == LookUp(old(State()), p, id, readOk)
    {
      if p !in seen {
        var s := LoadSeenSet(if p in files then files[p] else [], readOk);
        seen := seen[p := s];
      }
      yes := id in seen[p];
    }

    method AppendSeq(p: Fp, e: Entry, readOk: bool, writeOk: bool) returns (at: Option<int>)
      modifies this
      ensures (State(), at) == Append(old(State()), p, e, readOk, writeOk)
    {
      var f := if p in files then files[p] else [];
      var n := if p in lines then lines[p] else if readOk then |f| else 0;
      if !writeOk { return None; }
      files := files[p := f + [Parsed(e)]];
      n := n + 1;
      lines := lines[p := n];
      if p in seen { seen := seen[p := seen[p] + {e.id}]; }
      return Some(n);
    }

    method Update(p: Fp, id: Id, edit: Entry -> Edited, writeOk: bool) returns (at: Option<int>)
      modifies this`files
      ensures State() == Rewrite(old(State()), p, id, edit, writeOk)
      ensures var f := File(old(State()), p); var i := Newest(f, id, |f|);
              at == if id == NO_ID || i < 0 || (edit(f[i].e).Changed? && !writeOk) then None else Some(i + 1)
    {
      if id == NO_ID || p !in files { return None; }
      var f := files[p];
      var i := |f| - 1;
      while i >= 0 && !Hit(f[i], id)
        invariant -1 <= i < |f| && Newest(f, id, |f|) == Newest(f, id, i + 1)
      {
        i := i - 1;
      }
      if i < 0 { return None; }
      var r := edit(f[i].e);
      if r.Changed? && !writeOk { return None; }
      if r.Changed? { files := files[p := f[i := Parsed(r.e)]]; }
      return Some(i + 1);
    }

    /** Since: the entries after a line number, the last `limit` of them. */
    method Since(p: Fp, after: int, limit: int) returns (out: seq<(int, Entry)>)
      ensures out == LastOf(EntriesAfter(File(State(), p), after), limit)
    {
      var f := if p in files then files[p] else [];
      out := [];
      for n := 0 to |f|
        invariant out == EntriesAfter(f[..n], after)
      {
        assert f[..n + 1][..n] == f[..n];
        if n + 1 > after && f[n].Parsed? { out := out + [(n + 1, f[n].e)]; }
      }
      assert f[..|f|] == f;
      if limit > 0 && |out| > limit { out := out[|out| - limit..]; }
    }
  }

  method LoadSeenSet(f: seq<Line>, readOk: bool) returns (s: set<Id>)
    ensures s == Scanned(f, readOk)
  {
    s := {};
    if !readOk { return; }
    for n := 0 to |f|
      invariant s == Ids(f[..n])
    {
      IdsOfSnoc(f[..n], f[n]);
      assert f[..n + 1] == f[..n] + [f[n]];
      if f[n].Parsed? && f[n].e.id != NO_ID { s := s + {f[n].e.id}; }
    }
    assert f[..|f|] == f;
  }

  lemma IdsOfSnoc(f: seq<Line>, l: Line)
    ensures Ids(f + [l]) == Ids(f) + if l.Parsed? && l.e.id != NO_ID then {l.e.id} else {}
  {
  }

  function LastOf<T>(s: seq<T>, limit: int): seq<T> { if 0 < limit < |s| then s[|s| - limit..] else s }

  /** A limit keeps the last entries, that many of them. */
  lemma LimitKeepsLast<T>(s: seq<T>, limit: int, i: nat)
    ensures limit <= 0 || |s| <= limit ==> LastOf(s, limit) == s
    ensures 0 < limit < |s| ==> |LastOf(s, limit)| == limit && (i < limit ==> LastOf(s, limit)[limit - 1 - i] == s[|s| - 1 - i])
  {
  }

  function EntriesAfter(f: seq<Line>, after: int): seq<(int, Entry)> {
    if f == [] then [] else
      var n := |f| - 1;
      var r := EntriesAfter(f[..n], after);
      if n + 1 > after && f[n].Parsed? then r + [(n + 1, f[n].e)] else r
  }

  /** Since returns exactly the entries whose line number is above `after`, each once, with
      its number, in file order. */
  lemma {:induction false} EntriesAfterExact(f: seq<Line>, after: int)
    ensures forall i, j :: 0 <= i < j < |EntriesAfter(f, after)| ==> EntriesAfter(f, after)[i].0 < EntriesAfter(f, after)[j].0
    ensures forall x :: x in EntriesAfter(f, after) <==> (1 <= x.0 <= |f| && x.0 > after && f[x.0 - 1] == Parsed(x.1))
  {
    if f != [] {
      var n := |f| - 1;
      var r := EntriesAfter(f[..n], after);
      EntriesAfterExact(f[..n], after);
      forall i | 0 <= i < |r| ensures r[i].0 <= n { assert r[i] in r; }
      forall x ensures x in EntriesAfter(f, after) <==> (1 <= x.0 <= |f| && x.0 > after && f[x.0 - 1] == Parsed(x.1)) {
        assert x in r <==> (1 <= x.0 <= n && x.0 > after && f[..n][x.0 - 1] == Parsed(x.1));
      }
    }
  }

  /* ---- the caches ---- */

  /** The seen set holds the ids in the file. (It may also hold the empty id.) */
  ghost predicate SeenAgrees(a: Archive) { forall p :: p in a.seen ==> a.seen[p] - {NO_ID} == Ids(File(a, p)) }

  /** The line counter is the number of lines. */
  ghost predicate LinesAgree(a: Archive) { forall p :: p in a.lines ==> a.lines[p] == |File(a, p)| }

  /** The ids can be looked up: they are cached, can be scanned, or there is nothing to find. */
  ghost predicate ScanOk(a: Archive, p: Fp, readOk: bool) { p in a.seen || readOk || File(a, p) == [] }

  /** The lines can be counted. */
  ghost predicate CountOk(a: Archive, p: Fp, readOk: bool) { p in a.lines || readOk || File(a, p) == [] }

  lemma LookUpAgrees(a: Archive, p: Fp, id: Id, readOk: bool)
    requires SeenAgrees(a) && ScanOk(a, p, readOk)
    ensures SeenAgrees(LookUp(a, p, id, readOk).0)
    ensures id != NO_ID ==> LookUp(a, p, id, readOk).1 == (id in Ids(File(a, p)))
  {
    assert Ids([]) == {};
    assert NO_ID !in Ids(File(a, p));
    if p in a.seen { assert id != NO_ID ==> (id in a.seen[p] <==> id in a.seen[p] - {NO_ID}); }
  }

  lemma AppendSeen(a: Archive, p: Fp, e: Entry, readOk: bool, writeOk: bool)
    requires SeenAgrees(a)
    ensures var (b, at) := Append(a, p, e, readOk, writeOk);
            SeenAgrees(b) && (at.Some? ==> File(b, p) == File(a, p) + [Parsed(e)])
  {
    IdsOfSnoc(File(a, p), Parsed(e));
  }

  /** The number AppendSeq returns is the line the entry is on, and stays right for later
      ones, if and only if the lines were counted or could be. */
  lemma AppendCountsIff(a: Archive, p: Fp, e: Entry, readOk: bool)
    requires LinesAgree(a)
    ensures var (b, at) := Append(a, p, e, readOk, true);
            && (LinesAgree(b) <==> CountOk(a, p, readOk))
            && (at == Some(|File(b, p)|) <==> CountOk(a, p, readOk))
  {
    var b := Append(a, p, e, readOk, true).0;
    assert |File(b, p)| == |File(a, p)| + 1;
    forall q | q in b.lines && q != p ensures b.lines[q] == |File(b, q)| { assert File(b, q) == File(a, q); }
  }

  /** A wrong count stays wrong. */
  lemma WrongCountStays(a: Archive, p: Fp, e: Entry, readOk: bool, writeOk: bool)
    requires !LinesAgree(a)
    ensures !LinesAgree(Append(a, p, e, readOk, writeOk).0)
  {
    var b := Append(a, p, e, readOk, writeOk).0;
    var q :| q in a.lines && a.lines[q] != |File(a, q)|;
    assert q in b.lines && b.lines[q] != |File(b, q)|;
  }

  /** An edit that keeps the id leaves every line number and every id in place. */
  ghost predicate KeepsId(edit: Entry -> Edited) { forall e :: edit(e).Changed? ==> edit(e).e.id == e.id && edit(e).e.dir == e.dir }

  lemma RewriteAgrees(a: Archive, p: Fp, id: Id, edit: Entry -> Edited, writeOk: bool)
    requires KeepsId(edit)
    ensures var b := Rewrite(a, p, id, edit, writeOk);
            && (forall q :: SameIds(File(a, q), File(b, q))) && b.seen == a.seen && b.lines == a.lines
            && (SeenAgrees(a) ==> SeenAgrees(b)) && (LinesAgree(a) <==> LinesAgree(b))
  {
    var b, f := Rewrite(a, p, id, edit, writeOk), File(a, p);
    forall q ensures SameIds(File(a, q), File(b, q)) {
      if q == p { RewriteFile(f, id, edit, File(b, p)); }
    }
    forall q ensures Ids(File(a, q)) == Ids(File(b, q)) { SameIdsIds(File(a, q), File(b, q)); }
    forall q ensures |File(a, q)| == |File(b, q)| { assert SameIds(File(a, q), File(b, q)); }
  }

  /** An update that goes through changes the newest line with the id to what the edit makes
      of it, and no other line of any conversation. */
  lemma RewriteHits(a: Archive, p: Fp, id: Id, edit: Entry -> Edited, writeOk: bool, i: nat)
    requires id != NO_ID && i < |File(a, p)| && Carries(File(a, p)[i], id) && forall j :: i < j < |File(a, p)| ==> !Carries(File(a, p)[j], id)
    ensures var b, f := Rewrite(a, p, id, edit, writeOk), File(a, p); var r := edit(f[i].e);
            && File(b, p) == (if r.Changed? && writeOk then f[i := Parsed(r.e)] else f)
            && forall q :: q != p ==> File(b, q) == File(a, q)
  {
    var f := File(a, p);
    assert forall l :: Carries(l, id) <==> Hit(l, id);
    assert Newest(f, id, |f|) == i;
  }

  /** A readable line of this id; the dedupe lines of parts are not messages. */
  predicate Carries(l: Line, id: Id) { l.Parsed? && l.e.id == id && l.e.kind == Words }

  /** Where no line carries the id, an update changes nothing. */
  lemma RewriteMisses(a: Archive, p: Fp, id: Id, edit: Entry -> Edited, writeOk: bool)
    requires id == NO_ID || forall i :: 0 <= i < |File(a, p)| ==> !Carries(File(a, p)[i], id)
    ensures Rewrite(a, p, id, edit, writeOk) == a
  {
    assert forall l :: Carries(l, id) <==> Hit(l, id);
  }

  lemma RewriteFile(f: seq<Line>, id: Id, edit: Entry -> Edited, g: seq<Line>)
    requires KeepsId(edit)
    requires g == f || var i := Newest(f, id, |f|); i >= 0 && edit(f[i].e).Changed? && g == f[i := Parsed(edit(f[i].e).e)]
    ensures SameIds(f, g)
  {
  }

  /** Line by line the same directions and ids. */
  ghost predicate SameIds(f: seq<Line>, g: seq<Line>) {
    |f| == |g| && forall i :: 0 <= i < |f| ==> LineId(f[i]) == LineId(g[i])
  }

  function LineId(l: Line): Option<(Dir, Id)> { if l.Parsed? then Some((l.e.dir, l.e.id)) else None }

  lemma SameIdsIds(f: seq<Line>, g: seq<Line>)
    requires SameIds(f, g)
    ensures Ids(f) == Ids(g)
  {
  }

  /* ---- no id comes in twice ---- */

  ghost predicate InOnce(f: seq<Line>) {
    forall i, j :: 0 <= i < j < |f| && CameIn(f[i]) && CameIn(f[j]) ==> f[i].e.id != f[j].e.id
  }

  predicate CameIn(l: Line) { l.Parsed? && l.e.dir == Incoming && l.e.id != NO_ID }

  lemma InOnceSnoc(f: seq<Line>, e: Entry)
    requires InOnce(f) && (e.dir == Incoming ==> e.id !in Ids(f))
    ensures InOnce(f + [Parsed(e)])
  {
    forall i | 0 <= i < |f| && CameIn(f[i]) ensures f[i].e.id in Ids(f) { assert f[i] in f; }
  }

  lemma InOnceSame(f: seq<Line>, g: seq<Line>)
    requires InOnce(f) && SameIds(f, g)
    ensures InOnce(g)
  {
  }
}
