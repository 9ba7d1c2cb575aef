/** From the relay's inbox to the archive (peer/recv.go): the poll, handle, acknowledge loop
    over every run with lost or repeated acknowledgements, redelivery and restarts. */
module Receiving {
  import opened Collections
  import opened Conversations
  import opened Mailbox

  datatype What = Text(body: int) | Part | Recall(target: Id) | Other

  /** A pairwise letter that opened; those that do not open are Other, rejected for good. */
  datatype Letter = Letter(from: Fp, id: Id, what: What)

  datatype Verdict = Fine | Permanent | Transient

  /** Whether the file can be scanned for ids and counted, whether it can be written, and the
      verdicts that depend on other code. */
  datatype Luck = Luck(scanOk: bool, countOk: bool, writeOk: bool, staged: Verdict, rest: Verdict)

  /* ---- one letter ---- */

  /** archiveIncoming, and with a different entry the dedupe line of handleArtifactChunk. */
  ghost function Archiving(a: Archive, l: Letter, e: Entry, k: Luck): (Archive, Verdict) {
    var (a1, seen) := LookUp(a, l.from, l.id, k.scanOk);
    if seen then (a1, Fine)
    else if l.what.Part? && k.staged != Fine then (a1, k.staged)
    else
      var (a2, at) := Append(a1, l.from, e, k.countOk, k.writeOk);
      (a2, if l.what.Part? then k.rest else if at.Some? then Fine else Transient)
  }

  /** The edit of a recall: the words go, the shell stays. */
  function Wipe(e: Entry): Edited {
    if e.dir != Incoming || e.kind != Words then Refused
    else if e.recalled then Same
    else Changed(e.(body := 0, recalled := true))
  }

  function EntryFor(l: Letter): Entry {
    Entry(Incoming, l.id, if l.what.Part? then Chunk else Words, if l.what.Text? then l.what.body else 0, false)
  }

  ghost function Handle(a: Archive, friends: set<Fp>, l: Letter, k: Luck): (Archive, Verdict) {
    if l.what.Other? then (a, k.rest)
    else if l.from !in friends then (a, Fine)
    else if l.what.Recall? then
      if l.what.target == NO_ID then (a, Permanent)
      else (Rewrite(a, l.from, l.what.target, Wipe, k.writeOk), k.rest)
    else if l.id == NO_ID then (a, Permanent)
    else Archiving(a, l, EntryFor(l), k)
  }

  /* ---- one round ---- */

  /** Everything in the batch handled in order; the names to acknowledge. */
  ghost function Round(a: Archive, friends: set<Fp>, items: seq<(int, Letter)>, ks: seq<Luck>): (Archive, seq<int>)
    requires |ks| == |items|
  {
    if items == [] then (a, []) else
      var n := |items| - 1;
      var (a1, acks) := Round(a, friends, items[..n], ks[..n]);
      var (a2, v) := Handle(a1, friends, items[n].1, ks[n]);
      (a2, if v == Transient then acks else acks + [items[n].0])
  }

  class Receiver {
    const store: ConvStore
    var friends: set<Fp>

    constructor (store: ConvStore, friends: set<Fp>)
      ensures this.store == store && this.friends == friends
    {
      this.store, this.friends := store, friends;
    }

    method ArchiveIncoming(l: Letter, e: Entry, k: Luck) returns (v: Verdict)
      modifies store
      ensures (store.State(), v) == Archiving(old(store.State()), l, e, k)
    {
      var seen := store.Seen(l.from, l.id, k.scanOk);
      if seen { return Fine; }
      if l.what.Part? && k.staged != Fine { return k.staged; }
      var at := store.AppendSeq(l.from, e, k.countOk, k.writeOk);
      if l.what.Part? { return k.rest; }
      return if at.Some? then Fine else Transient;
    }

    method HandleEnvelope(l: Letter, k: Luck) returns (v: Verdict)
      modifies store
      ensures (store.State(), v) == Handle(old(store.State()), friends, l, k)
    {
      if l.what.Other? { return k.rest; }
      if l.from !in friends { return Fine; }
      if l.what.Recall? {
        if l.what.target == NO_ID { return Permanent; }
        var at := store.Update(l.from, l.what.target, Wipe, k.writeOk);
        return k.rest;
      }
      if l.id == NO_ID { return Permanent; }
      v := ArchiveIncoming(l, EntryFor(l), k);
    }

    /** One round of Run between poll and acknowledgement. */
    method HandleBatch(items: seq<(int, Letter)>, ks: seq<Luck>) returns (acks: seq<int>)
      requires |ks| == |items|
      modifies store
      ensures (store.State(), acks) == Round(old(store.State()), friends, items, ks)
    {
      acks := [];
      for n := 0 to |items|
        invariant (store.State(), acks) == Round(old(store.State()), friends, items[..n], ks[..n])
      {
        assert items[..n + 1][..n] == items[..n] && ks[..n + 1][..n] == ks[..n];
        var v := HandleEnvelope(items[n].1, ks[n]);
        if v != Transient { acks := acks + [items[n].0]; }
      }
      assert items[..|items|] == items && ks[..|ks|] == ks;
    }
  }

  /* ---- runs ---- */

  /** `sent` is every letter ever delivered, `asked` every name an acknowledgement was sent
      for; such a request may arrive late, in part, repeatedly or never. */
  datatype World = World(
    box: Box<Letter>, sent: map<int, Letter>, archive: Archive, friends: set<Fp>,
    batch: seq<(int, Letter)>, acks: set<int>, asked: set<int>)

  datatype Label =
    | Arrive(now: nat, l: Letter)
    | RelayRestart(now: nat)
    | Poll(items: seq<(int, Letter)>)
    | HandleNext(k: Luck)
    | AskAck
    | AckArrives(ids: set<int>)
    | Crash
    | Say(p: Fp, e: Entry, k: Luck)
    | Rework(p: Fp, id: Id, edit: Entry -> Edited, ok: bool)
    | Befriend(friends: set<Fp>)

  ghost predicate Enabled(w: World, l: Label) {
    match l
    case Arrive(now, _) => now >= w.box.nano && w.box.count + 1 < Pow10(SEQ_WIDTH)
    case RelayRestart(now) => now > w.box.nano
    case Poll(items) => w.batch == [] && forall i :: 0 <= i < |items| ==> items[i].0 in w.box.letters && w.box.letters[items[i].0] == items[i].1
    case HandleNext(_) => w.batch != []
    case AckArrives(ids) => ids <= w.asked
    case Say(_, e, _) => e.dir == Outgoing
    case Rework(_, _, edit, _) => KeepsId(edit)
    case _ => true
  }

  /** Ids that have to be scanned can be. */
  ghost predicate Careful(w: World, l: Label) { l.HandleNext? && w.batch != [] ==> ScanOk(w.archive, w.batch[0].1.from, l.k.scanOk) }

  ghost function Turn(w: World, l: Label): World
    requires Enabled(w, l)
  {
    match l
    case Arrive(now, x) => w.(box := Delivered(w.box, now, x), sent := w.sent[AckId(now, w.box.count + 1) := x])
    case RelayRestart(now) => w.(box := Reopened(w.box, now))
    case Poll(items) => w.(batch := items, acks := {})
    case HandleNext(k) =>
      var (a, v) := Handle(w.archive, w.friends, w.batch[0].1, k);
      w.(archive := a, batch := w.batch[1..], acks := if v == Transient then w.acks else w.acks + {w.batch[0].0})
    case AskAck => w.(asked := w.asked + w.acks, acks := {})
    case AckArrives(ids) => w.(box := Acked(w.box, ids))
    case Crash => w.(archive := Restarted(w.archive), batch := [], acks := {})
    case Say(p, e, k) => w.(archive := Append(w.archive, p, e, k.countOk, k.writeOk).0)
    case Rework(p, id, edit, ok) => w.(archive := Rewrite(w.archive, p, id, edit, ok))
    case Befriend(friends) => w.(friends := friends)
  }

  ghost predicate TurnAt(run: seq<World>, ls: seq<Label>, n: nat)
    requires n < |ls| && |run| == |ls| + 1
  {
    Enabled(run[n], ls[n]) && run[n + 1] == Turn(run[n], ls[n])
  }

  ghost predicate Runs(run: seq<World>, ls: seq<Label>) {
    && |run| == |ls| + 1
    && run[0] == World(Box(map[], 0, 0), map[], Archive(map[], map[], map[]), run[0].friends, [], {}, {})
    && forall n :: 0 <= n < |ls| ==> TurnAt(run, ls, n)
  }

  ghost predicate CarefulAt(run: seq<World>, ls: seq<Label>, n: nat)
    requires n < |ls| && |run| == |ls| + 1
  {
    Careful(run[n], ls[n])
  }

  ghost predicate CarefulRun(run: seq<World>, ls: seq<Label>)
    requires |run| == |ls| + 1
  {
    forall n :: 0 <= n < |ls| ==> CarefulAt(run, ls, n)
  }

  /* ---- the archive side ---- */

  ghost predicate Tidy(a: Archive) { SeenAgrees(a) && forall p :: InOnce(File(a, p)) }

  /** b holds everything a held. */
  ghost predicate Keeps(a: Archive, b: Archive) { forall p :: Ids(File(a, p)) <= Ids(File(b, p)) }

  lemma AppendTidy(a: Archive, p: Fp, e: Entry, countOk: bool, writeOk: bool)
    requires Tidy(a) && (e.dir == Incoming ==> e.id !in Ids(File(a, p)))
    ensures var (b, at) := Append(a, p, e, countOk, writeOk);
            Tidy(b) && Keeps(a, b) && (at.Some? && e.id != NO_ID ==> e.id in Ids(File(b, p)))
  {
    AppendSeen(a, p, e, countOk, writeOk);
    IdsOfSnoc(File(a, p), Parsed(e));
    InOnceSnoc(File(a, p), e);
    var b := Append(a, p, e, countOk, writeOk).0;
    forall q ensures InOnce(File(b, q)) {
      assert InOnce(File(a, q));
      if q != p { assert File(b, q) == File(a, q); }
    }
  }

  lemma RewriteTidy(a: Archive, p: Fp, id: Id, edit: Entry -> Edited, ok: bool)
    requires Tidy(a) && KeepsId(edit)
    ensures Tidy(Rewrite(a, p, id, edit, ok)) && Keeps(a, Rewrite(a, p, id, edit, ok))
  {
    var b := Rewrite(a, p, id, edit, ok);
    RewriteAgrees(a, p, id, edit, ok);
    forall q ensures InOnce(File(b, q)) && Ids(File(a, q)) == Ids(File(b, q)) {
      InOnceSame(File(a, q), File(b, q));
      SameIdsIds(File(a, q), File(b, q));
    }
  }

  lemma ArchivingTidy(a: Archive, l: Letter, e: Entry, k: Luck)
    requires Tidy(a) && ScanOk(a, l.from, k.scanOk) && l.id != NO_ID && e.id == l.id
    ensures var (b, v) := Archiving(a, l, e, k);
            Tidy(b) && Keeps(a, b) && (l.what.Text? && v != Transient ==> l.id in Ids(File(b, l.from)))
  {
    var (a1, seen) := LookUp(a, l.from, l.id, k.scanOk);
    LookUpAgrees(a, l.from, l.id, k.scanOk);
    assert forall p :: File(a1, p) == File(a, p);
    if !seen { AppendTidy(a1, l.from, e, k.countOk, k.writeOk); }
  }

  /** Texts that a friend's address book entry covers and that carry an id. */
  predicate Due(l: Letter, friends: set<Fp>) { l.what.Text? && l.id != NO_ID && l.from in friends }

  lemma HandleTidy(a: Archive, friends: set<Fp>, l: Letter, k: Luck)
    requires Tidy(a) && ScanOk(a, l.from, k.scanOk)
    ensures var (b, v) := Handle(a, friends, l, k);
            Tidy(b) && Keeps(a, b) && (Due(l, friends) && v != Transient ==> l.id in Ids(File(b, l.from)))
  {
    if l.what.Recall? { RewriteTidy(a, l.from, l.what.target, Wipe, k.writeOk); }
    else if !l.what.Other? && l.id != NO_ID { ArchivingTidy(a, l, EntryFor(l), k); }
  }

  /* ---- the whole loop ---- */

  predicate DueFrom(f: Fp, l: Letter) { l.what.Text? && l.id != NO_ID && l.from == f }

  ghost predicate Archived(w: World, l: Letter) { l.id in Ids(File(w.archive, l.from)) }

  ghost predicate Accounted(w: World, f: Fp, id: int)
    requires id in w.sent
  {
    DueFrom(f, w.sent[id]) ==>
      && (id !in w.box.letters ==> Archived(w, w.sent[id]))
      && (id in w.acks || id in w.asked ==> Archived(w, w.sent[id]))
  }

  ghost predicate FromSent(batch: seq<(int, Letter)>, sent: map<int, Letter>) {
    forall i :: 0 <= i < |batch| ==> batch[i].0 in sent && sent[batch[i].0] == batch[i].1
  }

  lemma TailTraced(batch: seq<(int, Letter)>, sent: map<int, Letter>)
    requires FromSent(batch, sent) && batch != []
    ensures FromSent(batch[1..], sent)
  {
  }

  ghost predicate Traced(w: World) {
    && NamesPast(Box(w.sent, w.box.nano, w.box.count))
    && (forall id :: id in w.box.letters ==> id in w.sent && w.box.letters[id] == w.sent[id])
    && FromSent(w.batch, w.sent)
    && w.acks <= w.sent.Keys && w.asked <= w.sent.Keys
  }

  ghost predicate Good(w: World, f: Fp) {
    Tidy(w.archive) && Traced(w) && forall id :: id in w.sent ==> Accounted(w, f, id)
  }

  lemma ArchiveMoves(w: World, w': World, f: Fp)
    requires Good(w, f) && Tidy(w'.archive) && Keeps(w.archive, w'.archive) && w' == w.(archive := w'.archive)
    ensures Good(w', f)
  {
    forall id | id in w'.sent ensures Accounted(w', f, id) { assert Accounted(w, f, id); }
  }

  lemma ArriveGood(w: World, f: Fp, now: nat, l: Letter)
    requires Good(w, f) && Enabled(w, Arrive(now, l))
    ensures Good(Turn(w, Arrive(now, l)), f)
  {
    var w' := Turn(w, Arrive(now, l));
    var b := Box(w.sent, w.box.nano, w.box.count);
    NewNameIsNewest(b, now, l);
    var name := AckId(now, w.box.count + 1);
    assert name !in w.sent && Delivered(b, now, l).letters == w'.sent;
    forall id | id in w'.sent ensures Accounted(w', f, id) {
      if id != name { assert Accounted(w, f, id); }
    }
  }

  lemma RestartGood(w: World, f: Fp, now: nat)
    requires Good(w, f) && now > w.box.nano
    ensures Good(Turn(w, RelayRestart(now)), f)
  {
  }

  lemma HandleGood(w: World, f: Fp, k: Luck)
    requires Good(w, f) && f in w.friends && w.batch != [] && Careful(w, HandleNext(k))
    ensures Good(Turn(w, HandleNext(k)), f)
  {
    var w' := Turn(w, HandleNext(k));
    var (name, l) := w.batch[0];
    HandleTidy(w.archive, w.friends, l, k);
    assert w.sent[name] == l;
    forall id | id in w'.sent ensures Accounted(w', f, id) { assert Accounted(w, f, id); }
    assert w'.batch == w.batch[1..] && w'.sent == w.sent;
    TailTraced(w.batch, w.sent);
  }

  lemma BookGood(w: World, f: Fp, l: Label)
    requires Good(w, f) && Enabled(w, l) && (l.Poll? || l.AskAck? || l.AckArrives? || l.Befriend?)
    ensures Good(Turn(w, l), f)
  {
    var w' := Turn(w, l);
    forall id | id in w'.sent ensures Accounted(w', f, id) { assert Accounted(w, f, id); }
  }

  lemma CrashGood(w: World, f: Fp)
    requires Good(w, f)
    ensures Good(Turn(w, Crash), f)
  {
    var w' := Turn(w, Crash);
    assert forall p :: File(w'.archive, p) == File(w.archive, p);
    forall id | id in w'.sent ensures Accounted(w', f, id) { assert Accounted(w, f, id); }
  }

  lemma TurnGood(w: World, f: Fp, l: Label)
    requires Good(w, f) && f in w.friends && Enabled(w, l) && Careful(w, l)
    ensures Good(Turn(w, l), f)
  {
    match l
    case Arrive(now, x) => ArriveGood(w, f, now, x);
    case RelayRestart(now) => RestartGood(w, f, now);
    case HandleNext(k) => HandleGood(w, f, k);
    case Crash => CrashGood(w, f);
    case Say(p, e, k) =>
      AppendTidy(w.archive, p, e, k.countOk, k.writeOk);
      ArchiveMoves(w, Turn(w, l), f);
    case Rework(p, id, edit, ok) =>
      RewriteTidy(w.archive, p, id, edit, ok);
      ArchiveMoves(w, Turn(w, l), f);
    case _ => BookGood(w, f, l);
  }

  lemma {:induction false} RunGood(run: seq<World>, ls: seq<Label>, n: nat, f: Fp)
    requires Runs(run, ls) && CarefulRun(run, ls) && n < |run| && forall i :: 0 <= i < |run| ==> f in run[i].friends
    ensures Good(run[n], f)
  {
    if n > 0 {
      RunGood(run, ls, n - 1, f);
      assert TurnAt(run, ls, n - 1) && CarefulAt(run, ls, n - 1);
      TurnGood(run[n - 1], f, ls[n - 1]);
    }
  }

  /** Pairwise mail is archived exactly once: at every point of every run, a text of a friend
      is still in the relay's inbox or its id is in the conversation, no incoming id is in a
      conversation twice, and the seen set is what the file says. */
  lemma ArchivedExactlyOnce(run: seq<World>, ls: seq<Label>, n: nat, f: Fp, id: int)
    requires Runs(run, ls) && CarefulRun(run, ls) && n < |run| && forall i :: 0 <= i < |run| ==> f in run[i].friends
    requires id in run[n].sent && DueFrom(f, run[n].sent[id])
    ensures id in run[n].box.letters || Archived(run[n], run[n].sent[id])
    ensures InOnce(File(run[n].archive, f)) && SeenAgrees(run[n].archive)
  {
    RunGood(run, ls, n, f);
    assert Accounted(run[n], f, id);
  }

  /** Where the scan must not fail: a letter that is redelivered after its id came in is
      archived a second time if and only if the ids had to be scanned and could not be. */
  lemma DuplicatesIffUnscanned(a: Archive, friends: set<Fp>, l: Letter, k: Luck)
    requires Tidy(a) && Due(l, friends) && k.writeOk
    requires exists i :: 0 <= i < |File(a, l.from)| && CameIn(File(a, l.from)[i]) && File(a, l.from)[i].e.id == l.id
    ensures !InOnce(File(Handle(a, friends, l, k).0, l.from)) <==> l.from !in a.seen && !k.scanOk
  {
    var f := File(a, l.from);
    var i :| 0 <= i < |f| && CameIn(f[i]) && f[i].e.id == l.id;
    assert f[i] in f && l.id in Ids(f);
    if l.from !in a.seen && !k.scanOk {
      var g := f + [Parsed(EntryFor(l))];
      assert File(Handle(a, friends, l, k).0, l.from) == g;
      assert CameIn(g[i]) && CameIn(g[|f|]) && g[i].e.id == g[|f|].e.id;
    } else if l.from in a.seen {
      assert l.id in a.seen[l.from] - {NO_ID};
    }
  }

  /* ---- the line counter ---- */

  /** Handling the letter writes a line. */
  ghost predicate Writes(a: Archive, friends: set<Fp>, l: Letter, k: Luck) {
    && (l.what.Text? || (l.what.Part? && k.staged == Fine)) && l.from in friends && l.id != NO_ID
    && !LookUp(a, l.from, l.id, k.scanOk).1 && k.writeOk
  }

  /** The step appends to a file that it would have to count first and cannot. */
  ghost predicate Miscounts(w: World, l: Label) {
    match l
    case HandleNext(k) =>
      w.batch != [] && Writes(w.archive, w.friends, w.batch[0].1, k) && !CountOk(w.archive, w.batch[0].1.from, k.countOk)
    case Say(p, _, k) => k.writeOk && !CountOk(w.archive, p, k.countOk)
    case _ => false
  }

  /** Looking up ids does not touch files or counters. */
  lemma LookUpFrame(a: Archive, p: Fp, id: Id, readOk: bool)
    ensures var b := LookUp(a, p, id, readOk).0; b == a.(seen := b.seen) && (LinesAgree(b) <==> LinesAgree(a))
  {
    var b := LookUp(a, p, id, readOk).0;
    assert forall q :: File(b, q) == File(a, q);
  }

  lemma AppendLines(a: Archive, p: Fp, e: Entry, countOk: bool, writeOk: bool)
    ensures LinesAgree(Append(a, p, e, countOk, writeOk).0) <==> LinesAgree(a) && (writeOk ==> CountOk(a, p, countOk))
  {
    if !LinesAgree(a) { WrongCountStays(a, p, e, countOk, writeOk); }
    else if writeOk { AppendCountsIff(a, p, e, countOk); }
  }

  lemma HandleLines(a: Archive, friends: set<Fp>, l: Letter, k: Luck)
    ensures LinesAgree(Handle(a, friends, l, k).0)
            <==> LinesAgree(a) && (Writes(a, friends, l, k) ==> CountOk(a, l.from, k.countOk))
  {
    if !l.what.Other? && l.from in friends {
      if l.what.Recall? {
        RewriteAgrees(a, l.from, l.what.target, Wipe, k.writeOk);
      } else if l.id != NO_ID {
        var a1 := LookUp(a, l.from, l.id, k.scanOk).0;
        LookUpFrame(a, l.from, l.id, k.scanOk);
        AppendLines(a1, l.from, EntryFor(l), k.countOk, k.writeOk);
      }
    }
  }

  lemma TurnLines(w: World, l: Label)
    requires Enabled(w, l) && !l.Crash?
    ensures LinesAgree(Turn(w, l).archive) <==> LinesAgree(w.archive) && !Miscounts(w, l)
  {
    match l
    case HandleNext(k) => HandleLines(w.archive, w.friends, w.batch[0].1, k);
    case Say(p, e, k) => AppendLines(w.archive, p, e, k.countOk, k.writeOk);
    case Rework(p, id, edit, ok) => RewriteAgrees(w.archive, p, id, edit, ok);
    case _ =>
  }

  ghost predicate MiscountsAt(run: seq<World>, ls: seq<Label>, n: nat)
    requires n < |ls| && |run| == |ls| + 1
  {
    Miscounts(run[n], ls[n])
  }

  /** Since the last restart, the line counters are right if and only if no append had to
      count a file it could not read. */
  lemma {:induction false} LinesRightIffCounted(run: seq<World>, ls: seq<Label>, i: nat, n: nat)
    requires Runs(run, ls) && i <= n < |run| && (i == 0 || ls[i - 1].Crash?)
    requires forall k :: i <= k < n ==> !ls[k].Crash?
    ensures LinesAgree(run[n].archive) <==> forall k :: i <= k < n ==> !MiscountsAt(run, ls, k)
    decreases n - i
  {
    if i < n {
      LinesRightIffCounted(run, ls, i, n - 1);
      assert TurnAt(run, ls, n - 1);
      TurnLines(run[n - 1], ls[n - 1]);
      assert MiscountsAt(run, ls, n - 1) <==> Miscounts(run[n - 1], ls[n - 1]);
    } else if i > 0 {
      assert TurnAt(run, ls, i - 1);
    }
  }

  /* ---- what handling a letter achieves ---- */

  /** A friend's text that was not seen before is archived with its own words, at the end of
      the conversation; one that was is not archived again; one that cannot be written stays
      for a retry; and no other conversation is touched. */
  lemma TextIsArchived(a: Archive, friends: set<Fp>, l: Letter, k: Luck)
    requires SeenAgrees(a) && ScanOk(a, l.from, k.scanOk) && l.what.Text? && l.id != NO_ID && l.from in friends
    ensures var (b, v) := Handle(a, friends, l, k); var f := File(a, l.from); var known := l.id in Ids(f);
            && (v == Transient <==> !known && !k.writeOk) && (v == Fine <==> known || k.writeOk)
            && File(b, l.from) == (if known || !k.writeOk then f else f + [Parsed(Entry(Incoming, l.id, Words, l.what.body, false))])
            && forall p :: p != l.from ==> File(b, p) == File(a, p)
  {
    LookUpAgrees(a, l.from, l.id, k.scanOk);
    assert forall p :: File(LookUp(a, l.from, l.id, k.scanOk).0, p) == File(a, p);
  }

  /** A part of a friend's attachment that was staged and not seen before leaves its dedupe
      line, if that can be written. */
  lemma PartIsRecorded(a: Archive, friends: set<Fp>, l: Letter, k: Luck)
    requires SeenAgrees(a) && ScanOk(a, l.from, k.scanOk) && l.what.Part? && l.id != NO_ID && l.from in friends
    ensures var (b, v) := Handle(a, friends, l, k); var f := File(a, l.from); var known := l.id in Ids(f);
            && v == (if known then Fine else if k.staged != Fine then k.staged else k.rest)
            && File(b, l.from) == (if known || k.staged != Fine || !k.writeOk then f else f + [Parsed(Entry(Incoming, l.id, Chunk, 0, false))])
  {
    LookUpAgrees(a, l.from, l.id, k.scanOk);
    assert forall p :: File(LookUp(a, l.from, l.id, k.scanOk).0, p) == File(a, p);
  }

  /** What is nobody's business of mine is dropped for good, and what has no id rejected. */
  lemma StrangersAreDropped(a: Archive, friends: set<Fp>, l: Letter, k: Luck)
    requires !l.what.Other?
    ensures l.from !in friends ==> Handle(a, friends, l, k) == (a, Fine)
    ensures l.from in friends && !l.what.Recall? && l.id == NO_ID ==> Handle(a, friends, l, k) == (a, Permanent)
  {
  }

  /** A friend's recall takes the words out of the newest line with that id, if it is an
      incoming text, and leaves every other line. */
  lemma RecallWipes(a: Archive, friends: set<Fp>, l: Letter, k: Luck, i: nat)
    requires l.what.Recall? && l.what.target != NO_ID && l.from in friends && k.writeOk
    requires i < |File(a, l.from)| && Carries(File(a, l.from)[i], l.what.target)
    requires forall j :: i < j < |File(a, l.from)| ==> !Carries(File(a, l.from)[j], l.what.target)
    ensures var b, f := Handle(a, friends, l, k).0, File(a, l.from);
            && |File(b, l.from)| == |f| && (forall j :: 0 <= j < |f| && j != i ==> File(b, l.from)[j] == f[j])
            && (f[i].e.dir == Incoming && f[i].e.kind == Words && !f[i].e.recalled ==>
                  File(b, l.from)[i] == Parsed(f[i].e.(body := 0, recalled := true)))
            && (f[i].e.dir != Incoming || f[i].e.kind != Words || f[i].e.recalled ==> File(b, l.from)[i] == f[i])
  {
    RewriteHits(a, l.from, l.what.target, Wipe, k.writeOk, i);
  }

  /* ---- what a round acknowledges ---- */

  /** The archive the n-th letter of a batch finds. */
  ghost function Before(a: Archive, friends: set<Fp>, items: seq<(int, Letter)>, ks: seq<Luck>, n: nat): Archive
    requires |ks| == |items| && n <= |items|
  {
    Round(a, friends, items[..n], ks[..n]).0
  }

  ghost predicate Scannable(a: Archive, friends: set<Fp>, items: seq<(int, Letter)>, ks: seq<Luck>)
    requires |ks| == |items|
  {
    forall n :: 0 <= n < |items| ==> ScanOk(Before(a, friends, items, ks, n), items[n].1.from, ks[n].scanOk)
  }

  /** The n-th letter could not be dealt with now; if it is a text, nothing was archived. */
  ghost predicate LeftForLater(a: Archive, friends: set<Fp>, items: seq<(int, Letter)>, ks: seq<Luck>, n: nat)
    requires |ks| == |items| && n < |items|
  {
    var before := Before(a, friends, items, ks, n);
    var (b, v) := Handle(before, friends, items[n].1, ks[n]);
    v == Transient && (items[n].1.what.Text? ==> b.files == before.files)
  }

  lemma TransientText(a: Archive, friends: set<Fp>, l: Letter, k: Luck)
    requires Handle(a, friends, l, k).1 == Transient && l.what.Text?
    ensures Handle(a, friends, l, k).0.files == a.files
  {
  }

  lemma BeforePrefix(a: Archive, friends: set<Fp>, items: seq<(int, Letter)>, ks: seq<Luck>, m: nat, n: nat)
    requires |ks| == |items| && n <= m <= |items|
    ensures Before(a, friends, items[..m], ks[..m], n) == Before(a, friends, items, ks, n)
  {
    assert items[..m][..n] == items[..n] && ks[..m][..n] == ks[..n];
  }

  lemma ScannablePrefix(a: Archive, friends: set<Fp>, items: seq<(int, Letter)>, ks: seq<Luck>, m: nat)
    requires |ks| == |items| && m <= |items| && Scannable(a, friends, items, ks)
    ensures Scannable(a, friends, items[..m], ks[..m])
  {
    forall n | 0 <= n < m ensures ScanOk(Before(a, friends, items[..m], ks[..m], n), items[..m][n].1.from, ks[..m][n].scanOk) {
      BeforePrefix(a, friends, items, ks, m, n);
    }
  }

  /** The names a round acknowledges are those of some of the letters, in batch order: each of
      them that is a friend's text with an id is in the conversation, and each letter left out
      could not be dealt with. */
  ghost predicate Settles(a: Archive, friends: set<Fp>, items: seq<(int, Letter)>, ks: seq<Luck>, b: Archive, acks: seq<int>, at: seq<int>)
    requires |ks| == |items|
  {
    && |at| == |acks| && StrictlyIncreasing(at)
    && (forall j :: 0 <= j < |at| ==> 0 <= at[j] < |items| && acks[j] == items[at[j]].0)
    && (forall j :: 0 <= j < |at| ==> Due(items[at[j]].1, friends) ==> items[at[j]].1.id in Ids(File(b, items[at[j]].1.from)))
    && (forall n :: 0 <= n < |items| && n !in at ==> LeftForLater(a, friends, items, ks, n))
  }

  lemma {:induction false} RoundSettles(a: Archive, friends: set<Fp>, items: seq<(int, Letter)>, ks: seq<Luck>) returns (at: seq<int>)
    requires |ks| == |items| && Tidy(a) && Scannable(a, friends, items, ks)
    ensures var (b, acks) := Round(a, friends, items, ks); Tidy(b) && Keeps(a, b) && Settles(a, friends, items, ks, b, acks, at)
    decreases |items|
  {
    at := [];
    if items != [] {
      var n := |items| - 1;
      ScannablePrefix(a, friends, items, ks, n);
      at := RoundSettles(a, friends, items[..n], ks[..n]);
      var (a1, acks) := Round(a, friends, items[..n], ks[..n]);
      var (b, v) := Handle(a1, friends, items[n].1, ks[n]);
      assert a1 == Before(a, friends, items, ks, n);
      HandleTidy(a1, friends, items[n].1, ks[n]);
      SettledStays(a, friends, items, ks, n, a1, b, acks, at);
      if v == Transient {
        if items[n].1.what.Text? { TransientText(a1, friends, items[n].1, ks[n]); }
        NoneMore(a, friends, items, ks, b, acks, at);
      } else {
        OneMore(a, friends, items, ks, b, acks, at);
        at := at + [n];
      }
    }
  }

  /** All but the last letter of a batch are settled. */
  ghost predicate AlmostSettles(a: Archive, friends: set<Fp>, items: seq<(int, Letter)>, ks: seq<Luck>, b: Archive, acks: seq<int>, at: seq<int>)
    requires |ks| == |items| && items != []
  {
    && |at| == |acks| && StrictlyIncreasing(at)
    && (forall j :: 0 <= j < |at| ==> 0 <= at[j] < |items| - 1 && acks[j] == items[at[j]].0)
    && (forall j :: 0 <= j < |at| ==> Due(items[at[j]].1, friends) ==> items[at[j]].1.id in Ids(File(b, items[at[j]].1.from)))
    && (forall n :: 0 <= n < |items| - 1 && n !in at ==> LeftForLater(a, friends, items, ks, n))
  }

  lemma NoneMore(a: Archive, friends: set<Fp>, items: seq<(int, Letter)>, ks: seq<Luck>, b: Archive, acks: seq<int>, at: seq<int>)
    requires |ks| == |items| && items != [] && AlmostSettles(a, friends, items, ks, b, acks, at)
    requires LeftForLater(a, friends, items, ks, |items| - 1)
    ensures Settles(a, friends, items, ks, b, acks, at)
  {
  }

  lemma OneMore(a: Archive, friends: set<Fp>, items: seq<(int, Letter)>, ks: seq<Luck>, b: Archive, acks: seq<int>, at: seq<int>)
    requires |ks| == |items| && items != [] && AlmostSettles(a, friends, items, ks, b, acks, at)
    requires var l := items[|items| - 1].1; Due(l, friends) ==> l.id in Ids(File(b, l.from))
    ensures Settles(a, friends, items, ks, b, acks + [items[|items| - 1].0], at + [|items| - 1])
  {
    var n := |items| - 1;
    var at' := at + [n];
    forall m | 0 <= m < |items| && m !in at' ensures LeftForLater(a, friends, items, ks, m) {
      assert at'[|at|] == n;
      assert m !in at;
    }
  }

  /** What the earlier letters of a batch settled stays settled. */
  lemma SettledStays(a: Archive, friends: set<Fp>, items: seq<(int, Letter)>, ks: seq<Luck>, m: nat, a1: Archive, b: Archive, acks: seq<int>, at: seq<int>)
    requires |ks| == |items| && m <= |items| && Settles(a, friends, items[..m], ks[..m], a1, acks, at) && Keeps(a1, b)
    ensures forall j :: 0 <= j < |at| ==> 0 <= at[j] < m && acks[j] == items[at[j]].0
    ensures forall j :: 0 <= j < |at| ==> Due(items[at[j]].1, friends) ==> items[at[j]].1.id in Ids(File(b, items[at[j]].1.from))
    ensures forall n :: 0 <= n < m && n !in at ==> LeftForLater(a, friends, items, ks, n)
  {
    forall j | 0 <= j < |at| ensures items[at[j]] == items[..m][at[j]] {}
    forall n | 0 <= n < m && n !in at ensures LeftForLater(a, friends, items, ks, n) {
      assert LeftForLater(a, friends, items[..m], ks[..m], n);
      BeforePrefix(a, friends, items, ks, m, n);
    }
  }

  /** The world after the turns that handle a polled batch. */
  ghost function Handled(w: World, ks: seq<Luck>): World
    requires |ks| <= |w.batch|
    decreases |ks|
  {
    if ks == [] then w else HandledOnce(Handled(w, ks[..|ks| - 1]), ks[|ks| - 1])
  }

  ghost function HandledOnce(w: World, k: Luck): World { if w.batch == [] then w else Turn(w, HandleNext(k)) }

  /** A round is so many turns of the run: the same archive, the same acknowledgements. */
  lemma {:induction false} RoundIsTurns(w: World, ks: seq<Luck>)
    requires |ks| <= |w.batch| && w.acks == {}
    ensures var (b, acks) := Round(w.archive, w.friends, w.batch[..|ks|], ks);
            Handled(w, ks) == w.(archive := b, batch := w.batch[|ks|..], acks := set x | x in acks)
    decreases |ks|
  {
    var m := |ks|;
    if m == 0 {
      assert w.batch[..0] == [] && w.batch[0..] == w.batch;
      assert Handled(w, ks) == w.(acks := {});
    } else {
      var n := m - 1;
      RoundIsTurns(w, ks[..n]);
      assert w.batch[..m][..n] == w.batch[..n] && w.batch[n..][0] == w.batch[n] && w.batch[n..][1..] == w.batch[m..];
    }
  }
}
