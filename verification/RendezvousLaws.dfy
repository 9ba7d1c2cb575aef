/** What a caller of the LAN rendezvous can rely on: what is put is there to be read while the
    rendezvous is in use, and an abandoned one goes. */
module RendezvousLaws {
  import opened Collections
  import opened Bytes
  import Frames
  import opened Rendezvous

  /* ---- sweeping ---- */

  /** A sweep keeps exactly what was used within the idle time. */
  lemma SweepDropsIdle(c: Config, h: Hall, now: int, id: Id)
    ensures var s := Sweep(c, h, now);
            && (id in s.rv <==> id in h.rv && now - h.rv[id].last <= c.idle)
            && (id in s.rv ==> s.rv[id] == h.rv[id]) && s.closed == h.closed
  {
  }

  /* ---- the last use of a rendezvous ---- */

  /** The operation is a put or a read of id. */
  predicate UsesId(c: Config, op: Op, id: Id) {
    match op
    case Putting(x, q, data, _) => x == id && q > 0 && |data| <= c.maxBlob && id in c.allowed && id in c.wellFormed
    case Looking(x, _, _) => x == id
    case _ => false
  }

  function Now(op: Op): int { match op case Putting(_, _, _, now) => now case Looking(_, _, now) => now case _ => 0 }

  /** When id was last put to or read. */
  function LastUse(c: Config, ops: seq<Op>, id: Id): int {
    if ops == [] then 0 else
      var n := |ops| - 1;
      if UsesId(c, ops[n], id) then Now(ops[n]) else LastUse(c, ops[..n], id)
  }

  /** The time kept with a rendezvous is that of its last use. */
  ghost predicate Timed(c: Config, h: Hall, ops: seq<Op>) {
    (forall id :: id in h.rv ==> h.rv[id].last == LastUse(c, ops, id)) && (h.closed ==> h.rv == map[])
  }

  lemma LastUseSnoc(c: Config, ops: seq<Op>, op: Op, id: Id)
    ensures LastUse(c, ops + [op], id) == if UsesId(c, op, id) then Now(op) else LastUse(c, ops, id)
  {
    assert (ops + [op])[..|ops|] == ops;
  }

  lemma StepTimed(c: Config, h: Hall, ops: seq<Op>, op: Op)
    requires Timed(c, h, ops)
    ensures Timed(c, Do(c, h, op), ops + [op])
  {
    forall id | id in Do(c, h, op).rv ensures Do(c, h, op).rv[id].last == LastUse(c, ops + [op], id) {
      LastUseSnoc(c, ops, op, id);
      if op.Putting? && Check(c, h, op.id) == Ok && op.q > 0 && |op.data| <= c.maxBlob {
        PutTimes(c, Sweep(c, h, op.now), op.id, op.q, op.data, op.now, id);
      }
    }
  }

  lemma PutTimes(c: Config, h: Hall, x: Id, q: int, data: seq<Byte>, now: int, id: Id)
    requires id in Insert(c, h, x, q, data, now).0.rv
    ensures Insert(c, h, x, q, data, now).0.rv[id].last == if id == x then now else h.rv[id].last
    ensures id != x ==> id in h.rv
  {
  }

  lemma {:induction false} AlwaysTimed(c: Config, ops: seq<Op>)
    ensures Timed(c, After(c, ops), ops)
  {
    if ops != [] {
      var n := |ops| - 1;
      AlwaysTimed(c, ops[..n]);
      StepTimed(c, After(c, ops[..n]), ops[..n], ops[n]);
      assert ops[..n] + [ops[n]] == ops;
    }
  }

  /* ---- what is put stays ---- */

  /** The operation sweeps: it is a read, or a put that gets past its checks. */
  predicate Sweeps(c: Config, op: Op) {
    op.Looking? || (op.Putting? && op.q > 0 && |op.data| <= c.maxBlob && op.id in c.allowed && op.id in c.wellFormed)
  }

  /** The operation neither deletes id nor closes the service, and comes in time for id. */
  ghost predicate Leaves(c: Config, ops: seq<Op>, op: Op, id: Id) {
    op != Deleting(id) && !op.Closing? && (Sweeps(c, op) ==> Now(op) - LastUse(c, ops, id) <= c.idle)
  }

  ghost predicate Has(c: Config, h: Hall, id: Id, q: int, data: seq<Byte>) {
    !h.closed && id in c.allowed && id in c.wellFormed && id in h.rv && q in h.rv[id].blobs && h.rv[id].blobs[q] == data
  }

  lemma StepLeaves(c: Config, h: Hall, ops: seq<Op>, op: Op, id: Id, q: int, data: seq<Byte>)
    requires Timed(c, h, ops) && Has(c, h, id, q, data) && Leaves(c, ops, op, id)
    ensures Has(c, Do(c, h, op), id, q, data)
  {
    if op.Putting? && Check(c, h, op.id) == Ok && op.q > 0 && |op.data| <= c.maxBlob {
      PutLeaves(c, Sweep(c, h, op.now), op.id, op.q, op.data, op.now, id, q, data);
    }
  }

  lemma PutLeaves(c: Config, h: Hall, x: Id, q': int, data': seq<Byte>, now: int, id: Id, q: int, data: seq<Byte>)
    requires Has(c, h, id, q, data)
    ensures Has(c, Insert(c, h, x, q', data', now).0, id, q, data)
  {
  }

  /** Every operation of ops from n on leaves id. */
  ghost predicate LeftAlone(c: Config, ops: seq<Op>, n: nat, id: Id)
    requires n <= |ops|
  {
    forall k :: n <= k < |ops| ==> Leaves(c, ops[..k], ops[k], id)
  }

  lemma {:induction false} StaysPut(c: Config, ops: seq<Op>, n: nat, id: Id, q: int, data: seq<Byte>)
    requires n <= |ops| && Has(c, After(c, ops[..n]), id, q, data) && LeftAlone(c, ops, n, id)
    ensures Has(c, After(c, ops), id, q, data)
    decreases |ops|
  {
    if n == |ops| {
      assert ops[..n] == ops;
    } else {
      var m := |ops| - 1;
      var front := ops[..m];
      assert front[..n] == ops[..n];
      forall k | n <= k < m ensures Leaves(c, front[..k], front[k], id) { assert front[..k] == ops[..k] && front[k] == ops[k]; }
      StaysPut(c, front, n, id, q, data);
      AlwaysTimed(c, front);
      assert Leaves(c, ops[..m], ops[m], id);
      StepLeaves(c, After(c, front), front, ops[m], id, q, data);
    }
  }

  /** A put that answered "ok" left its blob. */
  lemma PutIsThere(c: Config, h: Hall, id: Id, q: int, data: seq<Byte>, now: int)
    requires Put(c, h, id, q, data, now).1 == Ok
    ensures Has(c, Put(c, h, id, q, data, now).0, id, q, data)
  {
  }

  /** Whoever reads in time gets the blob, and gets it at once. */
  lemma ReadInTime(c: Config, ops: seq<Op>, id: Id, q: int, data: seq<Byte>, since: int, wait: bool, now: int, ws: seq<Waking>)
    requires Has(c, After(c, ops), id, q, data) && since < q && now - LastUse(c, ops, id) <= c.idle
    ensures var r := Get(c, After(c, ops), id, since, wait, false, now, ws).1; r.Items? && Frames.Item(q, data) in r.items
  {
    AlwaysTimed(c, ops);
    FoundAtOnce(c, After(c, ops), id, q, data, since, wait, false, now, ws);
  }

  lemma FoundAtOnce(c: Config, h: Hall, id: Id, q: int, data: seq<Byte>, since: int, wait: bool, existed: bool, now: int, ws: seq<Waking>)
    requires Has(c, h, id, q, data) && since < q && now - h.rv[id].last <= c.idle
    ensures var r := Get(c, h, id, since, wait, existed, now, ws).1; r.Items? && Frames.Item(q, data) in r.items
  {
    SweepDropsIdle(c, h, now, id);
    ItemsAfterExact(h.rv[id].blobs, since);
    assert Frames.Item(q, data) in ItemsAfter(h.rv[id].blobs, since);
  }

  /** What was put with "ok" is returned by every Get that asks from below its number, as long
      as since the last use of the rendezvous no operation came later than the idle time, and
      nobody deleted it or closed the service. */
  lemma PutIsReturned(c: Config, ops: seq<Op>, n: nat, id: Id, q: int, data: seq<Byte>, at: int, since: int, wait: bool, now: int, ws: seq<Waking>)
    requires n < |ops| && ops[n] == Putting(id, q, data, at) && Put(c, After(c, ops[..n]), id, q, data, at).1 == Ok
    requires LeftAlone(c, ops, n + 1, id) && since < q && now - LastUse(c, ops, id) <= c.idle
    ensures var r := Get(c, After(c, ops), id, since, wait, false, now, ws).1; r.Items? && Frames.Item(q, data) in r.items
  {
    PutIsThere(c, After(c, ops[..n]), id, q, data, at);
    assert ops[..n + 1][..n] == ops[..n] && ops[..n + 1][n] == ops[n];
    StaysPut(c, ops, n + 1, id, q, data);
    ReadInTime(c, ops, id, q, data, since, wait, now, ws);
  }

  /** A reader that waits is woken by the blob it waits for: nothing is there above `since`, and
      the first thing that happens is a put of such a blob. */
  lemma WaitIsWoken(c: Config, h: Hall, id: Id, since: int, now: int, q: int, data: seq<Byte>, at: int, soon: int, ws: seq<Waking>)
    requires c.idle >= 0 && Check(c, h, id) == Ok && at <= soon <= at + c.idle && since < q && Stored(Look(c, h, id, since, now).0, id, since) == []
    requires Put(c, Look(c, h, id, since, now).0, id, q, data, at).1 == Ok
    ensures var r := Get(c, h, id, since, true, false, now, [Woken(Putting(id, q, data, at), soon)] + ws).1;
            r.Items? && Frames.Item(q, data) in r.items
  {
    var (h1, found) := Look(c, h, id, since, now);
    var op := Putting(id, q, data, at);
    LooksAgain(c, h, id, since, now, op, soon, ws);
    PutIsThere(c, h1, id, q, data, at);
    PutTimes(c, Sweep(c, h1, at), id, q, data, at, id);
    FoundAtOnce(c, Do(c, h1, op), id, q, data, since, true, found.Some?, soon, ws);
  }

  /** A reader that finds nothing and is woken looks again. */
  lemma LooksAgain(c: Config, h: Hall, id: Id, since: int, now: int, op: Op, soon: int, ws: seq<Waking>)
    requires Check(c, h, id) == Ok && Stored(Look(c, h, id, since, now).0, id, since) == []
    ensures var (h1, found) := Look(c, h, id, since, now);
            Get(c, h, id, since, true, false, now, [Woken(op, soon)] + ws) == Get(c, Do(c, h1, op), id, since, true, found.Some?, soon, ws)
  {
    assert ([Woken(op, soon)] + ws)[1..] == ws;
    LookIsStored(c, h, id, since, now);
  }

  /** A reader that finds nothing is answered at once if it does not wait, and otherwise stops
      empty-handed when its time is up and without an answer when it goes away itself. */
  lemma WaitEnds(c: Config, h: Hall, id: Id, since: int, now: int, ws: seq<Waking>)
    requires Check(c, h, id) == Ok && Stored(Look(c, h, id, since, now).0, id, since) == []
    ensures Get(c, h, id, since, false, false, now, ws).1 == Items([])
    ensures Get(c, h, id, since, true, false, now, [TimedOut] + ws).1 == Items([])
    ensures Get(c, h, id, since, true, false, now, [Cancelled] + ws).1 == GaveUp
  {
    LookIsStored(c, h, id, since, now);
  }

  /** Only a reader that went away is left without an answer, and only a service that refuses
      the id refuses the reader. */
  lemma {:induction false} OnlyTheGoneGetNothing(c: Config, h: Hall, id: Id, since: int, wait: bool, existed: bool, now: int, ws: seq<Waking>)
    ensures var r := Get(c, h, id, since, wait, existed, now, ws).1;
            && (r.GaveUp? ==> exists i :: 0 <= i < |ws| && ws[i].Cancelled?)
            && (r.Refused? ==> r.why != Ok && r.why == Check(c, Get(c, h, id, since, wait, existed, now, ws).0, id))
    decreases |ws|
  {
    if Check(c, h, id) == Ok && ws != [] && ws[0].Woken? {
      var (h1, r) := Look(c, h, id, since, now);
      OnlyTheGoneGetNothing(c, Do(c, h1, ws[0].op), id, since, wait, existed || r.Some?, ws[0].now, ws[1..]);
    }
  }

  /** And one that waits with nothing to read gives up empty only when its time is over, or
      when the rendezvous it had seen is gone. */
  lemma {:induction false} EmptyOnlyWhenOver(c: Config, h: Hall, id: Id, since: int, existed: bool, now: int, ws: seq<Waking>)
    requires Get(c, h, id, since, true, existed, now, ws).1 == Items([]) && forall i :: 0 <= i < |ws| ==> ws[i].Woken?
    ensures var h' := Get(c, h, id, since, true, existed, now, ws).0; id !in h'.rv || RanOut(c, h, id, since, existed, now, ws)
    decreases |ws|
  {
    if Check(c, h, id) == Ok && ws != [] {
      var (h1, r) := Look(c, h, id, since, now);
      LookIsStored(c, h, id, since, now);
      if !(existed && r.None?) && (r.Some? ==> r.value == []) {
        forall i | 0 <= i < |ws| - 1 ensures ws[1..][i].Woken? { assert ws[1..][i] == ws[i + 1]; }
        EmptyOnlyWhenOver(c, Do(c, h1, ws[0].op), id, since, existed || r.Some?, ws[0].now, ws[1..]);
      }
    }
  }

  /** Every waking was used up: the reader looked once more after each of them. */
  ghost predicate RanOut(c: Config, h: Hall, id: Id, since: int, existed: bool, now: int, ws: seq<Waking>)
    decreases |ws|
  {
    Check(c, h, id) == Ok &&
    var (h1, r) := Look(c, h, id, since, now);
    (r.Some? ==> r.value == []) && (ws == [] || (ws[0].Woken? && RanOut(c, Do(c, h1, ws[0].op), id, since, existed || r.Some?, ws[0].now, ws[1..])))
  }

  /** An abandoned rendezvous goes with the first operation that sweeps after the idle time,
      and no operation that sweeps leaves one behind that is idle for longer. */
  lemma AbandonedGoes(c: Config, ops: seq<Op>, op: Op, id: Id)
    requires Sweeps(c, op) && !After(c, ops).closed && !UsesId(c, op, id) && Now(op) - LastUse(c, ops, id) > c.idle
    ensures id !in After(c, ops + [op]).rv
  {
    assert (ops + [op])[..|ops|] == ops;
    AlwaysTimed(c, ops);
    SweepDropsIdle(c, After(c, ops), Now(op), id);
    if op.Putting? && id in After(c, ops + [op]).rv {
      PutTimes(c, Sweep(c, After(c, ops), op.now), op.id, op.q, op.data, op.now, id);
    }
  }

  /* ---- what each request answers ---- */

  /** What a put finds in use. */
  ghost predicate InUse(c: Config, h: Hall, now: int, id: Id) { id in h.rv && now - h.rv[id].last <= c.idle }

  ghost function UsedIds(c: Config, h: Hall, now: int): set<Id> { set id | id in h.rv && now - h.rv[id].last <= c.idle }

  /** A put is taken if and only if the service is open for the id, number and size are in
      range, the number is free, and neither the rendezvous nor the service would exceed its
      cap with what is in use; otherwise the answer says which of these failed first. */
  lemma PutAnswers(c: Config, h: Hall, id: Id, q: int, data: seq<Byte>, now: int)
    requires HallOk(c, h)
    ensures var s := Put(c, h, id, q, data, now).1;
            var serves := !h.closed && id in c.allowed && id in c.wellFormed;
            var sane, taken := q > 0 && |data| <= c.maxBlob, InUse(c, h, now, id) && q in h.rv[id].blobs;
            var fits := (if InUse(c, h, now, id) then h.rv[id].size else 0) + |data| <= c.maxTotal
                        && Sum(Sizes(Only(h.rv, UsedIds(c, h, now)))) + |data| <= c.maxAll;
            && (s == Ok <==> serves && sane && !taken && fits)
            && (s == Closed <==> h.closed)
            && (s == Code(404) <==> !h.closed && id !in c.allowed)
            && (s == Code(400) <==> !h.closed && id in c.allowed && (id !in c.wellFormed || q <= 0))
            && (s == Code(409) <==> serves && sane && taken)
            && (s == Code(413) <==> serves && q > 0 && (|data| > c.maxBlob || (!taken && !fits)))
  {
    if Check(c, h, id) == Ok && q > 0 && |data| <= c.maxBlob {
      var s := Sweep(c, h, now);
      SweepDropsIdle(c, h, now, id);
      DropAllOk(c, h, StaleIds(c, h.rv, now));
      SweepKeepsUsed(c, h, now);
      InsertAnswers(c, s, id, q, data, now);
    }
  }

  lemma SweepKeepsUsed(c: Config, h: Hall, now: int)
    ensures Sweep(c, h, now).rv == Only(h.rv, UsedIds(c, h, now))
  {
    forall x | x in h.rv ensures x in StaleIds(c, h.rv, now) <==> x !in UsedIds(c, h, now) {}
    assert (h.rv - StaleIds(c, h.rv, now)).Keys == Only(h.rv, UsedIds(c, h, now)).Keys;
  }

  lemma InsertAnswers(c: Config, h: Hall, id: Id, q: int, data: seq<Byte>, now: int)
    ensures var s := Insert(c, h, id, q, data, now).1; var taken := id in h.rv && q in h.rv[id].blobs;
            var fits := (if id in h.rv then h.rv[id].size else 0) + |data| <= c.maxTotal && h.total + |data| <= c.maxAll;
            (s == Ok <==> !taken && fits) && (s == Code(409) <==> taken) && (s == Code(413) <==> !taken && !fits)
  {
  }

  /** A deletion that is let through removes that rendezvous and no other; closing removes all
      and refuses everything after. */
  lemma DeletionRemoves(c: Config, h: Hall, id: Id, x: Id)
    ensures var (h', s) := Delete(c, h, id);
            && (s == Ok <==> !h.closed && id in c.allowed && id in c.wellFormed)
            && (s == Ok ==> id !in h'.rv && (x != id ==> (x in h'.rv <==> x in h.rv) && (x in h'.rv ==> h'.rv[x] == h.rv[x])))
            && (s != Ok ==> h' == h)
    ensures Close(h).closed && (!h.closed ==> Close(h).rv == map[]) && Check(c, Close(h), id) == Closed
  {
  }
}
