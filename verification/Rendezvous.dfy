/** The LAN pairing rendezvous (peer/lanrendezvous.go): bounded in-memory blobs per id, read
    in sequence order, dropped when idle. */
module Rendezvous {
  import opened Collections
  import opened Bytes
  import opened Frames

  type Id = int

  /** The limits, the ids under an allowed prefix, and the well-formed ones. */
  datatype Config = Config(maxBlob: nat, maxTotal: nat, maxAll: nat, idle: int, allowed: set<Id>, wellFormed: set<Id>)

  /** The limits of a service: 4 MiB a blob, 64 MiB a rendezvous, twice that in all, ten
      minutes (here in seconds) idle. */
  function LanConfig(allowed: set<Id>, wellFormed: set<Id>): Config {
    Config(MAX_BLOB, 0x400_0000, 0x800_0000, 600, allowed, wellFormed)
  }

  datatype Meeting = Meeting(last: int, size: nat, blobs: map<int, seq<Byte>>)
  datatype Hall = Hall(rv: map<Id, Meeting>, total: int, closed: bool)

  datatype Status = Ok | Closed | Code(n: int)

  function Check(c: Config, h: Hall, id: Id): Status {
    if h.closed then Closed
    else if id !in c.allowed then Code(404)
    else if id !in c.wellFormed then Code(400)
    else Ok
  }

  function Sizes(rv: map<Id, Meeting>): map<Id, nat> { map id | id in rv :: rv[id].size }

  /* ---- dropping ---- */

  function Drop(h: Hall, id: Id): Hall {
    if id in h.rv then h.(rv := h.rv - {id}, total := h.total - h.rv[id].size) else h
  }

  predicate Stale(c: Config, m: Meeting, now: int) { now - m.last > c.idle }

  function StaleIds(c: Config, rv: map<Id, Meeting>, now: int): set<Id> { set id | id in rv && Stale(c, rv[id], now) }

  function Only(rv: map<Id, Meeting>, ids: set<Id>): map<Id, Meeting> { map id | id in rv && id in ids :: rv[id] }

  ghost function DropAll(h: Hall, ids: set<Id>): Hall {
    h.(rv := h.rv - ids, total := h.total - Sum(Sizes(Only(h.rv, ids))))
  }

  ghost function Sweep(c: Config, h: Hall, now: int): Hall { DropAll(h, StaleIds(c, h.rv, now)) }

  lemma DropOneMore(h: Hall, ids: set<Id>, id: Id)
    requires id in h.rv && id !in ids
    ensures DropAll(h, ids + {id}) == Drop(DropAll(h, ids), id)
  {
    var a, b := Sizes(Only(h.rv, ids)), Sizes(Only(h.rv, ids + {id}));
    assert b == a[id := h.rv[id].size];
    SumAdd(a, id, h.rv[id].size);
    assert h.rv - (ids + {id}) == h.rv - ids - {id};
  }

  /* ---- the operations ---- */

  function Touch(h: Hall, id: Id, now: int): Hall {
    if id in h.rv then h.(rv := h.rv[id := h.rv[id].(last := now)]) else h
  }

  /** Put; the sweep has been done. */
  function Insert(c: Config, h: Hall, id: Id, q: int, data: seq<Byte>, now: int): (Hall, Status) {
    var h1 := Touch(h, id, now);
    var m := if id in h1.rv then h1.rv[id] else Meeting(now, 0, map[]);
    if q in m.blobs then (h1, Code(409))
    else if m.size + |data| > c.maxTotal then (h1, Code(413))
    else if h1.total + |data| > c.maxAll then (h1, Code(413))
    else (h1.(rv := h1.rv[id := m.(blobs := m.blobs[q := data], size := m.size + |data|)], total := h1.total + |data|), Ok)
  }

  ghost function Put(c: Config, h: Hall, id: Id, q: int, data: seq<Byte>, now: int): (Hall, Status) {
    if Check(c, h, id) != Ok then (h, Check(c, h, id))
    else if q <= 0 then (h, Code(400))
    else if |data| > c.maxBlob then (h, Code(413))
    else Insert(c, Sweep(c, h, now), id, q, data, now)
  }

  /** The blobs above a sequence number, in order. */
  ghost function ItemsAfter(blobs: map<int, seq<Byte>>, since: int): seq<Item> {
    ItemsOf(blobs, Sorted(set q | q in blobs && q > since))
  }

  function ItemsOf(blobs: map<int, seq<Byte>>, qs: seq<int>): seq<Item> {
    if qs == [] then [] else
      var n := |qs| - 1;
      ItemsOf(blobs, qs[..n]) + [Item(qs[n], if qs[n] in blobs then blobs[qs[n]] else [])]
  }

  /** readLocked: nothing when the rendezvous does not exist. */
  ghost function Look(c: Config, h: Hall, id: Id, since: int, now: int): (Hall, Option<seq<Item>>) {
    var h1 := Sweep(c, h, now);
    if id in h1.rv then (Touch(h1, id, now), Some(ItemsAfter(h1.rv[id].blobs, since))) else (h1, None)
  }

  function Delete(c: Config, h: Hall, id: Id): (Hall, Status) {
    if Check(c, h, id) != Ok then (h, Check(c, h, id)) else (Drop(h, id), Ok)
  }

  function Close(h: Hall): Hall { if h.closed then h else Hall(map[], 0, true) }

  datatype Op = Putting(id: Id, q: int, data: seq<Byte>, now: int) | Looking(id: Id, since: int, now: int) | Deleting(id: Id) | Closing

  ghost function Do(c: Config, h: Hall, op: Op): Hall {
    match op
    case Putting(id, q, data, now) => Put(c, h, id, q, data, now).0
    case Looking(id, since, now) => Look(c, h, id, since, now).0
    case Deleting(id) => Delete(c, h, id).0
    case Closing => Close(h)
  }

  /* ---- waiting ---- */

  /** What ends one wait: another operation and the time of the next look, the timer, or the
      caller giving up. */
  datatype Waking = Woken(op: Op, now: int) | TimedOut | Cancelled
  datatype Reply = Refused(why: Status) | GaveUp | Items(items: seq<Item>)

  /** Get, with the things that happen while it waits. */
  ghost function Get(c: Config, h: Hall, id: Id, since: int, wait: bool, existed: bool, now: int, ws: seq<Waking>): (Hall, Reply)
    decreases |ws|
  {
    if Check(c, h, id) != Ok then (h, Refused(Check(c, h, id)))
    else
      var (h1, r) := Look(c, h, id, since, now);
      var items := if r.Some? then r.value else [];
      if items != [] || !wait || (existed && r.None?) then (h1, Items(items))
      else if ws == [] || ws[0].TimedOut? then (h1, Items([]))
      else if ws[0].Cancelled? then (h1, GaveUp)
      else Get(c, Do(c, h1, ws[0].op), id, since, wait, existed || r.Some?, ws[0].now, ws[1..])
  }

  /* ---- the service ---- */

  class LANRendezvous {
    const c: Config
    var rv: map<Id, Meeting>
    var total: int
    var closed: bool

    ghost function State(): Hall reads this { Hall(rv, total, closed) }

    constructor (allowed: set<Id>, wellFormed: set<Id>)
      ensures c == LanConfig(allowed, wellFormed) && State() == Hall(map[], 0, false)
    {
      c := LanConfig(allowed, wellFormed);
      rv, total, closed := map[], 0, false;
    }

    method DropLocked(id: Id)
      modifies this
      ensures State() == Drop(old(State()), id)
    {
      if id in rv {
        total := total - rv[id].size;
        rv := rv - {id};
      }
    }

    method SweepLocked(now: int)
      modifies this
      ensures State() == Sweep(c, old(State()), now)
    {
      ghost var h := State();
      var stale := StaleIds(c, rv, now);
      var order := SortSet(stale);
      ghost var done: set<Id> := {};
      assert Only(h.rv, {}) == map[];
      for i := 0 to |order|
        invariant Lists(order[..i], done) && State() == DropAll(h, done)
      {
        var id := order[i];
        ListsNext(order, stale, i, done);
        DropOneMore(h, done, id);
        DropLocked(id);
        done := done + {id};
      }
      ListsAll(order, stale, done);
    }

    method CheckID(id: Id) returns (s: Status)
      ensures s == Check(c, State(), id)
    {
      if closed { return Closed; }
      if id !in c.allowed { return Code(404); }
      if id !in c.wellFormed { return Code(400); }
      return Ok;
    }

    method PutBlob(id: Id, q: int, data: seq<Byte>, now: int) returns (s: Status)
      modifies this
      ensures (State(), s) == Put(c, old(State()), id, q, data, now)
    {
      s := CheckID(id);
      if s != Ok { return; }
      if q <= 0 { return Code(400); }
      if |data| > c.maxBlob { return Code(413); }
      SweepLocked(now);
      s := Store(id, q, data, now);
    }

    method Store(id: Id, q: int, data: seq<Byte>, now: int) returns (s: Status)
      modifies this
      ensures (State(), s) == Insert(c, old(State()), id, q, data, now)
    {
      var cur := 0;
      if id in rv {
        rv := rv[id := rv[id].(last := now)];
        if q in rv[id].blobs { return Code(409); }
        cur := rv[id].size;
      }
      if cur + |data| > c.maxTotal || total + |data| > c.maxAll { return Code(413); }
      ghost var touched := rv;
      if id !in rv { rv := rv[id := Meeting(now, 0, map[])]; }
      var m := rv[id];
      assert rv[id := m] == touched[id := m];
      rv := rv[id := m.(blobs := m.blobs[q := data], size := m.size + |data|)];
      assert rv == touched[id := rv[id]];
      total := total + |data|;
      return Ok;
    }

    method ReadLocked(id: Id, since: int, now: int) returns (r: Option<seq<Item>>)
      modifies this
      ensures (State(), r) == Look(c, old(State()), id, since, now)
    {
      SweepLocked(now);
      if id !in rv { return None; }
      var items := Collect(rv[id].blobs, since);
      rv := rv[id := rv[id].(last := now)];
      return Some(items);
    }

    method DeleteBlobs(id: Id) returns (s: Status)
      modifies this
      ensures (State(), s) == Delete(c, old(State()), id)
    {
      s := CheckID(id);
      if s == Ok { DropLocked(id); }
    }

    method CloseAll()
      modifies this
      ensures State() == Close(old(State()))
    {
      if closed { return; }
      closed, rv, total := true, map[], 0;
    }

    method Perform(op: Op)
      modifies this
      ensures State() == Do(c, old(State()), op)
    {
      match op
      case Putting(id, q, data, now) => var _ := PutBlob(id, q, data, now);
      case Looking(id, since, now) => var _ := ReadLocked(id, since, now);
      case Deleting(id) => var _ := DeleteBlobs(id);
      case Closing => CloseAll();
    }

    method GetBlobs(id: Id, since: int, wait: bool, start: int, ws: seq<Waking>) returns (r: Reply)
      modifies this
      ensures (State(), r) == Get(c, old(State()), id, since, wait, false, start, ws)
    {
      var existed, now, i := false, start, 0;
      while true
        invariant 0 <= i <= |ws|
        invariant Get(c, old(State()), id, since, wait, false, start, ws) == Get(c, State(), id, since, wait, existed, now, ws[i..])
        decreases |ws| - i
      {
        var s := CheckID(id);
        if s != Ok { return Refused(s); }
        var found := ReadLocked(id, since, now);
        var items := if found.Some? then found.value else [];
        if items != [] || !wait || (existed && found.None?) { return Items(items); }
        if i == |ws| || ws[i].TimedOut? { return Items([]); }
        if ws[i].Cancelled? { return GaveUp; }
        existed := existed || found.Some?;
        assert ws[i..][1..] == ws[i + 1..];
        Perform(ws[i].op);
        now, i := ws[i].now, i + 1;
      }
    }
  }

  method Collect(blobs: map<int, seq<Byte>>, since: int) returns (items: seq<Item>)
    ensures items == ItemsAfter(blobs, since)
  {
    var wanted := set q | q in blobs && q > since;
    var qs := SortSet(wanted);
    ListingUnique(qs, Sorted(wanted), wanted);
    forall i | 0 <= i < |qs| ensures qs[i] in blobs { WantedAt(qs, wanted, i); }
    items := CopyItems(blobs, qs);
  }

  method CopyItems(blobs: map<int, seq<Byte>>, qs: seq<int>) returns (items: seq<Item>)
    requires forall i :: 0 <= i < |qs| ==> qs[i] in blobs
    ensures items == ItemsOf(blobs, qs)
  {
    items := [];
    for i := 0 to |qs|
      invariant items == ItemsOf(blobs, qs[..i])
    {
      assert qs[..i + 1][..i] == qs[..i];
      items := items + [Item(qs[i], blobs[qs[i]])];
    }
    assert qs[..|qs|] == qs;
  }

  lemma WantedAt(qs: seq<int>, wanted: set<int>, i: nat)
    requires Lists(qs, wanted) && i < |qs|
    ensures qs[i] in wanted
  {
    assert qs[i] in qs;
  }

  /* ---- what always holds ---- */

  function Lengths(blobs: map<int, seq<Byte>>): map<int, nat> { map q | q in blobs :: |blobs[q]| }

  ghost predicate BlobOk(c: Config, q: int, data: seq<Byte>) { q > 0 && |data| <= c.maxBlob }

  ghost predicate MeetingOk(c: Config, m: Meeting) {
    && m.size == Sum(Lengths(m.blobs)) && m.size <= c.maxTotal
    && forall q :: q in m.blobs ==> BlobOk(c, q, m.blobs[q])
  }

  /** Every counter is the sum of what it counts and every cap holds. */
  ghost predicate HallOk(c: Config, h: Hall) {
    && h.total == Sum(Sizes(h.rv)) && h.total <= c.maxAll
    && (forall id :: id in h.rv ==> MeetingOk(c, h.rv[id]))
    && (h.closed ==> h.rv == map[])
  }

  lemma DropOk(c: Config, h: Hall, id: Id)
    requires HallOk(c, h)
    ensures HallOk(c, Drop(h, id))
  {
    if id in h.rv {
      SumSplit(Sizes(h.rv), id);
      assert Sizes(h.rv) - {id} == Sizes(h.rv - {id});
    }
  }

  lemma {:induction false} DropAllOk(c: Config, h: Hall, ids: set<Id>)
    requires HallOk(c, h) && ids <= h.rv.Keys
    ensures HallOk(c, DropAll(h, ids))
    decreases |ids|
  {
    if ids == {} {
      DropNone(h);
    } else {
      Inhabited(ids);
      var id :| id in ids;
      var rest := ids - {id};
      DropAllOk(c, h, rest);
      assert rest + {id} == ids && id in h.rv.Keys;
      DropOneMore(h, rest, id);
      DropOk(c, DropAll(h, rest), id);
    }
  }

  lemma DropNone(h: Hall)
    ensures DropAll(h, {}) == h
  {
    assert Only(h.rv, {}) == map[] && h.rv - {} == h.rv;
  }

  lemma TouchOk(c: Config, h: Hall, id: Id, now: int)
    requires HallOk(c, h)
    ensures HallOk(c, Touch(h, id, now))
  {
    assert Sizes(Touch(h, id, now).rv) == Sizes(h.rv);
    if id in h.rv { assert MeetingOk(c, h.rv[id]); }
  }

  /** Replacing or adding one meeting. */
  lemma SumReplace(rv: map<Id, Meeting>, id: Id, m: Meeting)
    ensures Sum(Sizes(rv[id := m])) == Sum(Sizes(rv)) + m.size - if id in rv then rv[id].size else 0
  {
    var s, t := Sizes(rv), Sizes(rv[id := m]);
    SumSplit(t, id);
    assert t - {id} == s - {id};
    if id in rv { SumSplit(s, id); } else { assert s - {id} == s; }
  }

  lemma GrowOk(c: Config, m: Meeting, q: int, data: seq<Byte>)
    requires MeetingOk(c, m) && BlobOk(c, q, data) && q !in m.blobs && m.size + |data| <= c.maxTotal
    ensures MeetingOk(c, Grown(m, q, data))
  {
    SumAdd(Lengths(m.blobs), q, |data|);
    assert Lengths(m.blobs[q := data]) == Lengths(m.blobs)[q := |data|];
  }

  lemma EmptyOk(c: Config, now: int)
    ensures MeetingOk(c, Meeting(now, 0, map[]))
  {
    assert Lengths(map[]) == map[];
  }

  lemma PlaceOk(c: Config, h: Hall, id: Id, m: Meeting, n: nat)
    requires HallOk(c, h) && !h.closed && MeetingOk(c, m) && h.total + n <= c.maxAll
    requires m.size == n + if id in h.rv then h.rv[id].size else 0
    ensures HallOk(c, h.(rv := h.rv[id := m], total := h.total + n))
  {
    SumReplace(h.rv, id, m);
  }

  lemma InsertOk(c: Config, h: Hall, id: Id, q: int, data: seq<Byte>, now: int)
    requires HallOk(c, h) && !h.closed && BlobOk(c, q, data)
    ensures HallOk(c, Insert(c, h, id, q, data, now).0)
  {
    TouchOk(c, h, id, now);
    EmptyOk(c, now);
    var h1 := Touch(h, id, now);
    var m := if id in h1.rv then h1.rv[id] else Meeting(now, 0, map[]);
    assert MeetingOk(c, m);
    InsertCases(c, h, id, q, data, now, h1, m);
    if q !in m.blobs && m.size + |data| <= c.maxTotal && h1.total + |data| <= c.maxAll {
      GrowOk(c, m, q, data);
      PlaceOk(c, h1, id, Grown(m, q, data), |data|);
    }
  }

  ghost function Grown(m: Meeting, q: int, data: seq<Byte>): Meeting { m.(blobs := m.blobs[q := data], size := m.size + |data|) }

  /** What an insertion comes to. */
  lemma InsertCases(c: Config, h: Hall, id: Id, q: int, data: seq<Byte>, now: int, h1: Hall, m: Meeting)
    requires h1 == Touch(h, id, now) && m == if id in h1.rv then h1.rv[id] else Meeting(now, 0, map[])
    ensures Insert(c, h, id, q, data, now).0 ==
            if q !in m.blobs && m.size + |data| <= c.maxTotal && h1.total + |data| <= c.maxAll
            then h1.(rv := h1.rv[id := Grown(m, q, data)], total := h1.total + |data|) else h1
  {
  }

  lemma StepOk(c: Config, h: Hall, op: Op)
    requires HallOk(c, h)
    ensures HallOk(c, Do(c, h, op))
  {
    match op
    case Putting(id, q, data, now) =>
      DropAllOk(c, h, StaleIds(c, h.rv, now));
      if Check(c, h, id) == Ok && q > 0 && |data| <= c.maxBlob { InsertOk(c, Sweep(c, h, now), id, q, data, now); }
    case Looking(id, _, now) =>
      DropAllOk(c, h, StaleIds(c, h.rv, now));
      TouchOk(c, Sweep(c, h, now), id, now);
    case Deleting(id) => DropOk(c, h, id);
    case Closing => assert Sizes(map[]) == map[];
  }

  ghost function After(c: Config, ops: seq<Op>): Hall {
    if ops == [] then Hall(map[], 0, false) else Do(c, After(c, ops[..|ops| - 1]), ops[|ops| - 1])
  }

  /** In every reachable state the service total is the sum of the sizes, each size the sum
      of its blobs' lengths, all caps hold and every sequence number is positive. */
  lemma {:induction false} AlwaysOk(c: Config, ops: seq<Op>)
    ensures HallOk(c, After(c, ops))
  {
    if ops != [] {
      AlwaysOk(c, ops[..|ops| - 1]);
      StepOk(c, After(c, ops[..|ops| - 1]), ops[|ops| - 1]);
    } else {
      assert Sizes(map[]) == map[];
    }
  }

  /* ---- what a read returns ---- */

  lemma {:induction false} ItemsOfAt(blobs: map<int, seq<Byte>>, qs: seq<int>, i: nat)
    requires i < |qs|
    ensures |ItemsOf(blobs, qs)| == |qs|
    ensures ItemsOf(blobs, qs)[i] == Item(qs[i], if qs[i] in blobs then blobs[qs[i]] else [])
  {
    var n := |qs| - 1;
    if n > 0 { ItemsOfAt(blobs, qs[..n], if i < n then i else 0); }
  }

  /** Exactly the stored blobs above `since`, in strictly increasing order. */
  lemma ItemsAfterExact(blobs: map<int, seq<Byte>>, since: int)
    ensures var items := ItemsAfter(blobs, since);
            && (forall i, j :: 0 <= i < j < |items| ==> items[i].seq_ < items[j].seq_)
            && (forall it :: it in items <==> it.seq_ in blobs && it.seq_ > since && it.data == blobs[it.seq_])
  {
    var wanted := set q | q in blobs && q > since;
    var qs, items := Sorted(wanted), ItemsAfter(blobs, since);
    ItemCount(blobs, qs);
    forall i | 0 <= i < |qs| ensures qs[i] in blobs && qs[i] > since && items[i] == Item(qs[i], blobs[qs[i]]) {
      assert qs[i] in qs && qs[i] in wanted;
      ItemsOfAt(blobs, qs, i);
    }
    forall it: Item | it.seq_ in blobs && it.seq_ > since && it.data == blobs[it.seq_] ensures it in items {
      assert it.seq_ in wanted && it.seq_ in qs;
      var i :| 0 <= i < |qs| && qs[i] == it.seq_;
      assert items[i] == it;
    }
  }

  lemma ItemCount(blobs: map<int, seq<Byte>>, qs: seq<int>)
    ensures |ItemsOf(blobs, qs)| == |qs|
  {
    if qs != [] { ItemsOfAt(blobs, qs, 0); }
  }

  lemma {:induction false} IncreasingIsProper(items: seq<Item>, last: int)
    requires forall i, j :: 0 <= i < j < |items| ==> items[i].seq_ < items[j].seq_
    requires forall i :: 0 <= i < |items| ==> items[i].seq_ > last && Int64(items[i].seq_) && |items[i].data| <= MAX_BLOB
    ensures Proper(items, last)
    decreases |items|
  {
    if items != [] {
      var rest := items[1..];
      forall i | 0 <= i < |rest| ensures rest[i].seq_ > items[0].seq_ && Int64(rest[i].seq_) && |rest[i].data| <= MAX_BLOB {
        assert rest[i] == items[i + 1];
      }
      forall i, j | 0 <= i < j < |rest| ensures rest[i].seq_ < rest[j].seq_ {
        assert rest[i] == items[i + 1] && rest[j] == items[j + 1];
      }
      IncreasingIsProper(rest, items[0].seq_);
    }
  }

  /** Sequence numbers are int64 values. */
  ghost predicate InRange(h: Hall) { forall id, q :: id in h.rv && q in h.rv[id].blobs ==> Int64(q) }

  ghost predicate InRangeOps(ops: seq<Op>) { forall n :: 0 <= n < |ops| ==> ops[n].Putting? ==> Int64(ops[n].q) }

  lemma {:induction false} StaysInRange(c: Config, ops: seq<Op>)
    requires InRangeOps(ops)
    ensures InRange(After(c, ops))
  {
    if ops != [] {
      var n := |ops| - 1;
      assert ops[..n][..] == ops[..n];
      StaysInRange(c, ops[..n]);
      StepInRange(c, After(c, ops[..n]), ops[n]);
    }
  }

  lemma StepInRange(c: Config, h: Hall, op: Op)
    requires InRange(h) && (op.Putting? ==> Int64(op.q))
    ensures InRange(Do(c, h, op))
  {
    match op
    case Putting(id, q, data, now) => if Int64(q) { InsertInRange(c, Sweep(c, h, now), id, q, data, now); }
    case _ =>
  }

  lemma InsertInRange(c: Config, h: Hall, id: Id, q: int, data: seq<Byte>, now: int)
    requires InRange(h) && Int64(q)
    ensures InRange(Insert(c, h, id, q, data, now).0)
  {
    var h1 := Touch(h, id, now);
    InsertCases(c, h, id, q, data, now, h1, if id in h1.rv then h1.rv[id] else Meeting(now, 0, map[]));
  }

  lemma ItemsProper(c: Config, h: Hall, id: Id, since: int)
    requires HallOk(c, h) && c.maxBlob <= MAX_BLOB && InRange(h) && id in h.rv
    ensures Proper(ItemsAfter(h.rv[id].blobs, since), 0)
  {
    var blobs, items := h.rv[id].blobs, ItemsAfter(h.rv[id].blobs, since);
    assert MeetingOk(c, h.rv[id]);
    ItemsAfterExact(blobs, since);
    forall i | 0 <= i < |items| ensures items[i].seq_ > 0 && Int64(items[i].seq_) && |items[i].data| <= MAX_BLOB {
      assert items[i] in items;
      assert BlobOk(c, items[i].seq_, blobs[items[i].seq_]);
    }
    IncreasingIsProper(items, 0);
  }

  /** What is there for a reader. */
  ghost function Stored(h: Hall, id: Id, since: int): seq<Item> { if id in h.rv then ItemsAfter(h.rv[id].blobs, since) else [] }

  /** A read leaves what it returned. */
  lemma LookIsStored(c: Config, h: Hall, id: Id, since: int, now: int)
    ensures var (h', r) := Look(c, h, id, since, now); (if r.Some? then r.value else []) == Stored(h', id, since) && r.Some? == (id in h'.rv)
  {
  }

  /** A reader, however long it waits and whatever happens meanwhile, gets exactly what is
      stored above `since` when it returns. */
  lemma {:induction false} GetIsCurrent(c: Config, h: Hall, id: Id, since: int, wait: bool, existed: bool, now: int, ws: seq<Waking>)
    ensures var (h', r) := Get(c, h, id, since, wait, existed, now, ws); r.Items? ==> r.items == Stored(h', id, since)
    decreases |ws|
  {
    if Check(c, h, id) == Ok {
      var (h1, r) := Look(c, h, id, since, now);
      LookIsStored(c, h, id, since, now);
      if ws != [] && ws[0].Woken? {
        GetIsCurrent(c, Do(c, h1, ws[0].op), id, since, wait, existed || r.Some?, ws[0].now, ws[1..]);
      }
    }
  }

  ghost predicate InRangeWaking(ws: seq<Waking>) {
    forall n :: 0 <= n < |ws| ==> ws[n].Woken? && ws[n].op.Putting? ==> Int64(ws[n].op.q)
  }

  /** Waiting and everything that happens meanwhile keeps the state right. */
  lemma {:induction false} GetKeepsOk(c: Config, h: Hall, id: Id, since: int, wait: bool, existed: bool, now: int, ws: seq<Waking>)
    requires HallOk(c, h) && InRange(h) && InRangeWaking(ws)
    ensures var h' := Get(c, h, id, since, wait, existed, now, ws).0; HallOk(c, h') && InRange(h')
    decreases |ws|
  {
    if Check(c, h, id) == Ok {
      var (h1, r) := Look(c, h, id, since, now);
      StepOk(c, h, Looking(id, since, now));
      StepInRange(c, h, Looking(id, since, now));
      if ws != [] && ws[0].Woken? {
        var h2 := Do(c, h1, ws[0].op);
        StepOk(c, h1, ws[0].op);
        StepInRange(c, h1, ws[0].op);
        TailInRange(ws);
        GetKeepsOk(c, h2, id, since, wait, existed || r.Some?, ws[0].now, ws[1..]);
      }
    }
  }

  lemma TailInRange(ws: seq<Waking>)
    requires ws != [] && InRangeWaking(ws)
    ensures InRangeWaking(ws[1..])
  {
    forall n | 0 <= n < |ws| - 1 ensures ws[1..][n] == ws[n + 1] {}
  }

  /** Whatever Get returns in a reachable state, other operations interleaved with its wait
      included: it is exactly what is stored, writing it as binary frames never fails, takes
      the announced length, and reading the frames gives the same items. */
  lemma GetTravels(c: Config, ops: seq<Op>, id: Id, since: int, wait: bool, now: int, ws: seq<Waking>)
    requires c.maxBlob <= MAX_BLOB && InRangeOps(ops) && InRangeWaking(ws)
    ensures var (h', r) := Get(c, After(c, ops), id, since, wait, false, now, ws);
            r.Items? ==>
              && r.items == Stored(h', id, since)
              && Writable(r.items) && Fits(r.items)
              && |Encoded(r.items)| == Announced(r.items) && Decoded(Encoded(r.items), 0) == Done(r.items)
  {
    var h := After(c, ops);
    var (h', r) := Get(c, h, id, since, wait, false, now, ws);
    AlwaysOk(c, ops);
    StaysInRange(c, ops);
    GetIsCurrent(c, h, id, since, wait, false, now, ws);
    GetKeepsOk(c, h, id, since, wait, false, now, ws);
    if r.Items? {
      if id in h'.rv { ItemsProper(c, h', id, since); }
      ProperIsWritable(r.items, 0);
      AnnouncedIsWritten(r.items);
      WrittenReadsBack(r.items, 0);
    }
  }
}
