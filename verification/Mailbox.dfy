/** The relay's inbox of one peer (relay/relay.go): letters are files whose names are the
    delivery time and a counter, both of fixed width. */
module Mailbox {
  import opened Collections

  /* ---- file names ---- */

  function Pow10(w: nat): nat { if w == 0 then 1 else 10 * Pow10(w - 1) }

  function Digit(d: nat): char
    requires d < 10
  {
    '0' + d as char
  }

  /** n in decimal, zero-padded to w digits (n below 10^w). */
  function Pad(n: nat, w: nat): string { if w == 0 then "" else Pad(n / 10, w - 1) + [Digit(n % 10)] }

  predicate LexLess(a: string, b: string) {
    if a == "" || b == "" then |a| < |b| else a[0] < b[0] || (a[0] == b[0] && LexLess(a[1..], b[1..]))
  }

  lemma PadLength(n: nat, w: nat)
    ensures |Pad(n, w)| == w
  {
  }

  lemma {:induction false} LexConcat(a: string, b: string, c: string, d: string)
    requires |a| == |b|
    ensures LexLess(a + c, b + d) <==> LexLess(a, b) || (a == b && LexLess(c, d))
    decreases |a|
  {
    if a == "" {
      assert a + c == c && b + d == d;
    } else {
      LexConcat(a[1..], b[1..], c, d);
      assert (a + c)[1..] == a[1..] + c && (b + d)[1..] == b[1..] + d;
      assert a == b <==> a[0] == b[0] && a[1..] == b[1..] by {
        assert a == [a[0]] + a[1..] && b == [b[0]] + b[1..];
      }
    }
  }

  lemma {:induction false} PadOrder(n: nat, m: nat, w: nat)
    requires n < Pow10(w) && m < Pow10(w)
    ensures LexLess(Pad(n, w), Pad(m, w)) <==> n < m
    ensures Pad(n, w) == Pad(m, w) <==> n == m
  {
    if w > 0 {
      var a, b := Pad(n / 10, w - 1), Pad(m / 10, w - 1);
      var x, y := Digit(n % 10), Digit(m % 10);
      PadLength(n / 10, w - 1);
      PadLength(m / 10, w - 1);
      PadOrder(n / 10, m / 10, w - 1);
      LexConcat(a, b, [x], [y]);
      assert LexLess([x], [y]) <==> n % 10 < m % 10;
      assert a + [x] == b + [y] <==> a == b && x == y by {
        assert (a + [x])[..w - 1] == a && (b + [y])[..w - 1] == b;
        assert (a + [x])[w - 1] == x && (b + [y])[w - 1] == y;
      }
    }
  }

  const NANO_WIDTH := 19
  const SEQ_WIDTH := 12

  function FileName(nano: nat, count: nat): string { Pad(nano, NANO_WIDTH) + "-" + Pad(count, SEQ_WIDTH) + ".json" }

  /** The number that fixed-width names stand for; acknowledgements name letters by it. */
  function AckId(nano: nat, count: nat): nat { nano * Pow10(SEQ_WIDTH) + count }

  lemma AckOrder(nano: nat, count: nat, nano': nat, count': nat)
    requires count < Pow10(SEQ_WIDTH) && count' < Pow10(SEQ_WIDTH)
    ensures AckId(nano, count) < AckId(nano', count') <==> nano < nano' || (nano == nano' && count < count')
  {
  }

  /** Sorting the names sorts the letters by time and then by counter. */
  lemma NamesSortByDelivery(nano: nat, count: nat, nano': nat, count': nat)
    requires nano < Pow10(NANO_WIDTH) && nano' < Pow10(NANO_WIDTH) && count < Pow10(SEQ_WIDTH) && count' < Pow10(SEQ_WIDTH)
    ensures LexLess(FileName(nano, count), FileName(nano', count')) <==> AckId(nano, count) < AckId(nano', count')
  {
    var a, b := Pad(nano, NANO_WIDTH), Pad(nano', NANO_WIDTH);
    var c, d := Pad(count, SEQ_WIDTH), Pad(count', SEQ_WIDTH);
    PadLength(nano, NANO_WIDTH);
    PadLength(nano', NANO_WIDTH);
    PadLength(count, SEQ_WIDTH);
    PadLength(count', SEQ_WIDTH);
    PadOrder(nano, nano', NANO_WIDTH);
    PadOrder(count, count', SEQ_WIDTH);
    AckOrder(nano, count, nano', count');
    Tail(c, d);
    Regroup(a, c);
    Regroup(b, d);
    LexConcat(a, b, "-" + (c + ".json"), "-" + (d + ".json"));
  }

  lemma Regroup(a: string, c: string)
    ensures a + "-" + c + ".json" == a + ("-" + (c + ".json"))
  {
  }

  lemma Tail(c: string, d: string)
    requires |c| == |d|
    ensures LexLess("-" + (c + ".json"), "-" + (d + ".json")) <==> LexLess(c, d)
  {
    LexConcat("-", "-", c + ".json", d + ".json");
    LexConcat(c, d, ".json", ".json");
    NotLess(".json");
    NotLess("-");
  }

  lemma NotLess(s: string)
    ensures !LexLess(s, s)
  {
  }

  /* ---- the inbox ---- */

  /** The letters by name; the clock and the counter of the running process. */
  datatype Box<T> = Box(letters: map<int, T>, nano: nat, count: nat)

  /** deliver at time now: the clock of a process does not go back. */
  function Delivered<T>(b: Box<T>, now: nat, l: T): Box<T> {
    Box(b.letters[AckId(now, b.count + 1) := l], now, b.count + 1)
  }

  /** A restarted relay counts from zero again, at a later time. */
  function Reopened<T>(b: Box<T>, now: nat): Box<T> { Box(b.letters, now, 0) }

  function Acked<T>(b: Box<T>, ids: set<int>): Box<T> { b.(letters := b.letters - ids) }

  /** A delivered letter is there under its name, and the others stay. */
  lemma DeliveredIsThere<T>(b: Box<T>, now: nat, l: T, id: int)
    ensures var after := Delivered(b, now, l).letters; var name := now * Pow10(SEQ_WIDTH) + b.count + 1;
            && name in after && after[name] == l
            && (id != name ==> (id in after <==> id in b.letters) && (id in after ==> after[id] == b.letters[id]))
  {
  }

  /** Exactly the acknowledged letters are gone, and a restart loses none. */
  lemma AckedAreGone<T>(b: Box<T>, ids: set<int>, now: nat, id: int)
    ensures var after := Acked(b, ids).letters;
            (id in after <==> id in b.letters && id !in ids) && (id in after ==> after[id] == b.letters[id])
    ensures Reopened(b, now).letters == b.letters
  {
  }

  /** Every name given so far is at most the current one. */
  ghost predicate NamesPast<T>(b: Box<T>) {
    b.count < Pow10(SEQ_WIDTH) && forall id :: id in b.letters ==> id <= AckId(b.nano, b.count)
  }

  /** A delivery gets a name above all before it, so no letter is overwritten, and a restart
      at a later time keeps that so although the counter starts again. */
  lemma NewNameIsNewest<T>(b: Box<T>, now: nat, l: T)
    requires NamesPast(b) && now >= b.nano && b.count + 1 < Pow10(SEQ_WIDTH)
    ensures NamesPast(Delivered(b, now, l)) && AckId(now, b.count + 1) > AckId(b.nano, b.count)
    ensures AckId(now, b.count + 1) !in b.letters
  {
    AckOrder(b.nano, b.count, now, b.count + 1);
  }

  lemma ReopenKeepsNames<T>(b: Box<T>, now: nat)
    requires NamesPast(b) && now > b.nano
    ensures NamesPast(Reopened(b, now)) && AckId(now, 0) > AckId(b.nano, b.count)
  {
    AckOrder(b.nano, b.count, now, 0);
  }

  function NameSet(ids: seq<int>): set<int> { set id | id in ids }

  lemma OneLess<T>(m: map<int, T>, id: int)
    ensures |m - {id}| == |m| - if id in m then 1 else 0
  {
    assert (m - {id}).Keys == m.Keys - {id};
    assert |m| == |m.Keys| && |m - {id}| == |(m - {id}).Keys|;
  }

  class Inbox<T> {
    var letters: map<int, T>
    var nano: nat
    var count: nat

    ghost function State(): Box<T> reads this { Box(letters, nano, count) }

    constructor ()
      ensures State() == Box(map[], 0, 0)
    {
      letters, nano, count := map[], 0, 0;
    }

    method Deliver(now: nat, l: T)
      modifies this
      ensures State() == Delivered(old(State()), now, l)
    {
      count := count + 1;
      nano := now;
      letters := letters[AckId(now, count) := l];
    }

    /** readInbox: every letter once, in the order of the names. */
    method ReadInbox() returns (items: seq<(int, T)>)
      ensures |items| == |letters|
      ensures forall i :: 0 <= i < |items| ==> items[i].0 in letters && letters[items[i].0] == items[i].1
      ensures forall i, j :: 0 <= i < j < |items| ==> items[i].0 < items[j].0
      ensures forall id :: id in letters ==> exists i :: 0 <= i < |items| && items[i].0 == id
    {
      var ids := letters.Keys;
      var names := SortSet(ids);
      ListingSize(names, ids);
      items := [];
      for n := 0 to |names|
        invariant |items| == n
        invariant forall i :: 0 <= i < n ==> items[i].0 == names[i] && items[i].0 in letters && letters[items[i].0] == items[i].1
      {
        assert names[n] in names && names[n] in ids;
        items := items + [(names[n], letters[names[n]])];
      }
      forall id | id in letters ensures exists i :: 0 <= i < |items| && items[i].0 == id {
        assert id in ids && id in names;
        var i :| 0 <= i < |names| && names[i] == id;
        assert items[i].0 == id;
      }
    }

    /** ackMail: removes the letters named; names that are not there do not matter. */
    method AckMail(ids: seq<int>) returns (n: nat)
      modifies this`letters
      ensures State() == Acked(old(State()), NameSet(ids))
      ensures n == |old(letters)| - |letters|
    {
      var left;
      left, n := RemoveNames(letters, ids);
      letters := left;
    }
  }

  method RemoveNames<T>(m: map<int, T>, ids: seq<int>) returns (left: map<int, T>, n: nat)
    ensures left == m - NameSet(ids) && n == |m| - |left|
  {
    left, n := m, 0;
    for i := 0 to |ids|
      invariant left == m - NameSet(ids[..i])
      invariant n == |m| - |left|
    {
      NamesSnoc(m, ids, i);
      OneLess(left, ids[i]);
      if ids[i] in left { n := n + 1; }
      left := left - {ids[i]};
    }
    assert ids[..|ids|] == ids;
  }

  lemma NamesSnoc<T>(m: map<int, T>, ids: seq<int>, i: nat)
    requires i < |ids|
    ensures m - NameSet(ids[..i + 1]) == m - NameSet(ids[..i]) - {ids[i]}
  {
    assert ids[..i + 1] == ids[..i] + [ids[i]];
  }
}
