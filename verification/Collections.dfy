/** Facts about finite sets and maps that several components share: the sorted listing of
    a set (what ranging over a Go map and then sorting yields) and sums over a map. */
module Collections {

  datatype Option<+T> = None | Some(value: T)

  lemma Pick<T>(xs: set<T>) returns (x: T)
    requires xs != {}
    ensures x in xs
  {
    x :| x in xs;
  }

  lemma Inhabited(xs: set<int>)
    requires xs != {}
    ensures exists x :: x in xs
  {
    var y := Pick(xs);
  }

  /* ---- sorted listings ---- */

  ghost predicate StrictlyIncreasing(s: seq<int>) {
    forall i, j :: 0 <= i < j < |s| ==> s[i] < s[j]
  }

  ghost predicate Lists(s: seq<int>, xs: set<int>) {
    StrictlyIncreasing(s) && forall x :: x in s <==> x in xs
  }

  /** A set has only one strictly increasing listing, so sorting is deterministic. */
  lemma {:induction false} ListingUnique(s: seq<int>, t: seq<int>, xs: set<int>)
    requires Lists(s, xs) && Lists(t, xs)
    ensures s == t
    decreases |s|
  {
    ListingSize(s, xs);
    ListingSize(t, xs);
    if s != [] {
      assert s[0] in s && s[0] in xs && s[0] in t;
      assert t != [] && t[0] in t && t[0] in xs && t[0] in s;
      assert s[0] == t[0];
      var rest := xs - {s[0]};
      assert Lists(s[1..], rest) by { TailLists(s, xs); }
      assert Lists(t[1..], rest) by { TailLists(t, xs); }
      ListingUnique(s[1..], t[1..], rest);
      assert s == [s[0]] + s[1..] && t == [t[0]] + t[1..];
    }
  }

  lemma TailLists(s: seq<int>, xs: set<int>)
    requires Lists(s, xs) && s != []
    ensures Lists(s[1..], xs - {s[0]})
  {
  }

  lemma {:induction false} ListingSize(s: seq<int>, xs: set<int>)
    requires Lists(s, xs)
    ensures |s| == |xs|
    decreases |s|
  {
    if s == [] {
      assert forall x :: x in xs ==> x in s;
      assert xs == {};
    } else {
      TailLists(s, xs);
      assert s[0] in s && s[0] in xs;
      ListingSize(s[1..], xs - {s[0]});
    }
  }

  /** Where x belongs in an increasing sequence. */
  method InsertSorted(s: seq<int>, x: int, ghost xs: set<int>) returns (t: seq<int>)
    requires Lists(s, xs) && x !in xs
    ensures Lists(t, xs + {x})
  {
    var i := 0;
    while i < |s| && s[i] < x
      invariant 0 <= i <= |s|
      invariant forall j :: 0 <= j < i ==> s[j] < x
    {
      i := i + 1;
    }
    t := s[..i] + [x] + s[i..];
    assert i < |s| ==> s[i] in s;
    InsertedMembers(s, i, x);
    InsertedIncreasing(s, i, x);
    forall y ensures y in t <==> y in xs + {x} { assert y in s <==> y in xs; }
  }

  lemma InsertedMembers(s: seq<int>, i: nat, x: int)
    requires i <= |s|
    ensures forall y :: y in s[..i] + [x] + s[i..] <==> y in s || y == x
  {
  }

  lemma InsertedIncreasing(s: seq<int>, i: nat, x: int)
    requires StrictlyIncreasing(s) && i <= |s|
    requires (forall j :: 0 <= j < i ==> s[j] < x) && (i < |s| ==> x < s[i])
    ensures StrictlyIncreasing(s[..i] + [x] + s[i..])
  {
  }

  /** Collects the elements of a set one by one, in no particular order, and sorts them. */
  method SortSet(xs: set<int>) returns (t: seq<int>)
    ensures Lists(t, xs) && |t| == |xs|
  {
    t := [];
    var left, done := xs, {};
    while left != {}
      invariant left + done == xs && left !! done
      invariant Lists(t, done)
      decreases left
    {
      Inhabited(left);
      var x :| x in left;
      t := InsertSorted(t, x, done);
      left, done := left - {x}, done + {x};
    }
    assert done == xs;
    ListingSize(t, xs);
  }

  /** The sorted listing as a function: smallest element first. */
  ghost function Sorted(xs: set<int>): (s: seq<int>)
    ensures Lists(s, xs) && |s| == |xs|
  {
    if xs == {} then []
    else
      var m := Least(xs);
      var s := [m] + Sorted(xs - {m});
      assert Lists(s, xs) by { ConsLists(m, Sorted(xs - {m}), xs); }
      s
  }

  lemma ConsLists(m: int, s: seq<int>, xs: set<int>)
    requires m in xs && Lists(s, xs - {m}) && forall x :: x in xs ==> m <= x
    ensures Lists([m] + s, xs)
  {
    var t := [m] + s;
    forall i, j | 0 <= i < j < |t| ensures t[i] < t[j] {
      assert t[j] == s[j - 1] && s[j - 1] in s;
      if i > 0 { assert t[i] == s[i - 1]; }
    }
    forall x ensures x in t <==> x in xs {
      if x in xs && x != m {
        assert x in s;
        var k :| 0 <= k < |s| && s[k] == x;
        assert t[k + 1] == x;
      }
      if x == m { assert t[0] == m; }
    }
  }

  ghost function Least(xs: set<int>): (m: int)
    requires xs != {}
    ensures m in xs && forall x :: x in xs ==> m <= x
  {
    Inhabited(xs);
    var y :| y in xs;
    if xs == {y} then y
    else
      var r := Least(xs - {y});
      assert forall x :: x in xs ==> x == y || x in xs - {y};
      if y < r then y else r
  }

  lemma ListsSnoc(s: seq<int>, xs: set<int>, x: int)
    requires Lists(s, xs) && forall y :: y in s ==> y < x
    ensures Lists(s + [x], xs + {x})
  {
    assert forall i :: 0 <= i < |s| ==> s[i] in s;
  }

  /** Going through a listing: one more element is done. */
  lemma ListsNext(order: seq<int>, xs: set<int>, i: nat, done: set<int>)
    requires Lists(order, xs) && i < |order| && Lists(order[..i], done)
    ensures order[i] in xs && order[i] !in done && Lists(order[..i + 1], done + {order[i]})
  {
    var s, x := order[..i], order[i];
    assert x in order;
    assert forall k :: 0 <= k < i ==> s[k] == order[k];
    assert order[..i + 1] == s + [x];
    ListsSnoc(s, done, x);
    assert x !in s;
  }

  /** At the end all are done. */
  lemma ListsAll(order: seq<int>, xs: set<int>, done: set<int>)
    requires Lists(order, xs) && Lists(order[..|order|], done)
    ensures done == xs
  {
    assert order[..|order|] == order;
    SameListed(order, xs, done);
  }

  lemma SameListed(s: seq<int>, xs: set<int>, ys: set<int>)
    requires Lists(s, xs) && Lists(s, ys)
    ensures xs == ys
  {
    forall x ensures x in xs <==> x in ys { assert x in s <==> x in xs; }
  }

  /* ---- sums ---- */

  /** Sum of the values of a map. */
  ghost function Sum<K>(m: map<K, nat>): nat
    decreases m.Keys
  {
    if m.Keys == {} then 0
    else
      var k :| k in m.Keys;
      m[k] + Sum(m - {k})
  }

  /** Any key may be taken out first. */
  lemma {:induction false} SumSplit<K>(m: map<K, nat>, k: K)
    requires k in m
    ensures Sum(m) == m[k] + Sum(m - {k})
    decreases |m|
  {
    var p :| p in m.Keys && Sum(m) == m[p] + Sum(m - {p});
    if p != k {
      SumSplit(m - {p}, k);
      SumSplit(m - {k}, p);
      assert m - {p} - {k} == m - {k} - {p};
    }
  }

  lemma SumAdd<K>(m: map<K, nat>, k: K, v: nat)
    requires k !in m
    ensures Sum(m[k := v]) == Sum(m) + v
  {
    SumSplit(m[k := v], k);
    assert m[k := v] - {k} == m;
  }

  /** Leaving out keys never increases the sum. */
  lemma {:induction false} SumShrinks<K>(m: map<K, nat>, gone: set<K>)
    ensures Sum(m - gone) <= Sum(m)
    decreases |m|
  {
    if m.Keys == {} {
      assert m - gone == m;
    } else {
      var p :| p in m.Keys;
      SumSplit(m, p);
      SumShrinks(m - {p}, gone);
      ShrinkStep(m, gone, p);
    }
  }

  lemma ShrinkStep<K>(m: map<K, nat>, gone: set<K>, p: K)
    requires p in m
    ensures Sum(m - gone) == Sum((m - {p}) - gone) + (if p in gone then 0 else m[p])
  {
    if p in gone {
      assert m - gone == (m - {p}) - gone;
    } else {
      SumSplit(m - gone, p);
      assert m - gone - {p} == (m - {p}) - gone;
    }
  }
}
