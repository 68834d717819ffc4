/** Bars, lists of bars, and the map from time to bar that a list stands for. */
module Bars {
  import opened Timeline
  import opened Sorting

  /** Everything in a bar but its timestamp. */
  datatype Payload = Payload(o: real, h: real, l: real, c: real, v: int, n: int, vw: real)

  datatype Bar = Bar(t: Time, data: Payload)

  type BarMap = map<Time, Payload>

  /** A list of bars as a map: the last bar at a time wins. */
  function ToMap(bars: seq<Bar>): BarMap {
    if bars == [] then
      map[]
    else
      var n := |bars| - 1;
      ToMap(bars[..n])[bars[n].t := bars[n].data]
  }

  function Slice(m: BarMap, start: Time, end: Time): BarMap {
    map t | t in m && start <= t <= end :: m[t]
  }

  /** The ascending list of a map's bars. */
  ghost function Listing(m: BarMap): seq<Bar> {
    var ts := Ordered(m.Keys);
    OrderedExact(m.Keys);
    seq(|ts|, i requires 0 <= i < |ts| => assert ts[i] in ts; Bar(ts[i], m[ts[i]]))
  }

  ghost predicate AscendingBars(bars: seq<Bar>) {
    forall i, j :: 0 <= i < j < |bars| ==> bars[i].t < bars[j].t
  }

  ghost predicate UniqueTimes(bars: seq<Bar>) {
    forall i, j :: 0 <= i < j < |bars| ==> bars[i].t != bars[j].t
  }

  /** A list whose bars are exactly the entries of a map, each once. */
  ghost predicate Represents(bars: seq<Bar>, m: BarMap) {
    && UniqueTimes(bars)
    && (forall i :: 0 <= i < |bars| ==> bars[i].t in m && m[bars[i].t] == bars[i].data)
    && (forall t :: t in m ==> Bar(t, m[t]) in bars)
  }

  lemma {:induction false} UniqueRepresents(bars: seq<Bar>)
    requires UniqueTimes(bars)
    ensures Represents(bars, ToMap(bars))
  {
    if bars != [] {
      var n := |bars| - 1;
      var rest := bars[..n];
      assert bars == rest + [bars[n]];
      UniqueRepresents(rest);
      var m := ToMap(bars);
      forall i | 0 <= i < |bars| ensures bars[i].t in m && m[bars[i].t] == bars[i].data {
        assert i < n ==> rest[i] == bars[i];
      }
      forall t | t in m ensures Bar(t, m[t]) in bars {
        if t == bars[n].t {
          assert bars[n] in bars;
        } else {
          assert Bar(t, ToMap(rest)[t]) in rest;
        }
      }
    }
  }

  lemma RepresentsSame(bars: seq<Bar>, a: BarMap, b: BarMap)
    requires Represents(bars, a) && Represents(bars, b)
    ensures a == b
  {
    forall t ensures t in a <==> t in b {
      InRepresented(bars, a, t);
      InRepresented(bars, b, t);
    }
    forall t | t in a ensures a[t] == b[t] {
      assert Bar(t, a[t]) in bars;
      var i :| 0 <= i < |bars| && bars[i] == Bar(t, a[t]);
    }
  }

  lemma InRepresented(bars: seq<Bar>, m: BarMap, t: Time)
    requires Represents(bars, m)
    ensures t in m <==> exists i :: 0 <= i < |bars| && bars[i].t == t
  {
    if t in m {
      var i :| 0 <= i < |bars| && bars[i] == Bar(t, m[t]);
    }
  }

  lemma RepresentsToMap(bars: seq<Bar>, m: BarMap)
    requires Represents(bars, m)
    ensures ToMap(bars) == m
  {
    UniqueRepresents(bars);
    RepresentsSame(bars, m, ToMap(bars));
  }

  /** An ascending list is the listing of the map it represents. */
  lemma AscendingIsListing(bars: seq<Bar>, m: BarMap)
    requires AscendingBars(bars) && Represents(bars, m)
    ensures bars == Listing(m)
  {
    var ts := seq(|bars|, i requires 0 <= i < |bars| => bars[i].t);
    forall t ensures t in ts <==> t in m.Keys {
      InRepresented(bars, m, t);
      if i :| 0 <= i < |bars| && bars[i].t == t {
        assert ts[i] == t;
      }
    }
    AscendingIsOrdered(ts, m.Keys);
    forall i | 0 <= i < |bars| ensures bars[i] == Listing(m)[i] {
      assert ts[i] == bars[i].t;
    }
  }

  /** The listing of a map is ascending and represents it. */
  lemma ListingExact(m: BarMap)
    ensures AscendingBars(Listing(m)) && Represents(Listing(m), m)
  {
    OrderedExact(m.Keys);
    var ts, l := Ordered(m.Keys), Listing(m);
    forall i | 0 <= i < |l| ensures l[i].t in m && m[l[i].t] == l[i].data {
      assert ts[i] in ts;
    }
    forall t | t in m ensures Bar(t, m[t]) in l {
      assert t in ts;
      var i :| 0 <= i < |ts| && ts[i] == t;
      assert l[i] == Bar(t, m[t]);
    }
  }

  lemma {:induction false} ToMapConcat(a: seq<Bar>, b: seq<Bar>)
    ensures ToMap(a + b) == ToMap(a) + ToMap(b)
  {
    if b == [] {
      assert a + b == a;
    } else {
      var n := |b| - 1;
      ToMapConcat(a, b[..n]);
      assert (a + b)[..|a + b| - 1] == a + b[..n];
    }
  }

  lemma {:induction false} ToMapKeys(bars: seq<Bar>, t: Time)
    ensures t in ToMap(bars) <==> exists i :: 0 <= i < |bars| && bars[i].t == t
  {
    if bars != [] {
      var n := |bars| - 1;
      ToMapKeys(bars[..n], t);
      if t in ToMap(bars[..n]) {
        var i :| 0 <= i < n && bars[..n][i].t == t;
        assert bars[i].t == t;
      }
      if i :| 0 <= i < |bars| && bars[i].t == t {
        assert i < n ==> bars[..n][i].t == t;
      }
    }
  }

  // ---- mergeBars ----

  /** The state of mergeBars: the latest bar per time, and each time once. */
  ghost predicate Indexed(idx: map<Time, Bar>, order: seq<Time>, m: BarMap) {
    && idx.Keys == m.Keys
    && (forall t :: t in idx ==> idx[t] == Bar(t, m[t]))
    && (forall t :: t in order <==> t in m)
    && (forall i, j :: 0 <= i < j < |order| ==> order[i] != order[j])
  }

  method AddBars(idx0: map<Time, Bar>, order0: seq<Time>, bars: seq<Bar>, ghost m: BarMap)
    returns (idx: map<Time, Bar>, order: seq<Time>)
    requires Indexed(idx0, order0, m)
    ensures Indexed(idx, order, m + ToMap(bars))
  {
    idx, order := idx0, order0;
    for i := 0 to |bars|
      invariant Indexed(idx, order, m + ToMap(bars[..i]))
    {
      var x := bars[i];
      assert bars[..i + 1][..i] == bars[..i];
      if x.t !in idx {
        order := order + [x.t];
      }
      idx := idx[x.t := x];
    }
    assert bars[..|bars|] == bars;
  }

  /** Unions two bar lists in any order; the later list wins on a tie. */
  method MergeBars(a: seq<Bar>, b: seq<Bar>) returns (out: seq<Bar>)
    ensures out == Listing(ToMap(a) + ToMap(b))
  {
    var idx, order := AddBars(map[], [], a, map[]);
    idx, order := AddBars(idx, order, b, ToMap(a));
    ghost var m := ToMap(a) + ToMap(b);
    assert map[] + ToMap(a) == ToMap(a);
    var sorted := SortSlice(order, (x: Time) => x);
    SortedDistinct(sorted, order);
    AscendingIsOrdered(sorted, m.Keys);
    out := InOrder(idx, sorted, m);
  }

  method InOrder(idx: map<Time, Bar>, sorted: seq<Time>, ghost m: BarMap) returns (out: seq<Bar>)
    requires sorted == Ordered(m.Keys)
    requires idx.Keys == m.Keys && forall t :: t in idx ==> idx[t] == Bar(t, m[t])
    ensures out == Listing(m)
  {
    OrderedExact(m.Keys);
    ghost var l := Listing(m);
    out := [];
    for i := 0 to |sorted|
      invariant out == l[..i]
    {
      assert sorted[i] in sorted;
      assert l[i] == idx[sorted[i]];
      out := out + [idx[sorted[i]]];
    }
  }

  lemma SortedDistinct(sorted: seq<Time>, order: seq<Time>)
    requires multiset(sorted) == multiset(order) && SortedBy(sorted, (x: Time) => x)
    requires forall i, j :: 0 <= i < j < |order| ==> order[i] != order[j]
    ensures Ascending(sorted) && forall t :: t in sorted <==> t in order
  {
    PermutationMembers(sorted, order);
    var key := (x: Time) => x;
    forall i, j | 0 <= i < j < |sorted| ensures sorted[i] < sorted[j] {
      assert key(sorted[i]) <= key(sorted[j]);
      if sorted[i] == sorted[j] {
        TwiceInSeq(sorted, i, j);
        OnceInSeq(order, sorted[i]);
      }
    }
  }

  lemma TwiceInSeq<T>(s: seq<T>, i: nat, j: nat)
    requires i < j < |s| && s[i] == s[j]
    ensures multiset(s)[s[i]] >= 2
  {
    assert s == s[..i] + [s[i]] + s[i + 1..j] + [s[j]] + s[j + 1..];
  }

  lemma {:induction false} OnceInSeq<T>(s: seq<T>, x: T)
    requires forall i, j :: 0 <= i < j < |s| ==> s[i] != s[j]
    ensures multiset(s)[x] <= 1
  {
    if s != [] {
      var n := |s| - 1;
      assert s == s[..n] + [s[n]];
      OnceInSeq(s[..n], x);
      if s[n] == x {
        assert x !in s[..n];
        assert x !in multiset(s[..n]);
      }
    }
  }

  // ---- clip ----

  /** The bars with start <= t <= end, in order. */
  function Clipped(bars: seq<Bar>, start: Time, end: Time): seq<Bar> {
    if bars == [] then
      []
    else
      var n := |bars| - 1;
      Clipped(bars[..n], start, end) + if start <= bars[n].t <= end then [bars[n]] else []
  }

  method Clip(bars: seq<Bar>, start: Time, end: Time) returns (out: seq<Bar>)
    ensures out == Clipped(bars, start, end)
  {
    out := [];
    for i := 0 to |bars|
      invariant out == Clipped(bars[..i], start, end)
    {
      var b := bars[i];
      assert bars[..i + 1][..i] == bars[..i];
      if b.t < start || b.t > end {
        continue;
      }
      out := out + [b];
    }
    assert bars[..|bars|] == bars;
  }

  lemma {:induction false} ClippedMembers(bars: seq<Bar>, start: Time, end: Time)
    requires AscendingBars(bars)
    ensures AscendingBars(Clipped(bars, start, end))
    ensures forall b :: b in Clipped(bars, start, end) <==> b in bars && start <= b.t <= end
  {
    if bars != [] {
      var n := |bars| - 1;
      var rest := Clipped(bars[..n], start, end);
      assert bars == bars[..n] + [bars[n]];
      ClippedMembers(bars[..n], start, end);
      forall i | 0 <= i < |rest| ensures rest[i].t < bars[n].t {
        assert rest[i] in bars[..n];
      }
    }
  }

  /** Clipping a listing lists the slice. */
  lemma ClippedListing(m: BarMap, start: Time, end: Time)
    ensures Clipped(Listing(m), start, end) == Listing(Slice(m, start, end))
  {
    ListingExact(m);
    ClippedMembers(Listing(m), start, end);
    SliceRepresented(Listing(m), Clipped(Listing(m), start, end), m, start, end);
    AscendingIsListing(Clipped(Listing(m), start, end), Slice(m, start, end));
  }

  lemma SliceRepresented(bars: seq<Bar>, out: seq<Bar>, m: BarMap, start: Time, end: Time)
    requires Represents(bars, m) && AscendingBars(out)
    requires forall b :: b in out <==> b in bars && start <= b.t <= end
    ensures Represents(out, Slice(m, start, end))
  {
    forall i | 0 <= i < |out| ensures out[i].t in m && m[out[i].t] == out[i].data && start <= out[i].t <= end {
      assert out[i] in out;
      var j :| 0 <= j < |bars| && bars[j] == out[i];
    }
  }
}
