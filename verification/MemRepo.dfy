/** The in-memory repository: sorted slices per key, refining a map from time to bar. */
module MemRepo {
  import opened Timeline
  import opened Sorting
  import opened Bars

  /** The key of one (symbol, timeframe). */
  function Key(symbol: string, timeframe: string): string {
    symbol + "|" + timeframe
  }

  /** Timeframes without the separator give every (symbol, timeframe) its own key. */
  lemma KeyInjective(s1: string, tf1: string, s2: string, tf2: string)
    requires '|' !in tf1 && '|' !in tf2
    requires Key(s1, tf1) == Key(s2, tf2)
    ensures s1 == s2 && tf1 == tf2
  {
    var k := Key(s1, tf1);
    assert k == Key(s2, tf2);
    SeparatorIndex(s1, tf1);
    SeparatorIndex(s2, tf2);
    assert s1 == k[..|s1|] && tf1 == k[|s1| + 1..];
    assert s2 == k[..|s2|] && tf2 == k[|s2| + 1..];
  }

  /** The last separator of a key is the one Key put there. */
  lemma SeparatorIndex(s: string, tf: string)
    requires '|' !in tf
    ensures Key(s, tf)[|s|] == '|'
    ensures forall i :: |s| < i < |Key(s, tf)| ==> Key(s, tf)[i] != '|'
  {
    forall i | |s| < i < |Key(s, tf)| ensures Key(s, tf)[i] != '|' {
      assert Key(s, tf)[i] == tf[i - |s| - 1];
    }
  }

  /** The condition is exact: a timeframe shares a key with some shorter timeframe if and only
      if it contains the separator. */
  lemma KeyCollidesIff(s: string, tf: string)
    ensures '|' in tf <==> exists s', tf' :: |tf'| < |tf| && Key(s', tf') == Key(s, tf)
  {
    if '|' in tf {
      var i :| 0 <= i < |tf| && tf[i] == '|';
      assert tf == tf[..i] + "|" + tf[i + 1..];
      var s', tf' := s + "|" + tf[..i], tf[i + 1..];
      assert |tf'| < |tf| && Key(s', tf') == Key(s, tf);
    }
    if s', tf' :| |tf'| < |tf| && Key(s', tf') == Key(s, tf) {
      assert |s'| > |s|;
      assert Key(s', tf')[|s'|] == '|';
      assert tf[|s'| - |s| - 1] == Key(s, tf)[|s'|];
    }
  }

  // ---- the upsert ----

  /** idx maps each stored time to its position. */
  ghost predicate IndexOf(idx: map<Time, int>, merged: seq<Bar>) {
    && (forall i :: 0 <= i < |merged| ==> merged[i].t in idx && idx[merged[i].t] == i)
    && (forall t :: t in idx ==> 0 <= idx[t] < |merged| && merged[idx[t]].t == t)
  }

  lemma UpsertRepresents(merged: seq<Bar>, m: BarMap, idx: map<Time, int>, b: Bar)
    requires IndexOf(idx, merged) && Represents(merged, m)
    ensures b.t in idx ==> Represents(merged[idx[b.t] := b], m[b.t := b.data])
    ensures b.t !in idx ==> Represents(merged + [b], m[b.t := b.data])
  {
    var r := if b.t in idx then merged[idx[b.t] := b] else merged + [b];
    var m' := m[b.t := b.data];
    forall t | t in m' ensures Bar(t, m'[t]) in r {
      if t == b.t {
        assert r[if b.t in idx then idx[b.t] else |merged|] == b;
      } else {
        var i :| 0 <= i < |merged| && merged[i] == Bar(t, m[t]);
        assert r[i] == merged[i];
      }
    }
    forall i | 0 <= i < |r| ensures r[i].t in m' && m'[r[i].t] == r[i].data {
      assert i < |merged| ==> merged[i].t in m && m[merged[i].t] == merged[i].data;
      assert i < |merged| ==> idx[merged[i].t] == i;
    }
  }

  lemma OverlaySnoc(m: BarMap, bs: seq<Bar>, j: nat)
    requires j < |bs|
    ensures m + ToMap(bs[..j + 1]) == (m + ToMap(bs[..j]))[bs[j].t := bs[j].data]
  {
    assert bs[..j + 1][..j] == bs[..j];
  }

  lemma SortedRepresents(sorted: seq<Bar>, merged: seq<Bar>, m: BarMap)
    requires multiset(sorted) == multiset(merged) && SortedBy(sorted, (b: Bar) => b.t)
    requires Represents(merged, m)
    ensures AscendingBars(sorted) && Represents(sorted, m)
  {
    PermutationMembers(sorted, merged);
    var key := (b: Bar) => b.t;
    forall i | 0 <= i < |sorted| ensures sorted[i].t in m && m[sorted[i].t] == sorted[i].data {
      assert sorted[i] in merged;
      var j :| 0 <= j < |merged| && merged[j] == sorted[i];
    }
    forall i, j | 0 <= i < j < |sorted| ensures sorted[i].t < sorted[j].t {
      assert key(sorted[i]) <= key(sorted[j]);
      if sorted[i].t == sorted[j].t {
        TwiceInSeq(sorted, i, j);
        OnceInSeq(merged, sorted[i]);
      }
    }
  }

  class MemRepo {
    var bars: map<string, seq<Bar>>
    var intervals: map<string, seq<Interval>>

    /** Every slice is strictly ascending, hence has unique times. */
    ghost predicate Valid()
      reads this
    {
      forall k :: k in bars ==> AscendingBars(bars[k])
    }

    /** What the slice under a key stands for. */
    ghost function BarsAt(k: string): BarMap
      reads this
    {
      if k in bars then ToMap(bars[k]) else map[]
    }

    ghost function IntervalsAt(k: string): seq<Interval>
      reads this
    {
      if k in intervals then intervals[k] else []
    }

    constructor ()
      ensures Valid()
      ensures forall k :: BarsAt(k) == map[] && IntervalsAt(k) == []
    {
      bars := map[];
      intervals := map[];
    }

    /** The early break loses nothing: exactly the bars in [start, end], ascending. */
    method Bars(symbol: string, timeframe: string, start: Time, end: Time) returns (out: seq<Bar>)
      requires Valid()
      ensures out == Listing(Slice(BarsAt(Key(symbol, timeframe)), start, end))
    {
      var k := Key(symbol, timeframe);
      var all := if k in bars then bars[k] else [];
      out := ScanAscending(all, start, end);
      UniqueRepresents(all);
      SliceRepresented(all, out, ToMap(all), start, end);
      AscendingIsListing(out, Slice(ToMap(all), start, end));
    }

    static method ScanAscending(all: seq<Bar>, start: Time, end: Time) returns (out: seq<Bar>)
      requires AscendingBars(all)
      ensures AscendingBars(out)
      ensures forall b :: b in out <==> b in all && start <= b.t <= end
    {
      out := [];
      var i := 0;
      while i < |all|
        invariant 0 <= i <= |all|
        invariant AscendingBars(out)
        invariant forall b :: b in out <==> b in all[..i] && start <= b.t <= end
      {
        var b := all[i];
        assert all[..i + 1] == all[..i] + [b];
        i := i + 1;
        if b.t < start {
          continue;
        }
        if b.t > end {
          assert forall j :: i <= j < |all| ==> all[j].t > end;
          forall x | x in all && start <= x.t <= end ensures x in all[..i] {
            var j :| 0 <= j < |all| && all[j] == x;
            assert all[..i][j] == x;
          }
          break;
        }
        forall j | 0 <= j < |out| ensures out[j].t < b.t {
          assert out[j] in out;
        }
        out := out + [b];
      }
      if i == |all| {
        assert all[..i] == all;
      }
    }

    method Intervals(symbol: string, timeframe: string) returns (out: seq<Interval>)
      ensures out == IntervalsAt(Key(symbol, timeframe))
    {
      var k := Key(symbol, timeframe);
      out := if k in intervals then intervals[k] else [];
    }

    /** Upserts by time: an overlay in which the later bar wins. */
    method PutBars(symbol: string, timeframe: string, bs: seq<Bar>)
      requires Valid()
      modifies this`bars
      ensures Valid()
      ensures BarsAt(Key(symbol, timeframe)) == old(BarsAt(Key(symbol, timeframe))) + ToMap(bs)
      ensures forall k :: k != Key(symbol, timeframe) ==> BarsAt(k) == old(BarsAt(k))
    {
      if |bs| == 0 {
        return;
      }
      var k := Key(symbol, timeframe);
      var merged := if k in bars then bars[k] else [];
      var sorted := Upsert(merged, bs);
      RepresentsToMap(sorted, ToMap(merged) + ToMap(bs));
      bars := bars[k := sorted];
    }

    static method Upsert(stored: seq<Bar>, bs: seq<Bar>) returns (sorted: seq<Bar>)
      requires AscendingBars(stored)
      ensures AscendingBars(sorted) && Represents(sorted, ToMap(stored) + ToMap(bs))
    {
      var merged := stored;
      var idx := IndexTimes(merged);
      UniqueRepresents(merged);
      merged := Overlay(merged, idx, bs, ToMap(stored));
      sorted := SortSlice(merged, (b: Bar) => b.t);
      SortedRepresents(sorted, merged, ToMap(stored) + ToMap(bs));
    }

    static method IndexTimes(merged: seq<Bar>) returns (idx: map<Time, int>)
      requires UniqueTimes(merged)
      ensures IndexOf(idx, merged)
    {
      idx := map[];
      for i := 0 to |merged|
        invariant IndexOf(idx, merged[..i])
      {
        idx := idx[merged[i].t := i];
      }
      assert merged[..|merged|] == merged;
    }

    static method Overlay(stored: seq<Bar>, index: map<Time, int>, bs: seq<Bar>, ghost m: BarMap)
      returns (merged: seq<Bar>)
      requires IndexOf(index, stored) && Represents(stored, m)
      ensures Represents(merged, m + ToMap(bs))
    {
      merged := stored;
      var idx := index;
      for j := 0 to |bs|
        invariant IndexOf(idx, merged)
        invariant Represents(merged, m + ToMap(bs[..j]))
      {
        var b := bs[j];
        UpsertRepresents(merged, m + ToMap(bs[..j]), idx, b);
        OverlaySnoc(m, bs, j);
        if b.t in idx {
          merged := merged[idx[b.t] := b];
          continue;
        }
        idx := idx[b.t := |merged|];
        merged := merged + [b];
      }
      assert bs[..|bs|] == bs;
    }

    method PutIntervals(symbol: string, timeframe: string, ivs: seq<Interval>)
      modifies this`intervals
      ensures IntervalsAt(Key(symbol, timeframe)) == ivs
      ensures forall k :: k != Key(symbol, timeframe) ==> IntervalsAt(k) == old(IntervalsAt(k))
    {
      intervals := intervals[Key(symbol, timeframe) := ivs];
    }
  }

  /** Putting a and then b is putting a + b. */
  lemma PutTwice(m: BarMap, a: seq<Bar>, b: seq<Bar>)
    ensures m + ToMap(a) + ToMap(b) == m + ToMap(a + b)
  {
    ToMapConcat(a, b);
  }
}
