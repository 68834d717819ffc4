/** The vocabulary of the bar cache: instants, fetched intervals, ranges to fetch, and the
    point sets they denote.  An instant is a number of nanoseconds since the zero time, and
    an interval or a range stands for the half-open set of instants [from, to). */
module Timeline {

  type Time = int

  /** The zero time.Time, from which the maximum of fetch stamps is accumulated. */
  const ZERO_TIME: Time := 0

  /** One minute, in nanoseconds. */
  const SLIVER_THRESHOLD: Time := 60_000_000_000

  /** A fetched wall-clock range and the instant at which the fetch was stamped. */
  datatype Interval = Interval(from: Time, to: Time, fetchedAt: Time)

  /** A window that must be fetched. */
  datatype Range = Range(from: Time, to: Time)

  function MinTime(a: Time, b: Time): Time {
    if a < b then a else b
  }

  function MaxTime(a: Time, b: Time): Time {
    if a > b then a else b
  }

  /** An interval holds a whole segment [lo, hi]. */
  predicate Spans(iv: Interval, lo: Time, hi: Time) {
    iv.from <= lo && hi <= iv.to
  }

  predicate Covers(iv: Interval, p: Time) {
    iv.from <= p < iv.to
  }

  ghost predicate Covered(ivs: seq<Interval>, p: Time) {
    exists iv :: iv in ivs && Covers(iv, p)
  }

  ghost function Coverage(ivs: seq<Interval>): iset<Time> {
    iset p: Time | Covered(ivs, p)
  }

  ghost predicate InRanges(rs: seq<Range>, p: Time) {
    exists i :: 0 <= i < |rs| && rs[i].from <= p < rs[i].to
  }

  /** Non-empty ranges in ascending order, each more than `gap` after the one before. */
  ghost predicate Separated(rs: seq<Range>, gap: Time) {
    && (forall i :: 0 <= i < |rs| ==> rs[i].from < rs[i].to)
    && (forall i, j :: 0 <= i < j < |rs| ==> rs[j].from - rs[i].to > gap)
  }

  /** The maximal runs of consecutive members of `pts` within [lo, hi), found one instant at
      a time: the reference for every sweep over interval endpoints. */
  ghost function RunsOf(pts: iset<Time>, lo: Time, hi: Time): (rs: seq<Range>)
    decreases hi - lo
  {
    if hi <= lo then
      []
    else if hi - 1 in pts then
      PushInstant(RunsOf(pts, lo, hi - 1), hi - 1)
    else
      RunsOf(pts, lo, hi - 1)
  }

  ghost function PushInstant(rs: seq<Range>, x: Time): (r: seq<Range>) {
    if rs != [] && rs[|rs| - 1].to == x then
      rs[..|rs| - 1] + [Range(rs[|rs| - 1].from, x + 1)]
    else
      rs + [Range(x, x + 1)]
  }

  lemma PushInstantExact(rs: seq<Range>, x: Time)
    requires Separated(rs, 0)
    requires forall i :: 0 <= i < |rs| ==> rs[i].to <= x
    ensures Separated(PushInstant(rs, x), 0)
    ensures forall i :: 0 <= i < |PushInstant(rs, x)| ==> PushInstant(rs, x)[i].to <= x + 1
    ensures forall p :: InRanges(PushInstant(rs, x), p) <==> InRanges(rs, p) || p == x
  {
    var n := |rs| - 1;
    forall p ensures InRanges(PushInstant(rs, x), p) <==> InRanges(rs, p) || p == x {
      if rs != [] && rs[n].to == x {
        assert PushInstant(rs, x) == rs[n := rs[n].(to := x + 1)];
        ExtendRange(rs, x + 1, p);
      } else {
        AppendRange(rs, Range(x, x + 1), p);
      }
    }
  }

  /** The run list is separated, stays within [lo, hi] and holds exactly the given instants. */
  lemma {:induction false} RunsOfExact(pts: iset<Time>, lo: Time, hi: Time)
    ensures Separated(RunsOf(pts, lo, hi), 0)
    ensures forall i :: 0 <= i < |RunsOf(pts, lo, hi)| ==> RunsOf(pts, lo, hi)[i].to <= hi
    ensures forall p :: InRanges(RunsOf(pts, lo, hi), p) <==> lo <= p < hi && p in pts
    decreases hi - lo
  {
    if lo < hi {
      var prev := RunsOf(pts, lo, hi - 1);
      RunsOfExact(pts, lo, hi - 1);
      if hi - 1 in pts {
        PushInstantExact(prev, hi - 1);
      } else {
        assert RunsOf(pts, lo, hi) == prev;
      }
    }
  }

  /** A separated list is determined by the instants it contains. */
  lemma {:induction false} SeparatedUnique(a: seq<Range>, b: seq<Range>)
    requires Separated(a, 0) && Separated(b, 0)
    requires forall p :: InRanges(a, p) <==> InRanges(b, p)
    ensures a == b
  {
    if a == [] || b == [] {
      if a != [] {
        assert InRanges(a, a[0].from);
      }
      if b != [] {
        assert InRanges(b, b[0].from);
      }
    } else {
      FirstBounds(a, b);
      FirstBounds(b, a);
      forall p ensures InRanges(a[1..], p) <==> InRanges(b[1..], p) {
        AfterFirst(a, p);
        AfterFirst(b, p);
      }
      SeparatedUnique(a[1..], b[1..]);
      assert a == [a[0]] + a[1..] && b == [b[0]] + b[1..];
    }
  }

  lemma FirstBounds(a: seq<Range>, b: seq<Range>)
    requires Separated(a, 0) && Separated(b, 0) && a != [] && b != []
    requires forall p :: InRanges(a, p) <==> InRanges(b, p)
    ensures b[0].from <= a[0].from && a[0].to <= b[0].to
  {
    assert InRanges(a, a[0].from) && InRanges(b, b[0].from);
    var i :| 0 <= i < |a| && a[i].from <= b[0].from < a[i].to;
    BoundsOutside(b, 0);
  }

  /** The instant that ends a range and the one before it begins lie in no range. */
  lemma BoundsOutside(rs: seq<Range>, i: nat)
    requires Separated(rs, 0) && i < |rs|
    ensures !InRanges(rs, rs[i].to) && !InRanges(rs, rs[i].from - 1)
  {
  }

  lemma AfterFirst(a: seq<Range>, p: Time)
    requires Separated(a, 0) && a != []
    ensures InRanges(a[1..], p) <==> InRanges(a, p) && p >= a[0].to
  {
    if InRanges(a[1..], p) {
      var i :| 0 <= i < |a[1..]| && a[1..][i].from <= p < a[1..][i].to;
      assert a[i + 1].from <= p < a[i + 1].to;
    }
    if InRanges(a, p) && p >= a[0].to {
      var i :| 0 <= i < |a| && a[i].from <= p < a[i].to;
      assert a[1..][i - 1].from <= p < a[1..][i - 1].to;
    }
  }

  /** A separated list is the run list of its own points. */
  lemma SeparatedIsRunsOf(rs: seq<Range>, pts: iset<Time>, lo: Time, hi: Time)
    requires Separated(rs, 0)
    requires forall p :: InRanges(rs, p) <==> lo <= p < hi && p in pts
    ensures rs == RunsOf(pts, lo, hi)
  {
    RunsOfExact(pts, lo, hi);
    SeparatedUnique(rs, RunsOf(pts, lo, hi));
  }

  /** Consecutive instants of a separated list lie in one of its ranges. */
  lemma {:induction false} ConsecutiveInOneRange(rs: seq<Range>, i: nat, p: Time, q: Time)
    requires Separated(rs, 0) && i < |rs| && rs[i].from <= p < rs[i].to
    requires forall x :: MinTime(p, q) <= x <= MaxTime(p, q) ==> InRanges(rs, x)
    ensures rs[i].from <= q < rs[i].to
  {
    BoundsOutside(rs, i);
  }

  lemma CoveredConcat(a: seq<Interval>, b: seq<Interval>, p: Time)
    ensures Covered(a + b, p) <==> Covered(a, p) || Covered(b, p)
  {
    if Covered(a, p) {
      var iv :| iv in a && Covers(iv, p);
      assert iv in a + b;
    }
    if Covered(b, p) {
      var iv :| iv in b && Covers(iv, p);
      assert iv in a + b;
    }
  }

  lemma CoveredSingle(iv: Interval, p: Time)
    ensures Covered([iv], p) <==> Covers(iv, p)
  {
    assert iv in [iv];
  }

  /** The range after rs[j] starts at the first later instant in the list. */
  lemma NextRange(rs: seq<Range>, j: nat, hi: Time)
    requires Separated(rs, 0) && j < |rs|
    requires rs[j].to <= hi && InRanges(rs, hi)
    requires forall q :: rs[j].to <= q < hi ==> !InRanges(rs, q)
    ensures j + 1 < |rs| && rs[j + 1].from == hi
  {
    var k :| 0 <= k < |rs| && rs[k].from <= hi < rs[k].to;
    assert k > j;
    forall x | j < x < |rs| ensures rs[x].from >= hi {
      assert InRanges(rs, rs[x].from);
    }
  }

  lemma AppendRange(rs: seq<Range>, r: Range, p: Time)
    ensures InRanges(rs + [r], p) <==> InRanges(rs, p) || r.from <= p < r.to
  {
    var rs' := rs + [r];
    if InRanges(rs, p) {
      var i :| 0 <= i < |rs| && rs[i].from <= p < rs[i].to;
      assert rs'[i].from <= p < rs'[i].to;
    }
    if r.from <= p < r.to {
      assert rs'[|rs|].from <= p < rs'[|rs|].to;
    }
    if InRanges(rs', p) {
      var i :| 0 <= i < |rs'| && rs'[i].from <= p < rs'[i].to;
      assert i < |rs| ==> rs[i].from <= p < rs[i].to;
    }
  }

  lemma ExtendRange(rs: seq<Range>, to: Time, p: Time)
    requires rs != [] && rs[|rs| - 1].from < rs[|rs| - 1].to <= to
    ensures InRanges(rs[|rs| - 1 := rs[|rs| - 1].(to := to)], p) <==> InRanges(rs, p) || rs[|rs| - 1].to <= p < to
  {
    var n := |rs| - 1;
    var r := rs[n := rs[n].(to := to)];
    if InRanges(rs, p) {
      var i :| 0 <= i < |rs| && rs[i].from <= p < rs[i].to;
      assert r[i].from <= p < r[i].to;
    }
    if rs[n].to <= p < to {
      assert r[n].from <= p < r[n].to;
    }
    if InRanges(r, p) {
      var i :| 0 <= i < |r| && r[i].from <= p < r[i].to;
      assert i < n ==> rs[i].from <= p < rs[i].to;
      assert i == n && p < rs[n].to ==> rs[n].from <= p < rs[n].to;
    }
  }

  lemma WithoutLast(rs: seq<Range>, p: Time)
    requires Separated(rs, 0) && rs != []
    ensures InRanges(rs[..|rs| - 1], p) <==> InRanges(rs, p) && !(rs[|rs| - 1].from <= p < rs[|rs| - 1].to)
  {
    var n := |rs| - 1;
    assert rs == rs[..n] + [rs[n]];
    AppendRange(rs[..n], rs[n], p);
    assert forall i :: 0 <= i < n ==> rs[n].from - rs[i].to > 0;
  }
}
