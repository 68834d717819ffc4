/** normalizeCoverage: the minimal sorted set that keeps per-region freshness. */
module Normalizer {
  import opened Timeline
  import opened Sorting

  // ---- freshness, one segment or one instant at a time ----

  ghost predicate Spanned(ivs: seq<Interval>, lo: Time, hi: Time) {
    exists iv :: iv in ivs && Spans(iv, lo, hi)
  }

  /** The greatest stamp among the intervals that hold [lo, hi], starting from the zero time. */
  ghost function Newest(ivs: seq<Interval>, lo: Time, hi: Time): Time {
    if ivs == [] then
      ZERO_TIME
    else
      var n := |ivs| - 1;
      var rest := Newest(ivs[..n], lo, hi);
      if Spans(ivs[n], lo, hi) then MaxTime(rest, ivs[n].fetchedAt) else rest
  }

  ghost function FreshAt(ivs: seq<Interval>, p: Time): Time {
    Newest(ivs, p, p + 1)
  }

  /** Newest is the maximum, bounded below by the zero time. */
  lemma {:induction false} NewestIsMax(ivs: seq<Interval>, lo: Time, hi: Time)
    ensures Newest(ivs, lo, hi) >= ZERO_TIME
    ensures forall iv :: iv in ivs && Spans(iv, lo, hi) ==> iv.fetchedAt <= Newest(ivs, lo, hi)
    ensures Newest(ivs, lo, hi) == ZERO_TIME
         || exists iv :: iv in ivs && Spans(iv, lo, hi) && iv.fetchedAt == Newest(ivs, lo, hi)
  {
    if ivs != [] {
      var n := |ivs| - 1;
      NewestIsMax(ivs[..n], lo, hi);
      assert ivs == ivs[..n] + [ivs[n]];
      assert ivs[n] in ivs;
    }
  }

  /** Stamps taken from a real clock never precede the zero time. */
  ghost predicate Stamped(ivs: seq<Interval>) {
    forall iv :: iv in ivs ==> iv.fetchedAt >= ZERO_TIME
  }

  /** With stamps taken from a real clock, freshness is attained by a covering interval. */
  lemma FreshAtAttained(ivs: seq<Interval>, p: Time)
    requires Stamped(ivs) && Covered(ivs, p)
    ensures exists iv :: iv in ivs && Covers(iv, p) && iv.fetchedAt == FreshAt(ivs, p)
    ensures forall iv :: iv in ivs && Covers(iv, p) ==> iv.fetchedAt <= FreshAt(ivs, p)
  {
    NewestIsMax(ivs, p, p + 1);
    var iv :| iv in ivs && Covers(iv, p);
    assert Spans(iv, p, p + 1);
  }

  lemma {:induction false} NewestUniform(ivs: seq<Interval>, lo: Time, hi: Time, a: Time, b: Time)
    requires forall iv :: iv in ivs ==> (Spans(iv, lo, hi) <==> Spans(iv, a, b))
    ensures Newest(ivs, lo, hi) == Newest(ivs, a, b)
  {
    if ivs != [] {
      NewestUniform(ivs[..|ivs| - 1], lo, hi, a, b);
    }
  }

  lemma NewestSameMembers(a: seq<Interval>, b: seq<Interval>, lo: Time, hi: Time)
    requires forall iv :: iv in a <==> iv in b
    ensures Newest(a, lo, hi) == Newest(b, lo, hi)
  {
    NewestIsMax(a, lo, hi);
    NewestIsMax(b, lo, hi);
  }

  // ---- the sweep ----

  ghost function Endpoints(ivs: seq<Interval>): set<Time> {
    (set iv | iv in ivs && iv.from < iv.to :: iv.from) + (set iv | iv in ivs && iv.from < iv.to :: iv.to)
  }

  /** Adds a covered elementary segment: it extends the last one if the two touch and either
      both are history or they are equally fresh. */
  function Absorb(out: seq<Interval>, lo: Time, hi: Time, fa: Time, historyBefore: Time): seq<Interval> {
    var n := |out| - 1;
    if out != [] && out[n].to == lo
       && ((out[n].to <= historyBefore && hi <= historyBefore) || out[n].fetchedAt == fa) then
      out[n := Interval(out[n].from, hi, MaxTime(out[n].fetchedAt, fa))]
    else
      out + [Interval(lo, hi, fa)]
  }

  /** The segments built from the first n elementary segments. */
  ghost function Sweep(bounds: seq<Time>, ivs: seq<Interval>, historyBefore: Time, n: nat): seq<Interval>
    requires n < |bounds|
  {
    if n == 0 then
      []
    else
      var out := Sweep(bounds, ivs, historyBefore, n - 1);
      if Spanned(ivs, bounds[n - 1], bounds[n]) then
        Absorb(out, bounds[n - 1], bounds[n], Newest(ivs, bounds[n - 1], bounds[n]), historyBefore)
      else
        out
  }

  ghost function Normalized(ivs: seq<Interval>, historyBefore: Time): seq<Interval> {
    var bounds := Ordered(Endpoints(ivs));
    if bounds == [] then [] else Sweep(bounds, ivs, historyBefore, |bounds| - 1)
  }

  // ---- what the sweep promises ----

  /** Sorted, non-empty and non-overlapping. */
  ghost predicate Disjoint(out: seq<Interval>) {
    && (forall i :: 0 <= i < |out| ==> out[i].from < out[i].to)
    && (forall i, j :: 0 <= i < j < |out| ==> out[i].to <= out[j].from)
  }

  /** Touching segments differ in freshness and are not both history. */
  ghost predicate Minimal(out: seq<Interval>, historyBefore: Time) {
    forall i :: 0 < i < |out| && out[i - 1].to == out[i].from ==>
      && out[i - 1].fetchedAt != out[i].fetchedAt
      && !(out[i - 1].to <= historyBefore && out[i].to <= historyBefore)
  }

  /** The stamp of a segment: exact at every live instant, never understated before, and
      always the freshness of one of its own instants. */
  ghost predicate StampExact(o: Interval, ivs: seq<Interval>, historyBefore: Time) {
    && (forall p :: Covers(o, p) ==> FreshAt(ivs, p) <= o.fetchedAt)
    && (forall p :: Covers(o, p) && p >= historyBefore ==> FreshAt(ivs, p) == o.fetchedAt)
    && (exists p :: Covers(o, p) && FreshAt(ivs, p) == o.fetchedAt)
  }

  ghost predicate SweptTo(out: seq<Interval>, ivs: seq<Interval>, historyBefore: Time, reach: Time) {
    && Disjoint(out) && Minimal(out, historyBefore)
    && (forall i :: 0 <= i < |out| ==> out[i].to <= reach && StampExact(out[i], ivs, historyBefore))
    && (forall p :: Covered(out, p) <==> p < reach && Covered(ivs, p))
  }

  /** Between consecutive endpoints an interval holds all instants or none. */
  lemma Elementary(ivs: seq<Interval>, bounds: seq<Time>, n: nat, p: Time)
    requires bounds == Ordered(Endpoints(ivs)) && n + 1 < |bounds|
    requires bounds[n] <= p < bounds[n + 1]
    ensures forall iv :: iv in ivs ==> (Spans(iv, bounds[n], bounds[n + 1]) <==> Covers(iv, p))
    ensures FreshAt(ivs, p) == Newest(ivs, bounds[n], bounds[n + 1])
    ensures Covered(ivs, p) <==> Spanned(ivs, bounds[n], bounds[n + 1])
  {
    OrderedExact(Endpoints(ivs));
    forall iv | iv in ivs ensures Spans(iv, bounds[n], bounds[n + 1]) <==> Covers(iv, p) {
      if Covers(iv, p) {
        assert iv.from in Endpoints(ivs) && iv.to in Endpoints(ivs);
        var i :| 0 <= i < |bounds| && bounds[i] == iv.from;
        var j :| 0 <= j < |bounds| && bounds[j] == iv.to;
        assert i <= n && j >= n + 1;
      }
    }
    NewestUniform(ivs, p, p + 1, bounds[n], bounds[n + 1]);
  }

  lemma AbsorbCovers(out: seq<Interval>, lo: Time, hi: Time, fa: Time, historyBefore: Time, p: Time)
    requires lo < hi && (out != [] ==> out[|out| - 1].from < out[|out| - 1].to)
    ensures Covered(Absorb(out, lo, hi, fa, historyBefore), p) <==> Covered(out, p) || lo <= p < hi
  {
    var r := Absorb(out, lo, hi, fa, historyBefore);
    var n := |out| - 1;
    if Covered(out, p) {
      var i :| 0 <= i < |out| && Covers(out[i], p);
      assert r[i] in r && Covers(r[i], p);
    }
    if lo <= p < hi {
      assert r[|r| - 1] in r && Covers(r[|r| - 1], p);
    }
    if Covered(r, p) && !(lo <= p < hi) {
      var i :| 0 <= i < |r| && Covers(r[i], p);
      assert i < |out| && out[i] in out && Covers(out[i], p);
    }
  }

  lemma AbsorbShape(out: seq<Interval>, lo: Time, hi: Time, fa: Time, hb: Time)
    requires lo < hi && Disjoint(out) && Minimal(out, hb)
    requires forall i :: 0 <= i < |out| ==> out[i].to <= lo
    ensures Disjoint(Absorb(out, lo, hi, fa, hb)) && Minimal(Absorb(out, lo, hi, fa, hb), hb)
  {
    var r, n := Absorb(out, lo, hi, fa, hb), |out| - 1;
    forall i, j | 0 <= i < j < |r| ensures r[i].to <= r[j].from {
      assert j < |out| ==> out[i].to <= out[j].from;
    }
    forall i | 0 < i < |r| && r[i - 1].to == r[i].from
      ensures r[i - 1].fetchedAt != r[i].fetchedAt
      ensures !(r[i - 1].to <= hb && r[i].to <= hb)
    {
      assert i < |out| ==> out[i - 1].to == out[i].from;
    }
  }

  lemma AbsorbStamp(out: seq<Interval>, ivs: seq<Interval>, hb: Time, lo: Time, hi: Time, fa: Time)
    requires lo < hi
    requires out != [] ==> out[|out| - 1].from < out[|out| - 1].to && StampExact(out[|out| - 1], ivs, hb)
    requires forall p :: lo <= p < hi ==> FreshAt(ivs, p) == fa
    ensures var r := Absorb(out, lo, hi, fa, hb); StampExact(r[|r| - 1], ivs, hb)
  {
    var r, n := Absorb(out, lo, hi, fa, hb), |out| - 1;
    var o := r[|r| - 1];
    assert Covers(o, lo) && FreshAt(ivs, lo) == fa;
    if |r| == |out| {
      var q :| Covers(out[n], q) && FreshAt(ivs, q) == out[n].fetchedAt;
      assert Covers(o, q);
      assert forall p :: Covers(o, p) ==> Covers(out[n], p) || lo <= p < hi;
    }
  }

  /** One elementary segment keeps the list sorted, minimal and exact. */
  lemma AbsorbExact(out: seq<Interval>, ivs: seq<Interval>, hb: Time, lo: Time, hi: Time, fa: Time)
    requires lo < hi && SweptTo(out, ivs, hb, lo)
    requires forall p :: lo <= p < hi ==> Covered(ivs, p) && FreshAt(ivs, p) == fa
    ensures SweptTo(Absorb(out, lo, hi, fa, hb), ivs, hb, hi)
  {
    var r := Absorb(out, lo, hi, fa, hb);
    forall p ensures Covered(r, p) <==> p < hi && Covered(ivs, p) {
      AbsorbCovers(out, lo, hi, fa, hb, p);
    }
    AbsorbShape(out, lo, hi, fa, hb);
    AbsorbStamp(out, ivs, hb, lo, hi, fa);
    forall i | 0 <= i < |r| ensures r[i].to <= hi && StampExact(r[i], ivs, hb) {
      assert i < |r| - 1 ==> r[i] == out[i];
    }
  }

  lemma {:induction false} SweepExact(ivs: seq<Interval>, hb: Time, n: nat)
    requires n < |Ordered(Endpoints(ivs))|
    ensures var bounds := Ordered(Endpoints(ivs));
      SweptTo(Sweep(bounds, ivs, hb, n), ivs, hb, bounds[n])
  {
    var bounds := Ordered(Endpoints(ivs));
    OrderedExact(Endpoints(ivs));
    if n == 0 {
      forall p | p < bounds[0] ensures !Covered(ivs, p) {
        BeforeFirst(ivs, bounds, p);
      }
    } else {
      SweepExact(ivs, hb, n - 1);
      SweepStep(ivs, hb, bounds, n, Sweep(bounds, ivs, hb, n - 1));
    }
  }

  lemma SweepStep(ivs: seq<Interval>, hb: Time, bounds: seq<Time>, n: nat, out: seq<Interval>)
    requires bounds == Ordered(Endpoints(ivs)) && 0 < n < |bounds|
    requires SweptTo(out, ivs, hb, bounds[n - 1])
    ensures var lo, hi := bounds[n - 1], bounds[n];
      SweptTo(if Spanned(ivs, lo, hi) then Absorb(out, lo, hi, Newest(ivs, lo, hi), hb) else out, ivs, hb, hi)
  {
    var lo, hi := bounds[n - 1], bounds[n];
    ElementaryAll(ivs, bounds, n - 1);
    if Spanned(ivs, lo, hi) {
      AbsorbExact(out, ivs, hb, lo, hi, Newest(ivs, lo, hi));
    } else {
      NothingAbsorbed(out, ivs, hb, lo, hi);
    }
  }

  lemma ElementaryAll(ivs: seq<Interval>, bounds: seq<Time>, n: nat)
    requires bounds == Ordered(Endpoints(ivs)) && n + 1 < |bounds|
    ensures bounds[n] < bounds[n + 1]
    ensures forall p :: bounds[n] <= p < bounds[n + 1] ==>
      && (Covered(ivs, p) <==> Spanned(ivs, bounds[n], bounds[n + 1]))
      && FreshAt(ivs, p) == Newest(ivs, bounds[n], bounds[n + 1])
  {
    OrderedExact(Endpoints(ivs));
    forall p | bounds[n] <= p < bounds[n + 1]
      ensures Covered(ivs, p) <==> Spanned(ivs, bounds[n], bounds[n + 1])
      ensures FreshAt(ivs, p) == Newest(ivs, bounds[n], bounds[n + 1])
    {
      Elementary(ivs, bounds, n, p);
    }
  }

  lemma NothingAbsorbed(out: seq<Interval>, ivs: seq<Interval>, hb: Time, lo: Time, hi: Time)
    requires SweptTo(out, ivs, hb, lo) && lo < hi
    requires forall p :: lo <= p < hi ==> !Covered(ivs, p)
    ensures SweptTo(out, ivs, hb, hi)
  {
  }

  lemma BeforeFirst(ivs: seq<Interval>, bounds: seq<Time>, p: Time)
    requires bounds == Ordered(Endpoints(ivs)) && bounds != []
    ensures Covered(ivs, p) ==> bounds[0] <= p < bounds[|bounds| - 1]
  {
    OrderedExact(Endpoints(ivs));
    if Covered(ivs, p) {
      var iv :| iv in ivs && Covers(iv, p);
      assert iv.from in Endpoints(ivs) && iv.to in Endpoints(ivs);
      assert iv.from in bounds && iv.to in bounds;
    }
  }

  /** normalizeCoverage is pointwise exact: sorted, non-empty, non-overlapping and minimal; it
      covers exactly the instants the input covers; and every segment's stamp is the greatest
      stamp covering each of its live instants. */
  lemma NormalizedExact(ivs: seq<Interval>, hb: Time)
    ensures var out := Normalized(ivs, hb);
      && Disjoint(out) && Minimal(out, hb)
      && (forall p :: Covered(out, p) <==> Covered(ivs, p))
      && (forall o :: o in out ==> StampExact(o, ivs, hb))
  {
    var bounds := Ordered(Endpoints(ivs));
    OrderedExact(Endpoints(ivs));
    forall iv | iv in ivs && iv.from < iv.to ensures iv.from in bounds {
      assert iv.from in Endpoints(ivs);
    }
    if bounds == [] {
      assert forall p :: !Covered(ivs, p);
    } else {
      SweepExact(ivs, hb, |bounds| - 1);
      forall p ensures Covered(Normalized(ivs, hb), p) <==> Covered(ivs, p) {
        BeforeFirst(ivs, bounds, p);
      }
    }
  }

  // ---- the method ----

  /** The coverage and greatest stamp of one elementary segment. */
  method SegmentFreshness(ins: seq<Interval>, lo: Time, hi: Time) returns (covered: bool, fa: Time)
    ensures covered <==> Spanned(ins, lo, hi)
    ensures fa == Newest(ins, lo, hi)
  {
    covered, fa := false, ZERO_TIME;
    for j := 0 to |ins|
      invariant covered <==> Spanned(ins[..j], lo, hi)
      invariant fa == Newest(ins[..j], lo, hi)
    {
      var iv := ins[j];
      assert ins[..j + 1] == ins[..j] + [iv];
      assert ins[..j + 1][..j] == ins[..j];
      assert iv in ins[..j + 1];
      if iv.from <= lo && iv.to >= hi {
        covered := true;
        fa := MaxTime(fa, iv.fetchedAt);
      }
    }
    assert ins[..|ins|] == ins;
  }

  /** The sorted endpoints of the non-empty intervals, deduplicated in place. */
  method CollectBounds(ins: seq<Interval>) returns (uniq: seq<Time>)
    ensures uniq == Ordered(Endpoints(ins))
  {
    var bounds: seq<Time> := [];
    for i := 0 to |ins|
      invariant forall x :: x in bounds <==> x in Endpoints(ins[..i])
    {
      assert ins[..i + 1] == ins[..i] + [ins[i]];
      EndpointsAppend(ins[..i], ins[i]);
      if ins[i].from < ins[i].to {
        bounds := bounds + [ins[i].from, ins[i].to];
      }
    }
    assert ins[..|ins|] == ins;
    if |bounds| == 0 {
      AscendingIsOrdered([], Endpoints(ins));
      return [];
    }
    var sorted := SortSlice(bounds, (x: Time) => x);
    PermutationMembers(sorted, bounds);
    var cells := new Time[|sorted|](k requires 0 <= k < |sorted| => sorted[k]);
    assert cells[..] == sorted;
    SortedTimes(sorted);
    var n := DedupInPlace(cells);
    uniq := cells[..n];
    AscendingIsOrdered(uniq, Endpoints(ins));
  }

  lemma SortedTimes(s: seq<Time>)
    requires SortedBy(s, (x: Time) => x)
    ensures forall i, j :: 0 <= i < j < |s| ==> s[i] <= s[j]
  {
    var key := (x: Time) => x;
    forall i, j | 0 <= i < j < |s| ensures s[i] <= s[j] {
      assert key(s[i]) <= key(s[j]);
    }
  }

  lemma EndpointsAppend(ivs: seq<Interval>, iv: Interval)
    ensures Endpoints(ivs + [iv]) == Endpoints(ivs) + if iv.from < iv.to then {iv.from, iv.to} else {}
  {
    var all := ivs + [iv];
    assert iv in all;
    forall x ensures x in Endpoints(all) <==> x in Endpoints(ivs) || (iv.from < iv.to && (x == iv.from || x == iv.to)) {
      if x in Endpoints(ivs) {
        var y :| y in ivs && y.from < y.to && (x == y.from || x == y.to);
        assert y in all;
      }
    }
  }

  method NormalizeCoverage(ins: seq<Interval>, historyBefore: Time) returns (out: seq<Interval>)
    ensures out == Normalized(ins, historyBefore)
  {
    var uniq := CollectBounds(ins);
    out := [];
    if |uniq| == 0 {
      return;
    }
    var i := 0;
    while i + 1 < |uniq|
      invariant 0 <= i < |uniq|
      invariant out == Sweep(uniq, ins, historyBefore, i)
    {
      var lo, hi := uniq[i], uniq[i + 1];
      var covered, fa := SegmentFreshness(ins, lo, hi);
      i := i + 1;
      if !covered {
        continue;
      }
      var n := |out|;
      if n > 0 && out[n - 1].to == lo {
        var bothHistorical := out[n - 1].to <= historyBefore && hi <= historyBefore;
        if bothHistorical || out[n - 1].fetchedAt == fa {
          out := out[n - 1 := Interval(out[n - 1].from, hi, MaxTime(out[n - 1].fetchedAt, fa))];
          continue;
        }
      }
      out := out + [Interval(lo, hi, fa)];
    }
  }
}
