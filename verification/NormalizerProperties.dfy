/** Consequences of exact normalization: what a later plan sees, order independence,
    idempotence and the size of the stored set. */
module NormalizerProperties {
  import opened Timeline
  import opened Sorting
  import opened Planner
  import opened Normalizer

  // ---- freshness seen through the normalized set ----

  lemma NormalizedStamped(ivs: seq<Interval>, hb: Time)
    ensures Stamped(Normalized(ivs, hb))
  {
    NormalizedExact(ivs, hb);
    forall o | o in Normalized(ivs, hb) ensures o.fetchedAt >= ZERO_TIME {
      var p :| Covers(o, p) && FreshAt(ivs, p) == o.fetchedAt;
      NewestIsMax(ivs, p, p + 1);
    }
  }

  /** The freshness of an instant in a sorted set is the stamp of the segment around it. */
  lemma DisjointFreshAt(out: seq<Interval>, o: Interval, p: Time)
    requires Disjoint(out) && Stamped(out) && o in out && Covers(o, p)
    ensures FreshAt(out, p) == o.fetchedAt
    ensures forall x :: x in out && Covers(x, p) ==> x == o
  {
    assert Covered(out, p);
    FreshAtAttained(out, p);
    var i :| 0 <= i < |out| && out[i] == o;
    forall x | x in out && Covers(x, p) ensures x == o {
      var j :| 0 <= j < |out| && out[j] == x;
    }
  }

  /** Freshness survives normalization exactly at live instants, and is never understated. */
  lemma FreshAtNormalized(ivs: seq<Interval>, hb: Time, p: Time)
    requires Covered(ivs, p)
    ensures FreshAt(Normalized(ivs, hb), p) >= FreshAt(ivs, p)
    ensures p >= hb ==> FreshAt(Normalized(ivs, hb), p) == FreshAt(ivs, p)
  {
    NormalizedExact(ivs, hb);
    NormalizedStamped(ivs, hb);
    var out := Normalized(ivs, hb);
    var o :| o in out && Covers(o, p);
    DisjointFreshAt(out, o, p);
  }

  /** A fresh neighbour never blesses a stale live instant: a plan whose live zone starts at
      or after the cutoff holds exactly the same instants before and after normalization. */
  lemma HeldNormalized(ivs: seq<Interval>, hb: Time, w: Window, p: Time)
    requires Stamped(ivs) && hb <= w.LiveStart()
    ensures Held(Normalized(ivs, hb), w, p) <==> Held(ivs, w, p)
  {
    NormalizedExact(ivs, hb);
    NormalizedStamped(ivs, hb);
    var out := Normalized(ivs, hb);
    if Covered(ivs, p) {
      FreshAtNormalized(ivs, hb, p);
      FreshAtAttained(ivs, p);
      FreshAtAttained(out, p);
    }
  }

  /** Normalizing at one cutoff and then at a later one agrees with normalizing once, instant
      by instant, from the later cutoff on. */
  lemma RenormalizePointwise(ivs: seq<Interval>, early: Time, late: Time, p: Time)
    requires early <= late <= p && Covered(ivs, p)
    ensures FreshAt(Normalized(Normalized(ivs, early), late), p) == FreshAt(Normalized(ivs, late), p)
  {
    NormalizedExact(ivs, early);
    FreshAtNormalized(ivs, early, p);
    FreshAtNormalized(Normalized(ivs, early), late, p);
    FreshAtNormalized(ivs, late, p);
  }

  // ---- when the cutoff runs ahead of the plan ----

  /** Where coverage goes on past the end of a segment, the next segment touches it. */
  lemma TouchingNext(out: seq<Interval>, i: nat)
    requires Disjoint(out) && i < |out| && Covered(out, out[i].to)
    ensures i + 1 < |out| && out[i + 1].from == out[i].to
  {
    var o :| o in out && Covers(o, out[i].to);
    var j :| 0 <= j < |out| && out[j] == o;
    assert out[i].from < out[i].to;
    assert j > i;
    assert out[i + 1].from < out[i + 1].to;
  }

  lemma LastSegment(out: seq<Interval>, i: nat, hi: Time)
    requires Disjoint(out) && i < |out| && out[i].to >= hi
    requires forall j :: 0 <= j < |out| ==> out[j].to <= hi
    ensures |out| == i + 1
  {
    assert i + 1 < |out| ==> out[i + 1].to > out[i].to by {
      assert i + 1 < |out| ==> out[i].to <= out[i + 1].from < out[i + 1].to;
    }
  }

  /** Coverage without a gap that has all become history is one segment, no staler than any
      of its instants. */
  lemma HistoryIsOneSegment(ivs: seq<Interval>, hb: Time, lo: Time, hi: Time) returns (fa: Time)
    requires lo < hi <= hb && forall p :: Covered(ivs, p) <==> lo <= p < hi
    ensures Normalized(ivs, hb) == [Interval(lo, hi, fa)]
    ensures forall p :: lo <= p < hi ==> FreshAt(ivs, p) <= fa
  {
    var out := Normalized(ivs, hb);
    NormalizedExact(ivs, hb);
    assert Covered(out, lo);
    forall i | 0 <= i < |out| ensures lo <= out[i].from && out[i].to <= hi {
      assert out[i] in out && Covers(out[i], out[i].from) && Covers(out[i], out[i].to - 1);
      assert Covered(out, out[i].from) && Covered(out, out[i].to - 1);
    }
    if Covered(out, out[0].to) {
      TouchingNext(out, 0);
    }
    LastSegment(out, 0, hi);
    fa := out[0].fetchedAt;
    var o :| o in out && Covers(o, lo);
  }

  /** Once the ttl reaches back past every stamp, whatever is covered is held. */
  lemma AllFreshHeld(ivs: seq<Interval>, w: Window, p: Time)
    requires Stamped(ivs) && w.FreshAfter() <= ZERO_TIME
    ensures Held(ivs, w, p) <==> Covered(ivs, p)
  {
    if Covered(ivs, p) {
      var iv :| iv in ivs && Covers(iv, p);
    }
  }

  /** A stale live instant beside a fresh historical one. */
  function StaleBesideFresh(w: Window): seq<Interval> {
    var live := w.LiveStart();
    [Interval(live - 1, live, w.FreshAfter()), Interval(live, live + 1, ZERO_TIME)]
  }

  /** A cutoff past the plan's live zone lets the fresh neighbour bless the stale live instant. */
  lemma LateCutoffBlesses(hb: Time, w: Window)
    requires hb > w.LiveStart() && w.FreshAfter() > ZERO_TIME
    ensures Stamped(StaleBesideFresh(w)) && !Held(StaleBesideFresh(w), w, w.LiveStart())
    ensures Held(Normalized(StaleBesideFresh(w), hb), w, w.LiveStart())
  {
    var ivs, live := StaleBesideFresh(w), w.LiveStart();
    assert ivs[0] in ivs && ivs[1] in ivs;
    forall p ensures Covered(ivs, p) <==> live - 1 <= p < live + 1 {
      assert p == live - 1 ==> Covers(ivs[0], p);
      assert p == live ==> Covers(ivs[1], p);
    }
    var fa := HistoryIsOneSegment(ivs, hb, live - 1, live + 1);
    FreshAtAttained(ivs, live - 1);
    var out := Normalized(ivs, hb);
    assert out[0] in out && Covers(out[0], live);
  }

  /** Normalization at a cutoff is invisible to a plan, for every set and every instant, if and
      only if the cutoff is not past the start of the plan's live zone or the plan takes every
      stamp for fresh. */
  lemma HeldPreservedIff(hb: Time, w: Window)
    ensures (forall ivs, p :: Stamped(ivs) ==> (Held(Normalized(ivs, hb), w, p) <==> Held(ivs, w, p)))
      <==> hb <= w.LiveStart() || w.FreshAfter() <= ZERO_TIME
  {
    if hb <= w.LiveStart() || w.FreshAfter() <= ZERO_TIME {
      forall ivs, p | Stamped(ivs) ensures Held(Normalized(ivs, hb), w, p) <==> Held(ivs, w, p) {
        if hb <= w.LiveStart() {
          HeldNormalized(ivs, hb, w, p);
        } else {
          NormalizedStamped(ivs, hb);
          NormalizedExact(ivs, hb);
          AllFreshHeld(ivs, w, p);
          AllFreshHeld(Normalized(ivs, hb), w, p);
        }
      }
    } else {
      LateCutoffBlesses(hb, w);
    }
  }

  // ---- order independence ----

  lemma {:induction false} SweepSameMembers(a: seq<Interval>, b: seq<Interval>, bounds: seq<Time>, hb: Time, n: nat)
    requires (forall iv :: iv in a <==> iv in b) && n < |bounds|
    ensures Sweep(bounds, a, hb, n) == Sweep(bounds, b, hb, n)
  {
    if n > 0 {
      SweepSameMembers(a, b, bounds, hb, n - 1);
      NewestSameMembers(a, b, bounds[n - 1], bounds[n]);
    }
  }

  /** The normalized set is the same list for every order of the input. */
  lemma NormalizedOrderIndependent(a: seq<Interval>, b: seq<Interval>, hb: Time)
    requires multiset(a) == multiset(b)
    ensures Normalized(a, hb) == Normalized(b, hb)
  {
    PermutationMembers(a, b);
    assert Endpoints(a) == Endpoints(b);
    var bounds := Ordered(Endpoints(a));
    if bounds != [] {
      SweepSameMembers(a, b, bounds, hb, |bounds| - 1);
    }
  }

  // ---- idempotence ----

  lemma EndpointOf(ivs: seq<Interval>, x: Time)
    requires Disjoint(ivs)
    ensures x in Endpoints(ivs) <==> exists i :: 0 <= i < |ivs| && (x == ivs[i].from || x == ivs[i].to)
  {
    if x in Endpoints(ivs) {
      var iv :| iv in ivs && iv.from < iv.to && (x == iv.from || x == iv.to);
      var i :| 0 <= i < |ivs| && ivs[i] == iv;
    }
    if i :| 0 <= i < |ivs| && (x == ivs[i].from || x == ivs[i].to) {
      assert ivs[i] in ivs;
    }
  }

  /** The sweep over a set already in normal form has rebuilt exactly its first m segments. */
  ghost predicate Rebuilt(ivs: seq<Interval>, out: seq<Interval>, reach: Time, m: nat) {
    && m <= |ivs| && out == ivs[..m]
    && (forall i :: 0 <= i < m ==> ivs[i].to <= reach)
    && (forall i :: m <= i < |ivs| ==> ivs[i].from >= reach)
  }

  /** No endpoint lies strictly between consecutive bounds. */
  lemma EndpointsAround(ivs: seq<Interval>, bounds: seq<Time>, n: nat, i: nat)
    requires Disjoint(ivs) && bounds == Ordered(Endpoints(ivs)) && n + 1 < |bounds| && i < |ivs|
    ensures bounds[n] < bounds[n + 1]
    ensures ivs[i].from <= bounds[n] || ivs[i].from >= bounds[n + 1]
    ensures ivs[i].to <= bounds[n] || ivs[i].to >= bounds[n + 1]
  {
    OrderedExact(Endpoints(ivs));
    EndpointOf(ivs, ivs[i].from);
    EndpointOf(ivs, ivs[i].to);
    NotBetween(bounds, n, ivs[i].from);
    NotBetween(bounds, n, ivs[i].to);
  }

  lemma NotBetween(bounds: seq<Time>, n: nat, x: Time)
    requires Ascending(bounds) && n + 1 < |bounds| && x in bounds
    ensures bounds[n] < bounds[n + 1] && (x <= bounds[n] || x >= bounds[n + 1])
  {
    var j :| 0 <= j < |bounds| && bounds[j] == x;
  }

  /** The segment that holds an elementary segment is that elementary segment. */
  lemma SpannedIsNext(ivs: seq<Interval>, bounds: seq<Time>, n: nat, out: seq<Interval>, m: nat)
    requires Disjoint(ivs) && bounds == Ordered(Endpoints(ivs)) && n + 1 < |bounds|
    requires Rebuilt(ivs, out, bounds[n], m)
    ensures bounds[n] < bounds[n + 1]
    ensures Spanned(ivs, bounds[n], bounds[n + 1]) <==> m < |ivs| && ivs[m].from == bounds[n]
    ensures m < |ivs| && ivs[m].from == bounds[n] ==> ivs[m].to == bounds[n + 1]
  {
    var lo, hi := bounds[n], bounds[n + 1];
    OrderedExact(Endpoints(ivs));
    if Spanned(ivs, lo, hi) {
      var iv :| iv in ivs && Spans(iv, lo, hi);
      var k :| 0 <= k < |ivs| && ivs[k] == iv;
      assert k >= m;
      FirstOnly(ivs, m, k, lo);
    }
    if m < |ivs| && ivs[m].from == lo {
      EndpointsAround(ivs, bounds, n, m);
      assert ivs[m] in ivs && Spans(ivs[m], lo, hi);
      NextBoundIsEnd(ivs, bounds, n, m);
    }
  }

  lemma NextBoundIsEnd(ivs: seq<Interval>, bounds: seq<Time>, n: nat, m: nat)
    requires Disjoint(ivs) && bounds == Ordered(Endpoints(ivs)) && n + 1 < |bounds|
    requires m < |ivs| && ivs[m].from == bounds[n] && bounds[n + 1] <= ivs[m].to
    requires bounds[n] < bounds[n + 1]
    ensures ivs[m].to == bounds[n + 1]
  {
    var hi := bounds[n + 1];
    OrderedExact(Endpoints(ivs));
    assert hi in bounds;
    EndpointOf(ivs, hi);
    var h :| 0 <= h < |ivs| && (hi == ivs[h].from || hi == ivs[h].to);
    EndsOutside(ivs, m, h);
  }

  lemma EndsOutside(ivs: seq<Interval>, m: nat, h: nat)
    requires Disjoint(ivs) && m < |ivs| && h < |ivs|
    ensures ivs[h].from <= ivs[m].from || ivs[h].from >= ivs[m].to
    ensures ivs[h].to <= ivs[m].from || ivs[h].to >= ivs[m].to
  {
    assert h < m ==> ivs[h].to <= ivs[m].from;
    assert h > m ==> ivs[m].to <= ivs[h].from;
    assert ivs[h].from < ivs[h].to;
  }

  lemma RebuildStep(ivs: seq<Interval>, hb: Time, bounds: seq<Time>, n: nat, out: seq<Interval>, m: nat)
    requires Disjoint(ivs) && Minimal(ivs, hb) && Stamped(ivs)
    requires bounds == Ordered(Endpoints(ivs)) && n + 1 < |bounds|
    requires Rebuilt(ivs, out, bounds[n], m)
    ensures var lo, hi := bounds[n], bounds[n + 1];
      if Spanned(ivs, lo, hi) then Rebuilt(ivs, Absorb(out, lo, hi, Newest(ivs, lo, hi), hb), hi, m + 1)
      else Rebuilt(ivs, out, hi, m)
  {
    var lo, hi := bounds[n], bounds[n + 1];
    SpannedIsNext(ivs, bounds, n, out, m);
    if Spanned(ivs, lo, hi) {
      RebuildAbsorb(ivs, hb, out, m);
    } else {
      forall i | m <= i < |ivs| ensures ivs[i].from >= hi {
        EndpointsAround(ivs, bounds, n, i);
        assert i > m ==> ivs[m].to <= ivs[i].from;
        assert ivs[m].from < ivs[m].to;
      }
    }
  }

  lemma RebuildAbsorb(ivs: seq<Interval>, hb: Time, out: seq<Interval>, m: nat)
    requires Disjoint(ivs) && Minimal(ivs, hb) && Stamped(ivs) && m < |ivs| && Rebuilt(ivs, out, ivs[m].from, m)
    ensures var lo, hi := ivs[m].from, ivs[m].to;
      Rebuilt(ivs, Absorb(out, lo, hi, Newest(ivs, lo, hi), hb), hi, m + 1)
  {
    assert ivs[m] in ivs;
    SegmentStamp(ivs, ivs[m], ivs[m].from, ivs[m].to);
    AbsorbAppends(ivs, hb, m);
  }

  lemma AbsorbAppends(ivs: seq<Interval>, hb: Time, m: nat)
    requires Disjoint(ivs) && Minimal(ivs, hb) && m < |ivs|
    ensures Absorb(ivs[..m], ivs[m].from, ivs[m].to, ivs[m].fetchedAt, hb) == ivs[..m + 1]
  {
    assert ivs[..m + 1] == ivs[..m] + [ivs[m]];
    assert m > 0 ==> ivs[..m][m - 1] == ivs[m - 1];
  }

  lemma FirstOnly(ivs: seq<Interval>, m: nat, k: nat, lo: Time)
    requires Disjoint(ivs) && m <= k < |ivs|
    requires lo <= ivs[m].from && ivs[k].from <= lo
    ensures k == m
  {
    assert ivs[m].from < ivs[m].to;
  }

  lemma SegmentStamp(ivs: seq<Interval>, iv: Interval, lo: Time, hi: Time)
    requires Disjoint(ivs) && Stamped(ivs) && iv in ivs && Spans(iv, lo, hi) && lo < hi
    ensures Newest(ivs, lo, hi) == iv.fetchedAt
  {
    NewestIsMax(ivs, lo, hi);
    DisjointFreshAt(ivs, iv, lo);
    assert forall x :: x in ivs && Spans(x, lo, hi) ==> Covers(x, lo);
  }

  lemma {:induction false} RebuildAll(ivs: seq<Interval>, hb: Time, bounds: seq<Time>, n: nat) returns (m: nat)
    requires Disjoint(ivs) && Minimal(ivs, hb) && Stamped(ivs)
    requires bounds == Ordered(Endpoints(ivs)) && n < |bounds|
    ensures Rebuilt(ivs, Sweep(bounds, ivs, hb, n), bounds[n], m)
  {
    if n == 0 {
      m := 0;
      RebuiltNone(ivs, bounds);
    } else {
      m := RebuildAll(ivs, hb, bounds, n - 1);
      m := RebuildOne(ivs, hb, bounds, n - 1, m);
    }
  }

  lemma RebuiltNone(ivs: seq<Interval>, bounds: seq<Time>)
    requires Disjoint(ivs) && bounds == Ordered(Endpoints(ivs)) && bounds != []
    ensures Rebuilt(ivs, [], bounds[0], 0)
  {
    forall i | 0 <= i < |ivs| ensures ivs[i].from >= bounds[0] {
      FirstBound(ivs, bounds, i);
    }
  }

  lemma RebuildOne(ivs: seq<Interval>, hb: Time, bounds: seq<Time>, n: nat, m: nat) returns (m': nat)
    requires Disjoint(ivs) && Minimal(ivs, hb) && Stamped(ivs)
    requires bounds == Ordered(Endpoints(ivs)) && n + 1 < |bounds|
    requires Rebuilt(ivs, Sweep(bounds, ivs, hb, n), bounds[n], m)
    ensures Rebuilt(ivs, Sweep(bounds, ivs, hb, n + 1), bounds[n + 1], m')
  {
    RebuildStep(ivs, hb, bounds, n, Sweep(bounds, ivs, hb, n), m);
    m' := if Spanned(ivs, bounds[n], bounds[n + 1]) then m + 1 else m;
  }

  lemma FirstBound(ivs: seq<Interval>, bounds: seq<Time>, i: nat)
    requires Disjoint(ivs) && bounds == Ordered(Endpoints(ivs)) && bounds != [] && i < |ivs|
    ensures bounds[0] <= ivs[i].from
  {
    OrderedExact(Endpoints(ivs));
    EndpointOf(ivs, ivs[i].from);
    assert ivs[i].from in bounds;
  }

  /** A set already in normal form is left alone. */
  lemma NormalFormFixed(ivs: seq<Interval>, hb: Time)
    requires Disjoint(ivs) && Minimal(ivs, hb) && Stamped(ivs)
    ensures Normalized(ivs, hb) == ivs
  {
    var bounds := Ordered(Endpoints(ivs));
    if ivs == [] {
      assert Endpoints(ivs) == {};
    } else {
      LastBound(ivs, 0);
      var m := RebuildAll(ivs, hb, bounds, |bounds| - 1);
      RebuiltWhole(ivs, bounds, Sweep(bounds, ivs, hb, |bounds| - 1), m);
    }
  }

  lemma RebuiltWhole(ivs: seq<Interval>, bounds: seq<Time>, out: seq<Interval>, m: nat)
    requires Disjoint(ivs) && bounds == Ordered(Endpoints(ivs)) && bounds != []
    requires Rebuilt(ivs, out, bounds[|bounds| - 1], m)
    ensures out == ivs
  {
    if m < |ivs| {
      LastBound(ivs, m);
    }
  }

  lemma LastBound(ivs: seq<Interval>, i: nat)
    requires Disjoint(ivs) && i < |ivs|
    ensures Ordered(Endpoints(ivs)) != []
    ensures var bounds := Ordered(Endpoints(ivs)); ivs[i].from < bounds[|bounds| - 1]
  {
    var bounds := Ordered(Endpoints(ivs));
    OrderedExact(Endpoints(ivs));
    EndpointOf(ivs, ivs[i].to);
    assert ivs[i].to in bounds;
  }

  /** Normalization is idempotent at a fixed cutoff. */
  lemma NormalizedIdempotent(ivs: seq<Interval>, hb: Time)
    ensures Normalized(Normalized(ivs, hb), hb) == Normalized(ivs, hb)
  {
    NormalizedExact(ivs, hb);
    NormalizedStamped(ivs, hb);
    NormalFormFixed(Normalized(ivs, hb), hb);
  }

  /** Starts strictly increase, so (symbol, timeframe, from) is a key of the stored rows. */
  lemma NormalizedStartsIncrease(ivs: seq<Interval>, hb: Time, i: nat, j: nat)
    requires i < j < |Normalized(ivs, hb)|
    ensures Normalized(ivs, hb)[i].from < Normalized(ivs, hb)[j].from
  {
    NormalizedExact(ivs, hb);
  }

  // ---- size ----

  lemma {:induction false} SweepEnds(ivs: seq<Interval>, hb: Time, n: nat)
    requires n < |Ordered(Endpoints(ivs))|
    ensures forall o :: o in Sweep(Ordered(Endpoints(ivs)), ivs, hb, n) ==>
      o.from in Endpoints(ivs) && o.to in Endpoints(ivs)
  {
    var bounds := Ordered(Endpoints(ivs));
    OrderedExact(Endpoints(ivs));
    if n > 0 {
      SweepEnds(ivs, hb, n - 1);
      assert bounds[n - 1] in bounds && bounds[n] in bounds;
    }
  }

  /** Segment i touches the one before and ends at x. */
  ghost predicate TouchingEnd(ivs: seq<Interval>, i: nat, x: Time) {
    0 < i < |ivs| && ivs[i - 1].to == ivs[i].from && ivs[i].to == x
  }

  /** The connected runs of a sorted set, touching segments glued together, and the ends of the
      segments that touch the one before. */
  ghost predicate Glued(g: seq<Range>, ends: set<Time>, ivs: seq<Interval>) {
    && Separated(g, 0)
    && (forall p :: InRanges(g, p) <==> Covered(ivs, p))
    && (g == [] <==> ivs == [])
    && (ivs != [] ==> g[|g| - 1].to == ivs[|ivs| - 1].to)
    && |ivs| == |g| + |ends|
    && (forall x :: x in ends ==> exists i: nat :: TouchingEnd(ivs, i, x))
  }

  lemma {:induction false} Glue(ivs: seq<Interval>) returns (g: seq<Range>, ends: set<Time>)
    requires Disjoint(ivs)
    ensures Glued(g, ends, ivs)
  {
    if ivs == [] {
      g, ends := [], {};
    } else {
      var prev, last := ivs[..|ivs| - 1], ivs[|ivs| - 1];
      assert ivs == prev + [last];
      g, ends := Glue(prev);
      g, ends := GlueOne(g, ends, prev, last);
    }
  }

  lemma GlueOne(g: seq<Range>, ends: set<Time>, prev: seq<Interval>, last: Interval)
    returns (g': seq<Range>, ends': set<Time>)
    requires Disjoint(prev + [last]) && Glued(g, ends, prev)
    ensures Glued(g', ends', prev + [last])
  {
    GlueStep(g, prev, last);
    forall x | x in ends ensures x < last.to && exists i: nat :: TouchingEnd(prev + [last], i, x) {
      var i: nat :| TouchingEnd(prev, i, x);
      EndsBefore(prev, last, i, x);
    }
    if prev != [] && prev[|prev| - 1].to == last.from {
      g', ends' := g[|g| - 1 := Range(g[|g| - 1].from, last.to)], ends + {last.to};
      assert TouchingEnd(prev + [last], |prev|, last.to);
    } else {
      g', ends' := g + [Range(last.from, last.to)], ends;
    }
  }

  lemma EndsBefore(prev: seq<Interval>, last: Interval, i: nat, x: Time)
    requires Disjoint(prev + [last]) && TouchingEnd(prev, i, x)
    ensures x < last.to && TouchingEnd(prev + [last], i, x)
  {
    var all := prev + [last];
    assert all[i] == prev[i] && all[i - 1] == prev[i - 1] && all[|prev|] == last;
    assert all[i].to <= all[|prev|].from < all[|prev|].to;
  }

  lemma GlueStep(g: seq<Range>, prev: seq<Interval>, last: Interval)
    requires Disjoint(prev + [last]) && Separated(g, 0)
    requires forall p :: InRanges(g, p) <==> Covered(prev, p)
    requires (g == [] <==> prev == []) && (prev != [] ==> g[|g| - 1].to == prev[|prev| - 1].to)
    ensures var touching := prev != [] && prev[|prev| - 1].to == last.from;
      var g' := if touching then g[|g| - 1 := Range(g[|g| - 1].from, last.to)] else g + [Range(last.from, last.to)];
      && Separated(g', 0)
      && forall p :: InRanges(g', p) <==> Covered(prev + [last], p)
  {
    var all := prev + [last];
    var touching := prev != [] && prev[|prev| - 1].to == last.from;
    assert all[|prev|] == last;
    assert prev != [] ==> all[|prev| - 1] == prev[|prev| - 1] && prev[|prev| - 1].to <= last.from;
    var g' := if touching then g[|g| - 1 := Range(g[|g| - 1].from, last.to)] else g + [Range(last.from, last.to)];
    forall p ensures InRanges(g', p) <==> Covered(all, p) {
      CoveredConcat(prev, [last], p);
      CoveredSingle(last, p);
      if touching {
        ExtendRange(g, last.to, p);
      } else {
        AppendRange(g, Range(last.from, last.to), p);
      }
    }
  }

  lemma SubsetSize(a: set<Time>, b: set<Time>)
    requires a <= b
    ensures |a| <= |b|
  {
    assert b == a + (b - a);
    assert a !! (b - a);
  }

  ghost function EndpointsAfter(ivs: seq<Interval>, hb: Time): set<Time> {
    set e | e in Endpoints(ivs) && e > hb
  }

  /** The stored set stays small: one segment per connected run of coverage plus at most one
      per distinct input endpoint after the cutoff. */
  lemma NormalizedSize(ivs: seq<Interval>, hb: Time, lo: Time, hi: Time)
    requires forall p :: Covered(ivs, p) ==> lo <= p < hi
    ensures |Normalized(ivs, hb)| <= |RunsOf(Coverage(ivs), lo, hi)| + |EndpointsAfter(ivs, hb)|
  {
    var out := Normalized(ivs, hb);
    NormalizedExact(ivs, hb);
    var runs, ends := Glue(out);
    SeparatedIsRunsOf(runs, Coverage(ivs), lo, hi);
    forall x | x in ends ensures x in EndpointsAfter(ivs, hb) {
      var i: nat :| TouchingEnd(out, i, x);
      SweepEnds(ivs, hb, |Ordered(Endpoints(ivs))| - 1);
      assert out[i] in out;
    }
    SubsetSize(ends, EndpointsAfter(ivs, hb));
  }
}
