/** sort.Slice and the canonical ascending listing of a finite set of instants. */
module Sorting {

  ghost predicate Ascending(s: seq<int>) {
    forall i, j :: 0 <= i < j < |s| ==> s[i] < s[j]
  }

  ghost predicate SortedBy<T>(s: seq<T>, key: T -> int) {
    forall i, j :: 0 <= i < j < |s| ==> key(s[i]) <= key(s[j])
  }

  /** sort.Slice: some ascending permutation of `s`; callers may not rely on how ties fall. */
  method SortSlice<T>(s: seq<T>, key: T -> int) returns (r: seq<T>)
    ensures multiset(r) == multiset(s)
    ensures SortedBy(r, key)
  {
    r := [];
    for i := 0 to |s|
      invariant multiset(r) == multiset(s[..i])
      invariant SortedBy(r, key)
    {
      r := Insert(r, s[i], key);
      assert s[..i + 1] == s[..i] + [s[i]];
    }
    assert s[..|s|] == s;
  }

  method Insert<T>(s: seq<T>, x: T, key: T -> int) returns (r: seq<T>)
    requires SortedBy(s, key)
    ensures multiset(r) == multiset(s) + multiset{x}
    ensures SortedBy(r, key)
  {
    var j := |s|;
    while j > 0 && key(s[j - 1]) > key(x)
      invariant 0 <= j <= |s|
      invariant forall i :: j <= i < |s| ==> key(s[i]) > key(x)
    {
      j := j - 1;
    }
    r := s[..j] + [x] + s[j..];
    InsertedMembers(s, x, j);
    InsertedAt(s, x, j, key);
  }

  lemma InsertedMembers<T>(s: seq<T>, x: T, j: nat)
    requires j <= |s|
    ensures multiset(s[..j] + [x] + s[j..]) == multiset(s) + multiset{x}
  {
    assert s == s[..j] + s[j..];
  }

  lemma InsertedAt<T>(s: seq<T>, x: T, j: nat, key: T -> int)
    requires SortedBy(s, key) && j <= |s|
    requires j > 0 ==> key(s[j - 1]) <= key(x)
    requires j < |s| ==> key(x) <= key(s[j])
    ensures SortedBy(s[..j] + [x] + s[j..], key)
  {
    var r := s[..j] + [x] + s[j..];
    assert |r| == |s| + 1 && r[j] == x;
    assert forall a :: 0 <= a < j ==> r[a] == s[a];
    assert forall a :: j < a < |r| ==> r[a] == s[a - 1];
    assert forall a :: 0 <= a < j ==> key(s[a]) <= key(x);
    assert forall a :: j <= a < |s| ==> key(x) <= key(s[a]);
  }

  lemma PermutationMembers<T>(a: seq<T>, b: seq<T>)
    requires multiset(a) == multiset(b)
    ensures |a| == |b|
    ensures forall x :: x in a <==> x in b
  {
    assert |multiset(a)| == |multiset(b)|;
    forall x ensures x in a <==> x in b {
      assert x in a <==> x in multiset(a);
      assert x in b <==> x in multiset(b);
    }
  }

  /** The members of a finite set of instants in ascending order. */
  ghost function Ordered(s: set<int>): (r: seq<int>) {
    if s == {} then
      []
    else
      MinExists(s);
      var least :| least in s && forall x :: x in s ==> least <= x;
      [least] + Ordered(s - {least})
  }

  lemma {:induction false} MinExists(s: set<int>)
    requires s != {}
    ensures exists least :: least in s && forall x :: x in s ==> least <= x
  {
    assert (forall y :: y !in s) ==> s == {};
    var y: int :| y in s;
    var rest := s - {y};
    if rest == {} {
      forall x | x in s ensures x <= y <= x {
        assert x == y || x in rest;
      }
    } else {
      MinExists(rest);
      var m :| m in rest && forall x :: x in rest ==> m <= x;
      var least := if y < m then y else m;
      forall x | x in s ensures least <= x {
        assert x == y || x in rest;
      }
      assert least in s;
    }
  }

  lemma {:induction false} OrderedExact(s: set<int>)
    ensures Ascending(Ordered(s))
    ensures forall x :: x in Ordered(s) <==> x in s
  {
    if s != {} {
      MinExists(s);
      var r := Ordered(s);
      var least := r[0];
      var rest := Ordered(s - {least});
      assert r == [least] + rest;
      OrderedExact(s - {least});
      forall j | 0 < j < |r| ensures r[j] > least {
        assert r[j] == rest[j - 1];
        assert rest[j - 1] in rest;
      }
    }
  }

  /** Ascending lists with the same members are equal. */
  lemma {:induction false} AscendingUnique(a: seq<int>, b: seq<int>)
    requires Ascending(a) && Ascending(b)
    requires forall x :: x in a <==> x in b
    ensures a == b
  {
    assert a != [] ==> a[0] in a;
    assert b != [] ==> b[0] in b;
    if a != [] && b != [] {
      forall x ensures x in a[1..] <==> x in b[1..] {
        assert x in a[1..] <==> x in a && x != a[0];
        assert x in b[1..] <==> x in b && x != b[0];
      }
      AscendingUnique(a[1..], b[1..]);
      assert a == [a[0]] + a[1..] && b == [b[0]] + b[1..];
    }
  }

  lemma AscendingIsOrdered(a: seq<int>, s: set<int>)
    requires Ascending(a) && forall x :: x in a <==> x in s
    ensures a == Ordered(s)
  {
    OrderedExact(s);
    AscendingUnique(a, Ordered(s));
  }

  /** The in-place deduplication that lets the deduplicated prefix share the array of the
      sorted one: `uniq` grows over cells that have already been read, so the instants still
      to be read, a[i..], keep their values throughout, as does the tail beyond the result. */
  method DedupInPlace(a: array<int>) returns (n: nat)
    requires a.Length > 0
    requires forall i, j :: 0 <= i < j < a.Length ==> a[i] <= a[j]
    modifies a
    ensures n <= a.Length
    ensures Ascending(a[..n])
    ensures forall x :: x in a[..n] <==> x in old(a[..])
    ensures a[n..] == old(a[n..])
  {
    n := 1;
    var i := 1;
    while i < a.Length
      invariant 1 <= n <= i <= a.Length
      invariant a[n..] == old(a[n..])
      invariant Ascending(a[..n])
      invariant a[n - 1] == old(a[i - 1])
      invariant forall x :: x in a[..n] <==> x in old(a[..i])
    {
      var b := a[i];
      assert b == old(a[n..])[i - n];
      ghost var kept := a[..n];
      if b != a[n - 1] {
        a[n] := b;
        n := n + 1;
        assert a[..n] == kept + [b];
      }
      i := i + 1;
      assert old(a[..i]) == old(a[..i - 1]) + [b];
      assert a[n..] == old(a[n..]);
    }
    assert old(a[..a.Length]) == old(a[..]);
  }
}
