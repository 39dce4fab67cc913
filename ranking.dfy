/** Ranking of hotels as `sorted(hotels, key=lambda x: (-x.rating, x.price_per_night))[:3]`
    does it: a stable sort on the key (descending rating, ascending price), then a prefix. */
module Ranking {
  import opened Hotels

  /** The sort key of a hotel. Two hotels tie when both components are equal. */
  datatype Rank = Rank(rating: real, price: real)

  function RankOf(h: Hotel): Rank { Rank(h.rating, h.pricePerNight) }

  /** `a` sorts strictly before `b`: a higher rating, or the same rating and a lower price
      (the tuple `(-rating, price)` of `a` is smaller). */
  predicate Before(a: Rank, b: Rank) {
    a.rating > b.rating || (a.rating == b.rating && a.price < b.price)
  }

  /** No hotel sorts strictly before one that precedes it. */
  predicate Sorted(s: seq<Hotel>) {
    forall i, j :: 0 <= i < j < |s| ==> !Before(RankOf(s[j]), RankOf(s[i]))
  }

  /** The hotels of `s` whose key is `k`, in their order in `s`. */
  function WithRank(s: seq<Hotel>, k: Rank): seq<Hotel> {
    if s == [] then [] else (if RankOf(s[0]) == k then [s[0]] else []) + WithRank(s[1..], k)
  }

  lemma WithRankCons(h: Hotel, s: seq<Hotel>)
    ensures forall k :: WithRank([h] + s, k) == (if RankOf(h) == k then [h] else []) + WithRank(s, k)
  {
    assert ([h] + s)[1..] == s;
  }

  lemma {:induction false} WithRankMembers(s: seq<Hotel>, k: Rank)
    ensures forall h :: h in WithRank(s, k) <==> h in s && RankOf(h) == k
  {
    if s != [] {
      WithRankMembers(s[1..], k);
      assert s == [s[0]] + s[1..];
    }
  }

  /** A filter whose verdict depends only on the key keeps or drops all hotels of a key
      together, and keeps the ones it keeps in their order. */
  lemma {:induction false} KeepWithRank(s: seq<Hotel>, p: Hotel -> bool, k: Rank, kept: bool)
    requires forall h :: RankOf(h) == k ==> p(h) == kept
    ensures WithRank(Keep(s, p), k) == if kept then WithRank(s, k) else []
  {
    if s != [] {
      KeepWithRank(s[1..], p, k, kept);
      WithRankCons(s[0], Keep(s[1..], p));
    }
  }

  /** Inserts `x` in front of the first hotel that does not sort strictly before it,
      so that `x` lands before every hotel it ties with. */
  function Insert(x: Hotel, s: seq<Hotel>): (r: seq<Hotel>)
    requires Sorted(s)
    ensures Sorted(r)
    ensures multiset(r) == multiset(s) + multiset{x}
    ensures forall k :: WithRank(r, k) == if RankOf(x) == k then [x] + WithRank(s, k) else WithRank(s, k)
  {
    if s == [] || !Before(RankOf(s[0]), RankOf(x)) then
      InsertHere(x, s);
      [x] + s
    else
      var rest := Insert(x, s[1..]);
      InsertFurther(x, s, rest);
      [s[0]] + rest
  }

  /** `x` placed in front of a sorted list whose head does not sort strictly before it. */
  lemma InsertHere(x: Hotel, s: seq<Hotel>)
    requires Sorted(s) && (s == [] || !Before(RankOf(s[0]), RankOf(x)))
    ensures Sorted([x] + s)
    ensures forall k :: WithRank([x] + s, k) == if RankOf(x) == k then [x] + WithRank(s, k) else WithRank(s, k)
  {
    WithRankCons(x, s);
  }

  /** The head of `s` kept in front of the insertion into the tail. */
  lemma InsertFurther(x: Hotel, s: seq<Hotel>, rest: seq<Hotel>)
    requires Sorted(s) && s != [] && Before(RankOf(s[0]), RankOf(x))
    requires Sorted(rest) && multiset(rest) == multiset(s[1..]) + multiset{x}
    requires forall k :: WithRank(rest, k) == if RankOf(x) == k then [x] + WithRank(s[1..], k) else WithRank(s[1..], k)
    ensures Sorted([s[0]] + rest)
    ensures multiset([s[0]] + rest) == multiset(s) + multiset{x}
    ensures forall k :: WithRank([s[0]] + rest, k) == if RankOf(x) == k then [x] + WithRank(s, k) else WithRank(s, k)
  {
    assert s == [s[0]] + s[1..];
    InsertStepSorted(x, s, rest);
    InsertStepWithRank(x, s, rest);
  }

  lemma InsertStepWithRank(x: Hotel, s: seq<Hotel>, rest: seq<Hotel>)
    requires s != [] && Before(RankOf(s[0]), RankOf(x))
    requires forall k :: WithRank(rest, k) == if RankOf(x) == k then [x] + WithRank(s[1..], k) else WithRank(s[1..], k)
    ensures forall k :: WithRank([s[0]] + rest, k) == if RankOf(x) == k then [x] + WithRank(s, k) else WithRank(s, k)
  {
    WithRankCons(s[0], rest);
    forall k
      ensures WithRank([s[0]] + rest, k) == if RankOf(x) == k then [x] + WithRank(s, k) else WithRank(s, k)
    {
      if RankOf(x) == k {
        assert RankOf(s[0]) != k;
        assert WithRank(s, k) == WithRank(s[1..], k);
      } else {
        assert WithRank(rest, k) == WithRank(s[1..], k);
      }
    }
  }

  /** The head kept in front of an insertion is not out of order with anything behind it. */
  lemma InsertStepSorted(x: Hotel, s: seq<Hotel>, rest: seq<Hotel>)
    requires Sorted(s) && s != [] && Before(RankOf(s[0]), RankOf(x))
    requires Sorted(rest) && multiset(rest) == multiset(s[1..]) + multiset{x}
    ensures Sorted([s[0]] + rest)
  {
    var r := [s[0]] + rest;
    forall i, j | 0 <= i < j < |r|
      ensures !Before(RankOf(r[j]), RankOf(r[i]))
    {
      if i == 0 {
        var h := rest[j - 1];
        assert h in multiset(rest);
        if h != x {
          assert h in multiset(s[1..]);
          var m :| 0 <= m < |s[1..]| && s[1..][m] == h;
          assert s[m + 1] == h;
        }
      }
    }
  }

  /** The stable sort: the sorted tail, with the head inserted before its ties. */
  function SortByRank(s: seq<Hotel>): (r: seq<Hotel>)
    ensures Sorted(r)
    ensures multiset(r) == multiset(s)
    ensures forall k :: WithRank(r, k) == WithRank(s, k)
  {
    if s == [] then []
    else
      assert s == [s[0]] + s[1..];
      Insert(s[0], SortByRank(s[1..]))
  }

  /** A sorted sequence is determined by the subsequences of each key: so any sort that
      is stable (keeps the order of ties) returns exactly what `SortByRank` returns. */
  lemma {:induction false} SortedStableUnique(a: seq<Hotel>, b: seq<Hotel>)
    requires Sorted(a) && Sorted(b)
    requires forall k :: WithRank(a, k) == WithRank(b, k)
    ensures a == b
  {
    if a == [] && b == [] {
      return;
    }
    if a == [] {
      WithRankMembers(b, RankOf(b[0]));
      assert false;
    }
    if b == [] {
      WithRankMembers(a, RankOf(a[0]));
      assert false;
    }
    var ka, kb := RankOf(a[0]), RankOf(b[0]);
    WithRankMembers(a, ka);
    WithRankMembers(b, ka);
    WithRankMembers(a, kb);
    WithRankMembers(b, kb);
    assert a[0] in b;
    assert b[0] in a;
    assert ka == kb;
    assert a == [a[0]] + a[1..] && b == [b[0]] + b[1..];
    WithRankCons(a[0], a[1..]);
    WithRankCons(b[0], b[1..]);
    assert WithRank(a, ka) == [a[0]] + WithRank(a[1..], ka);
    assert WithRank(b, ka) == [b[0]] + WithRank(b[1..], ka);
    assert a[0] == WithRank(a, ka)[0] == WithRank(b, ka)[0] == b[0];
    forall k
      ensures WithRank(a[1..], k) == WithRank(b[1..], k)
    {
      assert WithRank(a, k) == WithRank(b, k);
      if k == ka {
        assert WithRank(a, k)[1..] == WithRank(a[1..], k);
        assert WithRank(b, k)[1..] == WithRank(b[1..], k);
      } else {
        assert WithRank(a, k) == WithRank(a[1..], k);
        assert WithRank(b, k) == WithRank(b[1..], k);
      }
    }
    SortedStableUnique(a[1..], b[1..]);
  }

  /** `s[:n]`: the first `n` elements, or all of them when there are fewer. */
  function Take(s: seq<Hotel>, n: nat): (r: seq<Hotel>)
    ensures |r| == if |s| <= n then |s| else n
    ensures r == s[..|r|]
  {
    if |s| <= n then s else s[..n]
  }

  lemma SortedPrefix(s: seq<Hotel>, n: nat)
    requires Sorted(s) && n <= |s|
    ensures Sorted(s[..n])
  {
  }

  /** The ties kept by a prefix are the first ones of their key in the whole sequence. */
  lemma {:induction false} WithRankPrefix(s: seq<Hotel>, n: nat, k: Rank)
    requires n <= |s|
    ensures |WithRank(s[..n], k)| <= |WithRank(s, k)|
    ensures WithRank(s[..n], k) == WithRank(s, k)[..|WithRank(s[..n], k)|]
  {
    if n > 0 {
      WithRankPrefix(s[1..], n - 1, k);
      assert s[..n][1..] == s[1..][..n - 1];
    }
  }
}
