/** RegionAdvantage: a region paired with its troop difference, its
    comparison, and the stable sort `Collections.sort` performs with it. */
module Advantages {
  import opened Regions

  /** `new RegionAdvantage(r, diff)`; the fields are its two getters. */
  datatype Advantage = Advantage(region: RegionId, difference: int)

  /** `compareTo`: the sign of this difference minus the other's. */
  function CompareTo(a: Advantage, b: Advantage): (c: int)
    ensures c == -1 || c == 0 || c == 1
    ensures c == -1 <==> a.difference < b.difference
    ensures c == 1 <==> a.difference > b.difference
  {
    if a.difference < b.difference then -1
    else if a.difference > b.difference then 1
    else 0
  }

  /** `compareTo` is reflexive and antisymmetric. */
  lemma CompareToAntisymmetric(a: Advantage, b: Advantage)
    ensures CompareTo(a, a) == 0
    ensures CompareTo(a, b) == -CompareTo(b, a)
  {
  }

  /** `compareTo` is transitive, so it is a total preorder fit for sorting. */
  lemma CompareToTransitive(a: Advantage, b: Advantage, c: Advantage)
    ensures CompareTo(a, b) <= 0 && CompareTo(b, c) <= 0 ==> CompareTo(a, c) <= 0
    ensures CompareTo(a, b) < 0 && CompareTo(b, c) <= 0 ==> CompareTo(a, c) < 0
  {
  }

  /** `compareTo` ignores which region an entry is about. */
  lemma CompareToIgnoresRegion(a: Advantage, b: Advantage, r: RegionId, s: RegionId)
    ensures CompareTo(a.(region := r), b.(region := s)) == CompareTo(a, b)
  {
  }

  /** Non-decreasing under `compareTo`. */
  predicate Sorted(s: seq<Advantage>)
  {
    forall i, j :: 0 <= i < j < |s| ==> CompareTo(s[i], s[j]) <= 0
  }

  /** The entries whose difference is `d`, in their order in `s`. */
  function WithDifference(s: seq<Advantage>, d: int): (t: seq<Advantage>)
    ensures forall k :: 0 <= k < |t| ==> t[k].difference == d && t[k] in s
  {
    if s == [] then []
    else (if s[0].difference == d then [s[0]] else []) + WithDifference(s[1..], d)
  }

  /** Puts `x` in front of the first entry it does not compare above; it
      therefore goes before the entries equal to it. */
  function Insert(x: Advantage, s: seq<Advantage>): (r: seq<Advantage>)
    ensures |r| == |s| + 1
    ensures multiset(r) == multiset(s) + multiset{x}
  {
    if s == [] || CompareTo(x, s[0]) <= 0 then [x] + s
    else
      var rest := Insert(x, s[1..]);
      assert s == [s[0]] + s[1..];
      [s[0]] + rest
  }

  /** Every entry of the result is `x` or an entry of `s`. */
  lemma InsertMembers(x: Advantage, s: seq<Advantage>)
    ensures forall k :: 0 <= k < |Insert(x, s)| ==> Insert(x, s)[k] == x || Insert(x, s)[k] in s
  {
    var r := Insert(x, s);
    forall k | 0 <= k < |r| ensures r[k] == x || r[k] in s {
      assert r[k] in multiset(r);
    }
  }

  /** Inserting into a sorted sequence keeps it sorted. */
  lemma {:induction false} InsertSorted(x: Advantage, s: seq<Advantage>)
    requires Sorted(s)
    ensures Sorted(Insert(x, s))
  {
    if s != [] && CompareTo(x, s[0]) > 0 {
      assert s == [s[0]] + s[1..];
      InsertSorted(x, s[1..]);
      InsertMembers(x, s[1..]);
      ConsSorted(s[0], Insert(x, s[1..]), x, s[1..]);
    }
  }

  /** Putting `h` in front of a sorted `rest` made of `x` and entries of
      `tail` keeps it sorted when `h` compares below `x` and at most every
      entry of `tail`. */
  lemma ConsSorted(h: Advantage, rest: seq<Advantage>, x: Advantage, tail: seq<Advantage>)
    requires Sorted(rest) && Sorted([h] + tail)
    requires CompareTo(x, h) > 0
    requires forall k :: 0 <= k < |rest| ==> rest[k] == x || rest[k] in tail
    ensures Sorted([h] + rest)
  {
    var r := [h] + rest;
    forall i, j | 0 <= i < j < |r| ensures CompareTo(r[i], r[j]) <= 0 {
      if i == 0 {
        var e := rest[j - 1];
        assert r[0] == h && r[j] == e;
        if e != x {
          var m :| 0 <= m < |tail| && tail[m] == e;
          assert ([h] + tail)[0] == h && ([h] + tail)[m + 1] == e;
        }
      } else {
        assert r[i] == rest[i - 1] && r[j] == rest[j - 1];
      }
    }
  }

  /** `Collections.sort` by `compareTo`: a stable sort. The first entry is
      inserted into the sorted rest ahead of its equals, so equal entries keep
      their input order. */
  function SortByDifference(s: seq<Advantage>): (r: seq<Advantage>)
    ensures |r| == |s|
    ensures multiset(r) == multiset(s)
    ensures Sorted(r)
  {
    if s == [] then []
    else
      var rest := SortByDifference(s[1..]);
      assert s == [s[0]] + s[1..];
      InsertSorted(s[0], rest);
      assert |multiset(Insert(s[0], rest))| == |rest| + 1;
      Insert(s[0], rest)
  }

  /** Inserting `x` into a sorted sequence puts it first among its equals. */
  lemma {:induction false} InsertStable(x: Advantage, s: seq<Advantage>, d: int)
    requires Sorted(s)
    ensures WithDifference(Insert(x, s), d)
         == (if x.difference == d then [x] else []) + WithDifference(s, d)
  {
    if s == [] || CompareTo(x, s[0]) <= 0 {
      assert ([x] + s)[1..] == s;
    } else {
      assert s[0].difference < x.difference;
      InsertStable(x, s[1..], d);
      assert ([s[0]] + Insert(x, s[1..]))[1..] == Insert(x, s[1..]);
      if x.difference == d {
        assert s[0].difference != d;
        assert WithDifference(s, d) == WithDifference(s[1..], d);
      }
    }
  }

  /** Stability: for every difference value the sorted list holds exactly the
      input's entries with that difference, in input order. */
  lemma {:induction false} SortIsStable(s: seq<Advantage>, d: int)
    ensures WithDifference(SortByDifference(s), d) == WithDifference(s, d)
  {
    if s != [] {
      SortIsStable(s[1..], d);
      InsertStable(s[0], SortByDifference(s[1..]), d);
    }
  }
}
