/** Order-preserving filtering and the stable sorted copy of a list of
    fields, as the grapher uses them on its field lists. */
module Collections {
  import opened Fields
  import opened Orderings

  /** The fields of `s` that satisfy `keep`, in their order in `s`. */
  function Filter(keep: Field -> bool, s: seq<Field>): (r: seq<Field>)
    ensures |r| <= |s|
    ensures forall f | f in r :: f in s && keep(f)
    ensures forall f | f in s && keep(f) :: f in r
  {
    if s == [] then []
    else
      assert s == [s[0]] + s[1..];
      (if keep(s[0]) then [s[0]] else []) + Filter(keep, s[1..])
  }

  /** A filter keeps every copy of a field it keeps, and no copy of one it
      drops. */
  lemma {:induction false} FilterMultiplicity(keep: Field -> bool, s: seq<Field>)
    ensures forall f | f in s :: multiset(Filter(keep, s))[f] == if keep(f) then multiset(s)[f] else 0
  {
    if s != [] {
      FilterMultiplicity(keep, s[1..]);
      assert s == [s[0]] + s[1..];
      FilterCons(keep, s[0], s[1..]);
      forall f | f in s ensures multiset(Filter(keep, s))[f] == if keep(f) then multiset(s)[f] else 0 {
        if f !in s[1..] {
          assert f !in Filter(keep, s[1..]);
        }
      }
    }
  }

  /** Filtering a list with a field in front. */
  lemma FilterCons(keep: Field -> bool, x: Field, s: seq<Field>)
    ensures Filter(keep, [x] + s) == (if keep(x) then [x] else []) + Filter(keep, s)
  {
    assert ([x] + s)[0] == x && ([x] + s)[1..] == s;
  }

  /** `r` is `s` with some of its elements left out, the rest in order. */
  ghost predicate Subsequence(r: seq<Field>, s: seq<Field>)
    decreases |s|
  {
    if r == [] then true
    else if s == [] then false
    else (r[0] == s[0] && Subsequence(r[1..], s[1..])) || Subsequence(r, s[1..])
  }

  /** A filter keeps the surviving fields in their original order. */
  lemma {:induction false} FilterSubsequence(keep: Field -> bool, s: seq<Field>)
    ensures Subsequence(Filter(keep, s), s)
  {
    if s != [] {
      FilterSubsequence(keep, s[1..]);
      var r := Filter(keep, s);
      if keep(s[0]) {
        assert r[0] == s[0] && r[1..] == Filter(keep, s[1..]);
      } else {
        assert r == Filter(keep, s[1..]);
      }
    }
  }

  /** The fields of `s` whose rank is `k`, in their order in `s`. */
  function RankClass(rank: Field -> nat, k: nat, s: seq<Field>): seq<Field>
  {
    if s == [] then [] else (if rank(s[0]) == k then [s[0]] else []) + RankClass(rank, k, s[1..])
  }

  /** The rank class of a list with a field in front. */
  lemma RankClassCons(rank: Field -> nat, k: nat, x: Field, s: seq<Field>)
    ensures RankClass(rank, k, [x] + s) == (if rank(x) == k then [x] else []) + RankClass(rank, k, s)
  {
    assert ([x] + s)[0] == x && ([x] + s)[1..] == s;
  }

  /** A rank class is the filter that keeps the fields of that rank. */
  lemma {:induction false} RankClassIsFilter(rank: Field -> nat, k: nat, s: seq<Field>)
    ensures RankClass(rank, k, s) == Filter((f: Field) => rank(f) == k, s)
  {
    if s != [] {
      RankClassIsFilter(rank, k, s[1..]);
    }
  }

  /** A rank class lists its fields in their order in `s`. */
  lemma RankClassSubsequence(rank: Field -> nat, k: nat, s: seq<Field>)
    ensures Subsequence(RankClass(rank, k, s), s)
  {
    RankClassIsFilter(rank, k, s);
    FilterSubsequence((f: Field) => rank(f) == k, s);
  }

  /** `r` is a subsequence of `s`, and `s` of `t`: `r` is one of `t`. */
  lemma {:induction false} SubsequenceTransitive(r: seq<Field>, s: seq<Field>, t: seq<Field>)
    requires Subsequence(r, s) && Subsequence(s, t)
    ensures Subsequence(r, t)
    decreases |t|
  {
    if r != [] {
      assert s != [] && t != [];
      if s[0] == t[0] && Subsequence(s[1..], t[1..]) {
        if r[0] == s[0] && Subsequence(r[1..], s[1..]) {
          SubsequenceTransitive(r[1..], s[1..], t[1..]);
        } else {
          SubsequenceTransitive(r, s[1..], t[1..]);
        }
      } else {
        SubsequenceTransitive(r, s, t[1..]);
      }
    }
  }

  /** `s` lists its fields so that no field compares above a later one. */
  ghost predicate OrderedBy(c: Comparator, s: seq<Field>)
  {
    forall i, j :: 0 <= i < j < |s| ==> c(s[i], s[j]) <= 0
  }

  /** `s` lists its fields in ascending rank. */
  ghost predicate SortedByRank(rank: Field -> nat, s: seq<Field>)
  {
    forall i, j :: 0 <= i < j < |s| ==> rank(s[i]) <= rank(s[j])
  }

  /** Comparing `x` with any field of `s` under `c` agrees with their ranks. */
  ghost predicate AgreesWith(c: Comparator, rank: Field -> nat, x: Field, s: seq<Field>)
  {
    forall y | y in s :: c(x, y) <= 0 <==> rank(x) <= rank(y)
  }

  /** `x` placed before the first field of `s` that does not come before it. */
  function Insert(c: Comparator, x: Field, s: seq<Field>): (r: seq<Field>)
    ensures |r| == |s| + 1
    ensures multiset(r) == multiset(s) + multiset{x}
    ensures r[0] == x || (s != [] && r[0] == s[0])
    ensures forall f | f in r :: f == x || f in s
  {
    if s == [] || c(x, s[0]) <= 0 then [x] + s
    else
      assert s == [s[0]] + s[1..];
      [s[0]] + Insert(c, x, s[1..])
  }

  /** A sorted copy of `s` under `c`; equal fields keep their order. */
  function SortedCopy(c: Comparator, s: seq<Field>): (r: seq<Field>)
    ensures |r| == |s|
    ensures multiset(r) == multiset(s)
    ensures forall f | f in r :: f in s
  {
    if s == [] then []
    else
      assert s == [s[0]] + s[1..];
      Insert(c, s[0], SortedCopy(c, s[1..]))
  }

  lemma {:induction false} InsertSorted(c: Comparator, rank: Field -> nat, x: Field, s: seq<Field>)
    requires AgreesWith(c, rank, x, s)
    requires SortedByRank(rank, s)
    ensures SortedByRank(rank, Insert(c, x, s))
  {
    if s != [] && c(x, s[0]) > 0 {
      assert s[0] in s;
      InsertSorted(c, rank, x, s[1..]);
      var t := Insert(c, x, s[1..]);
      assert rank(s[0]) <= rank(t[0]) by {
        if t[0] != x {
          assert rank(s[0]) <= rank(s[1]);
        }
      }
      assert Insert(c, x, s) == [s[0]] + t;
    } else if s != [] {
      assert s[0] in s;
    }
  }

  /** Inserting `x` puts it ahead of every field of its own rank and changes
      no other rank class. */
  lemma {:induction false} InsertClass(c: Comparator, rank: Field -> nat, x: Field, s: seq<Field>, k: nat)
    requires AgreesWith(c, rank, x, s)
    ensures RankClass(rank, k, Insert(c, x, s)) == (if rank(x) == k then [x] else []) + RankClass(rank, k, s)
  {
    if s == [] || c(x, s[0]) <= 0 {
      RankClassCons(rank, k, x, s);
    } else {
      assert s[0] in s;
      assert rank(s[0]) < rank(x);
      var t := Insert(c, x, s[1..]);
      InsertClass(c, rank, x, s[1..], k);
      assert Insert(c, x, s) == [s[0]] + t;
      RankClassCons(rank, k, s[0], t);
      assert s == [s[0]] + s[1..];
      RankClassCons(rank, k, s[0], s[1..]);
      SwapClasses(rank, k, x, s[0], RankClass(rank, k, t), RankClass(rank, k, s[1..]));
    }
  }

  /** A field of another rank than `x` can be moved across `x` without
      changing any rank class. */
  lemma SwapClasses(rank: Field -> nat, k: nat, x: Field, y: Field, a: seq<Field>, b: seq<Field>)
    requires rank(x) != rank(y)
    requires a == (if rank(x) == k then [x] else []) + b
    ensures (if rank(y) == k then [y] else []) + a == (if rank(x) == k then [x] else []) + ((if rank(y) == k then [y] else []) + b)
  {
  }

  /** Every field of the sorted copy of the rest of `s` is a field of `s`,
      so the head of `s` agrees with all of them. */
  lemma HeadAgrees(c: Comparator, rank: Field -> nat, s: seq<Field>)
    requires s != [] && RankedOn(c, rank, s)
    ensures RankedOn(c, rank, s[1..])
    ensures AgreesWith(c, rank, s[0], SortedCopy(c, s[1..]))
  {
    assert forall f | f in s[1..] :: f in s;
  }

  /** The sorted copy lists its fields in ascending rank. */
  lemma {:induction false} SortedCopySorted(c: Comparator, rank: Field -> nat, s: seq<Field>)
    requires RankedOn(c, rank, s)
    ensures SortedByRank(rank, SortedCopy(c, s))
  {
    if s != [] {
      HeadAgrees(c, rank, s);
      SortedCopySorted(c, rank, s[1..]);
      InsertSorted(c, rank, s[0], SortedCopy(c, s[1..]));
    }
  }

  /** The sorted copy keeps every rank class in its input order: it is stable. */
  lemma {:induction false} SortedCopyStable(c: Comparator, rank: Field -> nat, s: seq<Field>, k: nat)
    requires RankedOn(c, rank, s)
    ensures RankClass(rank, k, SortedCopy(c, s)) == RankClass(rank, k, s)
  {
    if s != [] {
      HeadAgrees(c, rank, s);
      SortedCopyStable(c, rank, s[1..], k);
      InsertClass(c, rank, s[0], SortedCopy(c, s[1..]), k);
      assert s == [s[0]] + s[1..];
      RankClassCons(rank, k, s[0], s[1..]);
    }
  }

  /** A list all of whose fields rank above `k` has an empty class `k`. */
  lemma {:induction false} RankClassEmpty(rank: Field -> nat, k: nat, s: seq<Field>)
    requires forall i | 0 <= i < |s| :: rank(s[i]) > k
    ensures RankClass(rank, k, s) == []
  {
    if s != [] {
      RankClassEmpty(rank, k, s[1..]);
    }
  }

  /** Two rank-sorted lists with the same rank classes are equal: a stable
      sort by rank has exactly one possible result. */
  lemma {:induction false} StableSortUnique(rank: Field -> nat, r: seq<Field>, t: seq<Field>)
    requires SortedByRank(rank, r) && SortedByRank(rank, t)
    requires forall k: nat :: RankClass(rank, k, r) == RankClass(rank, k, t)
    ensures r == t
    decreases |r| + |t|
  {
    if r == [] || t == [] {
      var s := if r == [] then t else r;
      if s != [] {
        assert RankClass(rank, rank(s[0]), s) != [];
        assert RankClass(rank, rank(s[0]), r) != RankClass(rank, rank(s[0]), t);
        assert false;
      }
    } else {
      HeadsAgree(rank, r, t);
      HeadsAgree(rank, t, r);
      var k := rank(r[0]);
      assert rank(t[0]) == k;
      assert RankClass(rank, k, r)[0] == r[0];
      assert RankClass(rank, k, t)[0] == t[0];
      forall j: nat ensures RankClass(rank, j, r[1..]) == RankClass(rank, j, t[1..]) {
        var head := if k == j then [r[0]] else [];
        assert RankClass(rank, j, r) == head + RankClass(rank, j, r[1..]);
        assert RankClass(rank, j, t) == head + RankClass(rank, j, t[1..]);
        assert RankClass(rank, j, r[1..]) == RankClass(rank, j, r)[|head|..];
        assert RankClass(rank, j, t[1..]) == RankClass(rank, j, t)[|head|..];
      }
      StableSortUnique(rank, r[1..], t[1..]);
      assert r == [r[0]] + r[1..] && t == [t[0]] + t[1..];
    }
  }

  /** In two rank-sorted lists with the same rank classes, the head of the
      first ranks no lower than the head of the second. */
  lemma HeadsAgree(rank: Field -> nat, r: seq<Field>, t: seq<Field>)
    requires r != [] && t != []
    requires SortedByRank(rank, r) && SortedByRank(rank, t)
    requires RankClass(rank, rank(r[0]), r) == RankClass(rank, rank(r[0]), t)
    ensures rank(t[0]) <= rank(r[0])
  {
    if rank(r[0]) < rank(t[0]) {
      assert RankClass(rank, rank(r[0]), r) != [];
      RankClassEmpty(rank, rank(r[0]), t);
    }
  }
}
