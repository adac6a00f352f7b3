/** Filtering and ordering facts shared by the bounded, most-recent-first
    lists of the client: watch history, favourites and recent searches. */
module Lists {
  import opened Js

  /** a occurs in b in the same relative order, possibly with gaps. */
  ghost predicate Subseq<T>(a: seq<T>, b: seq<T>)
    decreases |b|
  {
    a == [] || (b != [] && ((a[0] == b[0] && Subseq(a[1..], b[1..])) || Subseq(a, b[1..])))
  }

  /** `s.filter(p)`: the elements satisfying p, in their original order,
      each as often as it occurs in s. */
  function Filter<T>(s: seq<T>, p: T -> bool): (r: seq<T>)
    ensures |r| <= |s|
    ensures forall k :: 0 <= k < |r| ==> r[k] in s && p(r[k])
    ensures forall k :: 0 <= k < |s| && p(s[k]) ==> s[k] in r
    ensures Subseq(r, s)
    decreases |s|
  {
    if s == [] then []
    else if p(s[0]) then [s[0]] + Filter(s[1..], p)
    else Filter(s[1..], p)
  }

  /** Filtering keeps every copy of a satisfying element and no copy of
      any other. */
  lemma {:induction false} FilterCounts<T>(s: seq<T>, p: T -> bool)
    ensures forall x :: multiset(Filter(s, p))[x] == if p(x) then multiset(s)[x] else 0
    decreases |s|
  {
    if s != [] {
      FilterCounts(s[1..], p);
      assert s == [s[0]] + s[1..];
      assert multiset(s) == multiset{s[0]} + multiset(s[1..]);
    }
  }

  /** `s.findIndex(p)`: the first position whose element satisfies p, or
      -1 when there is none. */
  function FindFirst<T>(s: seq<T>, p: T -> bool): (i: int)
    ensures -1 <= i < |s|
    ensures i >= 0 ==> p(s[i])
    ensures forall k :: 0 <= k < |s| && (i < 0 || k < i) ==> !p(s[k])
    decreases |s|
  {
    if s == [] then -1
    else if p(s[0]) then 0
    else
      var j := FindFirst(s[1..], p);
      if j < 0 then -1 else j + 1
  }

  /** Filtering with a predicate every element already satisfies changes
      nothing. */
  lemma {:induction false} FilterAll<T>(s: seq<T>, p: T -> bool)
    requires forall k :: 0 <= k < |s| ==> p(s[k])
    ensures Filter(s, p) == s
    decreases |s|
  {
    if s != [] {
      FilterAll(s[1..], p);
    }
  }

  /** Every sequence is a subsequence of itself. */
  lemma {:induction false} SubseqRefl<T>(a: seq<T>)
    ensures Subseq(a, a)
    decreases |a|
  {
    if a != [] {
      SubseqRefl(a[1..]);
    }
  }

  /** Dropping the tail of a subsequence keeps it a subsequence. */
  lemma {:induction false} SubseqPrefix<T>(a: seq<T>, b: seq<T>, n: nat)
    requires Subseq(a, b) && n <= |a|
    ensures Subseq(a[..n], b)
    decreases |b|
  {
    if n > 0 {
      assert a != [] && b != [];
      if a[0] == b[0] && Subseq(a[1..], b[1..]) {
        SubseqPrefix(a[1..], b[1..], n - 1);
        assert a[..n][1..] == a[1..][..n - 1];
      } else {
        SubseqPrefix(a, b[1..], n);
      }
    }
  }

  /** Every element of a subsequence is an element of the whole. */
  lemma {:induction false} SubseqMembers<T>(a: seq<T>, b: seq<T>, x: T)
    requires Subseq(a, b) && x in a
    ensures x in b
    decreases |b|
  {
    if a[0] == b[0] && Subseq(a[1..], b[1..]) {
      if x != a[0] {
        SubseqMembers(a[1..], b[1..], x);
      }
    } else {
      SubseqMembers(a, b[1..], x);
    }
  }

  /** `[x, ...rest].slice(0, cap)`: x first, then as much of rest as fits. */
  lemma CappedCons<T>(x: T, rest: seq<T>, cap: nat)
    requires cap >= 1
    ensures var r := Slice([x] + rest, 0, cap);
      && |r| == (if |rest| < cap then |rest| + 1 else cap)
      && r[0] == x && r[1..] == rest[..|r| - 1]
  {
    var r := Slice([x] + rest, 0, cap);
    assert r[1..] == rest[..|r| - 1];
  }

  /** While the filtered list fits under the cap, putting x in front of it
      loses none of the elements the filter kept. */
  lemma CappedConsKeeps<T>(x: T, s: seq<T>, p: T -> bool, cap: nat)
    requires |Filter(s, p)| < cap
    ensures forall k :: 0 <= k < |s| && p(s[k]) ==> s[k] in Slice([x] + Filter(s, p), 0, cap)
  {
    var rest := Filter(s, p);
    assert Slice([x] + rest, 0, cap) == [x] + rest;
    forall k | 0 <= k < |s| && p(s[k]) ensures s[k] in [x] + rest {
      assert s[k] in rest;
    }
  }

  /** `[x, ...s.filter(p)].slice(0, cap)`: x first, then the kept elements
      in order, exactly as many as fit; below the cap none is lost. */
  lemma CappedFilter<T>(x: T, s: seq<T>, p: T -> bool, cap: nat)
    requires cap >= 1
    ensures var rest := Filter(s, p);
      var r := Slice([x] + rest, 0, cap);
      && |r| == (if |rest| < cap then |rest| + 1 else cap)
      && r[0] == x && r[1..] == rest[..|r| - 1]
      && (forall k :: 1 <= k < |r| ==> p(r[k]))
      && Subseq(r[1..], s)
      && (|rest| < cap ==> forall k :: 0 <= k < |s| && p(s[k]) ==> s[k] in r)
  {
    var rest := Filter(s, p);
    var r := Slice([x] + rest, 0, cap);
    CappedCons(x, rest, cap);
    SubseqPrefix(rest, s, |r| - 1);
    forall k | 1 <= k < |r| ensures p(r[k]) {
      assert r[k] == rest[k - 1];
    }
    if |rest| < cap {
      CappedConsKeeps(x, s, p, cap);
    }
  }

  /** No two entries share a key. */
  predicate DistinctBy<T, K(==)>(s: seq<T>, key: T -> K) {
    forall i, j :: 0 <= i < j < |s| ==> key(s[i]) != key(s[j])
  }

  /** A subsequence of a list without repeated keys has none either. */
  lemma {:induction false} SubseqKeepsDistinct<T, K>(a: seq<T>, b: seq<T>, key: T -> K)
    requires Subseq(a, b) && DistinctBy(b, key)
    ensures DistinctBy(a, key)
    decreases |b|
  {
    if a != [] {
      assert DistinctBy(b[1..], key) by {
        forall i, j | 0 <= i < j < |b[1..]| ensures key(b[1..][i]) != key(b[1..][j]) {
          assert b[1..][i] == b[i + 1] && b[1..][j] == b[j + 1];
        }
      }
      if a[0] == b[0] && Subseq(a[1..], b[1..]) {
        SubseqKeepsDistinct(a[1..], b[1..], key);
        forall i, j | 0 <= i < j < |a| ensures key(a[i]) != key(a[j]) {
          if i == 0 {
            assert a[j] == a[1..][j - 1];
            SubseqMembers(a[1..], b[1..], a[j]);
            var m :| 0 <= m < |b[1..]| && b[1..][m] == a[j];
            assert b[m + 1] == a[j];
          } else {
            assert a[i] == a[1..][i - 1] && a[j] == a[1..][j - 1];
          }
        }
      } else {
        SubseqKeepsDistinct(a, b[1..], key);
      }
    }
  }

  /** Putting an element whose key occurs nowhere in a distinct list in
      front of it keeps the keys distinct. */
  lemma ConsKeepsDistinct<T, K>(x: T, s: seq<T>, key: T -> K)
    requires DistinctBy(s, key)
    requires forall k :: 0 <= k < |s| ==> key(s[k]) != key(x)
    ensures DistinctBy([x] + s, key)
  {
    var r := [x] + s;
    forall i, j | 0 <= i < j < |r| ensures key(r[i]) != key(r[j]) {
      assert r[j] == s[j - 1];
      if i > 0 {
        assert r[i] == s[i - 1];
      }
    }
  }
}
