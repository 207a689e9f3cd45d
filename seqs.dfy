/** Sequence operations the in-memory tables are queried with: a filter that
    keeps table order (SQL `WHERE`, JavaScript `Array.prototype.filter`), a
    subsequence relation to state it by, and a descending sort by an integer
    key (SQL `ORDER BY ... DESC`). */
module Seqs {

  /** `xs` is obtained from `ys` by deleting elements, without reordering. */
  predicate IsSubseq<T(==)>(xs: seq<T>, ys: seq<T>)
    decreases |ys|
  {
    xs == [] ||
    (ys != [] && ((xs[0] == ys[0] && IsSubseq(xs[1..], ys[1..])) || IsSubseq(xs, ys[1..])))
  }

  lemma {:induction false} SubseqRefl<T>(xs: seq<T>)
    ensures IsSubseq(xs, xs)
  {
    if xs != [] {
      SubseqRefl(xs[1..]);
    }
  }

  lemma {:induction false} SubseqTrans<T>(a: seq<T>, b: seq<T>, c: seq<T>)
    requires IsSubseq(a, b) && IsSubseq(b, c)
    ensures IsSubseq(a, c)
    decreases |c|
  {
    if a != [] {
      if IsSubseq(b, c[1..]) {
        SubseqTrans(a, b, c[1..]);
      } else if a[0] == b[0] && IsSubseq(a[1..], b[1..]) {
        SubseqTrans(a[1..], b[1..], c[1..]);
      } else {
        SubseqTrans(a, b[1..], c[1..]);
      }
    }
  }

  /** The elements of `xs` that satisfy `p`, in their original order. */
  function Filter<T(==)>(xs: seq<T>, p: T -> bool): (r: seq<T>)
    ensures |r| <= |xs|
    ensures forall i :: 0 <= i < |r| ==> p(r[i])
    ensures forall i :: 0 <= i < |xs| && p(xs[i]) ==> xs[i] in r
    ensures multiset(r) <= multiset(xs)
  {
    if xs == [] then []
    else
      var rest := Filter(xs[1..], p);
      assert xs == [xs[0]] + xs[1..];
      if p(xs[0]) then [xs[0]] + rest else rest
  }

  /** Whatever a filter keeps comes from the filtered sequence. */
  lemma FilterMembers<T>(xs: seq<T>, p: T -> bool)
    ensures forall i :: 0 <= i < |Filter(xs, p)| ==> Filter(xs, p)[i] in xs
  {
    var r := Filter(xs, p);
    forall i | 0 <= i < |r| ensures r[i] in xs {
      assert r[i] in multiset(r);
    }
  }

  /** Filtering keeps every copy of an element that satisfies `p` and no copy
      of one that does not. */
  lemma {:induction false} FilterCounts<T>(xs: seq<T>, p: T -> bool)
    ensures forall x :: multiset(Filter(xs, p))[x] == if p(x) then multiset(xs)[x] else 0
    decreases |xs|
  {
    if xs != [] {
      FilterCounts(xs[1..], p);
      assert xs == [xs[0]] + xs[1..];
      var rest := Filter(xs[1..], p);
      if p(xs[0]) {
        assert multiset(Filter(xs, p)) == multiset{xs[0]} + multiset(rest);
      } else {
        assert Filter(xs, p) == rest;
      }
    }
  }

  /** Filtering keeps the order of the elements it keeps. */
  lemma {:induction false} FilterIsSubseq<T>(xs: seq<T>, p: T -> bool)
    ensures IsSubseq(Filter(xs, p), xs)
    decreases |xs|
  {
    if xs != [] {
      FilterIsSubseq(xs[1..], p);
      var rest := Filter(xs[1..], p);
      if p(xs[0]) {
        assert Filter(xs, p) == [xs[0]] + rest;
        assert ([xs[0]] + rest)[1..] == rest;
      } else {
        assert Filter(xs, p) == rest;
      }
    }
  }

  /** Every element whose key is at least that of every later element. */
  predicate SortedDesc<T>(xs: seq<T>, key: T -> int) {
    forall i, j :: 0 <= i < j < |xs| ==> key(xs[i]) >= key(xs[j])
  }

  /** A key at least that of the first element may go in front of a
      descending sequence. */
  lemma ConsSorted<T>(y: T, s: seq<T>, key: T -> int)
    requires SortedDesc(s, key) && (s != [] ==> key(s[0]) <= key(y))
    ensures SortedDesc([y] + s, key)
  {
    var r := [y] + s;
    forall i, j | 0 <= i < j < |r| ensures key(r[i]) >= key(r[j]) {
      assert r[j] == s[j - 1];
      if i > 0 {
        assert r[i] == s[i - 1];
      }
    }
  }

  /** `x` inserted into the descending `xs` before the first element whose key
      does not exceed its own. */
  function InsertDesc<T>(x: T, xs: seq<T>, key: T -> int): (r: seq<T>)
    requires SortedDesc(xs, key)
    ensures SortedDesc(r, key)
    ensures multiset(r) == multiset(xs) + multiset{x}
    ensures |r| == |xs| + 1
    ensures r[0] == x || (xs != [] && r[0] == xs[0])
  {
    if xs == [] then [x]
    else if key(xs[0]) <= key(x) then
      ConsSorted(x, xs, key);
      [x] + xs
    else
      var rest := InsertDesc(x, xs[1..], key);
      assert xs == [xs[0]] + xs[1..];
      assert |xs| > 1 ==> key(xs[1]) <= key(xs[0]);
      ConsSorted(xs[0], rest, key);
      [xs[0]] + rest
  }

  /** `xs` rearranged so that keys never increase; elements with equal keys
      keep their relative order. */
  function SortDesc<T>(xs: seq<T>, key: T -> int): (r: seq<T>)
    ensures SortedDesc(r, key)
    ensures multiset(r) == multiset(xs)
    ensures |r| == |xs|
  {
    if xs == [] then []
    else
      assert xs == [xs[0]] + xs[1..];
      InsertDesc(xs[0], SortDesc(xs[1..], key), key)
  }

  /** The first `n` elements of `xs`, or all of them when there are fewer
      (SQL `LIMIT n`, `Array.prototype.slice(0, n)`). */
  function Take<T>(xs: seq<T>, n: nat): (r: seq<T>)
    ensures |r| == if n < |xs| then n else |xs|
    ensures r == xs[..|r|]
  {
    if n < |xs| then xs[..n] else xs
  }

  /** The last `n` elements of `xs`, or all of them when there are fewer
      (`Array.prototype.slice(-n)` for a positive `n`). */
  function TakeLast<T>(xs: seq<T>, n: nat): (r: seq<T>)
    ensures |r| == if n < |xs| then n else |xs|
    ensures r == xs[|xs| - |r|..]
  {
    if n < |xs| then xs[|xs| - n..] else xs
  }

  /** A prefix of a sequence is a subsequence of it. */
  lemma {:induction false} PrefixIsSubseq<T>(xs: seq<T>, n: nat)
    requires n <= |xs|
    ensures IsSubseq(xs[..n], xs)
  {
    if n == 0 {
    } else {
      assert xs[..n][1..] == xs[1..][..n - 1];
      PrefixIsSubseq(xs[1..], n - 1);
    }
  }

  /** In a descending sequence, no element after position `m` has a larger
      key than one before it. */
  lemma SortedSplit<T>(s: seq<T>, key: T -> int, m: nat)
    requires SortedDesc(s, key) && m <= |s|
    ensures forall x, y :: x in s[m..] && y in s[..m] ==> key(x) <= key(y)
  {
    forall x, y | x in s[m..] && y in s[..m] ensures key(x) <= key(y) {
      var i :| 0 <= i < |s[m..]| && s[m..][i] == x;
      var j :| 0 <= j < m && s[..m][j] == y;
      assert s[j] == y && s[m + i] == x;
    }
  }

  /** `ORDER BY key DESC LIMIT n`: at most `n` elements of `xs`, keys never
      increasing, and no element left out has a larger key than one kept. */
  function TopByDesc<T>(xs: seq<T>, key: T -> int, n: nat): (r: seq<T>)
    ensures SortedDesc(r, key)
    ensures |r| == if n < |xs| then n else |xs|
    ensures multiset(r) <= multiset(xs)
    ensures forall x, y :: x in multiset(xs) - multiset(r) && y in r ==> key(x) <= key(y)
  {
    var s := SortDesc(xs, key);
    var r := Take(s, n);
    var m := |r|;
    assert s == s[..m] + s[m..];
    assert multiset(xs) - multiset(r) == multiset(s[m..]);
    SortedSplit(s, key, m);
    r
  }
}
