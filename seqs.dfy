/** The array operations the dashboard uses (`filter`, `find`, `slice(0, n)`),
    defined once over sequences and specified by what they compute. */
module Seqs {
  import opened Wrappers

  /** Number of elements of `s` that satisfy `f`. */
  function Count<T>(s: seq<T>, f: T -> bool): (n: nat)
    ensures n <= |s|
  {
    if s == [] then 0 else (if f(s[0]) then 1 else 0) + Count(s[1..], f)
  }

  /** `a` can be obtained from `b` by deleting elements, so it keeps their order. */
  ghost predicate IsSubsequence<T>(a: seq<T>, b: seq<T>)
    decreases |b|
  {
    a == [] || (b != [] && ((a[0] == b[0] && IsSubsequence(a[1..], b[1..])) || IsSubsequence(a, b[1..])))
  }

  /** `s.filter(f)`: exactly the elements satisfying `f`, in their original order. */
  function Filter<T>(s: seq<T>, f: T -> bool): (r: seq<T>)
    ensures |r| == Count(s, f)
    ensures forall i :: 0 <= i < |r| ==> f(r[i])
    ensures forall i :: 0 <= i < |r| ==> r[i] in s
    ensures forall i :: 0 <= i < |s| && f(s[i]) ==> s[i] in r
    ensures IsSubsequence(r, s)
    ensures (forall i :: 0 <= i < |s| ==> f(s[i])) ==> r == s
  {
    if s == [] then []
    else if f(s[0]) then [s[0]] + Filter(s[1..], f)
    else Filter(s[1..], f)
  }

  /** Filtering a concatenation filters each part. */
  lemma {:induction false} FilterConcat<T>(a: seq<T>, b: seq<T>, f: T -> bool)
    ensures Filter(a + b, f) == Filter(a, f) + Filter(b, f)
  {
    if a == [] {
      assert a + b == b;
    } else {
      assert (a + b)[0] == a[0];
      assert (a + b)[1..] == a[1..] + b;
      FilterConcat(a[1..], b, f);
    }
  }

  /** `s.find(f)`, as the index of the element found: the first index whose
      element satisfies `f`, or None when there is none. */
  function FindIndex<T>(s: seq<T>, f: T -> bool): (r: Option<nat>)
    ensures r.Some? ==> r.value < |s| && f(s[r.value])
    ensures r.Some? ==> forall j :: 0 <= j < r.value ==> !f(s[j])
    ensures r.None? <==> forall j :: 0 <= j < |s| ==> !f(s[j])
  {
    if s == [] then None
    else if f(s[0]) then Some(0)
    else match FindIndex(s[1..], f)
      case None => None
      case Some(k) => Some(k + 1)
  }

  /** `s.slice(0, n)`: the longest prefix of `s` with at most `n` elements. */
  function Prefix<T>(s: seq<T>, n: nat): (r: seq<T>)
    ensures |r| <= n && |r| <= |s|
    ensures |r| == n || |r| == |s|
    ensures r == s[..|r|]
  {
    if n < |s| then s[..n] else s
  }

  /** `s.map(g)` */
  function Map<T, U>(s: seq<T>, g: T -> U): (r: seq<U>)
    ensures |r| == |s|
    ensures forall i :: 0 <= i < |s| ==> r[i] == g(s[i])
  {
    if s == [] then [] else [g(s[0])] + Map(s[1..], g)
  }

  lemma {:induction false} SubsequenceTransitive<T>(a: seq<T>, b: seq<T>, c: seq<T>)
    requires IsSubsequence(a, b) && IsSubsequence(b, c)
    ensures IsSubsequence(a, c)
    decreases |c|
  {
    if a != [] {
      if b[0] == c[0] && IsSubsequence(b[1..], c[1..]) {
        if a[0] == b[0] && IsSubsequence(a[1..], b[1..]) {
          SubsequenceTransitive(a[1..], b[1..], c[1..]);
        } else {
          SubsequenceTransitive(a, b[1..], c[1..]);
        }
      } else {
        SubsequenceTransitive(a, b, c[1..]);
      }
    }
  }

  lemma {:induction false} PrefixIsSubsequence<T>(s: seq<T>, n: nat)
    requires n <= |s|
    ensures IsSubsequence(s[..n], s)
  {
    if n > 0 {
      assert s[..n][1..] == s[1..][..n - 1];
      PrefixIsSubsequence(s[1..], n - 1);
    }
  }

  /** Mapping both sides keeps a subsequence a subsequence. */
  lemma {:induction false} MapSubsequence<T, U>(a: seq<T>, b: seq<T>, g: T -> U)
    requires IsSubsequence(a, b)
    ensures IsSubsequence(Map(a, g), Map(b, g))
    decreases |b|
  {
    if a != [] {
      if a[0] == b[0] && IsSubsequence(a[1..], b[1..]) {
        MapSubsequence(a[1..], b[1..], g);
      } else {
        MapSubsequence(a, b[1..], g);
      }
    }
  }

  /** Extending a prefix by one element counts that element once if it matches. */
  lemma CountSnoc<T>(s: seq<T>, k: nat, f: T -> bool)
    requires k < |s|
    ensures Count(s[..k + 1], f) == Count(s[..k], f) + (if f(s[k]) then 1 else 0)
  {
    assert s[..k + 1] == s[..k] + [s[k]];
    FilterConcat(s[..k], [s[k]], f);
    assert Count([s[k]], f) == (if f(s[k]) then 1 else 0) + Count([s[k]][1..], f);
  }

  /** The first `n` elements that `filter` keeps are exactly what it keeps
      from some prefix of the input: they are the earliest matches. */
  lemma FilterPrefixFromInputPrefix<T>(s: seq<T>, f: T -> bool, n: nat)
    requires n <= Count(s, f)
    ensures exists k :: 0 <= k <= |s| && Filter(s[..k], f) == Filter(s, f)[..n]
  {
    var k := PrefixWithCount(s, f, n);
    FilterSplit(s, k, f);
  }

  /** Counting over longer and longer prefixes passes through every value up
      to the full count. */
  lemma PrefixWithCount<T>(s: seq<T>, f: T -> bool, n: nat) returns (k: nat)
    requires n <= Count(s, f)
    ensures k <= |s| && Count(s[..k], f) == n
  {
    k := 0;
    assert s[..|s|] == s;
    while Count(s[..k], f) < n
      invariant 0 <= k <= |s|
      invariant Count(s[..k], f) <= n
      decreases |s| - k
    {
      CountSnoc(s, k, f);
      k := k + 1;
    }
  }

  /** Filtering a prefix gives a prefix of the filter, as long as its count. */
  lemma FilterSplit<T>(s: seq<T>, k: nat, f: T -> bool)
    requires k <= |s|
    ensures Count(s[..k], f) <= Count(s, f)
    ensures Filter(s[..k], f) == Filter(s, f)[..Count(s[..k], f)]
  {
    var p, q := s[..k], s[k..];
    assert p + q == s;
    FilterConcat(p, q, f);
    PrefixOfConcat(Filter(p, f), Filter(q, f));
  }

  lemma PrefixOfConcat<T>(a: seq<T>, b: seq<T>)
    ensures (a + b)[..|a|] == a
  {
  }
}
