/**
 * The list operations the scraper uses on arrays: `[...new Set(xs)]`
 * (first occurrences, in order) and `slice(0, n)`.
 */
module Seqs {
  import opened Wrappers

  /** `xs.find(p)` / `xs.findIndex(p)`: the index of the first element satisfying `p`. */
  function FindFirst<T>(s: seq<T>, p: T -> bool): (r: Option<nat>)
    ensures r.Some? ==> r.value < |s| && p(s[r.value]) && forall j :: 0 <= j < r.value ==> !p(s[j])
    ensures r.None? ==> forall j :: 0 <= j < |s| ==> !p(s[j])
  {
    if s == [] then None
    else if p(s[0]) then Some(0)
    else match FindFirst(s[1..], p)
      case None => None
      case Some(i) => Some(i + 1)
  }

  /** What `FindFirst` returns is fixed by any index that satisfies `p` with no earlier one doing so. */
  lemma FindFirstIsFirst<T>(s: seq<T>, p: T -> bool, k: nat)
    requires k < |s| && p(s[k]) && forall j :: 0 <= j < k ==> !p(s[j])
    ensures FindFirst(s, p) == Some(k)
  {
  }

  /** `xs.map(f)`, built one element at a time from the front. */
  function Map<A, B>(f: A -> B, xs: seq<A>): (r: seq<B>)
    ensures |r| == |xs|
    ensures forall k :: 0 <= k < |xs| ==> r[k] == f(xs[k])
    decreases |xs|
  {
    if xs == [] then [] else Map(f, xs[..|xs| - 1]) + [f(xs[|xs| - 1])]
  }

  ghost predicate Distinct<T>(s: seq<T>) {
    forall i, j :: 0 <= i < j < |s| ==> s[i] != s[j]
  }

  /** `xs.slice(0, n)` for `n >= 0`. */
  function Take<T>(s: seq<T>, n: nat): (r: seq<T>)
    ensures |r| == if n < |s| then n else |s|
    ensures r == s[..|r|]
  {
    if n < |s| then s[..n] else s
  }

  /** Taking from a sequence and from one it is a prefix of gives a prefix again. */
  lemma TakeOfPrefix<T>(a: seq<T>, b: seq<T>, n: nat)
    requires |a| <= |b| && b[..|a|] == a
    ensures |Take(a, n)| <= |Take(b, n)| && Take(b, n)[..|Take(a, n)|] == Take(a, n)
  {
    var ta := Take(a, n);
    var tb := Take(b, n);
    assert forall k :: 0 <= k < |ta| ==> tb[k] == b[k] == a[k] == ta[k];
  }

  lemma TakeDistinct<T>(s: seq<T>, n: nat)
    requires Distinct(s)
    ensures Distinct(Take(s, n))
  {
  }

  /**
   * `[...new Set(xs)]`: each element once, at the place of its first
   * occurrence. Defined by adding elements one at a time, as a `Set` does.
   */
  function Dedup<T(==)>(s: seq<T>): (r: seq<T>)
    ensures |r| <= |s|
    decreases |s|
  {
    if s == [] then []
    else
      var d := Dedup(s[..|s| - 1]);
      if s[|s| - 1] in d then d else d + [s[|s| - 1]]
  }

  /** `Dedup` keeps exactly the elements of its input, each once. */
  lemma {:induction false} DedupSpec<T>(s: seq<T>)
    ensures forall i :: 0 <= i < |Dedup(s)| ==> Dedup(s)[i] in s
    ensures forall i :: 0 <= i < |s| ==> s[i] in Dedup(s)
    ensures Distinct(Dedup(s))
    decreases |s|
  {
    if s != [] {
      var p := s[..|s| - 1];
      DedupSpec(p);
      assert forall i :: 0 <= i < |s| - 1 ==> s[i] == p[i];
    }
  }

  /** Adding one element to a `Set` built so far. */
  lemma DedupSnoc<T>(s: seq<T>, x: T)
    ensures Dedup(s + [x]) == if x in Dedup(s) then Dedup(s) else Dedup(s) + [x]
  {
    assert (s + [x])[..|s|] == s;
  }

  /** `set.add(x)` for each `x` of `xs` in turn, on a set kept as its insertion order. */
  method AddAll<T(==)>(found: seq<T>, ghost seen: seq<T>, xs: seq<T>) returns (r: seq<T>)
    requires found == Dedup(seen)
    ensures r == Dedup(seen + xs)
  {
    r := found;
    ghost var acc := seen;
    var j := 0;
    while j < |xs|
      invariant 0 <= j <= |xs|
      invariant acc == seen + xs[..j]
      invariant r == Dedup(acc)
    {
      var x := xs[j];
      DedupSnoc(acc, x);
      if x !in r {
        r := r + [x];
      }
      assert r == Dedup(acc + [x]);
      assert xs[..j + 1] == xs[..j] + [x];
      acc := acc + [x];
      j := j + 1;
    }
    assert xs[..j] == xs;
  }

  /**
   * Elements met later never move ahead of earlier ones: deduplicating a
   * prefix gives a prefix of the deduplicated whole.
   */
  lemma {:induction false} DedupPrefixStable<T>(a: seq<T>, b: seq<T>)
    ensures |Dedup(a)| <= |Dedup(a + b)|
    ensures Dedup(a + b)[..|Dedup(a)|] == Dedup(a)
    decreases |b|
  {
    if b == [] {
      assert a + b == a;
    } else {
      var b' := b[..|b| - 1];
      assert (a + b)[..|a + b| - 1] == a + b';
      DedupPrefixStable(a, b');
    }
  }

  /** A list that is already duplicate-free comes back unchanged. */
  lemma {:induction false} DedupOfDistinct<T>(s: seq<T>)
    requires Distinct(s)
    ensures Dedup(s) == s
    decreases |s|
  {
    if s != [] {
      var p := s[..|s| - 1];
      assert Distinct(p);
      DedupOfDistinct(p);
      assert s[|s| - 1] !in p;
      assert s == p + [s[|s| - 1]];
    }
  }
}
