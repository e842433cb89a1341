/**
 * The two JavaScript array operations the handlers are built from:
 * `Array.prototype.filter` and `Array.prototype.slice(start)`, on sequences.
 */
module JsArray {

  function Min(a: int, b: int): int { if a <= b then a else b }

  /** `s.filter(p)`: the elements of `s` that satisfy `p`, in their original order. */
  function Filter<T>(s: seq<T>, p: T -> bool): (r: seq<T>)
    ensures |r| <= |s|
    ensures forall k :: 0 <= k < |r| ==> r[k] in s && p(r[k])
  {
    if s == [] then [] else (if p(s[0]) then [s[0]] else []) + Filter(s[1..], p)
  }

  /** An element survives the filter exactly when it is in the input and satisfies the predicate. */
  lemma {:induction false} FilterMembership<T>(s: seq<T>, p: T -> bool, x: T)
    ensures x in Filter(s, p) <==> x in s && p(x)
  {
    if s != [] {
      FilterMembership(s[1..], p, x);
      assert s == [s[0]] + s[1..];
    }
  }

  /** Filtering preserves order: it distributes over concatenation. */
  lemma {:induction false} FilterConcat<T>(a: seq<T>, b: seq<T>, p: T -> bool)
    ensures Filter(a + b, p) == Filter(a, p) + Filter(b, p)
  {
    if a == [] {
      assert a + b == b;
    } else {
      assert (a + b)[1..] == a[1..] + b;
      FilterConcat(a[1..], b, p);
    }
  }

  /** Only the truth values of the predicate matter. */
  lemma {:induction false} FilterCongruent<T>(s: seq<T>, p: T -> bool, q: T -> bool)
    requires forall x :: p(x) == q(x)
    ensures Filter(s, p) == Filter(s, q)
  {
    if s != [] {
      FilterCongruent(s[1..], p, q);
    }
  }

  /** A filter that every element passes returns the whole input. */
  lemma {:induction false} FilterKeepsAll<T>(s: seq<T>, p: T -> bool)
    requires forall k :: 0 <= k < |s| ==> p(s[k])
    ensures Filter(s, p) == s
  {
    if s != [] {
      FilterKeepsAll(s[1..], p);
      assert s == [s[0]] + s[1..];
    }
  }

  /** The result is empty exactly when no element satisfies the predicate. */
  lemma {:induction false} FilterEmpty<T>(s: seq<T>, p: T -> bool)
    ensures Filter(s, p) == [] <==> forall k :: 0 <= k < |s| ==> !p(s[k])
  {
    if s != [] {
      FilterEmpty(s[1..], p);
      assert forall k :: 1 <= k < |s| ==> s[k] == s[1..][k - 1];
    }
  }

  /** Two chained filters select what one conjunctive filter selects, in the same order. */
  lemma {:induction false} FilterFuse<T>(s: seq<T>, p: T -> bool, q: T -> bool, pq: T -> bool)
    requires forall x :: pq(x) == (p(x) && q(x))
    ensures Filter(Filter(s, p), q) == Filter(s, pq)
  {
    if s != [] {
      var head := if p(s[0]) then [s[0]] else [];
      FilterConcat(head, Filter(s[1..], p), q);
      FilterFuse(s[1..], p, q, pq);
      if p(s[0]) {
        assert head[1..] == [];
      }
    }
  }

  /** Filtering by an "or" of two predicates no element satisfies together counts both selections. */
  lemma {:induction false} FilterDisjointOrCount<T>(s: seq<T>, p: T -> bool, q: T -> bool, pq: T -> bool)
    requires forall x :: pq(x) == (p(x) || q(x))
    requires forall x :: !(p(x) && q(x))
    ensures |Filter(s, pq)| == |Filter(s, p)| + |Filter(s, q)|
  {
    if s != [] {
      FilterDisjointOrCount(s[1..], p, q, pq);
    }
  }

  /** A filter and the filter by its negation share the input's elements between them. */
  lemma {:induction false} FilterComplementCount<T>(s: seq<T>, p: T -> bool, np: T -> bool)
    requires forall x :: np(x) == !p(x)
    ensures |Filter(s, p)| + |Filter(s, np)| == |s|
  {
    if s != [] {
      FilterComplementCount(s[1..], p, np);
    }
  }

  /** Filtering a one-element sequence. */
  lemma FilterSingleton<T>(x: T, p: T -> bool)
    ensures Filter([x], p) == if p(x) then [x] else []
  {
    assert [x][1..] == [];
  }

  /** Replacing one element changes the number of survivors by the change at that position only. */
  lemma {:induction false} FilterUpdateCount<T>(s: seq<T>, i: nat, x: T, p: T -> bool)
    requires i < |s|
    ensures |Filter(s[i := x], p)| == |Filter(s, p)| - (if p(s[i]) then 1 else 0) + (if p(x) then 1 else 0)
  {
    assert s == s[..i] + [s[i]] + s[i + 1..];
    assert s[i := x] == s[..i] + [x] + s[i + 1..];
    FilterConcat(s[..i] + [s[i]], s[i + 1..], p);
    FilterConcat(s[..i], [s[i]], p);
    FilterConcat(s[..i] + [x], s[i + 1..], p);
    FilterConcat(s[..i], [x], p);
    FilterSingleton(s[i], p);
    FilterSingleton(x, p);
  }

  /**
   * `s.slice(start)` with no end argument: a negative `start` counts back from the end and
   * is clamped at 0, a non-negative one is clamped at the length.
   */
  function Slice<T>(s: seq<T>, start: int): (r: seq<T>)
    ensures |r| <= |s| && r == s[|s| - |r|..]
    ensures start < 0 ==> |r| == Min(-start, |s|)
    ensures start >= 0 ==> |r| == |s| - Min(start, |s|)
  {
    var from := if start < 0 then (if |s| + start < 0 then 0 else |s| + start)
                else (if start < |s| then start else |s|);
    s[from..]
  }
}
