/**
 * Hand-written `map` and `filter` over arrays and over iterables (08/index.ts).
 * Arrays and iterables are both read front to back, so each is a `seq` here; a
 * `Set` iterates in insertion order. Callbacks are total functions: a callback
 * that throws is not modelled.
 */
module MapFilter {
  import opened Wrappers

  // ---------------------------------------------------------------------------
  // Specification functions, built step by step the way the loops push results
  // ---------------------------------------------------------------------------

  /** The array `mapArr` returns: `selector(source[i], i)` at every position i. */
  function Mapped<T, R>(source: seq<T>, selector: (T, int) -> R): (r: seq<R>)
    ensures |r| == |source|
  {
    if source == [] then []
    else
      var n := |source| - 1;
      Mapped(source[..n], selector) + [selector(source[n], n)]
  }

  /** What `mapIter` yields for n items: the selector is applied to the index alone. */
  function IndexMapped<R>(n: nat, selector: (int, Option<int>) -> R): (r: seq<R>)
    ensures |r| == n
  {
    if n == 0 then [] else IndexMapped(n - 1, selector) + [selector(n - 1, None)]
  }

  /** The items that `filterArr` keeps, in source order. */
  function Filtered<T>(source: seq<T>, keep: (T, int) -> bool): (r: seq<T>)
    ensures |r| <= |source|
  {
    if source == [] then []
    else
      var n := |source| - 1;
      Filtered(source[..n], keep) + (if keep(source[n], n) then [source[n]] else [])
  }

  /** The source positions of the kept items, in increasing order. */
  function KeptIndices<T>(source: seq<T>, keep: (T, int) -> bool): (r: seq<int>)
    ensures |r| <= |source|
  {
    if source == [] then []
    else
      var n := |source| - 1;
      KeptIndices(source[..n], keep) + (if keep(source[n], n) then [n] else [])
  }

  // ---------------------------------------------------------------------------
  // Properties of the specification functions
  // ---------------------------------------------------------------------------

  /** Element k of the mapped array is the selector applied to source[k] and k. */
  lemma {:induction false} MappedAt<T, R>(source: seq<T>, selector: (T, int) -> R, k: int)
    requires 0 <= k < |source|
    ensures Mapped(source, selector)[k] == selector(source[k], k)
  {
    var n := |source| - 1;
    if k < n {
      MappedAt(source[..n], selector, k);
    }
  }

  /** Element k of what the iterator version yields is the selector applied to k itself. */
  lemma {:induction false} IndexMappedAt<R>(n: nat, selector: (int, Option<int>) -> R, k: int)
    requires 0 <= k < n
    ensures IndexMapped(n, selector)[k] == selector(k, None)
  {
    if k < n - 1 {
      IndexMappedAt(n - 1, selector, k);
    }
  }

  /**
   * The iterator version behaves like `mapArr` over the indices 0..n-1 with a
   * selector whose index argument is undefined: no item is ever among the
   * selector's arguments (each is passed only as the receiver `this`, which is
   * not modelled).
   */
  lemma {:induction false} IndexMappedIsMappedOverIndices<T, R>(source: seq<T>, indices: seq<int>, selector: (int, Option<int>) -> R)
    requires |indices| == |source|
    requires forall k :: 0 <= k < |indices| ==> indices[k] == k
    ensures IndexMapped(|source|, selector) == Mapped(indices, (v: int, _: int) => selector(v, None))
  {
    var f := (v: int, _: int) => selector(v, None);
    forall k | 0 <= k < |source|
      ensures IndexMapped(|source|, selector)[k] == Mapped(indices, f)[k]
    {
      IndexMappedAt(|source|, selector, k);
      MappedAt(indices, f, k);
    }
  }

  /** A position is kept exactly when it is a source position whose item passes the predicate. */
  lemma {:induction false} KeptIndicesMembership<T>(source: seq<T>, keep: (T, int) -> bool, i: int)
    ensures i in KeptIndices(source, keep) <==> 0 <= i < |source| && keep(source[i], i)
  {
    if source != [] {
      var n := |source| - 1;
      KeptIndicesMembership(source[..n], keep, i);
    }
  }

  /** `ix` lists positions below `n` in strictly increasing order. */
  ghost predicate IncreasingPositions(ix: seq<int>, n: int)
  {
    (forall a :: 0 <= a < |ix| ==> 0 <= ix[a] < n) &&
    (forall a, b :: 0 <= a < b < |ix| ==> ix[a] < ix[b])
  }

  /** Kept positions are source positions in strictly increasing order. */
  lemma {:induction false} KeptIndicesIncreasing<T>(source: seq<T>, keep: (T, int) -> bool)
    ensures IncreasingPositions(KeptIndices(source, keep), |source|)
  {
    if source != [] {
      var n := |source| - 1;
      KeptIndicesIncreasing(source[..n], keep);
    }
  }

  /** The filtered sequence is the source read at the kept positions, one item per kept position. */
  lemma {:induction false} FilteredAtKeptIndices<T>(source: seq<T>, keep: (T, int) -> bool)
    ensures var r, ix := Filtered(source, keep), KeptIndices(source, keep);
      |r| == |ix| && forall k :: 0 <= k < |ix| ==> 0 <= ix[k] < |source| && r[k] == source[ix[k]]
  {
    if source != [] {
      var n := |source| - 1;
      FilteredAtKeptIndices(source[..n], keep);
      KeptIndicesIncreasing(source[..n], keep);
    }
  }

  // ---------------------------------------------------------------------------
  // The four operations of 08/index.ts
  // ---------------------------------------------------------------------------

  /** `mapArr`: fills a preallocated array of the source's length, position by position. */
  method MapArr<T, R(0)>(source: seq<T>, selector: (T, int) -> R) returns (results: array<R>)
    ensures fresh(results)
    ensures results.Length == |source|
    ensures forall i :: 0 <= i < |source| ==> results[i] == selector(source[i], i)
    ensures results[..] == Mapped(source, selector)
  {
    var length := |source|;
    results := new R[length];
    for i := 0 to length
      invariant forall k :: 0 <= k < i ==> results[k] == selector(source[k], k)
    {
      results[i] := selector(source[i], i);
    }
    forall k | 0 <= k < length
      ensures results[..][k] == Mapped(source, selector)[k]
    {
      MappedAt(source, selector, k);
    }
  }

  /**
   * `mapIter` as written: the selector is invoked with the item as its receiver
   * and the running index as its first argument, so its value parameter gets the
   * index and its index parameter is undefined. The selector is typed here by the
   * arguments it receives: the index, then `None` for `undefined`.
   */
  method MapIter<T, R>(source: seq<T>, selector: (int, Option<int>) -> R) returns (yielded: seq<R>)
    ensures |yielded| == |source|
    ensures forall k :: 0 <= k < |source| ==> yielded[k] == selector(k, None)
    ensures yielded == IndexMapped(|source|, selector)
  {
    yielded := [];
    var i := 0;
    var rest := source;
    while rest != []
      invariant 0 <= i <= |source| && rest == source[i..]
      invariant yielded == IndexMapped(i, selector)
    {
      rest := rest[1..];
      yielded := yielded + [selector(i, None)];
      i := i + 1;
    }
    forall k | 0 <= k < |source|
      ensures yielded[k] == selector(k, None)
    {
      IndexMappedAt(|source|, selector, k);
    }
  }

  /** `mapIter` as evidently intended: each item and its index are passed to the selector. */
  method MapIterCorrected<T, R>(source: seq<T>, selector: (T, int) -> R) returns (yielded: seq<R>)
    ensures yielded == Mapped(source, selector)
  {
    yielded := [];
    var i := 0;
    var rest := source;
    while rest != []
      invariant 0 <= i <= |source| && rest == source[i..]
      invariant yielded == Mapped(source[..i], selector)
    {
      var item := rest[0];
      rest := rest[1..];
      assert source[..i + 1][..i] == source[..i];
      yielded := yielded + [selector(item, i)];
      i := i + 1;
    }
    assert source[..i] == source;
  }

  /** `filterArr`: pushes, in order, every item whose predicate holds at its source position. */
  method FilterArr<T>(source: seq<T>, keep: (T, int) -> bool) returns (results: seq<T>)
    ensures |results| <= |source|
    ensures results == Filtered(source, keep)
  {
    results := [];
    var i := 0;
    while i < |source|
      invariant 0 <= i <= |source|
      invariant results == Filtered(source[..i], keep)
    {
      assert source[..i + 1][..i] == source[..i];
      if keep(source[i], i) {
        results := results + [source[i]];
      }
      i := i + 1;
    }
    assert source[..i] == source;
  }

  /**
   * `filterIter`: the generator version. The index advances on every item, kept
   * or dropped, so it yields exactly what `filterArr` returns.
   */
  method FilterIter<T>(source: seq<T>, keep: (T, int) -> bool) returns (yielded: seq<T>)
    ensures yielded == Filtered(source, keep)
  {
    yielded := [];
    var i := 0;
    var rest := source;
    while rest != []
      invariant 0 <= i <= |source| && rest == source[i..]
      invariant yielded == Filtered(source[..i], keep)
    {
      var item := rest[0];
      rest := rest[1..];
      assert source[..i + 1][..i] == source[..i];
      var index := i;
      i := i + 1;
      if keep(item, index) {
        yielded := yielded + [item];
      }
    }
    assert source[..i] == source;
  }

  // ---------------------------------------------------------------------------
  // The calls the file makes on [1, 2, 3]
  // ---------------------------------------------------------------------------

  /** Squaring with `mapArr` gives 1, 4, 9. */
  method MapArrSquares() returns (r: seq<int>)
    ensures r == [1, 4, 9]
  {
    var a := MapArr([1, 2, 3], (x: int, _: int) => x * x);
    r := a[..];
  }

  /** Squaring with `mapIter` as written gives 0, 1, 4: the indices are squared, not the items. */
  method MapIterSquares() returns (r: seq<int>)
    ensures r == [0, 1, 4]
  {
    r := MapIter([1, 2, 3], (x: int, _: Option<int>) => x * x);
  }

  /** Squaring with the corrected `mapIter` gives 1, 4, 9, as `mapArr` does. */
  method MapIterCorrectedSquares() returns (r: seq<int>)
    ensures r == [1, 4, 9]
  {
    r := MapIterCorrected([1, 2, 3], (x: int, _: int) => x * x);
  }

  /** Keeping the even items with `filterArr` and with `filterIter` gives [2] both times. */
  method FilterEvens() returns (fromArray: seq<int>, fromIterator: seq<int>)
    ensures fromArray == [2] && fromIterator == [2]
  {
    var even := (x: int, _: int) => x % 2 == 0;
    fromArray := FilterArr([1, 2, 3], even);
    fromIterator := FilterIter([1, 2, 3], even);
  }
}
