/**
 * Lowering of AST parameter indices to SIL parameter indices.
 *
 * SIL passes a tuple-typed parameter as one parameter per tuple leaf, so an
 * AST parameter of type `(Float, (Float, Float))` becomes three SIL
 * parameters and a parameter of type `()` becomes none. Each AST parameter
 * therefore owns a contiguous block of SIL indices, and the blocks follow one
 * another in AST parameter order (innermost curry level first).
 */
module Lowering {
  import opened Types
  import opened IndexSubsets
  import opened Curry

  /**
   * `countNumFlattenedElementTypes`: a tuple counts the sum of its elements,
   * anything else 1. The count is the number of non-tuple leaves.
   */
  function LeafCount(t: Type): (r: nat)
    ensures r == |Leaves(t)|
    decreases t
  {
    if t.TupleType? then LeafCountAll(t.elements) else 1
  }

  /** The left fold `accumulate` performs over a tuple's element types. */
  function LeafCountAll(ts: seq<Type>): (r: nat)
    ensures r == |LeavesAll(ts)|
    decreases ts
  {
    if ts == [] then 0 else LeafCountAll(ts[..|ts| - 1]) + LeafCount(ts[|ts| - 1])
  }

  /** The non-tuple leaves of a type, left to right: an independent account of flattening. */
  function Leaves(t: Type): (r: seq<Type>)
    ensures forall k :: 0 <= k < |r| ==> !r[k].TupleType?
    decreases t
  {
    if t.TupleType? then LeavesAll(t.elements) else [t]
  }

  function LeavesAll(ts: seq<Type>): (r: seq<Type>)
    ensures forall k :: 0 <= k < |r| ==> !r[k].TupleType?
    decreases ts
  {
    if ts == [] then [] else LeavesAll(ts[..|ts| - 1]) + Leaves(ts[|ts| - 1])
  }

  /** `()` counts 0, a non-tuple type 1, and concatenating tuples adds their counts. */
  lemma {:induction false} LeafCountTuples(a: seq<Type>, b: seq<Type>)
    ensures LeafCount(EmptyTuple) == 0
    ensures forall t: Type :: !t.TupleType? ==> LeafCount(t) == 1
    ensures LeafCount(TupleType(a + b)) == LeafCount(TupleType(a)) + LeafCount(TupleType(b))
    decreases |b|
  {
    if b == [] {
      assert a + b == a;
    } else {
      var n := |b|;
      LeafCountTuples(a, b[..n - 1]);
      assert (a + b)[..|a + b| - 1] == a + b[..n - 1];
      assert (a + b)[|a + b| - 1] == b[n - 1];
    }
  }

  // Prefix sums.

  function Sum(s: seq<nat>): nat {
    if s == [] then 0 else Sum(s[..|s| - 1]) + s[|s| - 1]
  }

  lemma SumStep(s: seq<nat>, i: nat)
    requires i < |s|
    ensures Sum(s[..i + 1]) == Sum(s[..i]) + s[i]
  {
    assert s[..i + 1][..i] == s[..i];
  }

  lemma {:induction false} SumPrefixMonotone(s: seq<nat>, a: nat, b: nat)
    requires a <= b <= |s|
    ensures Sum(s[..a]) <= Sum(s[..b])
    decreases b - a
  {
    if a < b {
      SumPrefixMonotone(s, a, b - 1);
      SumStep(s, b - 1);
    }
  }

  /** The lowered size of every parameter of `ps`, in order. */
  function SizesOf(ps: seq<Param>): (r: seq<nat>)
    ensures |r| == |ps|
  {
    seq(|ps|, i requires 0 <= i < |ps| => LeafCount(ps[i].ty))
  }

  /** The lowered sizes of all parameters of `fn`, innermost curry level first. */
  function LoweredSizes(fn: FnType): seq<nat> {
    SizesOf(AllParams(Reverse(CurryLevels(fn))))
  }

  /** The consecutive indices `lo`, ..., `hi - 1` (`range`). */
  function Range(lo: nat, hi: nat): (r: seq<nat>)
    requires lo <= hi
    ensures |r| == hi - lo
    ensures forall k :: 0 <= k < |r| ==> r[k] == lo + k
  {
    seq(hi - lo, k requires 0 <= k < hi - lo => lo + k)
  }

  /**
   * The lowered index list after the first `n` AST parameters: parameter `i`
   * owns the block starting at the sum of the sizes before it.
   */
  function LoweredList(sizes: seq<nat>, s: IndexSubset, n: nat): seq<nat>
    requires n <= |sizes|
  {
    if n == 0 then []
    else
      LoweredList(sizes, s, n - 1) + LastBlock(sizes, s, n)
  }

  /** What `getLoweredParameterIndices` returns. */
  function LoweredParameterIndices(s: IndexSubset, fn: FnType): IndexSubset
    requires s.capacity <= |LoweredSizes(fn)|
  {
    var sizes := LoweredSizes(fn);
    LoweredListBound(sizes, s, s.capacity);
    SumPrefixMonotone(sizes, s.capacity, |sizes|);
    assert sizes[..|sizes|] == sizes;
    Get(Sum(sizes), LoweredList(sizes, s, s.capacity))
  }

  /**
   * `autodiff::getLoweredParameterIndices`. The source indexes the size
   * list by every position below the input's capacity, so the capacity must
   * not exceed the number of AST parameters.
   */
  method GetLoweredParameterIndices(parameterIndices: IndexSubset, functionType: FnType)
    returns (r: IndexSubset)
    requires parameterIndices.capacity <= |LoweredSizes(functionType)|
    ensures r == LoweredParameterIndices(parameterIndices, functionType)
  {
    var curryLevels := UnwrapCurryLevels(functionType);
    var paramLoweredSizes, totalLoweredSize := CollectLoweredSizes(curryLevels);
    var loweredSILIndices := CollectLoweredIndices(paramLoweredSizes, parameterIndices);
    assert paramLoweredSizes[..|paramLoweredSizes|] == paramLoweredSizes;
    LoweredListBound(paramLoweredSizes, parameterIndices, parameterIndices.capacity);
    SumPrefixMonotone(paramLoweredSizes, parameterIndices.capacity, |paramLoweredSizes|);
    r := Get(totalLoweredSize, loweredSILIndices);
  }

  /** The second loop: the block of every selected parameter below the capacity, in order. */
  method CollectLoweredIndices(paramLoweredSizes: seq<nat>, parameterIndices: IndexSubset)
    returns (loweredSILIndices: seq<nat>)
    requires parameterIndices.capacity <= |paramLoweredSizes|
    ensures loweredSILIndices == LoweredList(paramLoweredSizes, parameterIndices, parameterIndices.capacity)
  {
    loweredSILIndices := [];
    var currentBitIndex := 0;
    var i := 0;
    while i < parameterIndices.capacity
      invariant i <= parameterIndices.capacity
      invariant currentBitIndex == Sum(paramLoweredSizes[..i])
      invariant loweredSILIndices == LoweredList(paramLoweredSizes, parameterIndices, i)
    {
      var paramLoweredSize := paramLoweredSizes[i];
      SumStep(paramLoweredSizes, i);
      if parameterIndices.Contains(i) {
        loweredSILIndices := loweredSILIndices + Range(currentBitIndex, currentBitIndex + paramLoweredSize);
      }
      currentBitIndex := currentBitIndex + paramLoweredSize;
      i := i + 1;
    }
  }

  /** The first loop: the lowered size of every parameter, innermost level first, and their total. */
  method CollectLoweredSizes(curryLevels: seq<FnType>) returns (sizes: seq<nat>, total: nat)
    ensures sizes == SizesOf(AllParams(Reverse(curryLevels)))
    ensures total == Sum(sizes)
  {
    sizes := [];
    total := 0;
    var m := 0;
    while m < |curryLevels|
      invariant m <= |curryLevels|
      invariant sizes == SizesOf(AllParams(Reverse(curryLevels)[..m]))
      invariant total == Sum(sizes)
    {
      var curryLevel := curryLevels[|curryLevels| - 1 - m];
      ReversedLevelsStep(curryLevels, m);
      sizes, total := AppendLoweredSizes(sizes, total, curryLevel.params);
      m := m + 1;
    }
    assert Reverse(curryLevels)[..m] == Reverse(curryLevels);
  }

  lemma ReversedLevelsStep(levels: seq<FnType>, m: nat)
    requires m < |levels|
    ensures SizesOf(AllParams(Reverse(levels)[..m + 1]))
            == SizesOf(AllParams(Reverse(levels)[..m])) + SizesOf(levels[|levels| - 1 - m].params)
  {
    var r := Reverse(levels);
    assert r[..m + 1] == r[..m] + [levels[|levels| - 1 - m]];
    AllParamsAppend(r[..m], [levels[|levels| - 1 - m]]);
    AllParamsSingle(levels[|levels| - 1 - m]);
    SizesOfAppend(AllParams(r[..m]), levels[|levels| - 1 - m].params);
  }

  lemma SizesOfAppend(a: seq<Param>, b: seq<Param>)
    ensures SizesOf(a + b) == SizesOf(a) + SizesOf(b)
  {
  }

  /** The inner loop: `addLoweredParamInfo` on every parameter of one level. */
  method AppendLoweredSizes(prior: seq<nat>, priorTotal: nat, params: seq<Param>)
    returns (sizes: seq<nat>, total: nat)
    requires priorTotal == Sum(prior)
    ensures sizes == prior + SizesOf(params)
    ensures total == Sum(sizes)
  {
    sizes := prior;
    total := priorTotal;
    var k := 0;
    while k < |params|
      invariant k <= |params|
      invariant sizes == prior + SizesOf(params[..k])
      invariant total == Sum(sizes)
    {
      var paramLoweredSize := LeafCount(params[k].ty);
      SizesOfAppend(params[..k], [params[k]]);
      assert params[..k + 1] == params[..k] + [params[k]];
      assert (sizes + [paramLoweredSize])[..|sizes|] == sizes;
      sizes := sizes + [paramLoweredSize];
      total := total + paramLoweredSize;
      k := k + 1;
    }
    assert params[..k] == params;
  }

  // Properties of the lowered list.

  /** Every lowered index of the first `n` parameters lies below the end of their blocks. */
  lemma {:induction false} LoweredListBound(sizes: seq<nat>, s: IndexSubset, n: nat)
    requires n <= |sizes|
    ensures forall k :: 0 <= k < |LoweredList(sizes, s, n)| ==> LoweredList(sizes, s, n)[k] < Sum(sizes[..n])
  {
    if n > 0 {
      LoweredListBound(sizes, s, n - 1);
      SumStep(sizes, n - 1);
    }
  }

  /** The lowered list is strictly ascending: blocks follow one another without overlap. */
  lemma {:induction false} LoweredListAscending(sizes: seq<nat>, s: IndexSubset, n: nat)
    requires n <= |sizes|
    ensures StrictlyAscending(LoweredList(sizes, s, n))
  {
    if n > 0 {
      LoweredListAscending(sizes, s, n - 1);
      LoweredListBound(sizes, s, n - 1);
      SumStep(sizes, n - 1);
    }
  }

  /**
   * Parameter `i` owns the block `[Sum(sizes[..i]), Sum(sizes[..i]) + sizes[i])`:
   * an index in that block is lowered exactly when `i` is selected.
   */
  lemma {:induction false} LoweredListBlock(sizes: seq<nat>, s: IndexSubset, n: nat, i: nat, j: nat)
    requires i < n <= |sizes|
    requires Sum(sizes[..i]) <= j < Sum(sizes[..i]) + sizes[i]
    ensures j in LoweredList(sizes, s, n) <==> i in s.indices
    decreases n
  {
    if n == i + 1 {
      OwnBlock(sizes, s, i, j);
    } else {
      LoweredListBlock(sizes, s, n - 1, i, j);
      SumStep(sizes, i);
      SumPrefixMonotone(sizes, i + 1, n - 1);
      LaterBlock(sizes, s, n, j);
    }
  }

  /** An index in parameter `i`'s block is lowered after `i + 1` parameters exactly when `i` is selected. */
  lemma OwnBlock(sizes: seq<nat>, s: IndexSubset, i: nat, j: nat)
    requires i < |sizes|
    requires Sum(sizes[..i]) <= j < Sum(sizes[..i]) + sizes[i]
    ensures j in LoweredList(sizes, s, i + 1) <==> i in s.indices
  {
    var lo := Sum(sizes[..i]);
    LoweredListStep(sizes, s, i + 1);
    LoweredListBound(sizes, s, i);
    AfterBelow(LoweredList(sizes, s, i), LastBlock(sizes, s, i + 1), lo, j);
    OwnLastBlock(sizes, s, i, j);
  }

  lemma OwnLastBlock(sizes: seq<nat>, s: IndexSubset, i: nat, j: nat)
    requires i < |sizes|
    requires Sum(sizes[..i]) <= j < Sum(sizes[..i]) + sizes[i]
    ensures j in LastBlock(sizes, s, i + 1) <==> i in s.indices
  {
    if i in s.indices {
      InRange(Sum(sizes[..i]), Sum(sizes[..i]) + sizes[i], j);
    }
  }

  /** An index at or above every entry of `prev` is in `prev + block` exactly when it is in `block`. */
  lemma AfterBelow(prev: seq<nat>, block: seq<nat>, bound: nat, j: nat)
    requires forall k :: 0 <= k < |prev| ==> prev[k] < bound
    requires bound <= j
    ensures j in prev + block <==> j in block
  {
    NotInBelow(prev, bound, j);
  }

  lemma LoweredListStep(sizes: seq<nat>, s: IndexSubset, n: nat)
    requires 0 < n <= |sizes|
    ensures LoweredList(sizes, s, n) == LoweredList(sizes, s, n - 1) + LastBlock(sizes, s, n)
    ensures |LoweredList(sizes, s, n)| == |LoweredList(sizes, s, n - 1)| + SelectedSizes(sizes, s)[n - 1]
  {
  }

  /** The block of a later parameter holds no index below its start. */
  lemma LaterBlock(sizes: seq<nat>, s: IndexSubset, n: nat, j: nat)
    requires 0 < n <= |sizes|
    requires j < Sum(sizes[..n - 1])
    ensures j in LoweredList(sizes, s, n) <==> j in LoweredList(sizes, s, n - 1)
  {
    BelowRange(Sum(sizes[..n - 1]), Sum(sizes[..n - 1]) + sizes[n - 1], j);
  }

  /** The block the `n`-th parameter adds to the lowered list. */
  function LastBlock(sizes: seq<nat>, s: IndexSubset, n: nat): seq<nat>
    requires 0 < n <= |sizes|
  {
    if s.Contains(n - 1) then Range(Sum(sizes[..n - 1]), Sum(sizes[..n - 1]) + sizes[n - 1]) else []
  }

  lemma NotInBelow(l: seq<nat>, bound: nat, j: nat)
    requires forall k :: 0 <= k < |l| ==> l[k] < bound
    requires bound <= j
    ensures j !in l
  {
  }

  lemma InRange(lo: nat, hi: nat, j: nat)
    requires lo <= j < hi
    ensures j in Range(lo, hi)
  {
    assert Range(lo, hi)[j - lo] == j;
  }

  lemma BelowRange(lo: nat, hi: nat, j: nat)
    requires lo <= hi && j < lo
    ensures j !in Range(lo, hi)
  {
  }

  /** The sizes with every unselected parameter's size replaced by 0. */
  function SelectedSizes(sizes: seq<nat>, s: IndexSubset): (r: seq<nat>)
    ensures |r| == |sizes|
  {
    seq(|sizes|, i requires 0 <= i < |sizes| => if i in s.indices then sizes[i] else 0)
  }

  /** The lowered list has one entry per flattened element of a selected parameter. */
  lemma {:induction false} LoweredListLength(sizes: seq<nat>, s: IndexSubset, n: nat)
    requires n <= |sizes|
    ensures |LoweredList(sizes, s, n)| == Sum(SelectedSizes(sizes, s)[..n])
  {
    if n > 0 {
      var selected := SelectedSizes(sizes, s);
      LoweredListLength(sizes, s, n - 1);
      LoweredListStep(sizes, s, n);
      SumStep(selected, n - 1);
    }
  }

  /** The set of entries of a list. */
  function Members(l: seq<nat>): set<nat> {
    set x | x in l
  }

  lemma {:induction false} AscendingCard(l: seq<nat>)
    requires StrictlyAscending(l)
    ensures |Members(l)| == |l|
  {
    if l != [] {
      var init, last := l[..|l| - 1], l[|l| - 1];
      assert StrictlyAscending(init);
      AscendingCard(init);
      assert last !in Members(init);
      assert Members(l) == Members(init) + {last};
    }
  }

  /**
   * The result of lowering: its capacity is the total lowered size of all
   * parameters; a selected parameter contributes its whole block, an
   * unselected one nothing; no index beyond the last considered block is
   * set; and the member count is the sum of the selected parameters' sizes.
   */
  lemma LoweredParameterIndicesFacts(s: IndexSubset, fn: FnType)
    requires s.capacity <= |LoweredSizes(fn)|
    ensures var r := LoweredParameterIndices(s, fn);
            var sizes := LoweredSizes(fn);
            && r.Valid()
            && r.capacity == Sum(sizes)
            && (forall j :: j in r.indices ==> j < Sum(sizes[..s.capacity]))
            && |r.indices| == Sum(SelectedSizes(sizes, s)[..s.capacity])
  {
    var sizes := LoweredSizes(fn);
    var l := LoweredList(sizes, s, s.capacity);
    var r := LoweredParameterIndices(s, fn);
    LoweredListBound(sizes, s, s.capacity);
    LoweredListAscending(sizes, s, s.capacity);
    LoweredListLength(sizes, s, s.capacity);
    AscendingCard(l);
    assert r.indices == Members(l);
  }

  /** The block form of the result, one AST parameter at a time. */
  lemma LoweredParameterIndicesBlock(s: IndexSubset, fn: FnType, i: nat, j: nat)
    requires i < s.capacity <= |LoweredSizes(fn)|
    requires Sum(LoweredSizes(fn)[..i]) <= j < Sum(LoweredSizes(fn)[..i]) + LoweredSizes(fn)[i]
    ensures j in LoweredParameterIndices(s, fn).indices <==> i in s.indices
  {
    LoweredListBlock(LoweredSizes(fn), s, s.capacity, i, j);
  }

  /**
   * A worked case: for `(T, Float) -> R` with `T` a triple, selecting the
   * triple yields {0, 1, 2}, selecting the scalar yields {3}, and selecting
   * both, {0, 1}, yields {0, 1, 2, 3}, all of capacity 4.
   */
  lemma LoweringExample(t: Type, u: Type, v: Type, r: Type)
    requires !t.TupleType? && !u.TupleType? && !v.TupleType? && !r.FunctionType?
    ensures var fn := FnType([Param(TupleType([t, u, v]), false), Param(NominalType("Float", Struct), false)], r);
            && LoweredParameterIndices(IndexSubset(2, {0}), fn) == IndexSubset(4, {0, 1, 2})
            && LoweredParameterIndices(IndexSubset(2, {1}), fn) == IndexSubset(4, {3})
            && LoweredParameterIndices(IndexSubset(2, {0, 1}), fn) == IndexSubset(4, {0, 1, 2, 3})
  {
    var fn := FnType([Param(TupleType([t, u, v]), false), Param(NominalType("Float", Struct), false)], r);
    ExampleSizes(t, u, v, r);
    ExampleLists(LoweredSizes(fn));
    ExampleSubsets();
  }

  lemma ExampleSizes(t: Type, u: Type, v: Type, r: Type)
    requires !t.TupleType? && !u.TupleType? && !v.TupleType? && !r.FunctionType?
    ensures var fn := FnType([Param(TupleType([t, u, v]), false), Param(NominalType("Float", Struct), false)], r);
            LoweredSizes(fn) == [3, 1]
  {
    var fn := FnType([Param(TupleType([t, u, v]), false), Param(NominalType("Float", Struct), false)], r);
    TripleLeafCount(t, u, v);
    assert CurryLevels(fn) == [fn];
    assert Reverse([fn]) == [fn];
    AllParamsSingle(fn);
    TwoSizes(fn.params);
  }

  lemma TwoSizes(ps: seq<Param>)
    requires |ps| == 2
    ensures SizesOf(ps) == [LeafCount(ps[0].ty), LeafCount(ps[1].ty)]
  {
  }

  lemma TripleLeafCount(t: Type, u: Type, v: Type)
    requires !t.TupleType? && !u.TupleType? && !v.TupleType?
    ensures LeafCount(TupleType([t, u, v])) == 3
  {
    var triple := [t, u, v];
    assert triple[..2] == [t, u] && [t, u][..1] == [t] && [t][..0] == [];
    assert LeafCountAll([t]) == 1;
    assert LeafCountAll([t, u]) == 2;
    assert LeafCountAll(triple) == LeafCountAll([t, u]) + LeafCount(v);
  }

  lemma ExampleLists(sizes: seq<nat>)
    requires sizes == [3, 1]
    ensures Sum(sizes) == 4
    ensures LoweredList(sizes, IndexSubset(2, {0}), 2) == [0, 1, 2]
    ensures LoweredList(sizes, IndexSubset(2, {1}), 2) == [3]
    ensures LoweredList(sizes, IndexSubset(2, {0, 1}), 2) == [0, 1, 2, 3]
  {
    assert sizes[..1][..0] == [];
    assert sizes[..2] == sizes;
    assert Sum(sizes[..1]) == 3;
    assert Sum(sizes) == 4;
    assert Range(0, 3) == [0, 1, 2];
    assert Range(3, 4) == [3];
    assert LoweredList(sizes, IndexSubset(2, {0}), 1) == [0, 1, 2];
    assert LoweredList(sizes, IndexSubset(2, {1}), 1) == [];
    assert LoweredList(sizes, IndexSubset(2, {0, 1}), 1) == [0, 1, 2];
  }

  lemma ExampleSubsets()
    ensures Get(4, [0, 1, 2]) == IndexSubset(4, {0, 1, 2})
    ensures Get(4, [3]) == IndexSubset(4, {3})
    ensures Get(4, [0, 1, 2, 3]) == IndexSubset(4, {0, 1, 2, 3})
  {
    assert (set i | i in [0, 1, 2]) == {0, 1, 2};
    assert (set i | i in [3]) == {3};
    assert (set i | i in [0, 1, 2, 3]) == {0, 1, 2, 3};
  }
}
