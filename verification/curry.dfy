/**
 * Curry levels of a function type and `AnyFunctionType::getSubsetParameters`.
 *
 * A curried function type `(A) -> (B) -> C` has two levels, outermost first.
 * Parameter indices count the parameters of all levels with the innermost
 * level first: the innermost level's parameters start at index 0, and each
 * outer level starts after all the parameters of the levels nested inside it.
 */
module Curry {
  import opened Types
  import opened IndexSubsets

  /** The nested function levels of `fn`, outermost first. */
  function CurryLevels(fn: FnType): (r: seq<FnType>)
    ensures |r| >= 1 && r[0] == fn
    ensures !r[|r| - 1].result.FunctionType?
    decreases fn
  {
    if fn.result.FunctionType? then [fn] + CurryLevels(fn.result.fn) else [fn]
  }

  /** Each level's result is the next level, so the levels are exactly the nesting chain. */
  lemma {:induction false} CurryLevelsChain(fn: FnType, i: nat)
    requires i + 1 < |CurryLevels(fn)|
    ensures CurryLevels(fn)[i].result == FunctionType(CurryLevels(fn)[i + 1])
    decreases fn
  {
    var next := fn.result.fn;
    if i > 0 {
      CurryLevelsChain(next, i - 1);
    }
  }

  /**
   * `unwrapCurryLevels`: pushes each level, then steps into its result while
   * that result is again a function type (`done` stands for reaching null).
   */
  method UnwrapCurryLevels(fnTy: FnType) returns (results: seq<FnType>)
    ensures results == CurryLevels(fnTy)
  {
    ghost var levels := CurryLevels(fnTy);
    results := [];
    var fn := fnTy;
    var done := false;
    while !done
      invariant |results| <= |levels| && results == levels[..|results|]
      invariant !done ==> |results| < |levels| && fn == levels[|results|]
      invariant done ==> |results| == |levels|
      decreases |levels| - |results|
    {
      CurryLevelsLast(fnTy, |results|);
      results := results + [fn];
      if fn.result.FunctionType? {
        fn := fn.result.fn;
      } else {
        done := true;
      }
    }
    assert levels[..|results|] == levels;
  }

  /** A level's result is a function type exactly when it is not the last level, and then it is the next one. */
  lemma CurryLevelsLast(fn: FnType, i: nat)
    requires i < |CurryLevels(fn)|
    ensures CurryLevels(fn)[i].result.FunctionType? <==> i + 1 < |CurryLevels(fn)|
    ensures i + 1 < |CurryLevels(fn)| ==> CurryLevels(fn)[i].result.fn == CurryLevels(fn)[i + 1]
  {
    if i + 1 < |CurryLevels(fn)| {
      CurryLevelsChain(fn, i);
    }
  }

  function Reverse<T>(s: seq<T>): (r: seq<T>)
    ensures |r| == |s|
    ensures forall k :: 0 <= k < |s| ==> r[k] == s[|s| - 1 - k]
  {
    seq(|s|, k requires 0 <= k < |s| => s[|s| - 1 - k])
  }

  /** The parameters of the levels, in the order of the levels. */
  function AllParams(levels: seq<FnType>): seq<Param>
  {
    if levels == [] then [] else levels[0].params + AllParams(levels[1..])
  }

  /** The index offset of every level: the number of parameters nested inside it. */
  function Offsets(levels: seq<FnType>): (r: seq<nat>)
    ensures |r| == |levels|
  {
    seq(|levels|, i requires 0 <= i < |levels| => |AllParams(levels[i + 1..])|)
  }

  /** The parameters `ps[k]`, in ascending `k`, whose index `base + k` is a member of `s`. */
  function Select(ps: seq<Param>, s: IndexSubset, base: nat): seq<Param>
  {
    if ps == [] then []
    else Select(ps[..|ps| - 1], s, base) + (if s.Contains(base + |ps| - 1) then [ps[|ps| - 1]] else [])
  }

  /** The selected parameters of each level in turn, each level at its own offset. */
  function SelectLevels(levels: seq<FnType>, offsets: seq<nat>, s: IndexSubset): seq<Param>
    requires |levels| == |offsets|
  {
    if levels == [] then []
    else SelectLevels(levels[..|levels| - 1], offsets[..|offsets| - 1], s)
           + Select(levels[|levels| - 1].params, s, offsets[|offsets| - 1])
  }

  /** What `getSubsetParameters` returns. */
  function SubsetParameters(fn: FnType, s: IndexSubset, reverseCurryLevels: bool): seq<Param>
  {
    var levels := CurryLevels(fn);
    if reverseCurryLevels then SelectLevels(Reverse(levels), Reverse(Offsets(levels)), s)
    else SelectLevels(levels, Offsets(levels), s)
  }

  /**
   * `AnyFunctionType::getSubsetParameters`: appends the selected parameters to
   * the entries `prior` already in the output vector.
   */
  method GetSubsetParameters(fn: FnType, parameterIndices: IndexSubset, prior: seq<Param>, reverseCurryLevels: bool)
    returns (results: seq<Param>)
    ensures results == prior + SubsetParameters(fn, parameterIndices, reverseCurryLevels)
  {
    var curryLevels := UnwrapCurryLevels(fn);
    var offsets := ComputeOffsets(curryLevels);
    if reverseCurryLevels {
      curryLevels := Reverse(curryLevels);
      offsets := Reverse(offsets);
    }

    results := CollectSelected(curryLevels, offsets, parameterIndices, prior);
  }

  /** The first loop of `getSubsetParameters`: from the innermost level out, each level's offset. */
  method ComputeOffsets(curryLevels: seq<FnType>) returns (offsets: seq<nat>)
    ensures offsets == Offsets(curryLevels)
  {
    offsets := seq(|curryLevels|, _ => 0);
    var currentOffset := 0;
    var i := |curryLevels|;
    while i > 0
      invariant 0 <= i <= |curryLevels| && |offsets| == |curryLevels|
      invariant currentOffset == |AllParams(curryLevels[i..])|
      invariant forall j :: i <= j < |curryLevels| ==> offsets[j] == Offsets(curryLevels)[j]
    {
      i := i - 1;
      offsets := offsets[i := currentOffset];
      AllParamsFrom(curryLevels, i);
      currentOffset := currentOffset + |curryLevels[i].params|;
    }
  }

  lemma AllParamsFrom(levels: seq<FnType>, i: nat)
    requires i < |levels|
    ensures AllParams(levels[i..]) == levels[i].params + AllParams(levels[i + 1..])
  {
    assert levels[i..][1..] == levels[i + 1..];
  }

  /** The final loop of `getSubsetParameters`: each level in turn, each parameter in order. */
  method CollectSelected(curryLevels: seq<FnType>, offsets: seq<nat>, parameterIndices: IndexSubset,
                         prior: seq<Param>)
    returns (results: seq<Param>)
    requires |curryLevels| == |offsets|
    ensures results == prior + SelectLevels(curryLevels, offsets, parameterIndices)
  {
    results := prior;
    var li := 0;
    while li < |curryLevels|
      invariant 0 <= li <= |curryLevels|
      invariant results == prior + SelectLevels(curryLevels[..li], offsets[..li], parameterIndices)
    {
      results := CollectLevel(curryLevels[li].params, parameterIndices, offsets[li], results);
      SelectLevelsStep(curryLevels, offsets, li, parameterIndices);
      li := li + 1;
    }
    assert curryLevels[..li] == curryLevels;
    assert offsets[..li] == offsets;
  }

  /** The inner loop of `getSubsetParameters`: the selected parameters of one level, in order. */
  method CollectLevel(params: seq<Param>, parameterIndices: IndexSubset, parameterIndexOffset: nat,
                      prior: seq<Param>)
    returns (results: seq<Param>)
    ensures results == prior + Select(params, parameterIndices, parameterIndexOffset)
  {
    results := prior;
    var paramIndex := 0;
    while paramIndex < |params|
      invariant 0 <= paramIndex <= |params|
      invariant results == prior + Select(params[..paramIndex], parameterIndices, parameterIndexOffset)
    {
      SelectStep(params, paramIndex, parameterIndices, parameterIndexOffset);
      if parameterIndices.Contains(parameterIndexOffset + paramIndex) {
        results := results + [params[paramIndex]];
      }
      paramIndex := paramIndex + 1;
    }
    assert params[..paramIndex] == params;
  }

  lemma SelectStep(ps: seq<Param>, k: nat, s: IndexSubset, base: nat)
    requires k < |ps|
    ensures Select(ps[..k + 1], s, base)
            == Select(ps[..k], s, base) + (if s.Contains(base + k) then [ps[k]] else [])
  {
    assert ps[..k + 1][..k] == ps[..k];
  }

  lemma SelectLevelsStep(levels: seq<FnType>, offsets: seq<nat>, m: nat, s: IndexSubset)
    requires |levels| == |offsets| && m < |levels|
    ensures SelectLevels(levels[..m + 1], offsets[..m + 1], s)
            == SelectLevels(levels[..m], offsets[..m], s) + Select(levels[m].params, s, offsets[m])
  {
    assert levels[..m + 1][..m] == levels[..m];
    assert offsets[..m + 1][..m] == offsets[..m];
  }

  // Properties of the specification.

  lemma {:induction false} AllParamsAppend(a: seq<FnType>, b: seq<FnType>)
    ensures AllParams(a + b) == AllParams(a) + AllParams(b)
  {
    if a != [] {
      assert (a + b)[0] == a[0];
      assert (a + b)[1..] == a[1..] + b;
      AllParamsAppend(a[1..], b);
    } else {
      assert a + b == b;
    }
  }

  lemma ReverseLast<T>(s: seq<T>)
    requires s != []
    ensures Reverse(s) == [s[|s| - 1]] + Reverse(s[..|s| - 1])
  {
  }

  lemma ReversePrefix<T>(s: seq<T>, j: nat)
    requires j <= |s|
    ensures Reverse(s)[..j] == Reverse(s[|s| - j..])
  {
  }

  lemma SelectLevelsSingle(level: FnType, offset: nat, s: IndexSubset)
    ensures SelectLevels([level], [offset], s) == Select(level.params, s, offset)
  {
    assert [level][..0] == [] && [offset][..0] == [];
  }

  lemma AllParamsSingle(level: FnType)
    ensures AllParams([level]) == level.params
  {
    assert [level][1..] == [];
  }

  lemma {:induction false} AllParamsReverseLength(levels: seq<FnType>)
    ensures |AllParams(Reverse(levels))| == |AllParams(levels)|
  {
    if levels != [] {
      var n := |levels|;
      AllParamsReverseLength(levels[1..]);
      assert Reverse(levels) == Reverse(levels[1..]) + [levels[0]];
      AllParamsAppend(Reverse(levels[1..]), [levels[0]]);
    }
  }

  /**
   * The innermost level has offset 0, and each outer level's offset is its
   * inner neighbour's offset plus that neighbour's parameter count.
   */
  lemma OffsetsNested(levels: seq<FnType>, i: nat)
    requires 0 <= i < |levels|
    ensures Offsets(levels)[|levels| - 1] == 0
    ensures i + 1 < |levels| ==> Offsets(levels)[i] == Offsets(levels)[i + 1] + |levels[i + 1].params|
  {
    assert levels[|levels|..] == [];
    if i + 1 < |levels| {
      assert levels[i + 1..] == [levels[i + 1]] + levels[i + 2..];
    }
  }

  lemma {:induction false} SelectAppend(a: seq<Param>, b: seq<Param>, s: IndexSubset, base: nat)
    ensures Select(a + b, s, base) == Select(a, s, base) + Select(b, s, base + |a|)
    decreases |b|
  {
    if b != [] {
      var ab := a + b;
      assert ab[..|ab| - 1] == a + b[..|b| - 1];
      SelectAppend(a, b[..|b| - 1], s, base);
    } else {
      assert a + b == a;
    }
  }

  lemma {:induction false} SelectLevelsAppend(l1: seq<FnType>, o1: seq<nat>, l2: seq<FnType>, o2: seq<nat>, s: IndexSubset)
    requires |l1| == |o1| && |l2| == |o2|
    ensures SelectLevels(l1 + l2, o1 + o2, s) == SelectLevels(l1, o1, s) + SelectLevels(l2, o2, s)
    decreases |l2|
  {
    if l2 != [] {
      var n := |l2|;
      assert (l1 + l2)[..|l1 + l2| - 1] == l1 + l2[..n - 1];
      assert (o1 + o2)[..|o1 + o2| - 1] == o1 + o2[..n - 1];
      SelectLevelsAppend(l1, o1, l2[..n - 1], o2[..n - 1], s);
    } else {
      assert l1 + l2 == l1 && o1 + o2 == o1;
    }
  }

  /**
   * Levels whose offsets are the parameter counts of the levels before them
   * select exactly what selecting from all their parameters at once selects.
   */
  lemma {:induction false} SelectLevelsContiguous(levels: seq<FnType>, offsets: seq<nat>, s: IndexSubset)
    requires |levels| == |offsets|
    requires forall j :: 0 <= j < |levels| ==> offsets[j] == |AllParams(levels[..j])|
    ensures SelectLevels(levels, offsets, s) == Select(AllParams(levels), s, 0)
    decreases |levels|
  {
    if levels != [] {
      var n := |levels|;
      var init := levels[..n - 1];
      ContiguousPrefix(levels, offsets, init, offsets[..n - 1]);
      SelectLevelsContiguous(init, offsets[..n - 1], s);
      assert offsets[n - 1] == |AllParams(init)|;
      assert levels == init + [levels[n - 1]];
      ContiguousStep(init, levels[n - 1], s);
    }
  }

  lemma ContiguousStep(init: seq<FnType>, last: FnType, s: IndexSubset)
    ensures Select(AllParams(init + [last]), s, 0)
            == Select(AllParams(init), s, 0) + Select(last.params, s, |AllParams(init)|)
  {
    AllParamsAppend(init, [last]);
    AllParamsSingle(last);
    SelectAppend(AllParams(init), last.params, s, 0);
  }

  lemma ContiguousPrefix(levels: seq<FnType>, offsets: seq<nat>, init: seq<FnType>, initOffsets: seq<nat>)
    requires |levels| == |offsets| && levels != []
    requires init == levels[..|levels| - 1] && initOffsets == offsets[..|offsets| - 1]
    requires forall j :: 0 <= j < |levels| ==> offsets[j] == |AllParams(levels[..j])|
    ensures forall j :: 0 <= j < |init| ==> initOffsets[j] == |AllParams(init[..j])|
  {
    forall j | 0 <= j < |init| ensures initOffsets[j] == |AllParams(init[..j])| {
      assert init[..j] == levels[..j];
    }
  }

  /** Visited innermost first, each level's offset counts the parameters visited before it. */
  lemma ReversedOffsetsArePrefixCounts(levels: seq<FnType>, j: nat)
    requires j < |levels|
    ensures Reverse(Offsets(levels))[j] == |AllParams(Reverse(levels)[..j])|
  {
    var n := |levels|;
    ReversePrefix(levels, j);
    AllParamsReverseLength(levels[n - j..]);
    var i := n - 1 - j;
    assert Reverse(Offsets(levels))[j] == Offsets(levels)[i];
    assert Offsets(levels)[i] == |AllParams(levels[i + 1..])|;
    assert i + 1 == n - j;
  }

  /**
   * With `reverseCurryLevels`, the levels are visited innermost first, so the
   * result is exactly the parameters, numbered innermost level first, whose
   * index is a member of the subset, in ascending index order.
   */
  lemma SubsetParametersReversedIsGlobalOrder(fn: FnType, s: IndexSubset)
    ensures SubsetParameters(fn, s, true) == Select(AllParams(Reverse(CurryLevels(fn))), s, 0)
  {
    var levels := CurryLevels(fn);
    var rl := Reverse(levels);
    var ro := Reverse(Offsets(levels));
    forall j | 0 <= j < |rl| ensures ro[j] == |AllParams(rl[..j])| {
      ReversedOffsetsArePrefixCounts(levels, j);
    }
    SelectLevelsContiguous(rl, ro, s);
  }

  lemma {:induction false} SelectLevelsReverseSameMembers(levels: seq<FnType>, offsets: seq<nat>, s: IndexSubset)
    requires |levels| == |offsets|
    ensures multiset(SelectLevels(Reverse(levels), Reverse(offsets), s)) == multiset(SelectLevels(levels, offsets, s))
    decreases |levels|
  {
    if levels != [] {
      var n := |levels|;
      var init, initOffsets := levels[..n - 1], offsets[..n - 1];
      SelectLevelsReverseSameMembers(init, initOffsets, s);
      var forward := SelectLevels(init, initOffsets, s);
      var backward := SelectLevels(Reverse(init), Reverse(initOffsets), s);
      var block := Select(levels[n - 1].params, s, offsets[n - 1]);
      SelectLevelsReversedLast(levels, offsets, s);
      SelectLevelsLast(levels, offsets, s);
      MultisetSwap(forward, backward, block);
    }
  }

  lemma SelectLevelsLast(levels: seq<FnType>, offsets: seq<nat>, s: IndexSubset)
    requires |levels| == |offsets| && levels != []
    ensures var n := |levels|;
            SelectLevels(levels, offsets, s)
            == SelectLevels(levels[..n - 1], offsets[..n - 1], s) + Select(levels[n - 1].params, s, offsets[n - 1])
  {
  }

  /** With `a` and `b` equal as multisets, `c` may go before `b` or after `a`: kept apart so the callers stay small. */
  lemma MultisetSwap<T>(a: seq<T>, b: seq<T>, c: seq<T>)
    requires multiset(a) == multiset(b)
    ensures multiset(c + b) == multiset(a + c)
  {
  }

  /** Visiting the levels backwards selects the last level's parameters first. */
  lemma SelectLevelsReversedLast(levels: seq<FnType>, offsets: seq<nat>, s: IndexSubset)
    requires |levels| == |offsets| && levels != []
    ensures var n := |levels|;
            SelectLevels(Reverse(levels), Reverse(offsets), s)
            == Select(levels[n - 1].params, s, offsets[n - 1])
               + SelectLevels(Reverse(levels[..n - 1]), Reverse(offsets[..n - 1]), s)
  {
    var n := |levels|;
    ReverseLast(levels);
    ReverseLast(offsets);
    SelectLevelsAppend([levels[n - 1]], [offsets[n - 1]], Reverse(levels[..n - 1]), Reverse(offsets[..n - 1]), s);
    SelectLevelsSingle(levels[n - 1], offsets[n - 1], s);
  }

  /** Reversing the curry levels changes the order of the result, never its members. */
  lemma SubsetParametersReverseSameMembers(fn: FnType, s: IndexSubset)
    ensures multiset(SubsetParameters(fn, s, true)) == multiset(SubsetParameters(fn, s, false))
  {
    SelectLevelsReverseSameMembers(CurryLevels(fn), Offsets(CurryLevels(fn)), s);
  }

  /** The members of `s` in the index range `[lo, hi)`. */
  ghost function MembersIn(s: IndexSubset, lo: nat, hi: nat): set<nat> {
    set i | i in s.indices && lo <= i < hi
  }

  /** `Select` returns one parameter per member of the subset in its index range. */
  lemma {:induction false} SelectLength(ps: seq<Param>, s: IndexSubset, base: nat)
    ensures |Select(ps, s, base)| == |MembersIn(s, base, base + |ps|)|
    decreases |ps|
  {
    if ps == [] {
      assert MembersIn(s, base, base) == {};
    } else {
      var n := |ps|;
      SelectLength(ps[..n - 1], s, base);
      var last := base + n - 1;
      if last in s.indices {
        assert MembersIn(s, base, base + n) == MembersIn(s, base, last) + {last};
      } else {
        assert MembersIn(s, base, base + n) == MembersIn(s, base, last);
      }
    }
  }

  /**
   * The result has one parameter per member of the subset below the total
   * parameter count, whichever order the levels are visited in.
   */
  lemma SubsetParametersLength(fn: FnType, s: IndexSubset, reverseCurryLevels: bool)
    ensures |SubsetParameters(fn, s, reverseCurryLevels)| == |MembersIn(s, 0, |AllParams(CurryLevels(fn))|)|
  {
    var levels := CurryLevels(fn);
    SubsetParametersReverseSameMembers(fn, s);
    SubsetParametersReversedIsGlobalOrder(fn, s);
    AllParamsReverseLength(levels);
    SelectLength(AllParams(Reverse(levels)), s, 0);
    SameMultisetSameLength(SubsetParameters(fn, s, true), SubsetParameters(fn, s, false));
  }

  lemma SameMultisetSameLength<T>(a: seq<T>, b: seq<T>)
    requires multiset(a) == multiset(b)
    ensures |a| == |b|
  {
    assert |a| == |multiset(a)|;
    assert |b| == |multiset(b)|;
  }

  lemma {:induction false} SelectAllOrNone(ps: seq<Param>, s: IndexSubset, base: nat)
    ensures (forall i :: base <= i < base + |ps| ==> i in s.indices) ==> Select(ps, s, base) == ps
    ensures (forall i :: base <= i < base + |ps| ==> i !in s.indices) ==> Select(ps, s, base) == []
    decreases |ps|
  {
    if ps != [] {
      SelectAllOrNone(ps[..|ps| - 1], s, base);
      assert ps[..|ps| - 1] + [ps[|ps| - 1]] == ps;
    }
  }

  /**
   * A subset holding every parameter index returns every parameter, innermost
   * level first with `reverseCurryLevels` and outermost level first without;
   * an empty subset returns nothing.
   */
  lemma SubsetParametersFullAndEmpty(fn: FnType, s: IndexSubset)
    ensures var total := |AllParams(CurryLevels(fn))|;
            (forall i :: 0 <= i < total ==> i in s.indices) ==>
              SubsetParameters(fn, s, true) == AllParams(Reverse(CurryLevels(fn)))
              && SubsetParameters(fn, s, false) == AllParams(CurryLevels(fn))
    ensures s.indices == {} ==> SubsetParameters(fn, s, true) == [] && SubsetParameters(fn, s, false) == []
  {
    var levels := CurryLevels(fn);
    var total := |AllParams(levels)|;
    SubsetParametersReversedIsGlobalOrder(fn, s);
    AllParamsReverseLength(levels);
    SelectAllOrNone(AllParams(Reverse(levels)), s, 0);
    if forall i :: 0 <= i < total ==> i in s.indices {
      SelectLevelsAllSelected(levels, s);
    }
    if s.indices == {} {
      SubsetParametersLength(fn, s, false);
      assert MembersIn(s, 0, total) == {};
    }
  }

  /** In natural order, a subset covering every level's index range returns all parameters. */
  lemma SelectLevelsAllSelected(levels: seq<FnType>, s: IndexSubset)
    requires forall i :: 0 <= i < |AllParams(levels)| ==> i in s.indices
    ensures SelectLevels(levels, Offsets(levels), s) == AllParams(levels)
  {
    var total := |AllParams(levels)|;
    var offsets := Offsets(levels);
    forall j | 0 <= j < |levels|
      ensures offsets[j] + |levels[j].params| <= total
    {
      AllParamsLengthBound(levels, j);
    }
    SelectLevelsCovered(levels, offsets, s, total);
  }

  /** Levels whose index ranges all lie below `n`, when every index below `n` is selected, are selected whole. */
  lemma {:induction false} SelectLevelsCovered(levels: seq<FnType>, offsets: seq<nat>, s: IndexSubset, n: nat)
    requires |levels| == |offsets|
    requires forall j :: 0 <= j < |levels| ==> offsets[j] + |levels[j].params| <= n
    requires forall i :: 0 <= i < n ==> i in s.indices
    ensures SelectLevels(levels, offsets, s) == AllParams(levels)
    decreases |levels|
  {
    if levels != [] {
      var k := |levels| - 1;
      var level := levels[k];
      SelectLevelsCovered(levels[..k], offsets[..k], s, n);
      SelectAllOrNone(level.params, s, offsets[k]);
      assert levels == levels[..k] + [level];
      AllParamsAppend(levels[..k], [level]);
      assert AllParams([level]) == level.params + AllParams([]);
    }
  }

  /** A level's index range lies within the total parameter count. */
  lemma AllParamsLengthBound(levels: seq<FnType>, j: nat)
    requires j < |levels|
    ensures |AllParams(levels[j + 1..])| + |levels[j].params| <= |AllParams(levels)|
  {
    assert levels == levels[..j] + ([levels[j]] + levels[j + 1..]);
    AllParamsAppend(levels[..j], [levels[j]] + levels[j + 1..]);
    assert AllParams([levels[j]] + levels[j + 1..]) == levels[j].params + AllParams(levels[j + 1..]);
  }
}
