/**
 * `autodiff::getFunctionSemanticResultTypes`: the values a derivative must
 * account for. They are the formal result, unless it is `()`, followed by
 * every `inout` parameter, because an `inout` parameter's final value is
 * returned to the caller as well. At most one curry level is unwrapped.
 */
module SemanticResults {
  import opened Types

  /** `AutoDiffSemanticFunctionResultType`. */
  datatype SemanticResultType = SemanticResultType(ty: Type, isInout: bool)

  /** Maps a type into the generic environment when one is given (`mapTypeIntoContext`). */
  function Remap(genericEnv: Option<Type -> Type>, t: Type): Type {
    if genericEnv.None? then t else genericEnv.value(t)
  }

  /** The formal result: the inner level's result when the result is a function type. */
  function FormalResultType(fn: FnType): Type {
    if fn.result.FunctionType? then fn.result.fn.result else fn.result
  }

  /** One `inout` semantic result per `inout` parameter, in parameter order. */
  function InoutResults(params: seq<Param>, genericEnv: Option<Type -> Type>): seq<SemanticResultType>
  {
    if params == [] then []
    else
      var last := params[|params| - 1];
      InoutResults(params[..|params| - 1], genericEnv)
        + (if last.isInout then [SemanticResultType(Remap(genericEnv, last.ty), true)] else [])
  }

  /** The semantic results of a function type. */
  function SemanticResultTypes(fn: FnType, genericEnv: Option<Type -> Type>): seq<SemanticResultType>
  {
    var formal := FormalResultType(fn);
    (if formal != EmptyTuple then [SemanticResultType(Remap(genericEnv, formal), false)] else [])
      + InoutResults(fn.params, genericEnv)
      + (if fn.result.FunctionType? then InoutResults(fn.result.fn.params, genericEnv) else [])
  }

  /**
   * `getFunctionSemanticResultTypes`: appends the semantic results of
   * `functionType` to the entries `prior` already in the output vector.
   */
  method GetFunctionSemanticResultTypes(functionType: FnType, prior: seq<SemanticResultType>,
                                        genericEnv: Option<Type -> Type>)
    returns (result: seq<SemanticResultType>)
    ensures result == prior + SemanticResultTypes(functionType, genericEnv)
  {
    result := prior;
    var formalResultType := functionType.result;
    if functionType.result.FunctionType? {
      formalResultType := functionType.result.fn.result;
    }
    ghost var formal: seq<SemanticResultType> := [];
    if formalResultType != EmptyTuple {
      result := result + [SemanticResultType(Remap(genericEnv, formalResultType), false)];
      formal := [SemanticResultType(Remap(genericEnv, formalResultType), false)];
    }
    result := AppendInoutParams(result, functionType.params, genericEnv);
    ghost var inner: seq<SemanticResultType> := [];
    if functionType.result.FunctionType? {
      inner := InoutResults(functionType.result.fn.params, genericEnv);
      result := AppendInoutParams(result, functionType.result.fn.params, genericEnv);
    } else {
      assert result == result + inner;
    }
    Regroup(prior, formal, InoutResults(functionType.params, genericEnv), inner);
  }

  /** Associativity of the four appended pieces, stated once so the method need not reprove it. */
  lemma Regroup<T>(a: seq<T>, b: seq<T>, c: seq<T>, d: seq<T>)
    ensures a + b + c + d == a + (b + c + d)
  {
  }

  /** One of the two loops over a level's parameters, pushing the `inout` ones. */
  method AppendInoutParams(prior: seq<SemanticResultType>, params: seq<Param>, genericEnv: Option<Type -> Type>)
    returns (result: seq<SemanticResultType>)
    ensures result == prior + InoutResults(params, genericEnv)
  {
    result := prior;
    var k := 0;
    while k < |params|
      invariant 0 <= k <= |params|
      invariant result == prior + InoutResults(params[..k], genericEnv)
    {
      assert params[..k + 1][..k] == params[..k];
      var param := params[k];
      if param.isInout {
        result := result + [SemanticResultType(Remap(genericEnv, param.ty), true)];
      }
      k := k + 1;
    }
    assert params[..k] == params;
  }

  // Properties.

  /** The positions of the `inout` parameters. */
  ghost function InoutPositions(params: seq<Param>): set<nat> {
    set k | 0 <= k < |params| && params[k].isInout
  }

  ghost function InoutCount(params: seq<Param>): nat {
    |InoutPositions(params)|
  }

  lemma InoutPositionsStep(params: seq<Param>)
    requires params != []
    ensures var n := |params|;
            InoutPositions(params)
            == InoutPositions(params[..n - 1]) + (if params[n - 1].isInout then {n - 1} else {})
  {
    var n := |params|;
    var init := params[..n - 1];
    assert InoutPositions(init) == set k | 0 <= k < n - 1 && params[k].isInout;
  }

  lemma {:induction false} InoutResultsShape(params: seq<Param>, genericEnv: Option<Type -> Type>)
    ensures |InoutResults(params, genericEnv)| == InoutCount(params)
    ensures forall k :: 0 <= k < |InoutResults(params, genericEnv)| ==> InoutResults(params, genericEnv)[k].isInout
  {
    if params != [] {
      var n := |params|;
      InoutResultsShape(params[..n - 1], genericEnv);
      InoutPositionsStep(params);
      assert n - 1 !in InoutPositions(params[..n - 1]);
    }
  }

  /**
   * The output has one entry for a non-`()` formal result, listed first and
   * not `inout`, and then one `inout` entry per `inout` parameter of the outer
   * level and, when the result is a function type, of the inner level.
   */
  lemma SemanticResultTypesShape(fn: FnType, genericEnv: Option<Type -> Type>)
    ensures var r := SemanticResultTypes(fn, genericEnv);
            var formalCount := if FormalResultType(fn) != EmptyTuple then 1 else 0;
            && |r| == formalCount + InoutCount(fn.params)
                        + (if fn.result.FunctionType? then InoutCount(fn.result.fn.params) else 0)
            && (formalCount == 1 ==> r[0] == SemanticResultType(Remap(genericEnv, FormalResultType(fn)), false))
            && (forall k :: formalCount <= k < |r| ==> r[k].isInout)
            && (r != [] && !r[0].isInout <==> FormalResultType(fn) != EmptyTuple)
  {
    InoutResultsShape(fn.params, genericEnv);
    if fn.result.FunctionType? {
      InoutResultsShape(fn.result.fn.params, genericEnv);
    }
    var r := SemanticResultTypes(fn, genericEnv);
    var formalCount := if FormalResultType(fn) != EmptyTuple then 1 else 0;
    var outer := InoutResults(fn.params, genericEnv);
    var inner := if fn.result.FunctionType? then InoutResults(fn.result.fn.params, genericEnv) else [];
    assert r[formalCount..] == outer + inner;
    forall k | formalCount <= k < |r| ensures r[k].isInout {
      assert r[k] == (outer + inner)[k - formalCount];
    }
  }

  /** Applying the generic environment to every type of the plain result list gives the remapped list. */
  lemma {:induction false} InoutResultsRemap(params: seq<Param>, f: Type -> Type)
    ensures InoutResults(params, Some(f)) == RemapAll(InoutResults(params, None), f)
  {
    if params != [] {
      InoutResultsRemap(params[..|params| - 1], f);
      var last := params[|params| - 1];
      RemapAllAppend(InoutResults(params[..|params| - 1], None),
                     if last.isInout then [SemanticResultType(last.ty, true)] else [], f);
    }
  }

  function RemapAll(rs: seq<SemanticResultType>, f: Type -> Type): (r: seq<SemanticResultType>)
    ensures |r| == |rs|
  {
    if rs == [] then [] else [rs[0].(ty := f(rs[0].ty))] + RemapAll(rs[1..], f)
  }

  lemma {:induction false} RemapAllAppend(a: seq<SemanticResultType>, b: seq<SemanticResultType>, f: Type -> Type)
    ensures RemapAll(a + b, f) == RemapAll(a, f) + RemapAll(b, f)
  {
    if a != [] {
      assert (a + b)[0] == a[0];
      assert (a + b)[1..] == a[1..] + b;
      RemapAllAppend(a[1..], b, f);
    } else {
      assert a + b == b;
    }
  }

  /**
   * The generic environment only rewrites types: the results with an
   * environment are those without one, with every type mapped into it.
   */
  lemma SemanticResultTypesRemap(fn: FnType, f: Type -> Type)
    ensures SemanticResultTypes(fn, Some(f)) == RemapAll(SemanticResultTypes(fn, None), f)
  {
    var formal := FormalResultType(fn);
    var head: seq<SemanticResultType> := if formal != EmptyTuple then [SemanticResultType(formal, false)] else [];
    var outer := InoutResults(fn.params, None);
    var inner := if fn.result.FunctionType? then InoutResults(fn.result.fn.params, None) else [];
    InoutResultsRemap(fn.params, f);
    if fn.result.FunctionType? {
      InoutResultsRemap(fn.result.fn.params, f);
    }
    RemapAllAppend(head + outer, inner, f);
    RemapAllAppend(head, outer, f);
    if formal != EmptyTuple {
      assert RemapAll(head, f) == [SemanticResultType(f(formal), false)];
    }
  }

  /**
   * Only one curry level is unwrapped: for `(A) -> (B) -> (C) -> D` the
   * formal result is the function type `(C) -> D`, and the `inout`
   * parameters of the third level are not semantic results.
   */
  lemma OnlyOneLevelUnwrapped(a: seq<Param>, b: seq<Param>, c: seq<Param>, d: Type)
    ensures var fn := FnType(a, FunctionType(FnType(b, FunctionType(FnType(c, d)))));
            var withoutC := FnType(a, FunctionType(FnType(b, FunctionType(FnType([], d)))));
            && SemanticResultTypes(fn, None)[0] == SemanticResultType(FunctionType(FnType(c, d)), false)
            && SemanticResultTypes(fn, None)[1..] == SemanticResultTypes(withoutC, None)[1..]
  {
  }

  /** The worked examples: `(inout Int) -> ()`, `(Int) -> String` and `(inout Int) -> String`. */
  lemma SemanticResultTypesExamples()
    ensures var intTy := NominalType("Int", Struct); var stringTy := NominalType("String", Struct);
            && SemanticResultTypes(FnType([Param(intTy, true)], EmptyTuple), None) == [SemanticResultType(intTy, true)]
            && SemanticResultTypes(FnType([Param(intTy, false)], stringTy), None) == [SemanticResultType(stringTy, false)]
            && SemanticResultTypes(FnType([Param(intTy, true)], stringTy), None)
               == [SemanticResultType(stringTy, false), SemanticResultType(intTy, true)]
  {
    var intTy := NominalType("Int", Struct); var stringTy := NominalType("String", Struct);
    assert [Param(intTy, true)][..0] == [];
    assert [Param(intTy, false)][..0] == [];
  }
}
