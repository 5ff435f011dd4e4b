/**
 * `autodiff::getConstrainedDerivativeGenericSignature`: the generic signature
 * of a derivative, which adds to the original's signature a `Differentiable`
 * conformance for every differentiability parameter and, for a transpose,
 * the requirement that each such parameter is its own tangent vector.
 *
 * Building the new signature (`AbstractGenericSignatureRequest`) and the
 * tangent-space lookup are parameters.
 */
module DerivativeSignatures {
  import opened Types
  import opened IndexSubsets
  import opened Tangents

  /** What the function reads of a `SILFunctionType`: parameter types and invocation signature. */
  datatype SILFunctionType = SILFunctionType(
    parameters: seq<Type>,
    invocationGenericSignature: Option<GenericSignature>)

  /** The requirements added for one differentiability parameter. */
  function ParamRequirements(paramType: Type, isTranspose: bool,
                             tangentSpaceOf: Type -> Option<TangentSpace>): seq<Requirement>
    requires isTranspose ==> tangentSpaceOf(paramType).Some?
  {
    [Requirement(Conformance, paramType, DifferentiableProtocol)]
      + (if isTranspose then [Requirement(SameType, paramType, tangentSpaceOf(paramType).value.GetType())] else [])
  }

  /** Every listed index is a parameter position, and has a tangent space when building a transpose. */
  predicate IndicesUsable(params: seq<Type>, idx: seq<nat>, isTranspose: bool,
                          tangentSpaceOf: Type -> Option<TangentSpace>)
  {
    forall k :: 0 <= k < |idx| ==>
      idx[k] < |params| && (isTranspose ==> tangentSpaceOf(params[idx[k]]).Some?)
  }

  /** The requirements for the parameters at positions `idx`, in that order. */
  function RequirementsFor(params: seq<Type>, idx: seq<nat>, isTranspose: bool,
                           tangentSpaceOf: Type -> Option<TangentSpace>): seq<Requirement>
    requires IndicesUsable(params, idx, isTranspose, tangentSpaceOf)
  {
    if idx == [] then []
    else
      RequirementsFor(params, idx[..|idx| - 1], isTranspose, tangentSpaceOf)
        + ParamRequirements(params[idx[|idx| - 1]], isTranspose, tangentSpaceOf)
  }

  /**
   * Once it has a signature to build on, the source reads the parameter at
   * every differentiability index, and for a transpose dereferences its
   * tangent space without a check.
   */
  ghost predicate SignaturePreconditions(originalFnTy: SILFunctionType, diffParamIndices: IndexSubset,
                                         isTranspose: bool, tangentSpaceOf: Type -> Option<TangentSpace>)
  {
    && diffParamIndices.Valid()
    && IndicesUsable(originalFnTy.parameters, diffParamIndices.GetIndices(), isTranspose, tangentSpaceOf)
  }

  /** Without a derivative or an invocation signature the source returns before reading any parameter. */
  ghost predicate BasePreconditions(originalFnTy: SILFunctionType, diffParamIndices: IndexSubset,
                                    derivativeGenSig: Option<GenericSignature>, isTranspose: bool,
                                    tangentSpaceOf: Type -> Option<TangentSpace>)
  {
    (derivativeGenSig.Some? || originalFnTy.invocationGenericSignature.Some?) ==>
      SignaturePreconditions(originalFnTy, diffParamIndices, isTranspose, tangentSpaceOf)
  }

  /** What `getConstrainedDerivativeGenericSignature` returns. */
  function ConstrainedDerivativeGenericSignature(
    originalFnTy: SILFunctionType, diffParamIndices: IndexSubset,
    derivativeGenSig: Option<GenericSignature>, isTranspose: bool,
    tangentSpaceOf: Type -> Option<TangentSpace>,
    buildSignature: (GenericSignature, seq<Requirement>) -> Option<GenericSignature>): Option<GenericSignature>
    requires BasePreconditions(originalFnTy, diffParamIndices, derivativeGenSig, isTranspose, tangentSpaceOf)
  {
    var baseSig := if derivativeGenSig.Some? then derivativeGenSig else originalFnTy.invocationGenericSignature;
    if baseSig.None? then None
    else
      var idx := diffParamIndices.GetIndices();
      buildSignature(baseSig.value, RequirementsFor(originalFnTy.parameters, idx, isTranspose, tangentSpaceOf))
  }

  /** `autodiff::getConstrainedDerivativeGenericSignature`. */
  method GetConstrainedDerivativeGenericSignature(
    originalFnTy: SILFunctionType, diffParamIndices: IndexSubset,
    derivativeGenSig: Option<GenericSignature>, isTranspose: bool,
    tangentSpaceOf: Type -> Option<TangentSpace>,
    buildSignature: (GenericSignature, seq<Requirement>) -> Option<GenericSignature>)
    returns (r: Option<GenericSignature>)
    requires BasePreconditions(originalFnTy, diffParamIndices, derivativeGenSig, isTranspose, tangentSpaceOf)
    ensures r == ConstrainedDerivativeGenericSignature(originalFnTy, diffParamIndices, derivativeGenSig,
                                                       isTranspose, tangentSpaceOf, buildSignature)
  {
    var sig := derivativeGenSig;
    if sig.None? {
      sig := originalFnTy.invocationGenericSignature;
    }
    if sig.None? {
      return None;
    }
    var idx := diffParamIndices.GetIndices();
    var requirements := CollectRequirements(originalFnTy.parameters, idx, isTranspose, tangentSpaceOf);
    r := buildSignature(sig.value, requirements);
  }

  /** The loop over the differentiability indices, pushing each parameter's requirements. */
  method CollectRequirements(params: seq<Type>, idx: seq<nat>, isTranspose: bool,
                             tangentSpaceOf: Type -> Option<TangentSpace>)
    returns (requirements: seq<Requirement>)
    requires IndicesUsable(params, idx, isTranspose, tangentSpaceOf)
    ensures requirements == RequirementsFor(params, idx, isTranspose, tangentSpaceOf)
  {
    requirements := [];
    var k := 0;
    while k < |idx|
      invariant k <= |idx|
      invariant requirements == RequirementsFor(params, idx[..k], isTranspose, tangentSpaceOf)
    {
      assert idx[..k + 1][..k] == idx[..k];
      var paramType := params[idx[k]];
      requirements := requirements + [Requirement(Conformance, paramType, DifferentiableProtocol)];
      if isTranspose {
        var paramTanType := tangentSpaceOf(paramType).value.GetType();
        requirements := requirements + [Requirement(SameType, paramType, paramTanType)];
      }
      k := k + 1;
    }
    assert idx[..k] == idx;
  }

  // Properties.

  /** How many requirements each parameter adds. */
  function Width(isTranspose: bool): nat {
    if isTranspose then 2 else 1
  }

  /**
   * The list has `Width` entries per index. The entry block of the parameter
   * listed `p`-th starts with its `Differentiable` conformance and, for a
   * transpose, continues with `paramType == paramType.TangentVector`.
   */
  lemma {:induction false} RequirementsForShape(params: seq<Type>, idx: seq<nat>, isTranspose: bool,
                                                tangentSpaceOf: Type -> Option<TangentSpace>, p: nat)
    requires IndicesUsable(params, idx, isTranspose, tangentSpaceOf)
    ensures var r := RequirementsFor(params, idx, isTranspose, tangentSpaceOf);
            && |r| == |idx| * Width(isTranspose)
            && (p < |idx| ==>
                  var t := params[idx[p]];
                  && r[p * Width(isTranspose)] == Requirement(Conformance, t, DifferentiableProtocol)
                  && (isTranspose ==>
                        r[p * Width(isTranspose) + 1] == Requirement(SameType, t, tangentSpaceOf(t).value.GetType())))
  {
    if idx != [] {
      var n := |idx|;
      var w := Width(isTranspose);
      RequirementsForShape(params, idx[..n - 1], isTranspose, tangentSpaceOf, p);
      assert (n - 1) * w + w == n * w;
      if p < n - 1 {
        assert p * w + w <= (n - 1) * w;
        assert idx[..n - 1][p] == idx[p];
      } else if p == n - 1 {
        assert p * w == (n - 1) * w;
      }
    }
  }

  /**
   * No signature is produced when neither a derivative signature nor an
   * invocation signature is at hand. Otherwise the given derivative signature
   * takes precedence and the builder's answer, success or failure, is the result.
   */
  lemma ConstrainedSignatureBase(
    originalFnTy: SILFunctionType, diffParamIndices: IndexSubset,
    derivativeGenSig: Option<GenericSignature>, isTranspose: bool,
    tangentSpaceOf: Type -> Option<TangentSpace>,
    buildSignature: (GenericSignature, seq<Requirement>) -> Option<GenericSignature>)
    requires BasePreconditions(originalFnTy, diffParamIndices, derivativeGenSig, isTranspose, tangentSpaceOf)
    ensures var r := ConstrainedDerivativeGenericSignature(originalFnTy, diffParamIndices, derivativeGenSig,
                                                           isTranspose, tangentSpaceOf, buildSignature);
            && (derivativeGenSig.None? && originalFnTy.invocationGenericSignature.None? ==> r.None?)
            && (derivativeGenSig.Some? ==>
                  r == buildSignature(derivativeGenSig.value,
                                      RequirementsFor(originalFnTy.parameters, diffParamIndices.GetIndices(),
                                                      isTranspose, tangentSpaceOf)))
            && (derivativeGenSig.None? && originalFnTy.invocationGenericSignature.Some? ==>
                  r == buildSignature(originalFnTy.invocationGenericSignature.value,
                                      RequirementsFor(originalFnTy.parameters, diffParamIndices.GetIndices(),
                                                      isTranspose, tangentSpaceOf)))
  {
  }

  /**
   * With neither signature there is nothing to build on: the result is none
   * whatever the indices, even ones that are no parameter position.
   */
  lemma NoBaseSignatureAnyIndices(
    originalFnTy: SILFunctionType, diffParamIndices: IndexSubset, isTranspose: bool,
    tangentSpaceOf: Type -> Option<TangentSpace>,
    buildSignature: (GenericSignature, seq<Requirement>) -> Option<GenericSignature>)
    requires originalFnTy.invocationGenericSignature.None?
    ensures BasePreconditions(originalFnTy, diffParamIndices, None, isTranspose, tangentSpaceOf)
    ensures ConstrainedDerivativeGenericSignature(originalFnTy, diffParamIndices, None,
                                                  isTranspose, tangentSpaceOf, buildSignature).None?
  {
  }

  /**
   * The requirements given to the builder: one block per differentiability
   * index, in ascending index order, so the list has |indices| entries, or
   * twice as many for a transpose.
   */
  lemma DerivativeRequirements(originalFnTy: SILFunctionType, diffParamIndices: IndexSubset,
                               isTranspose: bool, tangentSpaceOf: Type -> Option<TangentSpace>, p: nat)
    requires SignaturePreconditions(originalFnTy, diffParamIndices, isTranspose, tangentSpaceOf)
    ensures var idx := diffParamIndices.GetIndices();
            var r := RequirementsFor(originalFnTy.parameters, idx, isTranspose, tangentSpaceOf);
            && |idx| == |diffParamIndices.indices|
            && |r| == |idx| * Width(isTranspose)
            && StrictlyAscending(idx)
            && (p < |idx| ==>
                  idx[p] in diffParamIndices.indices
                  && r[p * Width(isTranspose)]
                     == Requirement(Conformance, originalFnTy.parameters[idx[p]], DifferentiableProtocol))
  {
    var idx := diffParamIndices.GetIndices();
    GetIndicesLength(diffParamIndices);
    RequirementsForShape(originalFnTy.parameters, idx, isTranspose, tangentSpaceOf, p);
  }
}
