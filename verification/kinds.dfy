/**
 * The four closed kind enumerations that tag derivative directions, their
 * construction from a token string and their conversions to
 * `AutoDiffDerivativeFunctionKind`.
 *
 * The source constructs each enumeration with a string switch and asserts
 * that the token was recognised; that assertion is the `requires` of each
 * `...FromString` function here. `Token` is the inverse reading of each case.
 */
module Kinds {
  import opened Types

  /** `AutoDiffDerivativeFunctionKind`: forward mode (JVP) or reverse mode (VJP). */
  datatype DerivativeFunctionKind = JVP | VJP {
    function Token(): string {
      match this
      case JVP => "jvp"
      case VJP => "vjp"
    }
  }

  /** `NormalDifferentiableFunctionTypeComponent`. */
  datatype NormalComponent = Original | JVP | VJP {
    function Token(): string {
      match this
      case Original => "original"
      case JVP => "jvp"
      case VJP => "vjp"
    }

    /** `getAsDerivativeFunctionKind`: the derivative direction, none for `Original`. */
    function AsDerivativeFunctionKind(): (r: Option<DerivativeFunctionKind>)
      ensures r.None? <==> this == NormalComponent.Original
      ensures r.Some? ==> r.value.Token() == Token()
    {
      match this
      case Original => None
      case JVP => Some(DerivativeFunctionKind.JVP)
      case VJP => Some(DerivativeFunctionKind.VJP)
    }
  }

  /** `LinearDifferentiableFunctionTypeComponent`. */
  datatype LinearComponent = Original | Transpose {
    function Token(): string {
      match this
      case Original => "original"
      case Transpose => "transpose"
    }
  }

  /** `DifferentiabilityWitnessFunctionKind`. */
  datatype WitnessFunctionKind = JVP | VJP | Transpose {
    function Token(): string {
      match this
      case JVP => "jvp"
      case VJP => "vjp"
      case Transpose => "transpose"
    }

    /** `getAsDerivativeFunctionKind`: the derivative direction, none for `Transpose`. */
    function AsDerivativeFunctionKind(): (r: Option<DerivativeFunctionKind>)
      ensures r.None? <==> this == WitnessFunctionKind.Transpose
      ensures r.Some? ==> r.value.Token() == Token()
    {
      match this
      case JVP => Some(DerivativeFunctionKind.JVP)
      case VJP => Some(DerivativeFunctionKind.VJP)
      case Transpose => None
    }
  }

  /** `AutoDiffDerivativeFunctionKind(StringRef)`: accepts "jvp" and "vjp" only. */
  function DerivativeFunctionKindFromString(s: string): (r: DerivativeFunctionKind)
    requires s == "jvp" || s == "vjp"
    ensures r.Token() == s
  {
    if s == "jvp" then DerivativeFunctionKind.JVP else DerivativeFunctionKind.VJP
  }

  /** `NormalDifferentiableFunctionTypeComponent(AutoDiffDerivativeFunctionKind)`. */
  function NormalComponentFromKind(kind: DerivativeFunctionKind): (r: NormalComponent)
    ensures r.AsDerivativeFunctionKind() == Some(kind)
  {
    match kind
    case JVP => NormalComponent.JVP
    case VJP => NormalComponent.VJP
  }

  /** `NormalDifferentiableFunctionTypeComponent(StringRef)`: "original", "jvp" or "vjp". */
  function NormalComponentFromString(s: string): (r: NormalComponent)
    requires s == "original" || s == "jvp" || s == "vjp"
    ensures r.Token() == s
  {
    if s == "original" then NormalComponent.Original
    else if s == "jvp" then NormalComponent.JVP
    else NormalComponent.VJP
  }

  /** `LinearDifferentiableFunctionTypeComponent(StringRef)`: "original" or "transpose". */
  function LinearComponentFromString(s: string): (r: LinearComponent)
    requires s == "original" || s == "transpose"
    ensures r.Token() == s
  {
    if s == "original" then LinearComponent.Original else LinearComponent.Transpose
  }

  /** `DifferentiabilityWitnessFunctionKind(StringRef)`: "jvp", "vjp" or "transpose". */
  function WitnessFunctionKindFromString(s: string): (r: WitnessFunctionKind)
    requires s == "jvp" || s == "vjp" || s == "transpose"
    ensures r.Token() == s
  {
    if s == "jvp" then WitnessFunctionKind.JVP
    else if s == "vjp" then WitnessFunctionKind.VJP
    else WitnessFunctionKind.Transpose
  }

  /** Reading a case's token back yields the same case, for every enumeration. */
  lemma TokenRoundTrips(d: DerivativeFunctionKind, n: NormalComponent, l: LinearComponent, w: WitnessFunctionKind)
    ensures DerivativeFunctionKindFromString(d.Token()) == d
    ensures NormalComponentFromString(n.Token()) == n
    ensures LinearComponentFromString(l.Token()) == l
    ensures WitnessFunctionKindFromString(w.Token()) == w
  {
  }

  /**
   * Converting a derivative kind into a normal component and back yields the
   * same kind, and every normal component other than `Original` arises this way.
   */
  lemma NormalComponentConversionRoundTrip(kind: DerivativeFunctionKind, n: NormalComponent)
    ensures NormalComponentFromKind(kind).AsDerivativeFunctionKind() == Some(kind)
    ensures n != NormalComponent.Original ==> NormalComponentFromKind(n.AsDerivativeFunctionKind().value) == n
  {
  }
}
