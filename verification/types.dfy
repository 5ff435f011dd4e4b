/**
 * The small abstract type universe the differentiability metadata works on.
 * Types are compared structurally: canonicalisation and pointer identity of
 * types and declarations are not modelled.
 */
module Types {

  datatype Option<+T> = None | Some(value: T)

  /** What kind of nominal declaration a nominal type names. */
  datatype NominalKind = Struct | Class | Enum | Protocol

  datatype Type =
    | TupleType(elements: seq<Type>)
    | FunctionType(fn: FnType)
    | NominalType(name: string, kind: NominalKind)
    | GenericParam(name: string)

  /** One parameter of a function type: its plain type and its `inout` flag. */
  datatype Param = Param(ty: Type, isInout: bool)

  /** A function type: a parameter list and a result, which may itself be a function type. */
  datatype FnType = FnType(params: seq<Param>, result: Type)

  datatype RequirementKind = Conformance | SameType

  /** A generic requirement: `first` conforms to `second`, or `first == second`. */
  datatype Requirement = Requirement(kind: RequirementKind, first: Type, second: Type)

  /** A generic signature: its generic parameters and requirements. */
  datatype GenericSignature = GenericSignature(params: seq<Type>, requirements: seq<Requirement>)

  /** The empty tuple `()`, also spelled `Void`. */
  const EmptyTuple: Type := TupleType([])

  /** The declared type of the `Differentiable` protocol. */
  const DifferentiableProtocol: Type := NominalType("Differentiable", Protocol)

  /** The struct a type names, if it names one (`getStructOrBoundGenericStruct`). */
  function StructName(t: Type): (r: Option<string>)
    ensures r.Some? <==> t.NominalType? && t.kind == Struct
    ensures r.Some? ==> r.value == t.name
  {
    if t.NominalType? && t.kind == Struct then Some(t.name) else None
  }
}
