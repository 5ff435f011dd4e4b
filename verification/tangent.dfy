/**
 * Tangent spaces and `TangentStoredPropertyRequest`: for a stored property
 * of a differentiable type, the matching stored property of the type's
 * `TangentVector`, or the first reason why there is none.
 *
 * Conformance lookup (`getAutoDiffTangentSpace`) and member lookup
 * (`lookupDirect`) are parameters. Declarations are compared by value, and a
 * struct declaration is identified by its name.
 */
module Tangents {
  import opened Types

  /** `TangentSpace`: a `TangentVector` associated type, or a tuple of tangent spaces. */
  datatype TangentSpace =
    | TangentVector(tangentVectorType: Type)
    | Tuple(elements: seq<Type>)
  {
    /** `TangentSpace::getType` (and `getCanonicalType`, as types are canonical here). */
    function GetType(): (r: Type)
      ensures Tuple? ==> r.TupleType? && r.elements == elements
      ensures TangentVector? ==> r == tangentVectorType
    {
      match this
      case TangentVector(t) => t
      case Tuple(es) => TupleType(es)
    }
  }

  /** A stored or computed variable declaration, with what the request reads of it. */
  datatype VarDecl = VarDecl(
    name: string,
    ty: Type,
    hasStorage: bool,
    isInstanceMember: bool,
    noDerivative: bool,
    /** The declared type of the type declaration containing the variable. */
    parentType: Type)

  /** A member found by name lookup: a variable or some other declaration. */
  datatype ValueDecl = VarMember(decl: VarDecl) | OtherMember(name: string)

  /** `TangentPropertyInfo::Error`: its kind, with a type for the wrong-type case. */
  datatype TangentPropertyError =
    | NoDerivativeOriginalProperty
    | NominalParentNotDifferentiable
    | OriginalPropertyNotDifferentiable
    | ParentTangentVectorNotStruct
    | TangentPropertyNotFound
    | TangentPropertyWrongType(ty: Type)
    | TangentPropertyNotStored
  {
    /** The kind alone, without the type of the wrong-type case. */
    function Kind(): nat {
      match this
      case NoDerivativeOriginalProperty => 0
      case NominalParentNotDifferentiable => 1
      case OriginalPropertyNotDifferentiable => 2
      case ParentTangentVectorNotStruct => 3
      case TangentPropertyNotFound => 4
      case TangentPropertyWrongType(_) => 5
      case TangentPropertyNotStored => 6
    }
  }

  /** `operator==` on errors: the kinds must match, and the types too for the wrong-type case. */
  function ErrorEquals(lhs: TangentPropertyError, rhs: TangentPropertyError): (r: bool)
    ensures r <==> lhs == rhs
  {
    if lhs.Kind() != rhs.Kind() then false
    else if lhs.TangentPropertyWrongType? then lhs.ty == rhs.ty
    else true
  }

  /** `TangentPropertyInfo`: the tangent property, or the error that prevents it. */
  datatype TangentPropertyInfo = TangentProperty(property: VarDecl) | Failure(error: TangentPropertyError)

  /** `erase_if` keeping only variable declarations, in their original order. */
  function VarsOnly(members: seq<ValueDecl>): (r: seq<VarDecl>)
    ensures |r| <= |members|
  {
    if members == [] then []
    else if members[0].VarMember? then [members[0].decl] + VarsOnly(members[1..])
    else VarsOnly(members[1..])
  }

  /** `TangentStoredPropertyRequest::evaluate`: the ordered chain of checks. */
  function TangentStoredProperty(originalField: VarDecl,
                                 tangentSpaceOf: Type -> Option<TangentSpace>,
                                 lookupDirect: (string, string) -> seq<ValueDecl>): (r: TangentPropertyInfo)
    requires originalField.hasStorage && originalField.isInstanceMember
    ensures r.TangentProperty? ==>
              && tangentSpaceOf(originalField.ty).Some?
              && r.property.ty == tangentSpaceOf(originalField.ty).value.GetType()
              && r.property.hasStorage
  {
    var parentTan := tangentSpaceOf(originalField.parentType);
    if parentTan.None? then Failure(NominalParentNotDifferentiable)
    else if originalField.noDerivative then Failure(NoDerivativeOriginalProperty)
    else
      var originalFieldTan := tangentSpaceOf(originalField.ty);
      if originalFieldTan.None? then Failure(OriginalPropertyNotDifferentiable)
      else
        var parentTanStruct := StructName(parentTan.value.GetType());
        if parentTanStruct.None? then Failure(ParentTangentVectorNotStruct)
        else
          var candidates :=
            if parentTanStruct == StructName(originalField.parentType) then [originalField]
            else VarsOnly(lookupDirect(parentTanStruct.value, originalField.name));
          if candidates == [] then Failure(TangentPropertyNotFound)
          else
            var tanField := candidates[0];
            var originalFieldTanType := originalFieldTan.value.GetType();
            if originalFieldTanType != tanField.ty then Failure(TangentPropertyWrongType(originalFieldTanType))
            else if !tanField.hasStorage then Failure(TangentPropertyNotStored)
            else TangentProperty(tanField)
  }

  // Properties.

  /** The first variable among the members, if any. */
  function FirstVar(members: seq<ValueDecl>): Option<VarDecl> {
    if members == [] then None
    else if members[0].VarMember? then Some(members[0].decl)
    else FirstVar(members[1..])
  }

  /**
   * Filtering keeps exactly the variables: it is empty iff no member is a
   * variable, and its head is the first variable member.
   */
  lemma {:induction false} VarsOnlyFacts(members: seq<ValueDecl>)
    ensures forall v :: v in VarsOnly(members) <==> VarMember(v) in members
    ensures VarsOnly(members) == [] <==> FirstVar(members).None?
    ensures VarsOnly(members) != [] ==> VarsOnly(members)[0] == FirstVar(members).value
  {
    if members != [] {
      VarsOnlyFacts(members[1..]);
      assert members == [members[0]] + members[1..];
    }
  }

  /**
   * Filtering keeps the variables in their original order: it distributes over
   * concatenation, keeps a lone variable and drops any other lone member.
   */
  lemma {:induction false} VarsOnlyOrder(a: seq<ValueDecl>, b: seq<ValueDecl>, v: VarDecl, name: string)
    ensures VarsOnly(a + b) == VarsOnly(a) + VarsOnly(b)
    ensures VarsOnly([VarMember(v)]) == [v]
    ensures VarsOnly([OtherMember(name)]) == []
  {
    if a == [] {
      assert a + b == b;
    } else {
      VarsOnlyOrder(a[1..], b, v, name);
      assert (a + b)[0] == a[0];
      assert (a + b)[1..] == a[1..] + b;
    }
  }

  /** The parent's tangent space, if it is a struct: the struct the tangent property is looked up in. */
  function TangentStructOf(originalField: VarDecl, tangentSpaceOf: Type -> Option<TangentSpace>): Option<string> {
    var parentTan := tangentSpaceOf(originalField.parentType);
    if parentTan.None? then None else StructName(parentTan.value.GetType())
  }

  /**
   * Each error is returned exactly when its own check fails and every check
   * before it passes, in the order: parent not differentiable, `@noDerivative`,
   * property not differentiable, parent tangent vector not a struct.
   */
  lemma TangentStoredPropertyEarlyErrors(originalField: VarDecl,
                                         tangentSpaceOf: Type -> Option<TangentSpace>,
                                         lookupDirect: (string, string) -> seq<ValueDecl>)
    requires originalField.hasStorage && originalField.isInstanceMember
    ensures var r := TangentStoredProperty(originalField, tangentSpaceOf, lookupDirect);
            var parentOk := tangentSpaceOf(originalField.parentType).Some?;
            var fieldOk := tangentSpaceOf(originalField.ty).Some?;
            && (r == Failure(NominalParentNotDifferentiable) <==> !parentOk)
            && (r == Failure(NoDerivativeOriginalProperty) <==> parentOk && originalField.noDerivative)
            && (r == Failure(OriginalPropertyNotDifferentiable) <==>
                  parentOk && !originalField.noDerivative && !fieldOk)
            && (r == Failure(ParentTangentVectorNotStruct) <==>
                  parentOk && !originalField.noDerivative && fieldOk
                  && TangentStructOf(originalField, tangentSpaceOf).None?)
  {
  }

  /**
   * Once the parent's tangent vector is a struct, the tangent property is the
   * original field when that struct is the parent itself, and otherwise the
   * first variable named like the original field in the struct; the request
   * fails with `TangentPropertyNotFound` iff there is no such variable, then
   * with the wrong-type error carrying the field's tangent type, then with
   * `TangentPropertyNotStored`.
   */
  lemma TangentStoredPropertyLateChecks(originalField: VarDecl,
                                        tangentSpaceOf: Type -> Option<TangentSpace>,
                                        lookupDirect: (string, string) -> seq<ValueDecl>)
    requires originalField.hasStorage && originalField.isInstanceMember
    requires tangentSpaceOf(originalField.parentType).Some? && !originalField.noDerivative
    requires tangentSpaceOf(originalField.ty).Some?
    requires TangentStructOf(originalField, tangentSpaceOf).Some?
    ensures var r := TangentStoredProperty(originalField, tangentSpaceOf, lookupDirect);
            var tanStruct := TangentStructOf(originalField, tangentSpaceOf);
            var isSelf := tanStruct == StructName(originalField.parentType);
            var found: Option<VarDecl> :=
              if isSelf then Some(originalField)
              else FirstVar(lookupDirect(tanStruct.value, originalField.name));
            var fieldTanType := tangentSpaceOf(originalField.ty).value.GetType();
            && (r == Failure(TangentPropertyNotFound) <==> found.None?)
            && (found.Some? && found.value.ty != fieldTanType ==> r == Failure(TangentPropertyWrongType(fieldTanType)))
            && (found.Some? && found.value.ty == fieldTanType && !found.value.hasStorage ==>
                  r == Failure(TangentPropertyNotStored))
            && (r.TangentProperty? <==> found.Some? && found.value.ty == fieldTanType && found.value.hasStorage)
            && (r.TangentProperty? ==> r.property == found.value)
  {
    var tanStruct := TangentStructOf(originalField, tangentSpaceOf);
    VarsOnlyFacts(lookupDirect(tanStruct.value, originalField.name));
  }

  /**
   * A successful request returns a stored property whose type is the original
   * property's tangent type; when the parent is its own tangent vector, that
   * property is the original field itself.
   */
  lemma TangentStoredPropertySuccess(originalField: VarDecl,
                                     tangentSpaceOf: Type -> Option<TangentSpace>,
                                     lookupDirect: (string, string) -> seq<ValueDecl>)
    requires originalField.hasStorage && originalField.isInstanceMember
    ensures var r := TangentStoredProperty(originalField, tangentSpaceOf, lookupDirect);
            r.TangentProperty? ==>
              && tangentSpaceOf(originalField.ty).Some?
              && r.property.ty == tangentSpaceOf(originalField.ty).value.GetType()
              && r.property.hasStorage
              && !originalField.noDerivative
              && (TangentStructOf(originalField, tangentSpaceOf) == StructName(originalField.parentType) ==>
                    r.property == originalField)
  {
  }

  /** A parent whose tangent space is a tuple never has a tangent property. */
  lemma TupleTangentSpaceIsNotStruct(originalField: VarDecl,
                                     tangentSpaceOf: Type -> Option<TangentSpace>,
                                     lookupDirect: (string, string) -> seq<ValueDecl>)
    requires originalField.hasStorage && originalField.isInstanceMember
    requires tangentSpaceOf(originalField.parentType).Some?
    requires tangentSpaceOf(originalField.parentType).value.Tuple?
    ensures var r := TangentStoredProperty(originalField, tangentSpaceOf, lookupDirect);
            && r.Failure?
            && (!originalField.noDerivative && tangentSpaceOf(originalField.ty).Some? ==>
                  r.error == ParentTangentVectorNotStruct)
  {
  }
}
