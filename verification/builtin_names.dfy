/**
 * Decoding of the automatic-differentiation builtin names
 * `applyDerivative_{jvp|vjp}[_arity<n>][_throws]`,
 * `applyTranspose[_arity<n>][_throws]` and
 * `{differentiableFunction|linearFunction}[_arity<n>][_throws]`.
 *
 * The parsers consume the operation name from the front and report success
 * when nothing is left. The arity and throwing flag are out-parameters of the
 * source; here the methods take their incoming values and return the
 * outgoing ones, so that a parser returning early leaves them as they were.
 */
module BuiltinNames {
  import opened Types
  import opened Numerals
  import opened Kinds

  predicate StartsWith(s: string, prefix: string) {
    |prefix| <= |s| && s[..|prefix|] == prefix
  }

  /** What the common suffix parser leaves: the rest of the name, the arity and the throwing flag. */
  datatype CommonConfig = CommonConfig(rest: string, arity: nat, throws: bool)

  /**
   * The source asserts that an `_arity` clause carries digits that
   * `to_integer` reads as a positive 32-bit value.
   */
  predicate CommonConfigDefined(s: string) {
    StartsWith(s, "_arity") ==>
      var digits := TakeDigits(s[6..]);
      ToUnsigned(digits).Some? && ToUnsigned(digits).value > 0
  }

  /** The `_arity<digits>` clause, if present: what follows it, and the arity (1 when absent). */
  function ReadArity(s: string): (r: (string, nat))
    requires CommonConfigDefined(s)
    ensures |r.0| <= |s| && r.0 == s[|s| - |r.0|..]
    ensures 0 < r.1 < UnsignedLimit
  {
    if StartsWith(s, "_arity") then
      var digits := TakeDigits(s[6..]);
      (s[6 + |digits|..], ToUnsigned(digits).value)
    else (s, 1)
  }

  /** The `_throws` clause, if present, after the arity has been read. */
  function ReadThrows(u: string, arity: nat): (r: CommonConfig)
    ensures |r.rest| <= |u| && r.rest == u[|u| - |r.rest|..]
    ensures r.arity == arity
  {
    if StartsWith(u, "_throws") then CommonConfig(u[7..], arity, true)
    else CommonConfig(u, arity, false)
  }

  /** What `parseAutoDiffBuiltinCommonConfig` computes. */
  function CommonConfigOf(s: string): (r: CommonConfig)
    requires CommonConfigDefined(s)
    ensures |r.rest| <= |s| && r.rest == s[|s| - |r.rest|..]
    ensures 0 < r.arity < UnsignedLimit
  {
    var (u, arity) := ReadArity(s);
    ReadThrows(u, arity)
  }

  /** `parseAutoDiffBuiltinCommonConfig`: consumes `_arity<digits>` and then `_throws`, each if present. */
  method ParseAutoDiffBuiltinCommonConfig(operationNameIn: string)
    returns (operationName: string, arity: nat, throws: bool)
    requires CommonConfigDefined(operationNameIn)
    ensures CommonConfig(operationName, arity, throws) == CommonConfigOf(operationNameIn)
  {
    operationName := operationNameIn;
    if StartsWith(operationName, "_arity") {
      operationName := operationName[6..];
      var arityStr := TakeDigits(operationName);
      operationName := operationName[|arityStr|..];
      var converted := ToUnsigned(arityStr);
      arity := converted.value;
    } else {
      arity := 1;
    }
    if StartsWith(operationName, "_throws") {
      operationName := operationName[7..];
      throws := true;
    } else {
      throws := false;
    }
  }

  /** The outcome of `getBuiltinApplyDerivativeConfig`: success and the out-parameters. */
  datatype DerivativeConfig = DerivativeConfig(ok: bool, kind: DerivativeFunctionKind, arity: nat, throws: bool)

  /** The outcome of the other two entry points. */
  datatype ArityConfig = ArityConfig(ok: bool, arity: nat, throws: bool)

  /**
   * The source drops four characters after `applyDerivative` whatever they
   * are, which `drop_front` asserts are there.
   */
  predicate ApplyDerivativeDefined(name: string) {
    StartsWith(name, "applyDerivative") ==> |name| >= 19 && CommonConfigDefined(name[19..])
  }

  /** What `getBuiltinApplyDerivativeConfig` computes, as written. */
  function ApplyDerivativeConfig(name: string, kindIn: DerivativeFunctionKind, arityIn: nat, throwsIn: bool)
    : (r: DerivativeConfig)
    requires ApplyDerivativeDefined(name)
    ensures !StartsWith(name, "applyDerivative") ==> r == DerivativeConfig(false, kindIn, arityIn, throwsIn)
  {
    if !StartsWith(name, "applyDerivative") then DerivativeConfig(false, kindIn, arityIn, throwsIn)
    else
      var s := name[15..];
      var kind :=
        if StartsWith(s, "_jvp") then DerivativeFunctionKind.JVP
        else if StartsWith(s, "_vjp") then DerivativeFunctionKind.VJP
        else kindIn;
      var c := CommonConfigOf(s[4..]);
      DerivativeConfig(c.rest == [], kind, c.arity, c.throws)
  }

  /** `autodiff::getBuiltinApplyDerivativeConfig`. */
  method GetBuiltinApplyDerivativeConfig(operationNameIn: string, kindIn: DerivativeFunctionKind,
                                         arityIn: nat, throwsIn: bool)
    returns (ok: bool, kind: DerivativeFunctionKind, arity: nat, throws: bool)
    requires ApplyDerivativeDefined(operationNameIn)
    ensures DerivativeConfig(ok, kind, arity, throws) == ApplyDerivativeConfig(operationNameIn, kindIn, arityIn, throwsIn)
  {
    kind, arity, throws := kindIn, arityIn, throwsIn;
    var operationName := operationNameIn;
    if !StartsWith(operationName, "applyDerivative") {
      return false, kind, arity, throws;
    }
    operationName := operationName[15..];
    if StartsWith(operationName, "_jvp") {
      kind := DerivativeFunctionKind.JVP;
    } else if StartsWith(operationName, "_vjp") {
      kind := DerivativeFunctionKind.VJP;
    }
    operationName := operationName[4..];
    operationName, arity, throws := ParseAutoDiffBuiltinCommonConfig(operationName);
    ok := operationName == [];
  }

  predicate ApplyTransposeDefined(name: string) {
    StartsWith(name, "applyTranspose") ==> CommonConfigDefined(name[14..])
  }

  /** What `getBuiltinApplyTransposeConfig` computes. */
  function ApplyTransposeConfig(name: string, arityIn: nat, throwsIn: bool): (r: ArityConfig)
    requires ApplyTransposeDefined(name)
    ensures !StartsWith(name, "applyTranspose") ==> r == ArityConfig(false, arityIn, throwsIn)
  {
    if !StartsWith(name, "applyTranspose") then ArityConfig(false, arityIn, throwsIn)
    else
      var c := CommonConfigOf(name[14..]);
      ArityConfig(c.rest == [], c.arity, c.throws)
  }

  /** `autodiff::getBuiltinApplyTransposeConfig`. */
  method GetBuiltinApplyTransposeConfig(operationNameIn: string, arityIn: nat, throwsIn: bool)
    returns (ok: bool, arity: nat, throws: bool)
    requires ApplyTransposeDefined(operationNameIn)
    ensures ArityConfig(ok, arity, throws) == ApplyTransposeConfig(operationNameIn, arityIn, throwsIn)
  {
    arity, throws := arityIn, throwsIn;
    var operationName := operationNameIn;
    if !StartsWith(operationName, "applyTranspose") {
      return false, arity, throws;
    }
    operationName := operationName[14..];
    operationName, arity, throws := ParseAutoDiffBuiltinCommonConfig(operationName);
    ok := operationName == [];
  }

  /** The length of the function-kind prefix of `name`, if it has one; `differentiableFunction` is tried first. */
  function FunctionPrefixLength(name: string): (r: nat)
    ensures r == 22 <==> StartsWith(name, "differentiableFunction")
    ensures r == 14 <==> !StartsWith(name, "differentiableFunction") && StartsWith(name, "linearFunction")
    ensures r == 0 <==> !StartsWith(name, "differentiableFunction") && !StartsWith(name, "linearFunction")
  {
    if StartsWith(name, "differentiableFunction") then 22
    else if StartsWith(name, "linearFunction") then 14
    else 0
  }

  predicate DifferentiableOrLinearDefined(name: string) {
    FunctionPrefixLength(name) > 0 ==> CommonConfigDefined(name[FunctionPrefixLength(name)..])
  }

  /** What `getBuiltinDifferentiableOrLinearFunctionConfig` computes. */
  function DifferentiableOrLinearConfig(name: string, arityIn: nat, throwsIn: bool): (r: ArityConfig)
    requires DifferentiableOrLinearDefined(name)
    ensures FunctionPrefixLength(name) == 0 ==> r == ArityConfig(false, arityIn, throwsIn)
  {
    var n := FunctionPrefixLength(name);
    if n == 0 then ArityConfig(false, arityIn, throwsIn)
    else
      var c := CommonConfigOf(name[n..]);
      ArityConfig(c.rest == [], c.arity, c.throws)
  }

  /** `autodiff::getBuiltinDifferentiableOrLinearFunctionConfig`. */
  method GetBuiltinDifferentiableOrLinearFunctionConfig(operationNameIn: string, arityIn: nat, throwsIn: bool)
    returns (ok: bool, arity: nat, throws: bool)
    requires DifferentiableOrLinearDefined(operationNameIn)
    ensures ArityConfig(ok, arity, throws) == DifferentiableOrLinearConfig(operationNameIn, arityIn, throwsIn)
  {
    arity, throws := arityIn, throwsIn;
    var operationName := operationNameIn;
    if StartsWith(operationName, "differentiableFunction") {
      operationName := operationName[22..];
    } else if StartsWith(operationName, "linearFunction") {
      operationName := operationName[14..];
    } else {
      return false, arity, throws;
    }
    operationName, arity, throws := ParseAutoDiffBuiltinCommonConfig(operationName);
    ok := operationName == [];
  }

  // Encoding, and reading back what was encoded.

  /** The canonical suffix for an arity and a throwing flag: `_arity<n>` only when `n` is not 1. */
  function EncodeCommonConfig(arity: nat, throws: bool): string {
    (if arity == 1 then "" else "_arity" + NatToString(arity)) + (if throws then "_throws" else "")
  }

  lemma {:induction false} TakeDigitsAppend(d: string, t: string)
    requires AllDigits(d)
    requires t == [] || !IsDigit(t[0])
    ensures TakeDigits(d + t) == d
    decreases |d|
  {
    if d != [] {
      assert (d + t)[0] == d[0];
      assert (d + t)[1..] == d[1..] + t;
      TakeDigitsAppend(d[1..], t);
    } else {
      assert d + t == t;
    }
  }

  /** The `_throws` clause, if any, followed by `rest`: read back as the flag, leaving `rest`. */
  lemma ReadThrowsRoundTrip(throws: bool, rest: string, arity: nat)
    requires !StartsWith(rest, "_throws") && !StartsWith(rest, "_arity") && (rest == [] || !IsDigit(rest[0]))
    ensures var u := (if throws then "_throws" else "") + rest;
            && ReadThrows(u, arity) == CommonConfig(rest, arity, throws)
            && !StartsWith(u, "_arity")
            && (u == [] || !IsDigit(u[0]))
  {
    if throws {
      var u := "_throws" + rest;
      PrefixSplit("_throws", rest);
      assert u[1] == 't';
    } else {
      assert "" + rest == rest;
    }
  }

  /** The `_arity<n>` clause, present only when `n` is not 1, read back as `n`. */
  lemma ReadArityRoundTrip(arity: nat, u: string)
    requires 0 < arity < UnsignedLimit
    requires !StartsWith(u, "_arity") && (u == [] || !IsDigit(u[0]))
    ensures var s := (if arity == 1 then "" else "_arity" + NatToString(arity)) + u;
            CommonConfigDefined(s) && ReadArity(s) == (u, arity)
  {
    if arity == 1 {
      assert "" + u == u;
    } else {
      var digits := NatToString(arity);
      var s := "_arity" + digits + u;
      assert s == "_arity" + (digits + u);
      PrefixSplit("_arity", digits + u);
      TakeDigitsAppend(digits, u);
      ToUnsignedOfNatToString(arity);
      PrefixSplit(digits, u);
      assert s[6 + |digits|..] == u;
    }
  }

  /** Parsing the canonical suffix, followed by anything not starting with a digit, yields its arity and flag. */
  lemma CommonConfigRoundTrip(arity: nat, throws: bool, rest: string)
    requires 0 < arity < UnsignedLimit
    requires !StartsWith(rest, "_throws") && !StartsWith(rest, "_arity") && (rest == [] || !IsDigit(rest[0]))
    ensures CommonConfigDefined(EncodeCommonConfig(arity, throws) + rest)
    ensures CommonConfigOf(EncodeCommonConfig(arity, throws) + rest) == CommonConfig(rest, arity, throws)
  {
    var t: string := if throws then "_throws" else "";
    ReadThrowsRoundTrip(throws, rest, arity);
    ReadArityRoundTrip(arity, t + rest);
    EncodeSplit(arity, throws, rest);
  }

  /** The encoded suffix followed by `rest` is the arity clause followed by the throws clause and `rest`. */
  lemma EncodeSplit(arity: nat, throws: bool, rest: string)
    ensures EncodeCommonConfig(arity, throws) + rest
         == (if arity == 1 then "" else "_arity" + NatToString(arity)) + ((if throws then "_throws" else "") + rest)
  {
  }

  lemma PrefixSplit(p: string, t: string)
    ensures StartsWith(p + t, p) && (p + t)[|p|..] == t
  {
    assert (p + t)[..|p|] == p;
  }

  /** `applyDerivative`, a four-character direction `d` and a suffix `e`, read in one step. */
  lemma ApplyDerivativeUnfold(d: string, e: string, kindIn: DerivativeFunctionKind, arityIn: nat, throwsIn: bool)
    requires |d| == 4 && CommonConfigDefined(e)
    ensures var name := "applyDerivative" + (d + e);
            var c := CommonConfigOf(e);
            && ApplyDerivativeDefined(name)
            && ApplyDerivativeConfig(name, kindIn, arityIn, throwsIn)
               == DerivativeConfig(c.rest == [],
                                   if d == "_jvp" then DerivativeFunctionKind.JVP
                                   else if d == "_vjp" then DerivativeFunctionKind.VJP
                                   else kindIn,
                                   c.arity, c.throws)
  {
    var name := "applyDerivative" + (d + e);
    PrefixSplit("applyDerivative", d + e);
    PrefixSplit(d, e);
    assert name[19..] == e;
    assert StartsWith(d + e, "_jvp") <==> d == "_jvp";
    assert StartsWith(d + e, "_vjp") <==> d == "_vjp";
  }

  /** `applyTranspose` and a suffix `e`, read in one step. */
  lemma ApplyTransposeUnfold(e: string, arityIn: nat, throwsIn: bool)
    requires CommonConfigDefined(e)
    ensures var c := CommonConfigOf(e);
            && ApplyTransposeDefined("applyTranspose" + e)
            && ApplyTransposeConfig("applyTranspose" + e, arityIn, throwsIn) == ArityConfig(c.rest == [], c.arity, c.throws)
  {
    PrefixSplit("applyTranspose", e);
  }

  /** Every canonical `applyDerivative` name decodes to its direction, arity and flag. */
  lemma ApplyDerivativeRoundTrip(kind: DerivativeFunctionKind, arity: nat, throws: bool,
                                 kindIn: DerivativeFunctionKind, arityIn: nat, throwsIn: bool)
    requires 0 < arity < UnsignedLimit
    ensures var name := "applyDerivative" + ("_" + kind.Token() + EncodeCommonConfig(arity, throws));
            ApplyDerivativeDefined(name)
            && ApplyDerivativeConfig(name, kindIn, arityIn, throwsIn) == DerivativeConfig(true, kind, arity, throws)
  {
    var e := EncodeCommonConfig(arity, throws);
    CommonConfigRoundTrip(arity, throws, []);
    AppendEmpty(e);
    DirectionToken(kind);
    ApplyDerivativeUnfold("_" + kind.Token(), e, kindIn, arityIn, throwsIn);
  }

  /** The direction clause of a kind is four characters, `_jvp` exactly for JVP and `_vjp` exactly for VJP. */
  lemma DirectionToken(kind: DerivativeFunctionKind)
    ensures var d := "_" + kind.Token();
            && |d| == 4
            && (d == "_jvp" <==> kind == DerivativeFunctionKind.JVP)
            && (d == "_vjp" <==> kind == DerivativeFunctionKind.VJP)
  {
    var d := "_" + kind.Token();
    if kind == DerivativeFunctionKind.JVP {
      assert d == "_jvp" && d[1] != 'v';
    } else {
      assert d == "_vjp" && d[1] != 'j';
    }
  }

  /** Every canonical `applyTranspose` name decodes to its arity and flag. */
  lemma ApplyTransposeRoundTrip(arity: nat, throws: bool, arityIn: nat, throwsIn: bool)
    requires 0 < arity < UnsignedLimit
    ensures var name := "applyTranspose" + EncodeCommonConfig(arity, throws);
            ApplyTransposeDefined(name)
            && ApplyTransposeConfig(name, arityIn, throwsIn) == ArityConfig(true, arity, throws)
  {
    var e := EncodeCommonConfig(arity, throws);
    CommonConfigRoundTrip(arity, throws, []);
    AppendEmpty(e);
    ApplyTransposeUnfold(e, arityIn, throwsIn);
  }

  /** Every canonical `differentiableFunction` or `linearFunction` name decodes to its arity and flag. */
  lemma DifferentiableOrLinearRoundTrip(linear: bool, arity: nat, throws: bool, arityIn: nat, throwsIn: bool)
    requires 0 < arity < UnsignedLimit
    ensures var name := (if linear then "linearFunction" else "differentiableFunction") + EncodeCommonConfig(arity, throws);
            DifferentiableOrLinearDefined(name)
            && DifferentiableOrLinearConfig(name, arityIn, throwsIn) == ArityConfig(true, arity, throws)
  {
    var e := EncodeCommonConfig(arity, throws);
    CommonConfigRoundTrip(arity, throws, []);
    AppendEmpty(e);
    FunctionPrefixOf(linear, e);
  }

  /** A function-kind prefix followed by `e` is recognised as that prefix, leaving `e`. */
  lemma FunctionPrefixOf(linear: bool, e: string)
    ensures var prefix := if linear then "linearFunction" else "differentiableFunction";
            FunctionPrefixLength(prefix + e) == |prefix| && (prefix + e)[|prefix|..] == e
  {
    if linear {
      var name := "linearFunction" + e;
      PrefixSplit("linearFunction", e);
      assert !StartsWith(name, "differentiableFunction") by {
        if 22 <= |name| {
          assert name[..22][0] == 'l';
        }
      }
    } else {
      PrefixSplit("differentiableFunction", e);
    }
  }

  /** `e + []` is `e`: kept apart so that callers do not unfold string concatenation. */
  lemma AppendEmpty(e: string)
    ensures e + [] == e
  {
  }

  /** A suffix with neither clause is left whole, with arity 1 and no throwing. */
  lemma CommonConfigPlain(rest: string)
    requires !StartsWith(rest, "_arity") && !StartsWith(rest, "_throws")
    ensures CommonConfigDefined(rest) && CommonConfigOf(rest) == CommonConfig(rest, 1, false)
  {
  }

  /**
   * `_arity` must precede `_throws`: after `_throws` the parser looks for
   * nothing more, so whatever follows is left over and the name is rejected.
   */
  lemma ThrowsBeforeArityRejected(rest: string, arityIn: nat, throwsIn: bool)
    requires rest != []
    ensures ApplyTransposeDefined("applyTranspose_throws" + rest)
    ensures !ApplyTransposeConfig("applyTranspose_throws" + rest, arityIn, throwsIn).ok
  {
    var e := "_throws" + rest;
    PrefixSplit("_throws", rest);
    assert e[1] == 't';
    assert ReadArity(e) == (e, 1);
    ApplyTransposeUnfold(e, arityIn, throwsIn);
    ThrowsPrefix(rest);
  }

  lemma ThrowsPrefix(rest: string)
    ensures "applyTranspose_throws" + rest == "applyTranspose" + ("_throws" + rest)
  {
    assert "applyTranspose_throws" == "applyTranspose" + "_throws";
  }

  /** Worked example: `applyTranspose_throws_arity2` is rejected. */
  lemma ThrowsThenArityExample(arityIn: nat, throwsIn: bool)
    ensures ApplyTransposeDefined("applyTranspose_throws_arity2")
    ensures !ApplyTransposeConfig("applyTranspose_throws_arity2", arityIn, throwsIn).ok
  {
    ThrowsBeforeArityRejected("_arity2", arityIn, throwsIn);
    ThrowsThenArityName();
  }

  lemma ThrowsThenArityName()
    ensures "applyTranspose_throws" + "_arity2" == "applyTranspose_throws_arity2"
  {
  }

  /** Worked example: `applyDerivative_jvp_arity2_throws`. */
  lemma ApplyDerivativeJvpExample(kindIn: DerivativeFunctionKind, arityIn: nat, throwsIn: bool)
    ensures ApplyDerivativeDefined("applyDerivative_jvp_arity2_throws")
    ensures ApplyDerivativeConfig("applyDerivative_jvp_arity2_throws", kindIn, arityIn, throwsIn)
            == DerivativeConfig(true, DerivativeFunctionKind.JVP, 2, true)
  {
    JvpExampleName();
    ApplyDerivativeRoundTrip(DerivativeFunctionKind.JVP, 2, true, kindIn, arityIn, throwsIn);
  }

  lemma JvpExampleName()
    ensures "applyDerivative" + ("_" + DerivativeFunctionKind.JVP.Token() + EncodeCommonConfig(2, true))
         == "applyDerivative_jvp_arity2_throws"
  {
    EncodeTwoThrows();
    assert "_" + DerivativeFunctionKind.JVP.Token() == "_jvp";
  }

  lemma EncodeTwoThrows()
    ensures EncodeCommonConfig(2, true) == "_arity2_throws"
  {
    assert NatToString(2) == "2";
  }

  /** Worked example: `applyDerivative_vjp`. */
  lemma ApplyDerivativeVjpExample(kindIn: DerivativeFunctionKind, arityIn: nat, throwsIn: bool)
    ensures ApplyDerivativeDefined("applyDerivative_vjp")
    ensures ApplyDerivativeConfig("applyDerivative_vjp", kindIn, arityIn, throwsIn)
            == DerivativeConfig(true, DerivativeFunctionKind.VJP, 1, false)
  {
    VjpExampleName();
    ApplyDerivativeRoundTrip(DerivativeFunctionKind.VJP, 1, false, kindIn, arityIn, throwsIn);
  }

  lemma VjpExampleName()
    ensures "applyDerivative" + ("_" + DerivativeFunctionKind.VJP.Token() + EncodeCommonConfig(1, false))
         == "applyDerivative_vjp"
  {
    assert EncodeCommonConfig(1, false) == "";
  }

  /**
   * A name whose direction is not `_jvp`/`_vjp` and leaves characters over is
   * rejected. The literal is passed as `name` so that it is split into pieces once.
   */
  lemma ApplyDerivativeBogusRejected(name: string, kindIn: DerivativeFunctionKind, arityIn: nat, throwsIn: bool)
    requires name == "applyDerivativeBogus"
    ensures ApplyDerivativeDefined(name)
    ensures !ApplyDerivativeConfig(name, kindIn, arityIn, throwsIn).ok
  {
    BogusParts(kindIn, arityIn, throwsIn);
    SpelledAs("applyDerivative", "Bogu", "s", name);
  }

  /**
   * `name` is spelled as the three pieces one after the other; the split lets
   * the decoder be unfolded on the pieces rather than on the whole literal.
   */
  lemma SpelledAs(p: string, d: string, e: string, name: string)
    requires name == p + d + e
    ensures p + (d + e) == name
  {
  }

  lemma BogusParts(kindIn: DerivativeFunctionKind, arityIn: nat, throwsIn: bool)
    ensures ApplyDerivativeDefined("applyDerivative" + ("Bogu" + "s"))
    ensures !ApplyDerivativeConfig("applyDerivative" + ("Bogu" + "s"), kindIn, arityIn, throwsIn).ok
  {
    CommonConfigPlain("s");
    ApplyDerivativeUnfold("Bogu", "s", kindIn, arityIn, throwsIn);
  }

  /** Worked example: `applyTranspose_arity3`. */
  lemma ApplyTransposeExample(arityIn: nat, throwsIn: bool)
    ensures ApplyTransposeDefined("applyTranspose_arity3")
    ensures ApplyTransposeConfig("applyTranspose_arity3", arityIn, throwsIn) == ArityConfig(true, 3, false)
  {
    TransposeExampleName();
    ApplyTransposeRoundTrip(3, false, arityIn, throwsIn);
  }

  lemma TransposeExampleName()
    ensures "applyTranspose" + EncodeCommonConfig(3, false) == "applyTranspose_arity3"
  {
    assert NatToString(3) == "3";
    assert EncodeCommonConfig(3, false) == "_arity3";
  }

  /** `to_integer` detects octal after a leading zero, so `_arity010` is read as arity 8. */
  lemma LeadingZeroArity(arityIn: nat, throwsIn: bool)
    ensures ApplyTransposeDefined("applyTranspose_arity010")
    ensures ApplyTransposeConfig("applyTranspose_arity010", arityIn, throwsIn) == ArityConfig(true, 8, false)
  {
    OctalArityClause();
    ApplyTransposeUnfold("_arity010", arityIn, throwsIn);
    OctalExampleName();
  }

  lemma OctalExampleName()
    ensures "applyTranspose" + "_arity010" == "applyTranspose_arity010"
  {
  }

  /** The clause `_arity010` on its own is read as arity 8, leaving nothing. */
  lemma OctalArityClause()
    ensures CommonConfigDefined("_arity010") && CommonConfigOf("_arity010") == CommonConfig([], 8, false)
  {
    var s := "_arity010";
    PrefixSplit("_arity", "010");
    assert s == "_arity" + "010";
    TakeDigitsAppend("010", []);
    AppendEmpty("010");
    LeadingZeroIsOctal();
    assert s[6 + 3..] == [];
  }

  // The unchecked direction of `applyDerivative`.

  /**
   * As written, any four characters after `applyDerivative` are accepted as a
   * direction: `applyDerivative_xyz` succeeds and leaves the incoming kind.
   * The literal is passed as `name` so that it is split into pieces once.
   */
  lemma ApplyDerivativeAcceptsAnyDirection(name: string, kindIn: DerivativeFunctionKind, arityIn: nat, throwsIn: bool)
    requires name == "applyDerivative_xyz"
    ensures ApplyDerivativeDefined(name)
    ensures ApplyDerivativeConfig(name, kindIn, arityIn, throwsIn) == DerivativeConfig(true, kindIn, 1, false)
  {
    var d, e := name[15..], [];
    UnknownDirectionName(name);
    NotADirection(d);
    CommonConfigPlain(e);
    ApplyDerivativeIgnoresDirection(d, e, kindIn, arityIn, throwsIn);
    assert d + e == d;
  }

  /** The pieces of `applyDerivative_xyz`: the prefix, then a four-character direction that is not one. */
  lemma UnknownDirectionName(name: string)
    requires name == "applyDerivative_xyz"
    ensures |name| == 19 && name == "applyDerivative" + name[15..] && name[16] == 'x'
  {
  }

  /**
   * As written, four characters other than `_jvp` and `_vjp` are skipped as if
   * they were a direction: the rest is parsed as usual and the incoming kind is kept.
   */
  lemma ApplyDerivativeIgnoresDirection(d: string, e: string,
                                        kindIn: DerivativeFunctionKind, arityIn: nat, throwsIn: bool)
    requires |d| == 4 && d != "_jvp" && d != "_vjp" && CommonConfigDefined(e)
    ensures var c := CommonConfigOf(e);
            ApplyDerivativeDefined("applyDerivative" + (d + e))
            && ApplyDerivativeConfig("applyDerivative" + (d + e), kindIn, arityIn, throwsIn)
               == DerivativeConfig(c.rest == [], kindIn, c.arity, c.throws)
  {
    ApplyDerivativeUnfold(d, e, kindIn, arityIn, throwsIn);
  }

  lemma NotADirection(d: string)
    requires |d| == 4 && d[1] != 'j' && d[1] != 'v'
    ensures d != "_jvp" && d != "_vjp"
  {
    assert "_jvp"[1] == 'j' && "_vjp"[1] == 'v';
  }

  lemma ApplyDerivativeSplit(name: string, d: string)
    requires |d| == 4 && StartsWith(name, "applyDerivative" + d)
    ensures name == "applyDerivative" + (d + name[19..])
  {
    assert name[..19] == "applyDerivative" + d;
    assert name == name[..19] + name[19..];
  }

  /** A name starting with `applyDerivative` and a valid direction is read with that direction. */
  lemma ApplyDerivativeDirection(name: string, d: string, kindIn: DerivativeFunctionKind, arityIn: nat, throwsIn: bool)
    requires d == "_jvp" || d == "_vjp"
    requires ApplyDerivativeDefined(name) && StartsWith(name, "applyDerivative" + d)
    ensures ApplyDerivativeConfig(name, kindIn, arityIn, throwsIn).kind
            == if d == "_jvp" then DerivativeFunctionKind.JVP else DerivativeFunctionKind.VJP
  {
    ApplyDerivativeSplit(name, d);
    var e := name[19..];
    PrefixSplit("applyDerivative", d + e);
    ApplyDerivativeUnfold(d, e, kindIn, arityIn, throwsIn);
  }

  /**
   * `getBuiltinApplyDerivativeConfig` with the direction checked: other names,
   * short ones included, are rejected. Only the `_arity` assertion of the
   * suffix parser is still demanded, for the names that reach it.
   */
  function CheckedApplyDerivativeConfig(name: string, kindIn: DerivativeFunctionKind, arityIn: nat, throwsIn: bool)
    : (r: DerivativeConfig)
    requires StartsWith(name, "applyDerivative_jvp") || StartsWith(name, "applyDerivative_vjp") ==>
               CommonConfigDefined(name[19..])
    ensures r.ok ==> StartsWith(name, "applyDerivative_" + r.kind.Token())
    ensures StartsWith(name, "applyDerivative_jvp") || StartsWith(name, "applyDerivative_vjp") ==>
              r == ApplyDerivativeConfig(name, kindIn, arityIn, throwsIn)
  {
    DirectionPrefixes();
    if StartsWith(name, "applyDerivative_jvp") then
      DirectionDefined(name, "_jvp");
      ApplyDerivativeDirection(name, "_jvp", kindIn, arityIn, throwsIn);
      ApplyDerivativeConfig(name, kindIn, arityIn, throwsIn)
    else if StartsWith(name, "applyDerivative_vjp") then
      DirectionDefined(name, "_vjp");
      ApplyDerivativeDirection(name, "_vjp", kindIn, arityIn, throwsIn);
      ApplyDerivativeConfig(name, kindIn, arityIn, throwsIn)
    else DerivativeConfig(false, kindIn, arityIn, throwsIn)
  }

  /** A name with a four-character direction satisfies the source's length demand. */
  lemma DirectionDefined(name: string, d: string)
    requires |d| == 4 && StartsWith(name, "applyDerivative" + d) && CommonConfigDefined(name[19..])
    ensures ApplyDerivativeDefined(name)
  {
    assert name[..15] == ("applyDerivative" + d)[..15] == "applyDerivative";
  }

  /** The two valid direction prefixes, spelled three ways. */
  lemma DirectionPrefixes()
    ensures "applyDerivative" + "_jvp" == "applyDerivative_jvp" == "applyDerivative_" + DerivativeFunctionKind.JVP.Token()
    ensures "applyDerivative" + "_vjp" == "applyDerivative_vjp" == "applyDerivative_" + DerivativeFunctionKind.VJP.Token()
  {
  }
}
