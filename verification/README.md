# Differentiability metadata of the Swift compiler, modelled in Dafny

This project models the value-level logic behind automatic differentiation in
the Swift compiler's AST library (`lib/AST/AutoDiff.cpp`). It covers:

- the kind enumerations that tag derivative directions, and their token strings;
- the textual forms of `SILAutoDiffIndices` and `AutoDiffConfig`;
- flattening of curried function types and selection of differentiability
  parameters (`getSubsetParameters`);
- the semantic results of a function type, i.e. its formal result plus its
  `inout` parameters;
- lowering of AST parameter indices to SIL parameter indices, where each tuple
  parameter becomes one SIL parameter per tuple leaf;
- the requirements added to a derivative's generic signature;
- decoding of the `applyDerivative`, `applyTranspose`, `differentiableFunction`
  and `linearFunction` builtin names;
- `TangentSpace::getType`, equality of tangent-property errors, and the ordered
  chain of checks that finds a stored property's tangent property.

Types form a small structural universe: tuples, function types, nominal types
and generic parameters (`types.dfy`). An `IndexSubset` is a capacity plus a set
of members below it.

Some things the source gets from elsewhere in the compiler are function
parameters here:

- conformance lookup (`getAutoDiffTangentSpace`);
- direct member lookup;
- the generic environment's type mapping;
- the generic-signature builder;
- the printers of index subsets and generic signatures.

Where the source changes state (output vectors pushed to, the operation-name
`StringRef` consumed from the front, out-parameters assigned), the model has
methods with loops. Each method is proved equal to a specification function,
and the properties are proved about those functions. When a source function
appends to a caller's vector, its method takes the vector's prior contents as
`prior`. Source `assert`s become `requires` clauses.

The arity after `_arity` is read with `llvm::to_integer` in radix 0, which
detects the radix from the text. So a digit run of length two or more that
starts with `0` is read as octal: `_arity010` gives arity 8, and `_arity08`
breaks the source's assertion. Canonical names print the arity in decimal,
but the model follows the code's reading (`Numerals.ToUnsigned`,
`BuiltinNames.LeadingZeroArity`).

## Model

| member | source | states |
|---|---|---|
| Kinds.DerivativeFunctionKindFromString | swift-master/lib/AST/AutoDiff.cpp:23-30 | Only "jvp" and "vjp" are accepted (the source asserts this); the case built has the given token |
| Kinds.NormalComponentFromKind | swift-master/lib/AST/AutoDiff.cpp:32-43 | A normal component built from a derivative kind converts back to that same kind |
| Kinds.NormalComponentFromString | swift-master/lib/AST/AutoDiff.cpp:45-53 | Only "original", "jvp" and "vjp" are accepted; the case built has the given token |
| Kinds.NormalComponent.AsDerivativeFunctionKind | swift-master/lib/AST/AutoDiff.cpp:55-66 | No derivative kind exactly for `Original`; otherwise the kind with the same token |
| Kinds.LinearComponentFromString | swift-master/lib/AST/AutoDiff.cpp:68-75 | Only "original" and "transpose" are accepted; the case built has the given token |
| Kinds.WitnessFunctionKindFromString | swift-master/lib/AST/AutoDiff.cpp:77-85 | Only "jvp", "vjp" and "transpose" are accepted; the case built has the given token |
| Kinds.WitnessFunctionKind.AsDerivativeFunctionKind | swift-master/lib/AST/AutoDiff.cpp:87-98 | No derivative kind exactly for `Transpose`; otherwise the kind with the same token |
| Kinds.TokenRoundTrips | swift-master/lib/AST/AutoDiff.cpp:23-85 | For all four enumerations, building a case from its own token gives that case back |
| Kinds.NormalComponentConversionRoundTrip | swift-master/lib/AST/AutoDiff.cpp:32-66 | Kind to normal component and back is the identity, and every non-`Original` component arises this way |
| IndexSubsets.IndexSubset.GetIndices | swift-master/lib/AST/AutoDiff.cpp:101-107 | The listed indices are strictly ascending and are exactly the subset's members |
| IndexSubsets.GetIndicesLength | swift-master/lib/AST/AutoDiff.cpp:101-107 | The listing has one entry per member |
| Numerals.NatToStringDigits | swift-master/lib/AST/AutoDiff.cpp:103 | Decimal printing of an index has no leading zero and reads back as the index |
| Numerals.ToUnsigned | swift-master/lib/AST/AutoDiff.cpp:316 | `to_integer` fails on an empty digit run, and any value it accepts fits in 32 bits |
| Numerals.ToUnsignedOfNatToString | swift-master/lib/AST/AutoDiff.cpp:314-316 | Every positive 32-bit value, printed in decimal, is read back by `to_integer` as itself |
| Numerals.LeadingZeroIsOctal | swift-master/lib/AST/AutoDiff.cpp:316 | With automatic radix, "010" reads as 8, "08" is rejected and "0" reads as 0 |
| Configs.GetSILAutoDiffIndices | swift-master/lib/AST/AutoDiff.cpp:116-118 | The SIL indices carry the configuration's parameter and result subsets unchanged |
| Configs.PrintSILIndices | swift-master/lib/AST/AutoDiff.cpp:100-109 | The printed form `(parameters=(…) results=(…))` reads back, under a strict reader that accepts only space-separated decimal numerals without leading zeros, to the ascending parameter and result indices |
| Configs.ReadNumeralSpelling | swift-master/lib/AST/AutoDiff.cpp:103 | Each index is printed as the one decimal numeral the strict reader accepts for it: the printed digits read back as the index, and any accepted numeral is the printed form of its value |
| Configs.ReadJoinIndices | swift-master/lib/AST/AutoDiff.cpp:102-104 | A space-separated index list reads back as exactly that list |
| Configs.ReadIndexListSpelling | swift-master/lib/AST/AutoDiff.cpp:102-104 | Any text the strict reader accepts is the printed form of the list it reads, so each list has one accepted spelling |
| Configs.ReadSILIndicesSpelling | swift-master/lib/AST/AutoDiff.cpp:100-109 | Any text accepted as an index pair is the frame `(parameters=(…) results=(…))` around the two printed lists |
| Configs.ReadSILIndicesUnique | swift-master/lib/AST/AutoDiff.cpp:100-109 | A text that reads back as the indices of a pair is the printed form of that pair, and no other text reads back as the same pair |
| Configs.PrintSILIndicesInjective | swift-master/lib/AST/AutoDiff.cpp:100-109 | Two index pairs print alike if and only if both member sets are equal |
| Configs.PrintConfig | swift-master/lib/AST/AutoDiff.cpp:120-130 | The text is `(parameters=<P> ` then `results=<R>`, then ` where=<S>)` when a derivative signature is present and only `)` when none is: without a signature nothing follows the result subset but the closing parenthesis |
| Configs.PrintConfigWhereClause | swift-master/lib/AST/AutoDiff.cpp:120-130 | Adding a derivative signature inserts ` where=<signature>` just before the closing parenthesis of the text without one, and changes nothing else |
| Curry.CurryLevels | swift-master/lib/AST/AutoDiff.cpp:151-157 | The levels start with the function itself, and the last level's result is not a function type |
| Curry.CurryLevelsChain | swift-master/lib/AST/AutoDiff.cpp:151-157 | Each level's result is the next level |
| Curry.UnwrapCurryLevels | swift-master/lib/AST/AutoDiff.cpp:151-157 | The loop collects exactly the curry levels, outermost first |
| Curry.GetSubsetParameters | swift-master/lib/AST/AutoDiff.cpp:169-197 | Appends to `prior` the selected parameters, level by level, each level at its own offset, in reversed level order when asked |
| Curry.ComputeOffsets | swift-master/lib/AST/AutoDiff.cpp:175-180 | The loop over the levels, innermost first, gives each level the number of parameters nested inside it |
| Curry.CollectLevel | swift-master/lib/AST/AutoDiff.cpp:193-195 | The inner loop pushes, in order, each parameter of one level whose offset plus position is a member |
| Curry.CollectSelected | swift-master/lib/AST/AutoDiff.cpp:188-196 | The nested loops push, per level, each parameter whose offset plus position is a member |
| Curry.OffsetsNested | swift-master/lib/AST/AutoDiff.cpp:175-180 | The innermost level has offset 0, and each outer level's offset is the next level's offset plus that level's parameter count |
| Curry.SubsetParametersReversedIsGlobalOrder | swift-master/lib/AST/AutoDiff.cpp:182-196 | With reversed levels, the result is the selection over all parameters listed innermost level first, at indices 0, 1, … |
| Curry.SubsetParametersReverseSameMembers | swift-master/lib/AST/AutoDiff.cpp:182-186 | Reversing the levels changes only the order of the result, never its multiset of parameters |
| Curry.SubsetParametersLength | swift-master/lib/AST/AutoDiff.cpp:188-196 | The result has one parameter per member below the total parameter count |
| Curry.SubsetParametersFullAndEmpty | swift-master/lib/AST/AutoDiff.cpp:188-196 | A full index set selects every parameter, and an empty one selects none |
| SemanticResults.GetFunctionSemanticResultTypes | swift-master/lib/AST/AutoDiff.cpp:199-232 | Appends to `prior` the formal result unless it is `()`, then the outer and inner `inout` parameters |
| SemanticResults.AppendInoutParams | swift-master/lib/AST/AutoDiff.cpp:223-231 | One loop pushes exactly the `inout` parameters of a level, in order |
| SemanticResults.InoutResultsShape | swift-master/lib/AST/AutoDiff.cpp:223-231 | One entry per `inout` parameter, each flagged `inout` |
| SemanticResults.SemanticResultTypesShape | swift-master/lib/AST/AutoDiff.cpp:211-231 | Length is (0 or 1) plus the `inout` count of both levels; a non-`()` formal result comes first, not `inout`; all later entries are `inout`; the first entry is non-`inout` if and only if the formal result is not `()` |
| SemanticResults.SemanticResultTypesRemap | swift-master/lib/AST/AutoDiff.cpp:205-210 | With a generic environment, the results are those without one with every type mapped into it |
| SemanticResults.OnlyOneLevelUnwrapped | swift-master/lib/AST/AutoDiff.cpp:211-231 | For three curry levels, the formal result is the third level's function type, and the third level's `inout` parameters add nothing |
| SemanticResults.SemanticResultTypesExamples | swift-master/lib/AST/AutoDiff.cpp:199-232 | `(inout Int) -> ()`, `(Int) -> String` and `(inout Int) -> String` give the expected lists |
| Lowering.LeafCount | swift-master/lib/AST/AutoDiff.cpp:159-166 | The flattened count equals the number of non-tuple leaves of an independent flattening (`Leaves`) |
| Lowering.LeafCountTuples | swift-master/lib/AST/AutoDiff.cpp:159-166 | `()` counts 0, a non-tuple type counts 1, and concatenating tuple elements adds their counts |
| Lowering.GetLoweredParameterIndices | swift-master/lib/AST/AutoDiff.cpp:235-268 | The result is the subset of capacity equal to the total lowered size whose members are the blocks of the selected parameters |
| Lowering.CollectLoweredSizes | swift-master/lib/AST/AutoDiff.cpp:238-252 | The first loop gives every parameter's lowered size, innermost curry level first, and their total |
| Lowering.AppendLoweredSizes | swift-master/lib/AST/AutoDiff.cpp:243-252 | The inner loop appends one size per parameter of a level and keeps the running total |
| Lowering.CollectLoweredIndices | swift-master/lib/AST/AutoDiff.cpp:254-265 | The second loop appends, per parameter below the capacity, its whole block when selected, advancing the offset either way |
| Lowering.LoweredListAscending | swift-master/lib/AST/AutoDiff.cpp:254-265 | The blocks follow one another without overlap, so the lowered list is strictly ascending |
| Lowering.LoweredParameterIndicesBlock | swift-master/lib/AST/AutoDiff.cpp:254-265 | An index in parameter i's block [offset_i, offset_i + size_i) is set if and only if i is selected; the offset advances whether or not i is selected |
| Lowering.LoweredParameterIndicesFacts | swift-master/lib/AST/AutoDiff.cpp:235-268 | Capacity is the total lowered size, no index lies past the last considered block, and the member count is the sum of the selected parameters' sizes |
| Lowering.LoweringExample | swift-master/lib/AST/AutoDiff.cpp:235-268 | For `(T, Float)` with T a triple, {0} lowers to {0, 1, 2}, {1} to {3} and {0, 1} to {0, 1, 2, 3}, with capacity 4 |
| DerivativeSignatures.GetConstrainedDerivativeGenericSignature | swift-master/lib/AST/AutoDiff.cpp:270-302 | The signature is the builder's answer for the base signature and the ordered requirements, or none when there is no base signature; the indices must be parameter positions only when there is one |
| DerivativeSignatures.CollectRequirements | swift-master/lib/AST/AutoDiff.cpp:281-295 | The loop pushes, per index, a `Differentiable` conformance and, for a transpose, the same-type requirement |
| DerivativeSignatures.RequirementsForShape | swift-master/lib/AST/AutoDiff.cpp:281-295 | The list has 1 entry per index, or 2 for a transpose; the p-th block is the conformance of parameter idx[p], then `T == T.TangentVector` for a transpose |
| DerivativeSignatures.ConstrainedSignatureBase | swift-master/lib/AST/AutoDiff.cpp:274-301 | No base signature gives none, whatever the indices; a supplied signature takes precedence over the invocation signature; the builder's success or failure is the result |
| DerivativeSignatures.NoBaseSignatureAnyIndices | swift-master/lib/AST/AutoDiff.cpp:274-277 | With neither a derivative nor an invocation signature, the result is none for any indices, even ones that are no parameter position |
| DerivativeSignatures.DerivativeRequirements | swift-master/lib/AST/AutoDiff.cpp:281-295 | The requirements follow the differentiability indices in ascending order, one block per member |
| BuiltinNames.CommonConfigOf | swift-master/lib/AST/AutoDiff.cpp:308-329 | What is left is a suffix of the input, and the arity is positive and below 2^32 |
| BuiltinNames.ParseAutoDiffBuiltinCommonConfig | swift-master/lib/AST/AutoDiff.cpp:308-329 | Consumes `_arity<digits>` (arity 1 when absent) and then `_throws` (the flag says whether it was there) |
| BuiltinNames.GetBuiltinApplyDerivativeConfig | swift-master/lib/AST/AutoDiff.cpp:332-349 | Without the prefix: false, with outputs unchanged; otherwise the direction if `_jvp`/`_vjp`, four characters dropped, the common suffix, and success if and only if nothing is left |
| BuiltinNames.GetBuiltinApplyTransposeConfig | swift-master/lib/AST/AutoDiff.cpp:351-359 | Without the prefix: false, with outputs unchanged; otherwise the common suffix, and success if and only if nothing is left |
| BuiltinNames.FunctionPrefixLength | swift-master/lib/AST/AutoDiff.cpp:363-370 | 22 if and only if the name starts with `differentiableFunction`; otherwise 14 if and only if it starts with `linearFunction`; 0 if and only if it starts with neither |
| BuiltinNames.GetBuiltinDifferentiableOrLinearFunctionConfig | swift-master/lib/AST/AutoDiff.cpp:361-373 | Without either prefix: false, with outputs unchanged; otherwise the common suffix, and success if and only if nothing is left |
| BuiltinNames.ReadArityRoundTrip | swift-master/lib/AST/AutoDiff.cpp:311-320 | `_arity<n>` in decimal, or nothing for n = 1, reads back as n and leaves exactly the text that followed |
| BuiltinNames.ReadThrowsRoundTrip | swift-master/lib/AST/AutoDiff.cpp:321-328 | `_throws`, or nothing, reads back as the flag and leaves exactly the text that followed; the clause text starts with neither `_arity` nor a digit, so the arity reader passes over it |
| BuiltinNames.CommonConfigRoundTrip | swift-master/lib/AST/AutoDiff.cpp:308-329 | The canonical `_arity<n>` / `_throws` suffix reads back as n and the flag, leaving what followed |
| BuiltinNames.ApplyDerivativeRoundTrip | swift-master/lib/AST/AutoDiff.cpp:332-349 | Every canonical `applyDerivative_{jvp,vjp}…` name decodes successfully to its direction, arity and flag |
| BuiltinNames.ApplyTransposeRoundTrip | swift-master/lib/AST/AutoDiff.cpp:351-359 | Every canonical `applyTranspose…` name decodes successfully to its arity and flag |
| BuiltinNames.DifferentiableOrLinearRoundTrip | swift-master/lib/AST/AutoDiff.cpp:361-373 | Every canonical `differentiableFunction…` or `linearFunction…` name decodes successfully |
| BuiltinNames.ThrowsBeforeArityRejected | swift-master/lib/AST/AutoDiff.cpp:321-329 | Nothing is read after `_throws`, so `applyTranspose_throws` followed by any non-empty text is rejected |
| BuiltinNames.ThrowsThenArityExample | swift-master/lib/AST/AutoDiff.cpp:308-329 | `applyTranspose_throws_arity2` is rejected: the clauses must come arity first |
| BuiltinNames.ApplyDerivativeJvpExample | swift-master/lib/AST/AutoDiff.cpp:332-349 | `applyDerivative_jvp_arity2_throws` gives (JVP, 2, throws) |
| BuiltinNames.ApplyDerivativeVjpExample | swift-master/lib/AST/AutoDiff.cpp:332-349 | `applyDerivative_vjp` gives (VJP, 1, not throwing) |
| BuiltinNames.ApplyDerivativeBogusRejected | swift-master/lib/AST/AutoDiff.cpp:332-349 | `applyDerivativeBogus` is rejected |
| BuiltinNames.ApplyTransposeExample | swift-master/lib/AST/AutoDiff.cpp:351-359 | `applyTranspose_arity3` gives (3, not throwing) |
| BuiltinNames.LeadingZeroArity | swift-master/lib/AST/AutoDiff.cpp:311-318 | `applyTranspose_arity010` is accepted with arity 8 |
| BuiltinNames.ApplyDerivativeAcceptsAnyDirection | swift-master/lib/AST/AutoDiff.cpp:340-347 | As written, `applyDerivative_xyz` succeeds and leaves the incoming kind |
| BuiltinNames.ApplyDerivativeIgnoresDirection | swift-master/lib/AST/AutoDiff.cpp:336-348 | As written, any four characters other than `_jvp` and `_vjp` after `applyDerivative` are dropped, the incoming kind is kept, and success depends on the common suffix alone |
| BuiltinNames.CheckedApplyDerivativeConfig | swift-master/lib/AST/AutoDiff.cpp:340-347 | With the direction checked, every name is handled, short ones included (only the `_arity` assertion is still demanded): success implies the name starts with `applyDerivative_` plus the returned kind's token; valid names decode as before |
| Tangents.TangentSpace.GetType | swift-master/lib/AST/AutoDiff.cpp:375-383 | A tangent-vector space gives its type, and a tuple space gives the tuple of its elements |
| Tangents.ErrorEquals | swift-master/lib/AST/AutoDiff.cpp:425-440 | Two errors are equal if and only if their kinds match and, for the wrong-type kind, their types are equal |
| Tangents.VarsOnlyFacts | swift-master/lib/AST/AutoDiff.cpp:522-531 | Filtering keeps exactly the variable members; it is empty if and only if no member is a variable, and its head is the first variable member |
| Tangents.VarsOnlyOrder | swift-master/lib/AST/AutoDiff.cpp:522-531 | Filtering keeps the variables in their original order: it distributes over concatenation, keeps a lone variable and drops any other member |
| Tangents.TangentStoredPropertyEarlyErrors | swift-master/lib/AST/AutoDiff.cpp:479-512 | Each of the first four errors occurs if and only if its check fails and every earlier check passes |
| Tangents.TangentStoredProperty | swift-master/lib/AST/AutoDiff.cpp:478-547 | A success is a stored property whose type is the tangent type of the original property, which has a tangent space |
| Tangents.TangentStoredPropertyLateChecks | swift-master/lib/AST/AutoDiff.cpp:513-547 | Same struct: the original field; else the first variable found by name. Then not-found, wrong type (carrying the tangent type), not stored, else success with that property |
| Tangents.TangentStoredPropertySuccess | swift-master/lib/AST/AutoDiff.cpp:479-547 | A success is a stored property whose type is the original's tangent type, and is the original field when the parent is its own tangent struct |
| Tangents.TupleTangentSpaceIsNotStruct | swift-master/lib/AST/AutoDiff.cpp:505-512 | A parent whose tangent space is a tuple always fails, with `ParentTangentVectorNotStruct` once the earlier checks pass |

## Left out

- `isDifferentiableProgrammingEnabled` is left out. It reads language options and the import list of a source file, neither of which is part of this model.
- `SILAutoDiffIndices::dump` is left out: it writes to standard error.
- `DerivativeFunctionTypeError::log` and `simple_display` are left out. Their message text depends on how types and declarations print.
- The formats of `IndexSubset::print` and `GenericSignature::print` are not modelled. `AutoDiffConfig::print` takes those printers as parameters.
- Interning of `IndexSubset`s and canonicalisation of types are not modelled. Equality is structural, and `getCanonicalType` is the identity.
- These are function parameters whose definitions are not part of this model:
  - `getAutoDiffTangentSpace`, including its tuple recursion;
  - the `AbstractGenericSignatureRequest` builder;
  - `mapTypeIntoContext`;
  - `lookupDirect`.
- The request evaluator's caching and cycle detection are left out. `TangentStoredPropertyRequest` is modelled as a plain function of its input.
- Declaration identity is by value: a struct declaration is known by its name. So two distinct structs with the same name count as the same struct in the model, unlike in the source.
- `TangentSpace::getNominal` is not modelled. It only asserts and forwards to the nominal declaration of a type.
- Integer widths are not modelled. Indices, sizes and offsets are unbounded naturals, whereas the source uses 32-bit `unsigned`. Only the arity's 32-bit limit in `to_integer` is modelled.
- Preconditions taken from source assertions, which the model states as requirements:
  - the token of each kind constructor is one it accepts;
  - the `_arity` digits are non-empty, valid in the detected radix, below 2^32 and not 0;
  - four characters follow `applyDerivative`;
  - the capacity of the indices to lower is at most the parameter count;
  - once a derivative or invocation signature is present, every differentiability index is a parameter position;
  - once such a signature is present, for a transpose, every differentiability parameter has a tangent space.
    Without either signature the source returns null before reading any parameter, and the model asks nothing of the indices.
- `TangentStoredPropertyRequest` requires a stored instance property. The source asserts this.

## Findings

| source | as written | input that shows it | evidently intended | confidence | as-written member | corrected member |
|---|---|---|---|---|---|---|
| swift-master/lib/AST/AutoDiff.cpp:340-347 | After `applyDerivative`, four characters are dropped whether or not they are `_jvp` or `_vjp`, and `kind` is assigned only in those two cases | `applyDerivative_xyz` returns true with `kind` never assigned, so the caller's uninitialised or stale kind is used | Names whose direction is neither `_jvp` nor `_vjp` are rejected, as the comments at AutoDiff.cpp:304 (`Builtin.applyDerivative_{jvp|vjp}`) and 339 (parse `jvp` or `vjp`) describe | medium, not executed | BuiltinNames.ApplyDerivativeAcceptsAnyDirection | BuiltinNames.CheckedApplyDerivativeConfig |
