# Ballerina runtime: type descriptors, dynamic calls and TOML dispatch

This project is a Dafny model of three small pieces of the Ballerina runtime and its language library. It proves properties of each piece.

- **`BType`, the runtime type descriptor** (`type_descriptor.dfy`, module `TypeDescriptor`). This covers:
  - equality on type name and module, including the all-null-module rule and the fallback used when a major version is missing;
  - the split between named and anonymous types, which decides whether a descriptor shares the type-check cache of its identifier or gets a private one;
  - the lazily computed SemType cell: computed once while unset, cleared by `resetSemType`, and cleared with the other caches by `clone`;
  - the visited-set guard of `isDependentlyTyped`, with the set's membership decided by hash code and `equals` as a `HashSet` decides it.

  `BType` is a class with the Java fields. The methods that update fields have `modifies` frames and state the whole new state.
- **`lang.function:call`** (`function_call.dfy`, module `FunctionCall`). This is the argument-to-parameter matching that happens before a function pointer is invoked:
  - a positional pass over the declared parameters;
  - a rest pass over the surplus arguments;
  - the incompatible-arguments outcome.

  Both passes are methods with loops. Each is proved against recursive specification functions over the arguments and parameters. The Java lists the passes append to (`argsList`, `paramTypes`, `argTypes`) are local to `call`. Here they are passed in and returned extended.
- **TOML configurable helpers** (`toml_utils.dfy`, module `TomlUtils`), from the TOML provider's `Utils`. This covers:
  - the names of TOML node kinds;
  - the TOML kinds each type tag accepts;
  - unwrapping of references, intersections and key-value nodes;
  - one-based line ranges;
  - tuple element lookup;
  - the union searches `containsType` and `containsXMLType`, as loop methods;
  - the rules that read a TOML double as a float or a decimal, and a TOML string as a string or as xml.

`wrappers.dfy` holds `Option`, which stands for a nullable Java reference, and `Result`, which stands for a call that may throw.

Several Java exceptions are modelled as `Failure` results rather than excluded by preconditions:
- `NullPointerException` in `equals`, when this type name is null, or when the module organisation or name is null in the version fallback, also when `equals` is called by the visited set's lookup;
- `NullPointerException` in `throwMemberAmbiguityError` when the node has no location;
- `IndexOutOfBoundsException` in `getTupleElementType`;
- `ConfigException` in `checkEffectiveTomlType` and in the ambiguity rules.

## Model

| member | source | states |
|---|---|---|
| TypeDescriptor.ModuleEquals | bvm/ballerina-runtime/src/main/java/io/ballerina/runtime/internal/types/BType.java:141-154 | true only with equal organisations and names; equal modules are never unequal; throws exactly when the version fallback meets a null organisation, or a null name with equal organisations |
| TypeDescriptor.NameAndModuleEquals | bvm/ballerina-runtime/src/main/java/io/ballerina/runtime/internal/types/BType.java:124-155 | a name different from the other's getName() gives false; a null module equals only a null module; only one null module gives false; throws NullPointerException on a null type name, otherwise only inside the module comparison |
| TypeDescriptor.BType.Equals | bvm/ballerina-runtime/src/main/java/io/ballerina/runtime/internal/types/BType.java:119-157 | the same object is equal; a non-descriptor is not; different names are never equal; equal descriptors have equal names and both or neither module null; a distinct descriptor with a null name throws NullPointerException |
| TypeDescriptor.EqualsSymmetric | bvm/ballerina-runtime/src/main/java/io/ballerina/runtime/internal/types/BType.java:119-157 | where equals returns in both directions, the two answers agree |
| TypeDescriptor.AllNullModuleMatchesOnlyAllNull | bvm/ballerina-runtime/src/main/java/io/ballerina/runtime/internal/types/BType.java:141-147 | an all-null module equals, in either direction, exactly the all-null modules |
| TypeDescriptor.VersionFallback | bvm/ballerina-runtime/src/main/java/io/ballerina/runtime/internal/types/BType.java:149-154 | with both major versions present, modules are compared in full; with either missing, organisation and name decide |
| TypeDescriptor.VersionFallbackNotTransitive | bvm/ballerina-runtime/src/main/java/io/ballerina/runtime/internal/types/BType.java:149-154 | a module without a version equals versions 1 and 2 of itself, which are not equal to each other |
| TypeDescriptor.ContainsSubstringAt | bvm/ballerina-runtime/src/main/java/io/ballerina/runtime/internal/types/BType.java:303 | the recursive substring test is String.contains: true exactly when the text occurs at some index |
| TypeDescriptor.NoDollarNoAnonMarker | bvm/ballerina-runtime/src/main/java/io/ballerina/runtime/internal/types/BType.java:301-304 | a name without '$' never contains "$anon" |
| TypeDescriptor.DollarFreeNameIsNamed | bvm/ballerina-runtime/src/main/java/io/ballerina/runtime/internal/types/BType.java:301-304 | a descriptor with a module and a non-empty name free of '$' is a named type |
| TypeDescriptor.HasAllNullConstituents | bvm/ballerina-runtime/src/main/java/io/ballerina/runtime/internal/types/BType.java:229-231 | holds exactly for the module with null organisation, null name and null version |
| TypeDescriptor.NameOf | bvm/ballerina-runtime/src/main/java/io/ballerina/runtime/internal/types/BType.java:168-171 | the type name when there is one; empty exactly when the name is null or empty |
| TypeDescriptor.BType.IsNamedType | bvm/ballerina-runtime/src/main/java/io/ballerina/runtime/internal/types/BType.java:301-304 | a descriptor is a named type exactly when it has a module and a non-empty name in which "$anon" occurs at no index |
| TypeDescriptor.TypeRegistry.CreateCache | bvm/ballerina-runtime/src/main/java/io/ballerina/runtime/internal/types/BType.java:80 | each private cache is new: numbered by the count handed out so far, which goes up by one |
| TypeDescriptor.TypeRegistry.GetAnonId | bvm/ballerina-runtime/src/main/java/io/ballerina/runtime/internal/types/BType.java:81 | each anonymous id is new: numbered by the count handed out so far, which goes up by one |
| TypeDescriptor.BType.InitializeCache | bvm/ballerina-runtime/src/main/java/io/ballerina/runtime/internal/types/BType.java:74-83 | a named type takes the shared cache and id of its identifier and draws nothing from the registry; any other type takes a fresh private cache and a fresh id |
| TypeDescriptor.BType.constructor | bvm/ballerina-runtime/src/main/java/io/ballerina/runtime/internal/types/BType.java:62-72 | name and module are stored with all caches unset; the hash code is that of module and name when both are present and 0 otherwise; the cache and id are chosen as in initializeCache only when asked |
| TypeDescriptor.CacheSharing | bvm/ballerina-runtime/src/main/java/io/ballerina/runtime/internal/types/BType.java:74-83 | for any module, two descriptors of the same non-empty name without "$anon" share the one cache of that type identifier; two descriptors of the same name containing "$anon" get distinct caches |
| TypeDescriptor.BType.GetQualifiedName | bvm/ballerina-runtime/src/main/java/io/ballerina/runtime/internal/types/BType.java:173-181 | empty exactly when the name is empty; always ends with the name; the bare name without a module; otherwise the module text and ":" before the name |
| TypeDescriptor.BType.SetCachedReferredType | bvm/ballerina-runtime/src/main/java/io/ballerina/runtime/internal/types/BType.java:243-246 | the referred-type cache holds the given type, and nothing else changes |
| TypeDescriptor.BType.SetCachedImpliedType | bvm/ballerina-runtime/src/main/java/io/ballerina/runtime/internal/types/BType.java:253-256 | the implied-type cache holds the given type, and nothing else changes |
| TypeDescriptor.BType.UpdateInnerSemTypeIfNeeded | bvm/ballerina-runtime/src/main/java/io/ballerina/runtime/internal/types/BType.java:268-276 | an unset cell is filled with one call of createSemType, and the bitsets mirror it; a set cell leaves everything unchanged and computes nothing |
| TypeDescriptor.BType.GetSemType | bvm/ballerina-runtime/src/main/java/io/ballerina/runtime/internal/types/BType.java:278-281 | returns the cached SemType, computing it only if the cell was unset; the result is what the cell then holds |
| TypeDescriptor.BType.ResetSemType | bvm/ballerina-runtime/src/main/java/io/ballerina/runtime/internal/types/BType.java:283-286 | the cell is unset, and the descriptor stays consistent |
| TypeDescriptor.SemTypeCacheLifecycle | bvm/ballerina-runtime/src/main/java/io/ballerina/runtime/internal/types/BType.java:268-286 | two reads give the same SemType with at most one computation; after a reset the next read computes it again |
| TypeDescriptor.BType.ShallowCopy | bvm/ballerina-runtime/src/main/java/io/ballerina/runtime/internal/types/BType.java:291 | the copy made by Object.clone has every field of the original, the hash code included |
| TypeDescriptor.BType.Clone | bvm/ballerina-runtime/src/main/java/io/ballerina/runtime/internal/types/BType.java:288-299 | a new descriptor with the same name, module, hash code, bitsets, cache and id, and no cached SemType, implied type or referred type |
| TypeDescriptor.Lookup | bvm/ballerina-runtime/src/main/java/io/ballerina/runtime/internal/types/BType.java:323 | HashSet's bucket scan in insertion order: the same object is found, elements with another hash code are skipped, and otherwise this descriptor's equals decides, its exception passed on; a found element shares the hash code, and found or absent is characterised by LookupAbsent and LookupFindsMember |
| TypeDescriptor.LookupAbsent | bvm/ballerina-runtime/src/main/java/io/ballerina/runtime/internal/types/BType.java:323 | the hash-set lookup finds nothing exactly when every element is another object with another hash code or one this descriptor's equals rejects |
| TypeDescriptor.LookupFindsMember | bvm/ballerina-runtime/src/main/java/io/ballerina/runtime/internal/types/BType.java:323 | an object already in the set is never reported absent |
| TypeDescriptor.VisitedSet.Add | bvm/ballerina-runtime/src/main/java/io/ballerina/runtime/internal/types/BType.java:323 | HashSet.add: reports whether the descriptor was absent by the lookup and appends it then; a throwing equals leaves the set unchanged |
| TypeDescriptor.BType.IsDependentlyTyped | bvm/ballerina-runtime/src/main/java/io/ballerina/runtime/internal/types/BType.java:321-327 | a descriptor already in the set, or equal to one in it with the same hash code, answers false and leaves the set as it was; otherwise it is added and the inner query decides on the enlarged set; a throwing equals is passed on |
| TypeDescriptor.CloneCountsAsVisited | bvm/ballerina-runtime/src/main/java/io/ballerina/runtime/internal/types/BType.java:288-327 | after a descriptor is visited, the query on its clone never runs the inner query: it is never true; it is false when the descriptor has a name and no module, and throws NullPointerException when it has no name |
| TypeDescriptor.BType.IsDependentlyTypedFromScratch | bvm/ballerina-runtime/src/main/java/io/ballerina/runtime/internal/types/BType.java:316-319 | the inner query decides on the set holding just this descriptor |
| FunctionCall.CheckIsValidPositionalArgs | langlib/lang.function/src/main/java/org/ballerinalang/langlib/function/Call.java:75-100 | paramTypes gains every declared parameter type in order; argTypes gains the types of the arguments that have a parameter; argsList gains each such argument, or the placeholder for a defaulted parameter without one; errored iff some argument has the wrong type or some required parameter has no argument |
| FunctionCall.CheckIsValidRestArgs | langlib/lang.function/src/main/java/org/ballerinalang/langlib/function/Call.java:102-131 | argTypes gains the types of the max(args - params, 0) surplus arguments; with a rest type, errored iff one of them is not of the element type, and one rest array holding them is appended only when none is; without one, errored iff there is a surplus |
| FunctionCall.Call | langlib/lang.function/src/main/java/org/ballerinalang/langlib/function/Call.java:55-73 | invoked iff neither pass fails, with params + (1 if a rest type) entries, each positional entry the argument or the placeholder; otherwise the error reports all parameter types, the rest element type, and argument types that omit the surplus when the positional pass failed and skipped the rest pass |
| FunctionCall.PositionalEntriesComplete | langlib/lang.function/src/main/java/org/ballerinalang/langlib/function/Call.java:81-98 | without a mismatch, the positional pass appends exactly one entry per parameter: the argument, or the placeholder past the end |
| FunctionCall.MismatchBelowExists | langlib/lang.function/src/main/java/org/ballerinalang/langlib/function/Call.java:81-98 | the flag accumulated so far is set exactly when some earlier parameter mismatched |
| FunctionCall.PositionalEntriesShort | langlib/lang.function/src/main/java/org/ballerinalang/langlib/function/Call.java:93-97 | a required parameter with no argument makes the argument list shorter than the parameter list |
| FunctionCall.PositionalEntriesAtMost | langlib/lang.function/src/main/java/org/ballerinalang/langlib/function/Call.java:81-98 | the positional pass appends at most one entry per parameter |
| FunctionCall.NoRestMeansNoSurplus | langlib/lang.function/src/main/java/org/ballerinalang/langlib/function/Call.java:124-129 | without a rest parameter, a passing rest check means no more arguments than parameters |
| FunctionCall.RemoveBracketsFromStringFormatOfTuple | langlib/lang.function/src/main/java/org/ballerinalang/langlib/function/Call.java:133-136 | same length; the first character becomes "(" and the last ")"; everything between is kept |
| TomlUtils.GetValueFromKeyValueNode | bvm/ballerina-runtime/src/main/java/io/ballerina/runtime/internal/configurable/providers/toml/Utils.java:400-405 | strips exactly one key-value wrapper, to a smaller node, and returns any other node unchanged; the TOML name and the innermost node are preserved |
| TomlUtils.GetTomlTypeString | bvm/ballerina-runtime/src/main/java/io/ballerina/runtime/internal/configurable/providers/toml/Utils.java:90-102 | the name is one of string, int, float, boolean, array, record, table and "unsupported type" |
| TomlUtils.TomlTypeStringOfInnermost | bvm/ballerina-runtime/src/main/java/io/ballerina/runtime/internal/configurable/providers/toml/Utils.java:90-102 | the name of a node is the name of the node under all its key-value wrappers; "unsupported type" exactly for unlisted kinds; "record" exactly for tables and inline tables |
| TomlUtils.TomlTypeStringDistinguishesKinds | bvm/ballerina-runtime/src/main/java/io/ballerina/runtime/internal/configurable/providers/toml/Utils.java:90-102 | two unwrapped nodes with the same name have the same kind, unless they are a table and an inline table |
| TomlUtils.GetEffectiveType | bvm/ballerina-runtime/src/main/java/io/ballerina/runtime/internal/configurable/providers/toml/Utils.java:353-359 | the result is the type itself or a part of it; a type that is neither a reference nor an intersection is returned unchanged |
| TomlUtils.EffectiveTypeSkipsReferences | bvm/ballerina-runtime/src/main/java/io/ballerina/runtime/internal/configurable/providers/toml/Utils.java:356 | any chain of references is transparent to the effective type |
| TomlUtils.EffectiveTypeResolves | bvm/ballerina-runtime/src/main/java/io/ballerina/runtime/internal/configurable/providers/toml/Utils.java:353-359 | when intersections along the chain have resolved effective types, the result is neither a reference nor an intersection, and taking it again changes nothing |
| TomlUtils.EffectiveTypeUnwrapsOneIntersection | bvm/ballerina-runtime/src/main/java/io/ballerina/runtime/internal/configurable/providers/toml/Utils.java:355 | any intersection, whatever its constituents, yields its effective type; only one is unwrapped, so an intersection whose effective type is an intersection yields that inner intersection |
| TomlUtils.CheckEffectiveTomlType | bvm/ballerina-runtime/src/main/java/io/ballerina/runtime/internal/configurable/providers/toml/Utils.java:166-192 | the only error is CONFIG_TYPE_NOT_SUPPORTED, for the variable being read |
| TomlUtils.CheckMatchesTomlName | bvm/ballerina-runtime/src/main/java/io/ballerina/runtime/internal/configurable/providers/toml/Utils.java:166-190 | the acceptance table: a non-intersection type is supported iff its tag is int, byte, boolean, float, decimal, string, union, an xml tag, xml attributes, array, tuple, map, record or table; then a node is accepted iff its TOML name is one the tag accepts |
| TomlUtils.CheckSeesThroughIntersections | bvm/ballerina-runtime/src/main/java/io/ballerina/runtime/internal/configurable/providers/toml/Utils.java:186-189 | any nesting of intersections, with any constituents, is judged by the innermost effective type |
| TomlUtils.KeyValueNeverAccepted | bvm/ballerina-runtime/src/main/java/io/ballerina/runtime/internal/configurable/providers/toml/Utils.java:166-192 | a key-value node is never accepted as it is |
| TomlUtils.ReferenceNotSupported | bvm/ballerina-runtime/src/main/java/io/ballerina/runtime/internal/configurable/providers/toml/Utils.java:190 | an unresolved type reference is reported as not supported |
| TomlUtils.IsSimpleType | bvm/ballerina-runtime/src/main/java/io/ballerina/runtime/internal/configurable/providers/toml/Utils.java:194-196 | the tags whose value is at most BOOLEAN_TAG's are exactly int, byte, float, decimal, string and boolean |
| TomlUtils.SimpleTypeReadsOneScalar | bvm/ballerina-runtime/src/main/java/io/ballerina/runtime/internal/configurable/providers/toml/Utils.java:166-196 | a simple type (tags up to boolean) is always supported, and accepts exactly the scalar node whose name is int, float, string or boolean to match |
| TomlUtils.GetOneBasedLineRange | bvm/ballerina-runtime/src/main/java/io/ballerina/runtime/internal/configurable/providers/toml/Utils.java:210-215 | same file; start and end line and offset each increased by one in Java int arithmetic (wrapping at the int maximum), so a line below the maximum becomes exactly one more |
| TomlUtils.OneBasedLineRangeRoundTrip | bvm/ballerina-runtime/src/main/java/io/ballerina/runtime/internal/configurable/providers/toml/Utils.java:210-215 | converting back to zero-based positions gives the original range |
| TomlUtils.GetTupleElementType | bvm/ballerina-runtime/src/main/java/io/ballerina/runtime/internal/configurable/providers/toml/Utils.java:392-398 | the rest type for an index past the members when there is one, otherwise member i; IndexOutOfBounds exactly for a negative index, or one past the members without a rest type |
| TomlUtils.ContainsType | bvm/ballerina-runtime/src/main/java/io/ballerina/runtime/internal/configurable/providers/toml/Utils.java:318-334 | true iff some member's effective type has the tag, or is finite with a value whose implied type has it |
| TomlUtils.IsXmlType | bvm/ballerina-runtime/src/main/java/io/ballerina/runtime/internal/configurable/providers/toml/Utils.java:349-351 | references are followed; an intersection is judged by its effective type; a resolved type is xml exactly when its tag is an xml tag; an xml type's effective type is a plain type |
| TomlUtils.ContainsXmlType | bvm/ballerina-runtime/src/main/java/io/ballerina/runtime/internal/configurable/providers/toml/Utils.java:336-351 | true iff some member's effective type has an xml tag |
| TomlUtils.ThrowMemberAmbiguityError | bvm/ballerina-runtime/src/main/java/io/ballerina/runtime/internal/configurable/providers/toml/Utils.java:311-316 | the node's zero-based range is added to the invalid lines and the ambiguity error carries its one-based range, the variable and the type; no location throws before anything is added |
| TomlUtils.ValidateAndGetDoubleValue | bvm/ballerina-runtime/src/main/java/io/ballerina/runtime/internal/configurable/providers/toml/Utils.java:255-267 | a non-anydata union with decimal and float members is ambiguous (invalid lines updated); otherwise lines unchanged, a float when there is a float member, a decimal when there is none |
| TomlUtils.ValidateAndGetStringValue | bvm/ballerina-runtime/src/main/java/io/ballerina/runtime/internal/configurable/providers/toml/Utils.java:296-309 | a non-anydata union with string and xml members is ambiguous (invalid lines updated); otherwise lines unchanged, a string when the union has a string member, is an enum or has a finite member, and xml otherwise |

## Left out

- The type algebra is not modelled. `createSemType`, `isDependentlyTypedInner`, `TypeChecker.getType`/`checkIsType`, `Module.toString`, and the contents of a SemType are parameters or opaque values.
- `TypeCheckCacheFactory` and `TypeIdSupplier` are global registries. They are modelled as keys derived from the type identifier (shared) and as counters (fresh). The caches' contents and the integer ids are not modelled.
- `Module.equals` is not part of this model. It is taken as equality of organisation, name and major version.
- An all-null module equals only another all-null module, and a non-null module never equals it (`AllNullModuleMatchesOnlyAllNull`).
- The `volatile` visibility of `cachedSemType` and any concurrent access are not modelled; every operation is sequential.
- `valueClass`, `toString`, `getImmutableType` and the trivial getters of `BType` are not modelled. They are reflection, constants, or calls into the type checker. The `hashCode()` getter is read as the `hashCode` field.
- TypeDescriptor.BType.Equals: an argument that is not a `BType` is modelled as `null`, and both give false.
- TypeDescriptor.BType.IsDependentlyTyped: the inner query is a function of the visited set. An override that adds to the set further, or recurses into other descriptors, is not modelled.
- TypeDescriptor.BType.ResetSemType: the bitsets left behind by an earlier computation are kept, as in the code. Nothing is claimed about them while the cell is unset.
- The invocation `func.call` becomes the `Invoked` outcome carrying the argument list. The error's detail message becomes the types it is built from. The text of `BTupleType.toString` is not part of this model.
- Argument values are not modelled: the rest array is the sequence of surplus values, and the never-placeholder is one constructor.
- FunctionCall.RemoveBracketsFromStringFormatOfTuple: requires at least two characters. The text of a tuple type always starts with "[" and ends with "]", and a shorter string would make `substring` throw.
- The TOML AST is not modelled. It is a datatype with a location; table entries and the kinds TOML has beyond those named are one `OtherKind`.
- `TypeTags` numbering is not part of this model. `TagValue` numbers the tags in the order they are declared here, with int, byte, float, decimal, string and boolean as the six smallest values; `isSimpleType` depends only on that.
- Value construction is not modelled: `getBalValueFromToml`, `getAnydataMap`, `getAnydataArray`, `getMapAnydataArray`, `getFiniteBalValue`, `createReadOnlyXmlValue`, `BigDecimal.valueOf` and `ValueCreator`. The values read are tagged datatypes holding the node's contents.
- `validateAndGetFiniteDoubleValue`, `checkDoubleValue`: not modelled, because they depend on floating-point equality. Doubles are kept as their bits.
- `getTypeFromTomlValue`, `containsInlineTable`, `createAdditionalField`, `getModuleKey`, `getLineRange`'s text, `containsMapType`, `isAnyDataType` and `isMappingType` are not modelled. They construct types or text and are outside the helpers modelled here.
- `decodeIdentifier` is a foreign call. The ambiguity error carries the type itself rather than its decoded text.
- TypeDescriptor.VisitedSet.Add: only descriptors are modelled as elements, although the Java set holds any MayBeDependentType. Bucket order is insertion order, as in a hash bucket that is a linked list; the reordering of a bucket that has been turned into a tree is not modelled.
- TypeDescriptor.BType.constructor: `Objects.hash` of module and name is a parameter, because `Module.hashCode` is not part of this model.
- TomlUtils.IsXmlTag: `TypeTags.isXMLTypeTag` is not part of this model. It is taken as the tags xml, xml element, xml processing instruction, xml comment and xml text.
- TomlUtils.ValidateAndGetDoubleValue: a decimal is built from the double's bits without modelling `BigDecimal.valueOf`, so its failure on NaN or infinity is not modelled and the result is a `Success` there.
- TomlUtils.ValidateAndGetStringValue: `createReadOnlyXmlValue` is not modelled, so its failure on text that is not XML is not modelled and the result is a `Success` there.
- The rest of the repository (parser, CLI, test utilities, semtype pair iteration, query clauses, collection interfaces) is not part of this model.
