/**
 * lang.function:call(func, ...args): matching the arguments of a dynamic call
 * against the parameters of the function's type, positional parameters first
 * and then the rest parameter, before the function is invoked.
 */
module FunctionCall {
  import opened Wrappers

  /** A runtime type descriptor; the type algebra behind it is not part of this model. */
  datatype Type = Type(id: nat)

  /** A runtime value handed to `call`. */
  datatype Value = Value(id: nat)

  /** A declared parameter: its type and whether it has a default value. */
  datatype Parameter = Parameter(paramType: Type, isDefault: bool)

  /** The array type of a rest parameter. */
  datatype ArrayType = ArrayType(elementType: Type)

  /** The implied type of the function pointer: its parameters and its optional rest parameter. */
  datatype FunctionType = FunctionType(parameters: seq<Parameter>, restType: Option<ArrayType>)

  /** An entry of the argument list the function is invoked with. */
  datatype Arg =
    | Positional(value: Value)
    | NeverPlaceholder                                     // BNever: "use the default"
    | RestArray(arrayType: ArrayType, elements: seq<Value>)

  /** TypeChecker.getType and TypeChecker.checkIsType, taken as given. */
  datatype TypeChecker = TypeChecker(getType: Value -> Type, checkIsType: (Value, Type, Type) -> bool)

  /** What `call` does: invoke the function, or raise the incompatible-arguments error. */
  datatype CallOutcome =
    | Invoked(argsList: seq<Arg>)
    | IncompatibleArguments(argTypes: seq<Type>, paramTypes: seq<Type>, restElementType: Option<Type>)

  // ---------------------------------------------------------------------------
  // Specification functions
  // ---------------------------------------------------------------------------

  /** The value belongs to the target type, judged against the value's own type. */
  predicate BelongsTo(tc: TypeChecker, v: Value, target: Type)
  {
    tc.checkIsType(v, tc.getType(v), target)
  }

  function Min(a: int, b: int): int
  {
    if a < b then a else b
  }

  /** The types of the given values, in order. */
  function TypesOf(tc: TypeChecker, vs: seq<Value>): seq<Type>
  {
    if vs == [] then [] else TypesOf(tc, vs[..|vs| - 1]) + [tc.getType(vs[|vs| - 1])]
  }

  /** The declared types of the given parameters, in order. */
  function ParamTypes(params: seq<Parameter>): seq<Type>
  {
    if params == [] then [] else ParamTypes(params[..|params| - 1]) + [params[|params| - 1].paramType]
  }

  /** What the positional pass appends to the argument list for parameter i. */
  function PositionalEntry(args: seq<Value>, params: seq<Parameter>, i: nat): seq<Arg>
    requires i < |params|
  {
    if i < |args| then [Positional(args[i])]
    else if params[i].isDefault then [NeverPlaceholder]
    else []
  }

  /** What the positional pass appends to the argument list for the first n parameters. */
  function PositionalEntries(args: seq<Value>, params: seq<Parameter>, n: nat): seq<Arg>
    requires n <= |params|
  {
    if n == 0 then [] else PositionalEntries(args, params, n - 1) + PositionalEntry(args, params, n - 1)
  }

  /** Parameter i makes the positional pass fail: its argument has the wrong type, or it is required and missing. */
  predicate MismatchAt(tc: TypeChecker, args: seq<Value>, params: seq<Parameter>, i: nat)
    requires i < |params|
  {
    if i < |args| then !BelongsTo(tc, args[i], params[i].paramType) else !params[i].isDefault
  }

  predicate PositionalArgsInvalid(tc: TypeChecker, args: seq<Value>, params: seq<Parameter>)
  {
    exists i :: 0 <= i < |params| && MismatchAt(tc, args, params, i)
  }

  /** The errored flag of the positional pass after the first n parameters. */
  predicate MismatchBelow(tc: TypeChecker, args: seq<Value>, params: seq<Parameter>, n: nat)
    requires n <= |params|
  {
    n > 0 && (MismatchBelow(tc, args, params, n - 1) || MismatchAt(tc, args, params, n - 1))
  }

  /** The number of arguments beyond the positional parameters: max(args - params, 0). */
  function RestArgCount(args: seq<Value>, params: seq<Parameter>): nat
  {
    if |args| - |params| > 0 then |args| - |params| else 0
  }

  function SurplusArgs(args: seq<Value>, params: seq<Parameter>): seq<Value>
  {
    args[|args| - RestArgCount(args, params)..]
  }

  /** The rest pass fails: a surplus argument is not of the rest element type, or there is no rest parameter to take it. */
  predicate RestArgsInvalid(tc: TypeChecker, args: seq<Value>, ft: FunctionType)
  {
    var surplus := SurplusArgs(args, ft.parameters);
    match ft.restType
    case Some(rt) => exists j :: 0 <= j < |surplus| && !BelongsTo(tc, surplus[j], rt.elementType)
    case None => |surplus| > 0
  }

  /** The argument list a successful call invokes the function with. */
  function ExpectedArgs(args: seq<Value>, ft: FunctionType): seq<Arg>
  {
    PositionalEntries(args, ft.parameters, |ft.parameters|)
      + match ft.restType
        case Some(rt) => [RestArray(rt, SurplusArgs(args, ft.parameters))]
        case None => []
  }

  // ---------------------------------------------------------------------------
  // Lemmas
  // ---------------------------------------------------------------------------

  /**
   * When none of the first n parameters mismatches, the positional pass appends
   * exactly one entry per parameter: the argument itself, or the placeholder
   * for a defaulted parameter without one.
   */
  lemma {:induction false} PositionalEntriesComplete(tc: TypeChecker, args: seq<Value>, params: seq<Parameter>, n: nat)
    requires n <= |params|
    requires forall i :: 0 <= i < n ==> !MismatchAt(tc, args, params, i)
    ensures |PositionalEntries(args, params, n)| == n
    ensures forall i :: 0 <= i < n ==>
      PositionalEntries(args, params, n)[i] == if i < |args| then Positional(args[i]) else NeverPlaceholder
  {
    if n > 0 {
      PositionalEntriesComplete(tc, args, params, n - 1);
      assert !MismatchAt(tc, args, params, n - 1);
    }
  }

  /** The flag the positional pass accumulates is set exactly when some parameter so far mismatched. */
  lemma {:induction false} MismatchBelowExists(tc: TypeChecker, args: seq<Value>, params: seq<Parameter>, n: nat)
    requires n <= |params|
    ensures MismatchBelow(tc, args, params, n) <==> exists k :: 0 <= k < n && MismatchAt(tc, args, params, k)
  {
    if n > 0 {
      MismatchBelowExists(tc, args, params, n - 1);
    }
  }

  /** A required parameter without an argument contributes nothing, so the list comes out short. */
  lemma {:induction false} PositionalEntriesShort(args: seq<Value>, params: seq<Parameter>, n: nat, k: nat)
    requires k < n <= |params|
    requires |args| <= k && !params[k].isDefault
    ensures |PositionalEntries(args, params, n)| < n
  {
    PositionalEntriesAtMost(args, params, n - 1);
    if k < n - 1 {
      PositionalEntriesShort(args, params, n - 1, k);
    }
  }

  lemma {:induction false} PositionalEntriesAtMost(args: seq<Value>, params: seq<Parameter>, n: nat)
    requires n <= |params|
    ensures |PositionalEntries(args, params, n)| <= n
  {
    if n > 0 {
      PositionalEntriesAtMost(args, params, n - 1);
    }
  }

  /** A call without a rest parameter succeeds only when there are no more arguments than parameters. */
  lemma NoRestMeansNoSurplus(tc: TypeChecker, args: seq<Value>, ft: FunctionType)
    requires ft.restType.None? && !RestArgsInvalid(tc, args, ft)
    ensures |args| <= |ft.parameters|
  {
  }

  // ---------------------------------------------------------------------------
  // Operations
  // ---------------------------------------------------------------------------

  /**
   * Call.checkIsValidPositionalArgs: one pass over the declared parameters,
   * appending to paramTypes, argTypes and argsList; the lists come in and the
   * extended lists go out. Returns whether some parameter mismatched.
   */
  method CheckIsValidPositionalArgs(tc: TypeChecker, args: seq<Value>, argsList: seq<Arg>, functionType: FunctionType,
                                    paramTypes: seq<Type>, argTypes: seq<Type>)
    returns (errored: bool, argsListOut: seq<Arg>, paramTypesOut: seq<Type>, argTypesOut: seq<Type>)
    ensures paramTypesOut == paramTypes + ParamTypes(functionType.parameters)
    ensures argTypesOut == argTypes + TypesOf(tc, args[..Min(|args|, |functionType.parameters|)])
    ensures argsListOut == argsList + PositionalEntries(args, functionType.parameters, |functionType.parameters|)
    ensures errored == PositionalArgsInvalid(tc, args, functionType.parameters)
  {
    errored := false;
    var parameters := functionType.parameters;
    var numOfParams := |parameters|;
    var numOfArgs := |args|;
    argsListOut, paramTypesOut, argTypesOut := argsList, paramTypes, argTypes;
    var i := 0;
    while i < numOfParams
      invariant 0 <= i <= numOfParams
      invariant paramTypesOut == paramTypes + ParamTypes(parameters[..i])
      invariant argTypesOut == argTypes + TypesOf(tc, args[..Min(i, numOfArgs)])
      invariant argsListOut == argsList + PositionalEntries(args, parameters, i)
      invariant errored == MismatchBelow(tc, args, parameters, i)
    {
      var parameter := parameters[i];
      var paramType := parameter.paramType;
      assert parameters[..i + 1][..i] == parameters[..i];
      paramTypesOut := paramTypesOut + [paramType];
      if i < numOfArgs {
        assert args[..i + 1][..i] == args[..i];
        var arg := args[i];
        var argType := tc.getType(arg);
        argTypesOut := argTypesOut + [argType];
        if !tc.checkIsType(arg, argType, paramType) {
          errored := true;
        }
        argsListOut := argsListOut + [Positional(arg)];
      } else if parameter.isDefault {
        argsListOut := argsListOut + [NeverPlaceholder];
      } else {
        errored := true;
      }
      assert argsListOut == argsList + PositionalEntries(args, parameters, i + 1);
      i := i + 1;
    }
    assert parameters[..i] == parameters;
    MismatchBelowExists(tc, args, parameters, i);
  }

  /**
   * Call.checkIsValidRestArgs: checks the surplus arguments against the rest
   * element type and, when all belong, appends one rest array holding them;
   * without a rest parameter any surplus argument is an error. The types of
   * the surplus arguments are appended to argTypes either way.
   */
  method CheckIsValidRestArgs(tc: TypeChecker, args: seq<Value>, argsList: seq<Arg>, functionType: FunctionType,
                              argTypes: seq<Type>)
    returns (errored: bool, argsListOut: seq<Arg>, argTypesOut: seq<Type>)
    ensures argTypesOut == argTypes + TypesOf(tc, SurplusArgs(args, functionType.parameters))
    ensures errored == RestArgsInvalid(tc, args, functionType)
    ensures argsListOut == match functionType.restType
      case Some(rt) => if errored then argsList else argsList + [RestArray(rt, SurplusArgs(args, functionType.parameters))]
      case None => argsList
  {
    errored := false;
    var numOfArgs := |args|;
    var numOfRestArgs := if numOfArgs - |functionType.parameters| > 0 then numOfArgs - |functionType.parameters| else 0;
    ghost var surplus := SurplusArgs(args, functionType.parameters);
    assert |surplus| == numOfRestArgs;
    argsListOut, argTypesOut := argsList, argTypes;
    if functionType.restType.Some? {
      var restType := functionType.restType.value;
      var initialValues := new Value[numOfRestArgs];
      var elementType := restType.elementType;
      var i := 0;
      while i < numOfRestArgs
        invariant 0 <= i <= numOfRestArgs
        invariant argTypesOut == argTypes + TypesOf(tc, surplus[..i])
        invariant initialValues[..i] == surplus[..i]
        invariant errored <==> exists k :: 0 <= k < i && !BelongsTo(tc, surplus[k], elementType)
      {
        var arg := args[numOfArgs - numOfRestArgs + i];
        assert surplus[..i + 1][..i] == surplus[..i];
        var argType := tc.getType(arg);
        argTypesOut := argTypesOut + [argType];
        if !tc.checkIsType(arg, argType, elementType) {
          errored := true;
        }
        initialValues[i] := arg;
        i := i + 1;
      }
      assert initialValues[..] == surplus && surplus[..i] == surplus;
      if !errored {
        argsListOut := argsListOut + [RestArray(restType, initialValues[..])];
      }
    } else if numOfRestArgs > 0 {
      errored := true;
      var i := numOfArgs - numOfRestArgs;
      while i < numOfArgs
        invariant numOfArgs - numOfRestArgs <= i <= numOfArgs
        invariant argTypesOut == argTypes + TypesOf(tc, args[numOfArgs - numOfRestArgs..i])
      {
        assert args[numOfArgs - numOfRestArgs..i + 1][..i - (numOfArgs - numOfRestArgs)]
            == args[numOfArgs - numOfRestArgs..i];
        argTypesOut := argTypesOut + [tc.getType(args[i])];
        i := i + 1;
      }
      assert args[numOfArgs - numOfRestArgs..i] == surplus;
    }
  }

  /**
   * Call.call: the positional pass, then (only when it did not fail) the rest
   * pass; either failure raises the incompatible-arguments error, which
   * carries the argument types and the parameter types it reports.
   */
  method Call(tc: TypeChecker, functionType: FunctionType, args: seq<Value>) returns (r: CallOutcome)
    ensures r.Invoked? <==>
      !PositionalArgsInvalid(tc, args, functionType.parameters) && !RestArgsInvalid(tc, args, functionType)
    ensures r.Invoked? ==> r.argsList == ExpectedArgs(args, functionType)
    ensures r.Invoked? ==>
      |r.argsList| == |functionType.parameters| + (if functionType.restType.Some? then 1 else 0)
    ensures r.Invoked? ==> forall i :: 0 <= i < |functionType.parameters| ==>
      r.argsList[i] == if i < |args| then Positional(args[i]) else NeverPlaceholder
    ensures r.IncompatibleArguments? ==>
      && r.paramTypes == ParamTypes(functionType.parameters)
      && r.restElementType == (match functionType.restType case Some(rt) => Some(rt.elementType) case None => None)
      && r.argTypes == TypesOf(tc, args[..Min(|args|, |functionType.parameters|)])
                       + (if PositionalArgsInvalid(tc, args, functionType.parameters) then []
                          else TypesOf(tc, SurplusArgs(args, functionType.parameters)))
  {
    var paramTypes: seq<Type> := [];
    var argTypes: seq<Type> := [];
    var argsList: seq<Arg> := [];
    var errored;
    errored, argsList, paramTypes, argTypes := CheckIsValidPositionalArgs(tc, args, argsList, functionType, paramTypes, argTypes);
    if !errored {
      errored, argsList, argTypes := CheckIsValidRestArgs(tc, args, argsList, functionType, argTypes);
    }
    if errored {
      var restType := match functionType.restType case Some(rt) => Some(rt.elementType) case None => None;
      r := IncompatibleArguments(argTypes, paramTypes, restType);
    } else {
      PositionalEntriesComplete(tc, args, functionType.parameters, |functionType.parameters|);
      r := Invoked(argsList);
    }
  }

  /**
   * Call.removeBracketsFromStringFormatOfTuple: the tuple's text with its
   * first and last characters (the square brackets) replaced by parentheses.
   */
  function RemoveBracketsFromStringFormatOfTuple(tupleString: string): (r: string)
    requires |tupleString| >= 2
    ensures |r| == |tupleString|
    ensures r[0] == '(' && r[|r| - 1] == ')'
    ensures forall i :: 0 < i < |r| - 1 ==> r[i] == tupleString[i]
  {
    "(" + tupleString[1..|tupleString| - 1] + ")"
  }
}
