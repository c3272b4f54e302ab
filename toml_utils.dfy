/**
 * Helpers of the TOML provider for configurable variables: which TOML node
 * kinds a Ballerina type accepts, the names of TOML kinds, unwrapping of
 * reference, intersection and key-value wrappers, one-based line ranges,
 * tuple element lookup, and the rules that decide, for a union type, whether
 * a TOML double is read as a float or a decimal and a TOML string as a string
 * or as xml.
 */
module TomlUtils {
  import opened Wrappers

  // ---------------------------------------------------------------------------
  // TOML nodes and positions
  // ---------------------------------------------------------------------------

  /** TomlType, the kind of a TOML node; the library's other kinds are OtherKind. */
  datatype TomlType =
    | StringKind | IntegerKind | DoubleKind | BooleanKind | ArrayKind
    | TableKind | InlineTableKind | TableArrayKind | KeyValueKind | OtherKind

  /** Java's int. */
  newtype int32 = x: int | -0x8000_0000 <= x < 0x8000_0000

  datatype LinePosition = LinePosition(line: int32, offset: int32)

  datatype LineRange = LineRange(fileName: string, startLine: LinePosition, endLine: LinePosition)

  /** A Java double, kept as its IEEE 754 bits; floating-point arithmetic is not part of this model. */
  datatype DoubleBits = DoubleBits(bits: bv64)

  /** The TOML semantic tree; table entries are not part of this model. */
  datatype TomlNode =
    | StringNode(text: string, location: Option<LineRange>)
    | LongNode(longValue: int, location: Option<LineRange>)
    | DoubleNode(doubleValue: DoubleBits, location: Option<LineRange>)
    | BooleanNode(booleanValue: bool, location: Option<LineRange>)
    | ArrayNode(elements: seq<TomlNode>, location: Option<LineRange>)
    | TableNode(location: Option<LineRange>)
    | InlineTableNode(location: Option<LineRange>)
    | TableArrayNode(location: Option<LineRange>)
    | KeyValueNode(key: string, value: TomlNode, location: Option<LineRange>)
    | OtherNode(location: Option<LineRange>)

  function Kind(n: TomlNode): TomlType
  {
    match n
    case StringNode(_, _) => StringKind
    case LongNode(_, _) => IntegerKind
    case DoubleNode(_, _) => DoubleKind
    case BooleanNode(_, _) => BooleanKind
    case ArrayNode(_, _) => ArrayKind
    case TableNode(_) => TableKind
    case InlineTableNode(_) => InlineTableKind
    case TableArrayNode(_) => TableArrayKind
    case KeyValueNode(_, _, _) => KeyValueKind
    case OtherNode(_) => OtherKind
  }

  // ---------------------------------------------------------------------------
  // Ballerina types
  // ---------------------------------------------------------------------------

  /** TypeTags, the tag of a runtime type, in the order declared here. */
  datatype TypeTag =
    | IntTag | ByteTag | FloatTag | DecimalTag | StringTag | BooleanTag
    | JsonTag | XmlTag | TableTag | NullTag | AnydataTag | RecordTypeTag | MapTag | ArrayTag
    | UnionTag | IntersectionTag | TupleTag | FiniteTypeTag | TypeReferencedTypeTag
    | XmlElementTag | XmlPiTag | XmlCommentTag | XmlTextTag | XmlAttributesTag
    | ErrorTag | OtherTag

  /** The tags of types that carry no structure this model looks into. */
  type PlainTag = t: TypeTag
    | t != UnionTag && t != AnydataTag && t != IntersectionTag && t != TupleTag
      && t != FiniteTypeTag && t != TypeReferencedTypeTag
    witness IntTag

  /** A member of a finite type's value space, known here by the tag of its implied type. */
  datatype FiniteValue = FiniteValue(impliedTag: TypeTag)

  datatype Type =
    | PlainType(tag: PlainTag)
    | UnionType(memberTypes: seq<Type>, isAnydata: bool, isEnum: bool)   // anydata is a union with its own tag
    | IntersectionType(constituentTypes: seq<Type>, effectiveType: Type)
    | TupleType(tupleTypes: seq<Type>, restType: Option<Type>)
    | FiniteType(valueSpace: seq<FiniteValue>)
    | ReferenceType(referredType: Type)

  /** Type.getTag */
  function Tag(t: Type): TypeTag
  {
    match t
    case PlainType(tag) => tag
    case UnionType(_, isAnydata, _) => if isAnydata then AnydataTag else UnionTag
    case IntersectionType(_, _) => IntersectionTag
    case TupleType(_, _) => TupleTag
    case FiniteType(_) => FiniteTypeTag
    case ReferenceType(_) => TypeReferencedTypeTag
  }

  /** TypeTags.isXMLTypeTag */
  predicate IsXmlTag(tag: TypeTag)
  {
    tag == XmlTag || tag == XmlElementTag || tag == XmlPiTag || tag == XmlCommentTag || tag == XmlTextTag
  }

  // ---------------------------------------------------------------------------
  // Results
  // ---------------------------------------------------------------------------

  /** The exceptions of these helpers: the two configuration errors and two Java runtime errors. */
  datatype UtilsError =
    | ConfigTypeNotSupported(variableName: string, expectedType: Type)
    | ConfigUnionValueAmbiguousTarget(lineRange: LineRange, variableName: string, targetType: Type)
    | NullPointerException
    | IndexOutOfBoundsException

  /** A Ballerina value read from TOML; value construction is not part of this model. */
  datatype BalValue =
    | FloatValue(double: DoubleBits)
    | DecimalValue(fromDouble: DoubleBits)
    | StringValue(text: string)
    | XmlValue(text: string)

  // ---------------------------------------------------------------------------
  // TOML kinds
  // ---------------------------------------------------------------------------

  /** Utils.getTomlTypeString: the type name of a node, looking through key-value wrappers. */
  function GetTomlTypeString(tomlNode: TomlNode): (r: string)
    ensures r in {"string", "int", "float", "boolean", "array", "record", "table", "unsupported type"}
  {
    match Kind(tomlNode)
    case StringKind => "string"
    case IntegerKind => "int"
    case DoubleKind => "float"
    case BooleanKind => "boolean"
    case ArrayKind => "array"
    case TableKind => "record"
    case InlineTableKind => "record"
    case TableArrayKind => "table"
    case KeyValueKind => GetTomlTypeString(tomlNode.value)
    case OtherKind => "unsupported type"
  }

  /** The node under all key-value wrappers. */
  function Innermost(tomlNode: TomlNode): TomlNode
  {
    if tomlNode.KeyValueNode? then Innermost(tomlNode.value) else tomlNode
  }

  /** Utils.getValueFromKeyValueNode: strips one key-value wrapper and nothing else. */
  function GetValueFromKeyValueNode(value: TomlNode): (r: TomlNode)
    ensures value.KeyValueNode? ==> r == value.value && r < value
    ensures !value.KeyValueNode? ==> r == value
    ensures GetTomlTypeString(r) == GetTomlTypeString(value)
    ensures Innermost(r) == Innermost(value)
  {
    if Kind(value) == KeyValueKind then value.value else value
  }

  /** The type name of a node is the name of the node under all of its key-value wrappers. */
  lemma {:induction false} TomlTypeStringOfInnermost(tomlNode: TomlNode)
    ensures !Innermost(tomlNode).KeyValueNode?
    ensures GetTomlTypeString(tomlNode) == GetTomlTypeString(Innermost(tomlNode))
    ensures GetTomlTypeString(tomlNode) == "unsupported type" <==> Innermost(tomlNode).OtherNode?
    ensures GetTomlTypeString(tomlNode) == "record" <==>
      Innermost(tomlNode).TableNode? || Innermost(tomlNode).InlineTableNode?
  {
    if tomlNode.KeyValueNode? {
      TomlTypeStringOfInnermost(tomlNode.value);
    }
  }

  /** Distinct kinds of node get distinct names, except the two table kinds, which both read as "record". */
  lemma TomlTypeStringDistinguishesKinds(a: TomlNode, b: TomlNode)
    requires !a.KeyValueNode? && !b.KeyValueNode?
    requires GetTomlTypeString(a) == GetTomlTypeString(b)
    ensures Kind(a) == Kind(b) || {Kind(a), Kind(b)} == {TableKind, InlineTableKind}
  {
  }

  // ---------------------------------------------------------------------------
  // Effective types
  // ---------------------------------------------------------------------------

  /** Utils.getEffectiveType: follows references, and replaces one intersection by its effective type. */
  function GetEffectiveType(t: Type): (r: Type)
    ensures r == t || r < t
    ensures !t.ReferenceType? && !t.IntersectionType? ==> r == t
  {
    match t
    case IntersectionType(_, effectiveType) => effectiveType
    case ReferenceType(referredType) => GetEffectiveType(referredType)
    case _ => t
  }

  /** A type wrapped in n references. */
  function Referring(n: nat, t: Type): Type
  {
    if n == 0 then t else ReferenceType(Referring(n - 1, t))
  }

  /** Any chain of references is transparent to getEffectiveType. */
  lemma {:induction false} EffectiveTypeSkipsReferences(n: nat, t: Type)
    ensures GetEffectiveType(Referring(n, t)) == GetEffectiveType(t)
  {
    if n > 0 {
      EffectiveTypeSkipsReferences(n - 1, t);
    }
  }

  predicate Resolved(t: Type)
  {
    !t.ReferenceType? && !t.IntersectionType?
  }

  /** Along the chain of references from t, every intersection has a resolved effective type. */
  predicate IntersectionsResolve(t: Type)
  {
    match t
    case IntersectionType(_, effectiveType) => Resolved(effectiveType)
    case ReferenceType(referredType) => IntersectionsResolve(referredType)
    case _ => true
  }

  /**
   * When intersections resolve, getEffectiveType yields a resolved type,
   * and applying it again changes nothing.
   */
  lemma {:induction false} EffectiveTypeResolves(t: Type)
    requires IntersectionsResolve(t)
    ensures Resolved(GetEffectiveType(t))
    ensures GetEffectiveType(GetEffectiveType(t)) == GetEffectiveType(t)
  {
    if t.ReferenceType? {
      EffectiveTypeResolves(t.referredType);
    }
  }

  /**
   * Whatever its constituents, an intersection is replaced by its effective
   * type, and only one intersection is unwrapped: an intersection whose
   * effective type is an intersection yields that inner intersection.
   */
  lemma EffectiveTypeUnwrapsOneIntersection(constituents: seq<Type>, effectiveType: Type, innerConstituents: seq<Type>)
    ensures GetEffectiveType(IntersectionType(constituents, effectiveType)) == effectiveType
    ensures GetEffectiveType(IntersectionType(constituents, IntersectionType(innerConstituents, effectiveType)))
            == IntersectionType(innerConstituents, effectiveType)
  {
  }

  // ---------------------------------------------------------------------------
  // Accepted TOML kinds
  // ---------------------------------------------------------------------------

  /**
   * Utils.checkEffectiveTomlType: whether a TOML node of this kind can give a
   * value of the expected type; an intersection is judged by its effective
   * type, and a type of any other tag is not supported.
   */
  function CheckEffectiveTomlType(kind: TomlType, expectedType: Type, variableName: string): (r: Result<bool, UtilsError>)
    ensures r.Failure? ==> r.error.ConfigTypeNotSupported? && r.error.variableName == variableName
    decreases expectedType
  {
    if expectedType.IntersectionType? then
      CheckEffectiveTomlType(kind, expectedType.effectiveType, variableName)
    else
      match Tag(expectedType)
      case IntTag => Success(kind == IntegerKind)
      case ByteTag => Success(kind == IntegerKind)
      case BooleanTag => Success(kind == BooleanKind)
      case FloatTag => Success(kind == DoubleKind)
      case DecimalTag => Success(kind == DoubleKind)
      case StringTag => Success(kind == StringKind)
      case UnionTag => Success(kind == StringKind)
      case XmlAttributesTag => Success(kind == StringKind)
      case XmlCommentTag => Success(kind == StringKind)
      case XmlElementTag => Success(kind == StringKind)
      case XmlPiTag => Success(kind == StringKind)
      case XmlTag => Success(kind == StringKind)
      case XmlTextTag => Success(kind == StringKind)
      case ArrayTag => Success(kind == ArrayKind)
      case TupleTag => Success(kind == ArrayKind)
      case MapTag => Success(kind == InlineTableKind || kind == TableKind)
      case RecordTypeTag => Success(kind == InlineTableKind || kind == TableKind)
      case TableTag => Success(kind == TableArrayKind || kind == ArrayKind)
      case _ => Failure(ConfigTypeNotSupported(variableName, expectedType))
  }

  /** The value of a TypeTags constant, taken as the position of the tag in the order declared above. */
  function TagValue(tag: TypeTag): nat
  {
    match tag
    case IntTag => 1 case ByteTag => 2 case FloatTag => 3 case DecimalTag => 4
    case StringTag => 5 case BooleanTag => 6 case JsonTag => 7 case XmlTag => 8
    case TableTag => 9 case NullTag => 10 case AnydataTag => 11 case RecordTypeTag => 12
    case MapTag => 13 case ArrayTag => 14 case UnionTag => 15 case IntersectionTag => 16
    case TupleTag => 17 case FiniteTypeTag => 18 case TypeReferencedTypeTag => 19
    case XmlElementTag => 20 case XmlPiTag => 21 case XmlCommentTag => 22 case XmlTextTag => 23
    case XmlAttributesTag => 24 case ErrorTag => 25 case OtherTag => 26
  }

  /** Utils.isSimpleType: the tags whose value is at most BOOLEAN_TAG's. */
  predicate IsSimpleType(typeTag: TypeTag): (r: bool)
    ensures r <==> typeTag in {IntTag, ByteTag, FloatTag, DecimalTag, StringTag, BooleanTag}
  {
    TagValue(typeTag) <= TagValue(BooleanTag)
  }

  /** The type t wrapped in one intersection per constituent list, the outermost first. */
  function Intersected(constituentLists: seq<seq<Type>>, t: Type): Type
    decreases |constituentLists|
  {
    if constituentLists == [] then t
    else IntersectionType(constituentLists[0], Intersected(constituentLists[1..], t))
  }

  /** Any nesting of intersections, whatever their constituents, is transparent to the check. */
  lemma {:induction false} CheckSeesThroughIntersections(kind: TomlType, constituentLists: seq<seq<Type>>, t: Type,
                                                         variableName: string)
    ensures CheckEffectiveTomlType(kind, Intersected(constituentLists, t), variableName)
            == CheckEffectiveTomlType(kind, t, variableName)
    decreases |constituentLists|
  {
    if constituentLists != [] {
      CheckSeesThroughIntersections(kind, constituentLists[1..], t, variableName);
    }
  }

  /** A key-value node is never accepted as it is: its value has to be taken out first. */
  lemma {:induction false} KeyValueNeverAccepted(expectedType: Type, variableName: string)
    ensures CheckEffectiveTomlType(KeyValueKind, expectedType, variableName) != Success(true)
    decreases expectedType
  {
    if expectedType.IntersectionType? {
      KeyValueNeverAccepted(expectedType.effectiveType, variableName);
    }
  }

  /** A type reference must be resolved before the check: the check does not support it. */
  lemma ReferenceNotSupported(kind: TomlType, t: Type, variableName: string)
    requires t.ReferenceType?
    ensures CheckEffectiveTomlType(kind, t, variableName) == Failure(ConfigTypeNotSupported(variableName, t))
  {
  }

  /** The tags checkEffectiveTomlType knows, besides intersections. */
  predicate SupportedTag(tag: TypeTag)
  {
    IsSimpleType(tag) || IsXmlTag(tag)
    || tag in {UnionTag, XmlAttributesTag, ArrayTag, TupleTag, MapTag, RecordTypeTag, TableTag}
  }

  /** For each supported tag, the names (as getTomlTypeString gives them) of the TOML nodes it can be read from. */
  function AcceptedTomlNames(tag: TypeTag): set<string>
  {
    if tag == IntTag || tag == ByteTag then {"int"}
    else if tag == FloatTag || tag == DecimalTag then {"float"}
    else if tag == BooleanTag then {"boolean"}
    else if tag == StringTag || tag == UnionTag || tag == XmlAttributesTag || IsXmlTag(tag) then {"string"}
    else if tag == ArrayTag || tag == TupleTag then {"array"}
    else if tag == MapTag || tag == RecordTypeTag then {"record"}
    else if tag == TableTag then {"table", "array"}
    else {}
  }

  /**
   * The acceptance table: a type other than an intersection is supported
   * exactly when its tag is one of the supported tags, and then a node is
   * accepted exactly when its TOML name is one the tag accepts.
   */
  lemma CheckMatchesTomlName(node: TomlNode, t: Type, variableName: string)
    requires !node.KeyValueNode? && !t.IntersectionType?
    ensures CheckEffectiveTomlType(Kind(node), t, variableName).Success? <==> SupportedTag(Tag(t))
    ensures CheckEffectiveTomlType(Kind(node), t, variableName).Success? ==>
      (CheckEffectiveTomlType(Kind(node), t, variableName).value <==> GetTomlTypeString(node) in AcceptedTomlNames(Tag(t)))
  {
  }

  /** A simple type is read from exactly one kind of TOML scalar, and its TOML name says which. */
  lemma SimpleTypeReadsOneScalar(tag: PlainTag, node: TomlNode, variableName: string)
    requires IsSimpleType(tag)
    ensures CheckEffectiveTomlType(Kind(node), PlainType(tag), variableName).Success?
    ensures CheckEffectiveTomlType(Kind(node), PlainType(tag), variableName).value <==>
      GetTomlTypeString(node) == (match tag
                                  case IntTag => "int"
                                  case ByteTag => "int"
                                  case FloatTag => "float"
                                  case DecimalTag => "float"
                                  case StringTag => "string"
                                  case _ => "boolean")
      && !node.KeyValueNode?
  {
  }

  // ---------------------------------------------------------------------------
  // Line ranges
  // ---------------------------------------------------------------------------

  /** Java's int addition of one, which wraps at the top of the range. */
  function Inc32(x: int32): int32
  {
    if x == 0x7fff_ffff then -0x8000_0000 else x + 1
  }

  /** Java's int subtraction of one. */
  function Dec32(x: int32): int32
  {
    if x == -0x8000_0000 then 0x7fff_ffff else x - 1
  }

  /** q is p with line and offset each increased by one in 32-bit two's complement arithmetic. */
  predicate OneAbove(p: LinePosition, q: LinePosition)
  {
    (q.line as int - p.line as int - 1) % 0x1_0000_0000 == 0
    && (q.offset as int - p.offset as int - 1) % 0x1_0000_0000 == 0
  }

  /** Utils.getOneBasedLineRange: the same file, with every line and offset moved up by one. */
  function GetOneBasedLineRange(lineRange: LineRange): (r: LineRange)
    ensures r.fileName == lineRange.fileName
    ensures OneAbove(lineRange.startLine, r.startLine) && OneAbove(lineRange.endLine, r.endLine)
    ensures lineRange.startLine.line < 0x7fff_ffff ==> r.startLine.line as int == lineRange.startLine.line as int + 1
    ensures lineRange.endLine.line < 0x7fff_ffff ==> r.endLine.line as int == lineRange.endLine.line as int + 1
  {
    LineRange(lineRange.fileName,
              LinePosition(Inc32(lineRange.startLine.line), Inc32(lineRange.startLine.offset)),
              LinePosition(Inc32(lineRange.endLine.line), Inc32(lineRange.endLine.offset)))
  }

  /** The inverse conversion, from one-based back to zero-based positions. */
  function GetZeroBasedLineRange(lineRange: LineRange): LineRange
  {
    LineRange(lineRange.fileName,
              LinePosition(Dec32(lineRange.startLine.line), Dec32(lineRange.startLine.offset)),
              LinePosition(Dec32(lineRange.endLine.line), Dec32(lineRange.endLine.offset)))
  }

  /** Converting to one-based positions loses nothing. */
  lemma OneBasedLineRangeRoundTrip(lineRange: LineRange)
    ensures GetZeroBasedLineRange(GetOneBasedLineRange(lineRange)) == lineRange
  {
  }

  // ---------------------------------------------------------------------------
  // Tuples
  // ---------------------------------------------------------------------------

  /**
   * Utils.getTupleElementType: the rest type for an index past the members
   * when the tuple has one, otherwise member i (which List.get rejects when
   * out of range).
   */
  function GetTupleElementType(tupleTypes: seq<Type>, i: int32, tupleType: Type): (r: Result<Type, UtilsError>)
    requires tupleType.TupleType?
    ensures i as int >= |tupleTypes| && tupleType.restType.Some? ==> r == Success(tupleType.restType.value)
    ensures 0 <= i as int < |tupleTypes| ==> r == Success(tupleTypes[i])
    ensures r.Failure? <==> i < 0 || (i as int >= |tupleTypes| && tupleType.restType.None?)
    ensures r.Failure? ==> r.error == IndexOutOfBoundsException
  {
    var restType := tupleType.restType;
    if i as int >= |tupleTypes| && restType.Some? then Success(restType.value)
    else if 0 <= i as int < |tupleTypes| then Success(tupleTypes[i])
    else Failure(IndexOutOfBoundsException)
  }

  // ---------------------------------------------------------------------------
  // Union members
  // ---------------------------------------------------------------------------

  /** A member counts for a tag when its effective type has it, or it is finite with a value of that tag. */
  predicate MemberHasTag(member: Type, tag: TypeTag)
  {
    var effectiveType := GetEffectiveType(member);
    (effectiveType.FiniteType?
     && exists j :: 0 <= j < |effectiveType.valueSpace| && effectiveType.valueSpace[j].impliedTag == tag)
    || Tag(effectiveType) == tag
  }

  predicate UnionContainsType(unionType: Type, tag: TypeTag)
    requires unionType.UnionType?
  {
    exists i :: 0 <= i < |unionType.memberTypes| && MemberHasTag(unionType.memberTypes[i], tag)
  }

  /** Utils.isXMLType */
  predicate IsXmlType(t: Type): (r: bool)
    ensures t.ReferenceType? ==> r == IsXmlType(t.referredType)
    ensures t.IntersectionType? ==> (r <==> IsXmlTag(Tag(t.effectiveType)))
    ensures Resolved(t) ==> (r <==> IsXmlTag(Tag(t)))
    ensures r ==> GetEffectiveType(t).PlainType?
  {
    IsXmlTag(Tag(GetEffectiveType(t)))
  }

  predicate UnionContainsXml(unionType: Type)
    requires unionType.UnionType?
  {
    exists i :: 0 <= i < |unionType.memberTypes| && IsXmlType(unionType.memberTypes[i])
  }

  /** Utils.containsType: a search that stops at the first member, or finite value, with the tag. */
  method ContainsType(unionType: Type, tag: TypeTag) returns (found: bool)
    requires unionType.UnionType?
    ensures found == UnionContainsType(unionType, tag)
  {
    var members := unionType.memberTypes;
    var i := 0;
    while i < |members|
      invariant 0 <= i <= |members|
      invariant forall k :: 0 <= k < i ==> !MemberHasTag(members[k], tag)
    {
      var effectiveType := GetEffectiveType(members[i]);
      var typeTag := Tag(effectiveType);
      if typeTag == FiniteTypeTag {
        var valueSpace := effectiveType.valueSpace;
        var j := 0;
        while j < |valueSpace|
          invariant 0 <= j <= |valueSpace|
          invariant forall k :: 0 <= k < j ==> valueSpace[k].impliedTag != tag
        {
          if valueSpace[j].impliedTag == tag {
            return true;
          }
          j := j + 1;
        }
      }
      if typeTag == tag {
        return true;
      }
      i := i + 1;
    }
    return false;
  }

  /** Utils.containsXMLType: a search for the first member of an xml type. */
  method ContainsXmlType(unionType: Type) returns (found: bool)
    requires unionType.UnionType?
    ensures found == UnionContainsXml(unionType)
  {
    var members := unionType.memberTypes;
    var i := 0;
    while i < |members|
      invariant 0 <= i <= |members|
      invariant forall k :: 0 <= k < i ==> !IsXmlType(members[k])
    {
      if IsXmlTag(Tag(GetEffectiveType(members[i]))) {
        return true;
      }
      i := i + 1;
    }
    return false;
  }

  // ---------------------------------------------------------------------------
  // Ambiguous targets
  // ---------------------------------------------------------------------------

  /** The lines marked invalid by an ambiguity at this node: its zero-based range is added. */
  function LinesAfterAmbiguity(invalidTomlLines: set<LineRange>, tomlNode: TomlNode): set<LineRange>
  {
    if tomlNode.location.Some? then invalidTomlLines + {tomlNode.location.value} else invalidTomlLines
  }

  /** The error an ambiguity at this node raises, which reports the one-based range. */
  function AmbiguityError(targetType: Type, variableName: string, tomlNode: TomlNode): UtilsError
  {
    if tomlNode.location.Some? then
      ConfigUnionValueAmbiguousTarget(GetOneBasedLineRange(tomlNode.location.value), variableName, targetType)
    else NullPointerException
  }

  /**
   * Utils.throwMemberAmbiguityError: records the node's (zero-based) range as
   * invalid, then raises the ambiguous-target error with the one-based range.
   * A node without a location fails on the dereference, before anything is recorded.
   */
  method ThrowMemberAmbiguityError(targetType: Type, invalidTomlLines: set<LineRange>, variableName: string,
                                   tomlNode: TomlNode)
    returns (error: UtilsError, invalidTomlLinesOut: set<LineRange>)
    ensures tomlNode.location.Some? ==>
      invalidTomlLinesOut == invalidTomlLines + {tomlNode.location.value}
      && error.ConfigUnionValueAmbiguousTarget? && error.variableName == variableName
      && error.targetType == targetType && error.lineRange == GetOneBasedLineRange(tomlNode.location.value)
    ensures tomlNode.location.None? ==> invalidTomlLinesOut == invalidTomlLines && error == NullPointerException
  {
    if tomlNode.location.None? {
      return NullPointerException, invalidTomlLines;
    }
    var lineRange := tomlNode.location.value;
    invalidTomlLinesOut := invalidTomlLines + {lineRange};
    error := ConfigUnionValueAmbiguousTarget(GetOneBasedLineRange(lineRange), variableName, targetType);
  }

  /**
   * Utils.validateAndGetDoubleValue: a union (other than anydata) with both a
   * decimal and a float member is ambiguous; otherwise a float member wins and
   * the value is a decimal only when there is none.
   */
  method ValidateAndGetDoubleValue(tomlNode: TomlNode, unionType: Type, invalidTomlLines: set<LineRange>,
                                   variableName: string)
    returns (r: Result<BalValue, UtilsError>, invalidTomlLinesOut: set<LineRange>)
    requires tomlNode.DoubleNode? && unionType.UnionType?
    ensures var hasDecimal := UnionContainsType(unionType, DecimalTag);
            var hasFloat := UnionContainsType(unionType, FloatTag);
            if hasDecimal && hasFloat && !unionType.isAnydata then
              r == Failure(AmbiguityError(unionType, variableName, tomlNode))
              && invalidTomlLinesOut == LinesAfterAmbiguity(invalidTomlLines, tomlNode)
            else
              invalidTomlLinesOut == invalidTomlLines
              && r == Success(if hasFloat then FloatValue(tomlNode.doubleValue) else DecimalValue(tomlNode.doubleValue))
  {
    var hasDecimal := ContainsType(unionType, DecimalTag);
    var hasFloat := ContainsType(unionType, FloatTag);
    if hasDecimal && hasFloat && Tag(unionType) != AnydataTag {
      var error;
      error, invalidTomlLinesOut := ThrowMemberAmbiguityError(unionType, invalidTomlLines, variableName, tomlNode);
      return Failure(error), invalidTomlLinesOut;
    }
    invalidTomlLinesOut := invalidTomlLines;
    var value := tomlNode.doubleValue;
    if hasFloat {
      return Success(FloatValue(value)), invalidTomlLinesOut;
    }
    r := Success(DecimalValue(value));
  }

  /**
   * Utils.validateAndGetStringValue: a union (other than anydata) with both a
   * string and an xml member is ambiguous; otherwise the text is a string when
   * the union has a string member, is an enum or has a finite member, and xml
   * when it has none of these.
   */
  method ValidateAndGetStringValue(tomlNode: TomlNode, unionType: Type, invalidTomlLines: set<LineRange>,
                                   variableName: string)
    returns (r: Result<BalValue, UtilsError>, invalidTomlLinesOut: set<LineRange>)
    requires tomlNode.StringNode? && unionType.UnionType?
    ensures var hasString := UnionContainsType(unionType, StringTag);
            var hasXml := UnionContainsXml(unionType);
            if hasString && hasXml && !unionType.isAnydata then
              r == Failure(AmbiguityError(unionType, variableName, tomlNode))
              && invalidTomlLinesOut == LinesAfterAmbiguity(invalidTomlLines, tomlNode)
            else
              invalidTomlLinesOut == invalidTomlLines
              && r == Success(if hasString || unionType.isEnum || UnionContainsType(unionType, FiniteTypeTag)
                              then StringValue(tomlNode.text) else XmlValue(tomlNode.text))
  {
    var hasString := ContainsType(unionType, StringTag);
    var hasXml := ContainsXmlType(unionType);
    if hasString && hasXml && Tag(unionType) != AnydataTag {
      var error;
      error, invalidTomlLinesOut := ThrowMemberAmbiguityError(unionType, invalidTomlLines, variableName, tomlNode);
      return Failure(error), invalidTomlLinesOut;
    }
    invalidTomlLinesOut := invalidTomlLines;
    var value := tomlNode.text;
    var hasFinite := false;
    if !hasString && !unionType.isEnum {
      hasFinite := ContainsType(unionType, FiniteTypeTag);
    }
    if hasString || unionType.isEnum || hasFinite {
      return Success(StringValue(value)), invalidTomlLinesOut;
    }
    r := Success(XmlValue(value));
  }
}
