/**
 * BType: the runtime type descriptor. Its identity (type name and module),
 * the choice between a shared and a private type-check cache, the lazily
 * computed SemType cell, cloning, and the visited-set guard of the
 * dependent-typing query.
 */
module TypeDescriptor {
  import opened Wrappers

  /** A module (package) of the runtime: organisation, name and major version, each of which may be null. */
  datatype Module = Module(org: Option<string>, name: Option<string>, majorVersion: Option<string>)

  /** The exception that the Java code can raise here. */
  datatype JavaError = NullPointerException

  /** The stable key of a named type. */
  datatype TypeIdentifier = TypeIdentifier(pkg: Module, typeName: string)

  /** A type-check cache: the process-wide one of a named type, or a private one. */
  datatype CacheRef = SharedCache(key: TypeIdentifier) | PrivateCache(serial: nat)

  /** The integer id a type is given: interned for named types, fresh for anonymous ones. */
  datatype TypeId = NamedId(key: TypeIdentifier) | AnonId(serial: nat)

  /** Structural payload of a SemType; its contents are not part of this model. */
  datatype SubtypeData = SubtypeData(id: nat)

  /** A semantic type: the `all` and `some` bitsets and the subtype data of the `some` bits. */
  datatype SemType = SemType(all: nat, some: nat, subtypeData: seq<SubtypeData>)

  /** The type-checking context handed to createSemType. */
  datatype Context = Context(id: nat)

  // ---------------------------------------------------------------------------
  // Identity
  // ---------------------------------------------------------------------------

  /** BType.getName: a null type name reads as the empty string. */
  function NameOf(typeName: Option<string>): (r: string)
    ensures typeName.Some? ==> r == typeName.value
    ensures r == "" <==> typeName.None? || typeName.value == ""
  {
    if typeName.Some? then typeName.value else ""
  }

  /** BType.hasAllNullConstituents: the module carries no organisation, name or version at all. */
  predicate HasAllNullConstituents(m: Module): (r: bool)
    ensures r <==> m == Module(None, None, None)
  {
    m.org.None? && m.name.None? && m.majorVersion.None?
  }

  /** String.contains: sub occurs in s at some position. */
  predicate ContainsSubstring(s: string, sub: string)
    decreases |s|
  {
    (|sub| <= |s| && s[..|sub|] == sub) || (s != [] && ContainsSubstring(s[1..], sub))
  }

  /** sub occurs in s starting at index i. */
  predicate OccursAt(s: string, sub: string, i: int)
  {
    0 <= i && i + |sub| <= |s| && s[i..i + |sub|] == sub
  }

  /** ContainsSubstring is String.contains: sub occurs in s at some index. */
  lemma {:induction false} ContainsSubstringAt(s: string, sub: string)
    ensures ContainsSubstring(s, sub) <==> exists i :: OccursAt(s, sub, i)
    decreases |s|
  {
    if |sub| <= |s| && s[..|sub|] == sub {
      assert OccursAt(s, sub, 0);
    }
    if s != [] {
      ContainsSubstringAt(s[1..], sub);
      forall i | OccursAt(s[1..], sub, i)
        ensures OccursAt(s, sub, i + 1)
      {
        assert s[1..][i..i + |sub|] == s[i + 1..i + 1 + |sub|];
      }
      forall i | OccursAt(s, sub, i) && i > 0
        ensures OccursAt(s[1..], sub, i - 1)
      {
        assert s[1..][i - 1..i - 1 + |sub|] == s[i..i + |sub|];
      }
    }
  }

  /** A name without a dollar sign never contains the anonymous-type marker "$anon". */
  lemma {:induction false} NoDollarNoAnonMarker(s: string)
    requires '$' !in s
    ensures !ContainsSubstring(s, "$anon")
    decreases |s|
  {
    if |s| >= 5 {
      assert s[..5][0] == s[0];
    }
    if s != [] {
      assert forall c :: c in s[1..] ==> c in s;
      NoDollarNoAnonMarker(s[1..]);
    }
  }

  /**
   * The module part of BType.equals, for two non-null modules. An all-null
   * module matches only another all-null module; when either side has no
   * major version only organisation and name are compared; otherwise the
   * modules must be equal. Dereferencing this module's null organisation or
   * name in the version fallback throws.
   */
  function ModuleEquals(thisModule: Module, otherModule: Module): (r: Result<bool, JavaError>)
    ensures r == Success(true) ==> thisModule.org == otherModule.org && thisModule.name == otherModule.name
    ensures thisModule == otherModule ==> r != Success(false)
    ensures r.Failure? <==>
      && !HasAllNullConstituents(thisModule) && !HasAllNullConstituents(otherModule)
      && (thisModule.majorVersion.None? || otherModule.majorVersion.None?)
      && (thisModule.org.None? || (thisModule.org == otherModule.org && thisModule.name.None?))
  {
    if HasAllNullConstituents(thisModule) then Success(HasAllNullConstituents(otherModule))
    else if HasAllNullConstituents(otherModule) then Success(false)
    else if thisModule.majorVersion.None? || otherModule.majorVersion.None? then
      if thisModule.org.None? then Failure(NullPointerException)
      else if thisModule.org != otherModule.org then Success(false)
      else if thisModule.name.None? then Failure(NullPointerException)
      else Success(thisModule.name == otherModule.name)
    else Success(thisModule == otherModule)
  }

  /**
   * BType.equals on two distinct descriptors: this type name against the
   * other's getName(), then the null-module rules, then ModuleEquals.
   * Calling equals on this type name when it is null throws.
   */
  function NameAndModuleEquals(thisName: Option<string>, thisPkg: Option<Module>,
                               otherName: Option<string>, otherPkg: Option<Module>): (r: Result<bool, JavaError>)
    ensures r.Failure? ==> thisName.None? || (thisPkg.Some? && otherPkg.Some?)
    ensures thisName.None? ==> r == Failure(NullPointerException)
    ensures thisName.Some? && thisName.value != NameOf(otherName) ==> r == Success(false)
    ensures r == Success(true) ==> NameOf(thisName) == NameOf(otherName) && (thisPkg.None? <==> otherPkg.None?)
    ensures thisName.Some? && thisName.value == NameOf(otherName) && thisPkg.None? ==> r == Success(otherPkg.None?)
    ensures thisName.Some? && thisName.value == NameOf(otherName) && thisPkg.Some? && otherPkg.None? ==> r == Success(false)
  {
    if thisName.None? then Failure(NullPointerException)
    else if thisName.value != NameOf(otherName) then Success(false)
    else match (thisPkg, otherPkg)
      case (None, _) => Success(otherPkg.None?)
      case (Some(_), None) => Success(false)
      case (Some(m), Some(o)) => ModuleEquals(m, o)
  }

  /** Where both directions of equals return, they agree. */
  lemma EqualsSymmetric(aName: Option<string>, aPkg: Option<Module>, bName: Option<string>, bPkg: Option<Module>)
    requires NameAndModuleEquals(aName, aPkg, bName, bPkg).Success?
    requires NameAndModuleEquals(bName, bPkg, aName, aPkg).Success?
    ensures NameAndModuleEquals(aName, aPkg, bName, bPkg) == NameAndModuleEquals(bName, bPkg, aName, aPkg)
  {
  }

  /** An all-null module is equal, in both directions, exactly to the all-null modules. */
  lemma AllNullModuleMatchesOnlyAllNull(m: Module, o: Module)
    requires HasAllNullConstituents(m)
    ensures ModuleEquals(m, o) == Success(HasAllNullConstituents(o))
    ensures ModuleEquals(o, m) == Success(HasAllNullConstituents(o))
  {
  }

  /**
   * When both modules have a major version (and neither is all-null) the
   * modules are compared in full; when one lacks it, organisation and name decide.
   */
  lemma VersionFallback(m: Module, o: Module)
    requires !HasAllNullConstituents(m) && !HasAllNullConstituents(o)
    requires m.org.Some? && m.name.Some?
    ensures m.majorVersion.Some? && o.majorVersion.Some? ==> ModuleEquals(m, o) == Success(m == o)
    ensures m.majorVersion.None? || o.majorVersion.None? ==>
      ModuleEquals(m, o) == Success(m.org == o.org && m.name == o.name)
  {
  }

  /**
   * The version fallback makes module equality non-transitive: a module
   * without a major version matches two versions of itself that do not
   * match each other.
   */
  lemma VersionFallbackNotTransitive()
    ensures var v1 := Module(Some("ballerina"), Some("http"), Some("1"));
            var none := Module(Some("ballerina"), Some("http"), None);
            var v2 := Module(Some("ballerina"), Some("http"), Some("2"));
            ModuleEquals(v1, none) == Success(true) && ModuleEquals(none, v2) == Success(true)
            && ModuleEquals(v1, v2) == Success(false)
  {
  }

  // ---------------------------------------------------------------------------
  // Registries
  // ---------------------------------------------------------------------------

  /**
   * TypeCheckCacheFactory and TypeIdSupplier: the shared cache and the id of
   * a named type are determined by its identifier; private caches and
   * anonymous ids are fresh, numbered by how many were handed out before.
   */
  class TypeRegistry {
    var privateCaches: nat
    var anonIds: nat

    constructor ()
      ensures privateCaches == 0 && anonIds == 0
    {
      privateCaches, anonIds := 0, 0;
    }

    /** TypeCheckCacheFactory.create */
    method CreateCache() returns (c: CacheRef)
      modifies this`privateCaches
      ensures c == PrivateCache(old(privateCaches)) && privateCaches == old(privateCaches) + 1
    {
      c := PrivateCache(privateCaches);
      privateCaches := privateCaches + 1;
    }

    /** TypeIdSupplier.getAnonId */
    method GetAnonId() returns (id: TypeId)
      modifies this`anonIds
      ensures id == AnonId(old(anonIds)) && anonIds == old(anonIds) + 1
    {
      id := AnonId(anonIds);
      anonIds := anonIds + 1;
    }
  }

  /**
   * A descriptor already in the set, as HashSet.add decides it for this
   * descriptor: the elements are scanned in the order they were added (the
   * order of a hash bucket), an element with a different hash code is
   * skipped, the same object is found, and for any other element with the
   * same hash code this descriptor's equals decides (and may throw).
   */
  function Lookup(x: BType, elements: seq<BType>): (r: Result<bool, JavaError>)
    reads x, set e: BType | e in elements
    ensures r == Success(true) ==> exists i :: 0 <= i < |elements| && elements[i].hashCode == x.hashCode
    ensures elements == [] ==> r == Success(false)
    decreases |elements|
  {
    if elements == [] then Success(false)
    else
      var e := elements[0];
      if e == x then Success(true)
      else if e.hashCode != x.hashCode then Lookup(x, elements[1..])
      else match x.Equals(e)
        case Failure(err) => Failure(err)
        case Success(true) => Success(true)
        case Success(false) => Lookup(x, elements[1..])
  }

  /** The element e cannot stand for x in a hash set: another object, with another hash code or not equal. */
  predicate Distinct(x: BType, e: BType)
    reads x, e
  {
    e != x && (e.hashCode != x.hashCode || x.Equals(e) == Success(false))
  }

  /** The lookup finds nothing exactly when every element is distinct from x. */
  lemma {:induction false} LookupAbsent(x: BType, elements: seq<BType>)
    ensures Lookup(x, elements) == Success(false) <==> forall i :: 0 <= i < |elements| ==> Distinct(x, elements[i])
    decreases |elements|
  {
    if elements != [] {
      LookupAbsent(x, elements[1..]);
      assert forall i :: 1 <= i < |elements| ==> elements[i] == elements[1..][i - 1];
    }
  }

  /** An object already in the set is never reported absent (though an earlier element may make equals throw). */
  lemma {:induction false} LookupFindsMember(x: BType, elements: seq<BType>)
    requires x in elements
    ensures Lookup(x, elements) != Success(false)
    decreases |elements|
  {
    if elements[0] != x {
      LookupFindsMember(x, elements[1..]);
    }
  }

  /** The Set<MayBeDependentType> that isDependentlyTyped threads through, as a HashSet of descriptors. */
  class VisitedSet {
    /** The elements in the order they were added. */
    var elements: seq<BType>

    constructor ()
      ensures elements == []
    {
      elements := [];
    }

    /** HashSet.add: reports whether x was absent, adding it then; the lookup may throw first. */
    method Add(x: BType) returns (r: Result<bool, JavaError>)
      modifies this
      ensures r == match Lookup(x, old(elements)) case Success(found) => Success(!found) case Failure(err) => Failure(err)
      ensures elements == if Lookup(x, old(elements)) == Success(false) then old(elements) + [x] else old(elements)
    {
      var found := Lookup(x, elements);
      match found
      case Failure(err) =>
        r := Failure(err);
      case Success(present) =>
        if !present {
          elements := elements + [x];
        }
        r := Success(!present);
    }
  }

  // ---------------------------------------------------------------------------
  // The descriptor
  // ---------------------------------------------------------------------------

  class BType {
    var typeName: Option<string>
    var pkg: Option<Module>
    var cachedReferredType: BType?
    var cachedImpliedType: BType?
    var cachedSemType: Option<SemType>
    // the bitsets and data inherited from SemType
    var all: nat
    var some: nat
    var subtypeData: seq<SubtypeData>
    var typeCheckCache: Option<CacheRef>
    var typeId: Option<TypeId>
    var hashCode: int
    /** How many times createSemType has been called on this descriptor. */
    ghost var semTypeComputations: nat

    /** Whenever the SemType cell is set, the inherited bitsets and data mirror it. */
    ghost predicate Valid()
      reads this
    {
      cachedSemType.Some? ==>
        all == cachedSemType.value.all && some == cachedSemType.value.some
        && subtypeData == cachedSemType.value.subtypeData
    }

    constructor (typeName: Option<string>, pkg: Option<Module>, initializeCache: bool, registry: TypeRegistry,
                 hashOf: (Module, string) -> int)
      modifies registry
      ensures this.typeName == typeName && this.pkg == pkg
      ensures hashCode == if pkg.Some? && typeName.Some? then hashOf(pkg.value, typeName.value) else 0
      ensures cachedSemType.None? && cachedReferredType == null && cachedImpliedType == null
      ensures semTypeComputations == 0 && Valid()
      ensures !initializeCache ==>
        typeCheckCache.None? && typeId.None? && unchanged(registry)
      ensures initializeCache && IsNamedType() ==>
        typeCheckCache == Some(SharedCache(Identifier())) && typeId == Some(NamedId(Identifier()))
        && unchanged(registry)
      ensures initializeCache && !IsNamedType() ==>
        typeCheckCache == Some(PrivateCache(old(registry.privateCaches))) && typeId == Some(AnonId(old(registry.anonIds)))
        && registry.privateCaches == old(registry.privateCaches) + 1 && registry.anonIds == old(registry.anonIds) + 1
    {
      this.typeName := typeName;
      this.pkg := pkg;
      cachedReferredType, cachedImpliedType, cachedSemType := null, null, None;
      all, some, subtypeData := 0, 0, [];
      typeCheckCache, typeId := None, None;
      hashCode := if pkg.Some? && typeName.Some? then hashOf(pkg.value, typeName.value) else 0;
      semTypeComputations := 0;
      new;
      if initializeCache {
        InitializeCache(registry);
      }
    }

    /** The shallow copy that Object.clone makes. */
    constructor ShallowCopy(original: BType)
      ensures typeName == original.typeName && pkg == original.pkg
      ensures cachedReferredType == original.cachedReferredType && cachedImpliedType == original.cachedImpliedType
      ensures cachedSemType == original.cachedSemType
      ensures all == original.all && some == original.some && subtypeData == original.subtypeData
      ensures typeCheckCache == original.typeCheckCache && typeId == original.typeId
      ensures hashCode == original.hashCode
      ensures semTypeComputations == 0
    {
      typeName, pkg := original.typeName, original.pkg;
      cachedReferredType, cachedImpliedType := original.cachedReferredType, original.cachedImpliedType;
      cachedSemType := original.cachedSemType;
      all, some, subtypeData := original.all, original.some, original.subtypeData;
      typeCheckCache, typeId := original.typeCheckCache, original.typeId;
      hashCode := original.hashCode;
      semTypeComputations := 0;
    }

    /** BType.isNamedType */
    predicate IsNamedType(): (r: bool)
      reads this
      ensures r <==> pkg.Some? && typeName.Some? && |typeName.value| > 0
                     && forall i :: !OccursAt(typeName.value, "$anon", i)
    {
      pkg.Some? && typeName.Some? && typeName.value != ""
      && (ContainsSubstringAt(typeName.value, "$anon"); !ContainsSubstring(typeName.value, "$anon"))
    }

    function Identifier(): TypeIdentifier
      reads this
      requires IsNamedType()
    {
      TypeIdentifier(pkg.value, typeName.value)
    }

    /**
     * BType.initializeCache: a named type takes the shared cache and the id of
     * its identifier; any other type takes a fresh private cache and a fresh id.
     */
    method InitializeCache(registry: TypeRegistry)
      modifies this`typeCheckCache, this`typeId, registry
      ensures IsNamedType() ==>
        typeCheckCache == Some(SharedCache(Identifier())) && typeId == Some(NamedId(Identifier()))
        && unchanged(registry)
      ensures !IsNamedType() ==>
        typeCheckCache == Some(PrivateCache(old(registry.privateCaches))) && typeId == Some(AnonId(old(registry.anonIds)))
        && registry.privateCaches == old(registry.privateCaches) + 1 && registry.anonIds == old(registry.anonIds) + 1
    {
      if IsNamedType() {
        var identifier := TypeIdentifier(pkg.value, typeName.value);
        typeCheckCache := Some(SharedCache(identifier));
        typeId := Some(NamedId(identifier));
      } else {
        var cache := registry.CreateCache();
        typeCheckCache := Some(cache);
        var id := registry.GetAnonId();
        typeId := Some(id);
      }
    }

    /** BType.getName */
    function GetName(): (r: string)
      reads this
    {
      NameOf(typeName)
    }

    /**
     * BType.getQualifiedName: empty for an unnamed type, the bare name without
     * a module, and otherwise the module's text, a colon and the name.
     * Module.toString is not part of this model and is a parameter.
     */
    function GetQualifiedName(moduleToString: Module -> string): (r: string)
      reads this
      ensures r == "" <==> GetName() == ""
      ensures |GetName()| <= |r| && r[|r| - |GetName()|..] == GetName()
      ensures pkg.None? ==> r == GetName()
      ensures pkg.Some? && GetName() != "" ==> r[..|r| - |GetName()|] == moduleToString(pkg.value) + ":"
    {
      var name := GetName();
      if name == "" then ""
      else if pkg.None? then name
      else moduleToString(pkg.value) + ":" + name
    }

    /**
     * BType.equals: the same object is equal; anything that is not a BType
     * (here: null) is not; otherwise names and modules decide.
     */
    function Equals(obj: BType?): (r: Result<bool, JavaError>)
      reads this, obj
      ensures obj == this ==> r == Success(true)
      ensures obj == null ==> r == Success(false)
      ensures obj != null && obj != this && typeName.Some? && typeName.value != obj.GetName() ==> r == Success(false)
      ensures r == Success(true) && obj != this ==>
        obj != null && GetName() == obj.GetName() && (pkg.None? <==> obj.pkg.None?)
      ensures r.Failure? ==> obj != null && obj != this && (typeName.None? || (pkg.Some? && obj.pkg.Some?))
      ensures obj != null && obj != this && typeName.None? ==> r == Failure(NullPointerException)
    {
      if this == obj then Success(true)
      else if obj == null then Success(false)
      else NameAndModuleEquals(typeName, pkg, obj.typeName, obj.pkg)
    }

    /** BType.setCachedReferredType */
    method SetCachedReferredType(t: BType?)
      modifies this`cachedReferredType
      ensures cachedReferredType == t
    {
      cachedReferredType := t;
    }

    /** BType.setCachedImpliedType */
    method SetCachedImpliedType(t: BType?)
      modifies this`cachedImpliedType
      ensures cachedImpliedType == t
    {
      cachedImpliedType := t;
    }

    /**
     * BType.updateInnerSemTypeIfNeeded: while the cell is unset, compute the
     * SemType once, copy its bitsets and data, and set the cell; once it is
     * set, nothing changes. createSemType is abstract and is a parameter.
     */
    method UpdateInnerSemTypeIfNeeded(cx: Context, createSemType: Context -> SemType)
      requires Valid()
      modifies this`cachedSemType, this`all, this`some, this`subtypeData, this`semTypeComputations
      ensures Valid() && cachedSemType.Some?
      ensures old(cachedSemType).None? ==>
        cachedSemType == Some(createSemType(cx)) && semTypeComputations == old(semTypeComputations) + 1
      ensures old(cachedSemType).Some? ==>
        cachedSemType == old(cachedSemType) && all == old(all) && some == old(some)
        && subtypeData == old(subtypeData) && semTypeComputations == old(semTypeComputations)
    {
      if cachedSemType.None? {
        var ty := createSemType(cx);
        semTypeComputations := semTypeComputations + 1;
        all := ty.all;
        some, subtypeData := ty.some, ty.subtypeData;
        cachedSemType := Some(ty);
      }
    }

    /** BType.getSemType: the cached SemType, computed first if the cell is unset. */
    method GetSemType(cx: Context, createSemType: Context -> SemType) returns (s: SemType)
      requires Valid()
      modifies this`cachedSemType, this`all, this`some, this`subtypeData, this`semTypeComputations
      ensures Valid() && cachedSemType == Some(s)
      ensures old(cachedSemType).Some? ==>
        s == old(cachedSemType).value && semTypeComputations == old(semTypeComputations)
      ensures old(cachedSemType).None? ==>
        s == createSemType(cx) && semTypeComputations == old(semTypeComputations) + 1
      ensures s.all == all && s.some == some
    {
      UpdateInnerSemTypeIfNeeded(cx, createSemType);
      s := cachedSemType.value;
    }

    /** BType.resetSemType: clears the cell; the bitsets are left as they are. */
    method ResetSemType()
      modifies this`cachedSemType
      ensures cachedSemType.None? && Valid()
    {
      cachedSemType := None;
    }

    /**
     * BType.clone: a new descriptor with the same name, module, bitsets,
     * type-check cache and id, and with no cached SemType, implied type or
     * referred type.
     */
    method Clone() returns (c: BType)
      ensures fresh(c)
      ensures c.typeName == typeName && c.pkg == pkg
      ensures c.typeCheckCache == typeCheckCache && c.typeId == typeId && c.hashCode == hashCode
      ensures c.all == all && c.some == some && c.subtypeData == subtypeData
      ensures c.cachedSemType.None? && c.cachedImpliedType == null && c.cachedReferredType == null
      ensures c.Valid()
    {
      c := new BType.ShallowCopy(this);
      c.cachedSemType := None;
      c.SetCachedImpliedType(null);
      c.SetCachedReferredType(null);
    }

    /**
     * BType.isDependentlyTyped(visited): false at once when the visited set
     * already holds this descriptor, or one equal to it; otherwise this one
     * is added and the inner query, which subclasses override, decides. The
     * inner query is a parameter. The set's lookup may throw from equals.
     */
    method IsDependentlyTyped(visited: VisitedSet, inner: seq<BType> -> bool) returns (r: Result<bool, JavaError>)
      modifies visited
      ensures Lookup(this, old(visited.elements)).Failure? ==>
        r == Failure(Lookup(this, old(visited.elements)).error) && visited.elements == old(visited.elements)
      ensures Lookup(this, old(visited.elements)) == Success(true) ==>
        r == Success(false) && visited.elements == old(visited.elements)
      ensures Lookup(this, old(visited.elements)) == Success(false) ==>
        visited.elements == old(visited.elements) + [this] && r == Success(inner(visited.elements))
    {
      var added := visited.Add(this);
      match added
      case Failure(err) =>
        return Failure(err);
      case Success(wasAbsent) =>
        if !wasAbsent {
          return Success(false);
        }
        r := Success(inner(visited.elements));
    }

    /** BType.isDependentlyTyped(): the same query from an empty visited set, which cannot throw. */
    method IsDependentlyTypedFromScratch(inner: seq<BType> -> bool) returns (r: bool)
      ensures r == inner([this])
    {
      var visited := new VisitedSet();
      assert Lookup(this, visited.elements) == Success(false);
      var result := IsDependentlyTyped(visited, inner);
      assert visited.elements == [this];
      r := result.value;
    }
  }

  /** A descriptor with a module and a non-empty name free of '$' is named. */
  lemma DollarFreeNameIsNamed(t: BType)
    requires t.pkg.Some? && t.typeName.Some? && t.typeName.value != "" && '$' !in t.typeName.value
    ensures t.IsNamedType()
  {
    NoDollarNoAnonMarker(t.typeName.value);
  }

  // ---------------------------------------------------------------------------
  // Clients
  // ---------------------------------------------------------------------------

  /**
   * Two descriptors of the same named type share one type-check cache; two
   * anonymous descriptors (their name holds "$anon") with the same text get
   * private caches of their own.
   */
  method CacheSharing(registry: TypeRegistry, m: Module, name: string, anonName: string,
                      hashOf: (Module, string) -> int)
    returns (named1: Option<CacheRef>, named2: Option<CacheRef>, anon1: Option<CacheRef>, anon2: Option<CacheRef>)
    requires |name| > 0 && forall i :: !OccursAt(name, "$anon", i)
    requires exists i :: OccursAt(anonName, "$anon", i)
    modifies registry
    ensures named1 == named2 == Some(SharedCache(TypeIdentifier(m, name)))
    ensures anon1.Some? && anon2.Some? && anon1 != anon2
  {
    var n1 := new BType(Some(name), Some(m), true, registry, hashOf);
    var n2 := new BType(Some(name), Some(m), true, registry, hashOf);
    var a1 := new BType(Some(anonName), Some(m), true, registry, hashOf);
    var a2 := new BType(Some(anonName), Some(m), true, registry, hashOf);
    named1, named2, anon1, anon2 := n1.typeCheckCache, n2.typeCheckCache, a1.typeCheckCache, a2.typeCheckCache;
  }

  /**
   * The SemType is computed once however often it is read, and computed again
   * after resetSemType.
   */
  method SemTypeCacheLifecycle(t: BType, cx: Context, createSemType: Context -> SemType)
    returns (first: SemType, second: SemType, afterReset: SemType)
    requires t.Valid()
    modifies t
    ensures first == second
    ensures old(t.cachedSemType).None? ==> first == createSemType(cx)
    ensures afterReset == createSemType(cx)
    ensures t.semTypeComputations == old(t.semTypeComputations) + (if old(t.cachedSemType).None? then 2 else 1)
  {
    first := t.GetSemType(cx, createSemType);
    second := t.GetSemType(cx, createSemType);
    t.ResetSemType();
    afterReset := t.GetSemType(cx, createSemType);
  }

  /**
   * A clone of a visited descriptor counts as visited: it is a different
   * object with the same hash code that equals the original, so the query
   * on the clone never reaches the inner query (its equals may throw, on a
   * module with a null organisation and no version).
   */
  method CloneCountsAsVisited(t: BType, inner: seq<BType> -> bool)
    returns (first: Result<bool, JavaError>, second: Result<bool, JavaError>)
    ensures first == Success(inner([t]))
    ensures second != Success(true)
    ensures t.typeName.Some? && t.pkg.None? ==> second == Success(false)
    ensures t.typeName.None? ==> second == Failure(NullPointerException)
  {
    var visited := new VisitedSet();
    assert Lookup(t, visited.elements) == Success(false);
    first := t.IsDependentlyTyped(visited, inner);
    assert visited.elements == [t];
    var copy := t.Clone();
    second := copy.IsDependentlyTyped(visited, inner);
  }
}
