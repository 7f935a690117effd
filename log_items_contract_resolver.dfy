/** The contract resolver used when serializing log messages: it keeps the
    property list the default resolver produces, minus every property whose
    type, or whose declaring type, is one of the EPiServer rich-text or form
    wrappers. */
module LogItemsContractResolver {
  import opened Wrappers
  import opened ClrModel

  /** Short type names that must never be serialized into a log message. */
  const DenyList: set<string> := {"PropertyXhtmlString", "XhtmlString", "PropertyXForm", "XForm"}

  /** `IsSafeType`: a type is safe when it is not null and its short name is
      not deny-listed. Only `Name` is looked at, never the namespace. */
  predicate IsSafeType(candidate: Option<ClrType>)
    ensures IsSafeType(candidate) <==> candidate.Some? && candidate.value.name !in DenyList
  {
    !(candidate.None?
      || candidate.value.name == "PropertyXhtmlString"
      || candidate.value.name == "XhtmlString"
      || candidate.value.name == "PropertyXForm"
      || candidate.value.name == "XForm")
  }

  /** The `FindAll` predicate of `CreateProperties`. */
  predicate Keep(p: JsonProperty)
  {
    if !IsSafeType(p.propertyType) then false
    else if p.declaringType.Some? && !IsSafeType(p.declaringType) then false
    else true
  }

  /** `xs` can be obtained from `ys` by deleting elements: order is kept and
      nothing is added. */
  ghost predicate IsSubsequence<T>(xs: seq<T>, ys: seq<T>)
    decreases |ys|
  {
    if xs == [] then true
    else if ys == [] then false
    else (xs[0] == ys[0] && IsSubsequence(xs[1..], ys[1..])) || IsSubsequence(xs, ys[1..])
  }

  /** `CreateProperties`, applied to the list `fromBase` that the default
      contract resolver returns for the type. */
  function CreateProperties(fromBase: seq<JsonProperty>): (result: seq<JsonProperty>)
    ensures IsSubsequence(result, fromBase)
    ensures forall p :: p in result ==> Keep(p)
    ensures forall p :: p in fromBase && Keep(p) ==> p in result
    ensures forall p :: p in result ==> IsSafeType(p.propertyType) && p.propertyType.value.name !in DenyList
    ensures forall p :: p in result && p.declaringType.Some? ==> p.declaringType.value.name !in DenyList
  {
    if fromBase == [] then []
    else
      var rest := CreateProperties(fromBase[1..]);
      if Keep(fromBase[0]) then [fromBase[0]] + rest else rest
  }

  /** Filtering the filter's own output changes nothing. */
  lemma {:induction false} CreatePropertiesIdempotent(fromBase: seq<JsonProperty>)
    ensures CreateProperties(CreateProperties(fromBase)) == CreateProperties(fromBase)
  {
    if fromBase != [] {
      CreatePropertiesIdempotent(fromBase[1..]);
    }
  }

  /** A property survives exactly when its own type is safe and its declaring
      type is null or safe; in particular an unsafe property type always drops
      it, and a non-null unsafe declaring type always drops it. */
  lemma KeepIff(p: JsonProperty)
    ensures Keep(p) <==> IsSafeType(p.propertyType) && (p.declaringType.None? || IsSafeType(p.declaringType))
    ensures !IsSafeType(p.propertyType) ==> !Keep(p)
    ensures p.declaringType.Some? && !IsSafeType(p.declaringType) ==> !Keep(p)
  {
  }

  /** Safety is decided by the short name alone: two types with the same
      `Name` in different namespaces are treated alike. */
  lemma SafetyIgnoresNamespace(a: ClrType, b: ClrType)
    requires a.name == b.name
    ensures IsSafeType(Some(a)) == IsSafeType(Some(b))
  {
  }

  /** Every property of a type declared as `XhtmlString` is dropped, so the
      resolver returns an empty list for it. */
  lemma {:induction false} DeclaredByXhtmlStringIsEmpty(fromBase: seq<JsonProperty>)
    requires forall p :: p in fromBase ==> p.declaringType.Some? && p.declaringType.value.name == "XhtmlString"
    ensures CreateProperties(fromBase) == []
  {
    if fromBase != [] {
      assert fromBase[0] in fromBase;
      assert forall p :: p in fromBase[1..] ==> p in fromBase;
      DeclaredByXhtmlStringIsEmpty(fromBase[1..]);
    }
  }
}
