/** The part of Newtonsoft.Json's `JsonConvert.SerializeObject` that the
    logging helpers configure: the object walk, which asks the contract
    resolver for the properties to write and lets a registered converter
    write any value whose type it accepts. Turning the resulting tree into
    text (and any exception raised while doing so) is the `emit` parameter. */
module JsonSerialization {
  import opened Wrappers
  import opened ClrModel
  import LogItemsContractResolver
  import CustomMessageConverter

  datatype ReferenceLoopHandling = Error | Ignore | Serialize

  datatype ContractResolver = DefaultContractResolver | LogItemsResolver

  datatype Converter = CustomMessageConverterInstance

  datatype SerializerSettings = SerializerSettings(
    referenceLoopHandling: ReferenceLoopHandling,
    contractResolver: ContractResolver,
    converters: seq<Converter>)

  /** The members whose property survives `LogItemsContractResolver`. */
  function KeptMembers(members: seq<Member>): (kept: seq<Member>)
    ensures forall m :: m in kept ==> m in members && LogItemsContractResolver.Keep(m.prop)
    ensures |kept| <= |members|
  {
    if members == [] then []
    else
      var rest := KeptMembers(members[1..]);
      if LogItemsContractResolver.Keep(members[0].prop) then [members[0]] + rest else rest
  }

  /** The members the configured resolver lets through. */
  function ResolvedMembers(settings: SerializerSettings, members: seq<Member>): (ms: seq<Member>)
    ensures forall m :: m in ms ==> m in members
  {
    match settings.contractResolver
    case DefaultContractResolver => members
    case LogItemsResolver => KeptMembers(members)
  }

  /** Does a registered converter take over values of type `t`? */
  predicate Converts(settings: SerializerSettings, t: ClrType)
  {
    CustomMessageConverterInstance in settings.converters && CustomMessageConverter.CanConvert(t)
  }

  /** The serializer hands a value to the converter only when its type is
      convertible, and then the converter's write never throws. */
  lemma ConverterWriteSucceeds(v: Value, settings: SerializerSettings)
    requires v.Obj? && Converts(settings, v.clrType)
    ensures CustomMessageConverter.WriteOutcome(CustomMessageConverter.Written(v)).Success?
  {
  }

  /** The JSON tree written for `v`. A value the converter takes is written as
      the single value `CustomMessageConverter.WriteJson` hands the writer. */
  function ToJson(v: Value, settings: SerializerSettings): Json
    decreases v
  {
    match v
    case Null => JNull
    case Str(s) => JString(s)
    case Obj(t, members, loggable, text) =>
      if Converts(settings, t) then JString(CustomMessageConverter.Written(v).s)
      else
        var ms := ResolvedMembers(settings, members);
        JObject(seq(|ms|, i requires 0 <= i < |ms| =>
          assert ms[i] in members;
          Field(ms[i].prop.name, ToJson(ms[i].value, settings))))
  }

  /** `JsonConvert.SerializeObject(value, settings)`. */
  function SerializeObject(v: Value, settings: SerializerSettings, emit: Json -> Result<string, Exn>): Result<string, Exn>
  {
    emit(ToJson(v, settings))
  }

  /** The properties written for an object under the log resolver are exactly
      the list `LogItemsContractResolver.CreateProperties` returns for it. */
  lemma {:induction false} KeptMembersMatchCreateProperties(members: seq<Member>)
    ensures Props(KeptMembers(members)) == LogItemsContractResolver.CreateProperties(Props(members))
  {
    if members != [] {
      KeptMembersMatchCreateProperties(members[1..]);
      assert Props(members)[1..] == Props(members[1..]);
    }
  }
}
