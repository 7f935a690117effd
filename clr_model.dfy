/** The .NET and Newtonsoft.Json entities that the logging helpers work on,
    reduced to the parts the helpers inspect. Reflection is replaced by tags:
    a type is its namespace, its short `Name` and the interfaces it is
    assignable to; an object is its type, its property values, the result of
    its `ToLoggableString()` and the result of its `ToString()`. */
module ClrModel {
  import opened Wrappers

  /** A thrown exception, reduced to its `Message`. */
  datatype Exn = Exn(message: string)

  /** The message of the NullReferenceException thrown by dereferencing null. */
  const NullReference := Exn("Object reference not set to an instance of an object.")

  /** A `System.Type`: `ns` and `name` are `Namespace` and `Name`;
      `interfaces` holds the interface names the type is assignable to. */
  datatype ClrType = ClrType(ns: string, name: string, interfaces: set<string>)

  /** A Newtonsoft `JsonProperty` as the contract resolver sees it. Either
      type may be null. */
  datatype JsonProperty = JsonProperty(
    name: string,
    propertyType: Option<ClrType>,
    declaringType: Option<ClrType>)

  /** A log message object: null, a string, or any other object. For an
      object, `members` pairs each serializable property with its value,
      `loggable` is what `ToLoggableString()` returns when the type
      implements ICustomLogMessage, and `text` is what `ToString()` returns. */
  datatype Value =
    | Null
    | Str(s: string)
    | Obj(clrType: ClrType, members: seq<Member>, loggable: string, text: string)

  datatype Member = Member(prop: JsonProperty, value: Value)

  /** The JSON value tree a serializer walks out of an object. */
  datatype Json = JNull | JString(s: string) | JObject(fields: seq<Field>)

  datatype Field = Field(name: string, value: Json)

  /** The property descriptors of a member list, in order. */
  function Props(members: seq<Member>): (ps: seq<JsonProperty>)
    ensures |ps| == |members|
    ensures forall i :: 0 <= i < |members| ==> ps[i] == members[i].prop
  {
    if members == [] then [] else [members[0].prop] + Props(members[1..])
  }
}
