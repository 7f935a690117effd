/** The JSON converter that lets a log message supply its own text: a value
    whose type implements ICustomLogMessage is written as the single string
    its `ToLoggableString()` returns. The converter is write-only. */
module CustomMessageConverter {
  import opened Wrappers
  import opened ClrModel

  const ICustomLogMessage := "ICustomLogMessage"

  /** A Newtonsoft `JsonWriter`: the values handed to `WriteValue`, in order. */
  class JsonWriter {
    var written: seq<Value>

    constructor ()
      ensures written == []
    {
      written := [];
    }

    /** `JsonWriter.WriteValue(object)`: null or a string is one more token
        in the output; any other object is not a single JSON token, and the
        writer throws without writing anything. */
    method WriteValue(v: Value) returns (r: Result<(), Exn>)
      modifies this
      ensures r == WriteOutcome(v)
      ensures r.Success? ==> written == old(written) + [v]
      ensures r.Failure? ==> written == old(written)
    {
      if v.Obj? {
        return Failure(UnsupportedType(v.clrType));
      }
      written := written + [v];
      return Success(());
    }
  }

  /** The `JsonWriterException` `WriteValue(object)` throws for an object it
      cannot write as a token. */
  function UnsupportedType(t: ClrType): Exn
  {
    Exn("Unsupported type: " + t.ns + "." + t.name + ". Use the JsonSerializer class to get the object's JSON representation.")
  }

  /** Whether `JsonWriter.WriteValue(object)` writes `v` or throws. */
  function WriteOutcome(v: Value): (r: Result<(), Exn>)
    ensures r.Success? <==> !v.Obj?
  {
    if v.Obj? then Failure(UnsupportedType(v.clrType)) else Success(())
  }

  /** `CanRead`: the converter never reads JSON. */
  function CanRead(): (r: bool)
    ensures !r
  {
    false
  }

  /** `CanConvert`: exactly the types assignable to ICustomLogMessage. */
  predicate CanConvert(objectType: ClrType)
    ensures CanConvert(objectType) <==> ICustomLogMessage in objectType.interfaces
  {
    ICustomLogMessage in objectType.interfaces
  }

  /** Is `value` (the runtime object) an ICustomLogMessage? */
  predicate IsCustomLogMessage(value: Value)
  {
    value.Obj? && ICustomLogMessage in value.clrType.interfaces
  }

  /** `ReadJson`: always throws NotImplementedException. */
  function ReadJson(reader: string, objectType: ClrType, existingValue: Value): (r: Result<Value, Exn>)
    ensures r.Failure?
  {
    Failure(Exn("The method or operation is not implemented."))
  }

  /** The value `WriteJson` hands to the writer: the loggable string of an
      ICustomLogMessage, or the value itself otherwise. */
  function Written(value: Value): (w: Value)
    ensures IsCustomLogMessage(value) ==> w == Str(value.loggable)
    ensures !IsCustomLogMessage(value) ==> w == value
  {
    if IsCustomLogMessage(value) then Str(value.loggable) else value
  }

  /** `WriteJson`: an ICustomLogMessage, null or a string is written as
      exactly one value; any other object makes the writer throw, and nothing
      is written. */
  method WriteJson(writer: JsonWriter, value: Value) returns (r: Result<(), Exn>)
    modifies writer
    ensures r.Success? <==> IsCustomLogMessage(value) || !value.Obj?
    ensures r.Success? ==> writer.written == old(writer.written) + [Written(value)]
    ensures r.Failure? ==> writer.written == old(writer.written) && r.error == UnsupportedType(value.clrType)
  {
    var customLogger := if IsCustomLogMessage(value) then Some(value.loggable) else None;
    r := writer.WriteValue(if customLogger.None? then value else Str(customLogger.value));
  }

  /** What `WriteJson` hands the writer is a single token, so the write
      succeeds, exactly when the value is an ICustomLogMessage, null or a
      string. */
  lemma WrittenIsTokenIff(value: Value)
    ensures WriteOutcome(Written(value)).Success? <==> IsCustomLogMessage(value) || !value.Obj?
  {
  }

  /** A type like `SomeModel` of the repository's converter tests is written
      as its loggable string, and a bare `object` is not convertible. */
  lemma WriteJsonOnCustomMessage(t: ClrType, members: seq<Member>, text: string)
    requires ICustomLogMessage in t.interfaces
    ensures CanConvert(t)
    ensures Written(Obj(t, members, "loggable string", text)) == Str("loggable string")
    ensures !CanConvert(ClrType("System", "Object", {}))
  {
  }
}
