/** `LoggerExtensions`: twelve level wrappers that hand a message object to
    the logger together with `GetMessage` as its formatter, and `GetMessage`
    itself, which turns a message object into log text: null stays null, a
    string is used as it is, anything else is serialized to JSON with the
    log resolver and the custom-message converter, falling back to
    `ToString()` (and a report on the crisis logger) when serialization
    throws. */
module LoggerExtensions {
  import opened Wrappers
  import opened ClrModel
  import L = Logging
  import JsonSerialization
  import LogItemsContractResolver
  import CustomMessageConverter

  /** The settings `GetMessage` builds: ignore reference loops, filter with
      `LogItemsContractResolver`, convert with `CustomMessageConverter`. */
  function LogSettings(): JsonSerialization.SerializerSettings
  {
    JsonSerialization.SerializerSettings(
      JsonSerialization.Ignore,
      JsonSerialization.LogItemsResolver,
      [JsonSerialization.CustomMessageConverterInstance])
  }

  /** `Environment.NewLine` on the Windows .NET Framework the library targets. */
  const NewLine := "\r\n"

  /** The composite-format item `{0,-6}`: left-aligned in a field of six. */
  function PadRight6(s: string): (r: string)
    ensures |r| == if |s| < 6 then 6 else |s|
    ensures r[..|s|] == s
    decreases 6 - |s|
  {
    if |s| < 6 then PadRight6(s + " ") else s
  }

  /** The crisis report written when a message cannot be serialized. */
  function CrisisText(messageText: string, exceptionMessage: string): string
  {
    "Error when serializing log message." + PadRight6(NewLine)
      + "Log message: \"" + messageText + "\"." + PadRight6(NewLine)
      + "Exception: \"" + exceptionMessage + "\""
  }

  /** The text `GetMessage` returns for `message`; `emit` is the JSON text
      writer, which may throw. */
  function MessageText(message: Value, emit: Json -> Result<string, Exn>): (r: Option<string>)
    ensures r.None? <==> message.Null?
    ensures message.Str? ==> r == Some(message.s)
  {
    match message
    case Null => None
    case Str(s) => Some(s)
    case Obj(_, _, _, text) =>
      match JsonSerialization.SerializeObject(message, LogSettings(), emit)
      case Success(json) => Some(json)
      case Failure(_) => Some(text)
  }

  /** What `GetMessage` writes to the crisis logger for `message`. */
  function CrisisCalls(message: Value, emit: Json -> Result<string, Exn>): (cs: seq<L.LogCall>)
    ensures |cs| <= 1
    ensures cs != [] ==> cs[0].Text? && cs[0].level == L.Critical && cs[0].exception.None?
  {
    if message.Obj? then
      match JsonSerialization.SerializeObject(message, LogSettings(), emit)
      case Success(_) => []
      case Failure(ex) => [L.Text(L.Critical, CrisisText(message.text, ex.message), None)]
    else []
  }

  /** `GetMessage(object)`. */
  method GetMessage(crisisLogger: L.Logger, message: Value, emit: Json -> Result<string, Exn>)
    returns (r: Option<string>)
    modifies crisisLogger
    ensures r == MessageText(message, emit)
    ensures crisisLogger.calls == old(crisisLogger.calls) + CrisisCalls(message, emit)
  {
    if message.Null? {
      return None;
    }
    if message.Str? {
      return Some(message.s);
    }
    var result: string;
    var serialized := JsonSerialization.SerializeObject(message, LogSettings(), emit);
    if serialized.Success? {
      result := serialized.value;
    } else {
      crisisLogger.Log(L.Text(L.Critical, CrisisText(message.text, serialized.error.message), None));
      result := message.text;
    }
    return Some(result);
  }

  /** `GetMessage(object, Exception)`: the exception is ignored. */
  method GetMessageWithException(crisisLogger: L.Logger, message: Value, exception: Option<Exn>, emit: Json -> Result<string, Exn>)
    returns (r: Option<string>)
    modifies crisisLogger
    ensures r == MessageText(message, emit)
    ensures crisisLogger.calls == old(crisisLogger.calls) + CrisisCalls(message, emit)
  {
    r := GetMessage(crisisLogger, message, emit);
  }

  /** The text a formatter produces when the logger applies it. */
  function FormatterText(f: L.Formatter, state: Value, exception: Option<Exn>, emit: Json -> Result<string, Exn>): Option<string>
  {
    match f
    case GetMessageOfState => MessageText(state, emit)
    case GetMessageOfStateAndException => MessageText(state, emit)
  }

  /** A call forwarded by a wrapper: the message and the exception unchanged,
      with the matching `GetMessage` overload as formatter. */
  function Forwarded(level: L.Level, message: Value, exception: Option<Option<Exn>>): (c: L.LogCall)
    ensures c.Deferred? && c.level == level && c.state == message
    ensures exception.Some? ==> c.exception == exception.value && c.formatter == L.GetMessageOfStateAndException
    ensures exception.None? ==> c.exception.None? && c.formatter == L.GetMessageOfState
  {
    match exception
    case None => L.Deferred(level, message, None, L.GetMessageOfState)
    case Some(e) => L.Deferred(level, message, e, L.GetMessageOfStateAndException)
  }

  method Critical(instance: L.Logger, message: Value)
    modifies instance
    ensures instance.calls == old(instance.calls) + [Forwarded(L.Critical, message, None)]
  {
    instance.Log(L.Deferred(L.Critical, message, None, L.GetMessageOfState));
  }

  method CriticalWithException(instance: L.Logger, message: Value, exception: Option<Exn>)
    modifies instance
    ensures instance.calls == old(instance.calls) + [Forwarded(L.Critical, message, Some(exception))]
  {
    instance.Log(L.Deferred(L.Critical, message, exception, L.GetMessageOfStateAndException));
  }

  method Debug(instance: L.Logger, message: Value)
    modifies instance
    ensures instance.calls == old(instance.calls) + [Forwarded(L.Debug, message, None)]
  {
    instance.Log(L.Deferred(L.Debug, message, None, L.GetMessageOfState));
  }

  method DebugWithException(instance: L.Logger, message: Value, exception: Option<Exn>)
    modifies instance
    ensures instance.calls == old(instance.calls) + [Forwarded(L.Debug, message, Some(exception))]
  {
    instance.Log(L.Deferred(L.Debug, message, exception, L.GetMessageOfStateAndException));
  }

  method Error(instance: L.Logger, message: Value)
    modifies instance
    ensures instance.calls == old(instance.calls) + [Forwarded(L.Error, message, None)]
  {
    instance.Log(L.Deferred(L.Error, message, None, L.GetMessageOfState));
  }

  method ErrorWithException(instance: L.Logger, message: Value, exception: Option<Exn>)
    modifies instance
    ensures instance.calls == old(instance.calls) + [Forwarded(L.Error, message, Some(exception))]
  {
    instance.Log(L.Deferred(L.Error, message, exception, L.GetMessageOfStateAndException));
  }

  method Information(instance: L.Logger, message: Value)
    modifies instance
    ensures instance.calls == old(instance.calls) + [Forwarded(L.Information, message, None)]
  {
    instance.Log(L.Deferred(L.Information, message, None, L.GetMessageOfState));
  }

  method InformationWithException(instance: L.Logger, message: Value, exception: Option<Exn>)
    modifies instance
    ensures instance.calls == old(instance.calls) + [Forwarded(L.Information, message, Some(exception))]
  {
    instance.Log(L.Deferred(L.Information, message, exception, L.GetMessageOfStateAndException));
  }

  method Trace(instance: L.Logger, message: Value)
    modifies instance
    ensures instance.calls == old(instance.calls) + [Forwarded(L.Trace, message, None)]
  {
    instance.Log(L.Deferred(L.Trace, message, None, L.GetMessageOfState));
  }

  method TraceWithException(instance: L.Logger, message: Value, exception: Option<Exn>)
    modifies instance
    ensures instance.calls == old(instance.calls) + [Forwarded(L.Trace, message, Some(exception))]
  {
    instance.Log(L.Deferred(L.Trace, message, exception, L.GetMessageOfStateAndException));
  }

  method Warning(instance: L.Logger, message: Value)
    modifies instance
    ensures instance.calls == old(instance.calls) + [Forwarded(L.Warning, message, None)]
  {
    instance.Log(L.Deferred(L.Warning, message, None, L.GetMessageOfState));
  }

  method WarningWithException(instance: L.Logger, message: Value, exception: Option<Exn>)
    modifies instance
    ensures instance.calls == old(instance.calls) + [Forwarded(L.Warning, message, Some(exception))]
  {
    instance.Log(L.Deferred(L.Warning, message, exception, L.GetMessageOfStateAndException));
  }

  /** Whatever wrapper forwarded a call, the logger renders it exactly as
      `GetMessage(message)` would: the exception never reaches the text. */
  lemma ForwardedRendersAsGetMessage(level: L.Level, message: Value, exception: Option<Option<Exn>>, emit: Json -> Result<string, Exn>)
    ensures var c := Forwarded(level, message, exception);
      FormatterText(c.formatter, c.state, c.exception, emit) == MessageText(message, emit)
  {
  }

  /** The fallback to `ToString()` happens exactly when a crisis report is
      written, and only for objects that are neither null nor strings; when
      serialization succeeds its output is the message text. */
  lemma FallbackIffCrisisReport(message: Value, emit: Json -> Result<string, Exn>)
    ensures CrisisCalls(message, emit) != [] <==>
      message.Obj? && JsonSerialization.SerializeObject(message, LogSettings(), emit).Failure?
    ensures CrisisCalls(message, emit) != [] ==> MessageText(message, emit) == Some(message.text)
    ensures message.Obj? && CrisisCalls(message, emit) == [] ==>
      MessageText(message, emit) == Some(JsonSerialization.SerializeObject(message, LogSettings(), emit).value)
  {
  }

  /** For an ordinary object, the JSON written has one field per property that
      `LogItemsContractResolver.CreateProperties` keeps, in its order: a
      deny-listed property never reaches the log text. */
  lemma {:induction false} ObjectFieldsAreResolvedProperties(t: ClrType, members: seq<Member>, loggable: string, text: string)
    requires !CustomMessageConverter.CanConvert(t)
    ensures var kept := LogItemsContractResolver.CreateProperties(Props(members));
      var json := JsonSerialization.ToJson(Obj(t, members, loggable, text), LogSettings());
      && json.JObject?
      && |json.fields| == |kept|
      && forall i :: 0 <= i < |kept| ==> json.fields[i].name == kept[i].name
  {
    JsonSerialization.KeptMembersMatchCreateProperties(members);
  }

  /** An ICustomLogMessage is logged as the JSON string of its
      `ToLoggableString()`, wherever it appears. */
  lemma CustomMessageIsLoggedAsLoggableString(t: ClrType, members: seq<Member>, loggable: string, text: string, emit: Json -> Result<string, Exn>)
    requires CustomMessageConverter.CanConvert(t)
    ensures JsonSerialization.ToJson(Obj(t, members, loggable, text), LogSettings()) == JString(loggable)
    ensures emit(JString(loggable)).Success? ==>
      MessageText(Obj(t, members, loggable, text), emit) == Some(emit(JString(loggable)).value)
  {
  }

  /** The anonymous object `{ StringProperty = s1, XhtmlStringProperty = x }`
      with `x` a PropertyXhtmlString (or XhtmlString) serializes as
      `{"StringProperty": s1}`. */
  lemma RichTextPropertyOmitted(anon: ClrType, stringType: ClrType, richType: ClrType, s1: string, x: Value, loggable: string, text: string)
    requires anon.name !in LogItemsContractResolver.DenyList && !CustomMessageConverter.CanConvert(anon)
    requires stringType.name == "String"
    requires richType.name == "PropertyXhtmlString" || richType.name == "XhtmlString"
    ensures var message := Obj(anon, [
        Member(JsonProperty("StringProperty", Some(stringType), Some(anon)), Str(s1)),
        Member(JsonProperty("XhtmlStringProperty", Some(richType), Some(anon)), x)
      ], loggable, text);
      JsonSerialization.ToJson(message, LogSettings()) == JObject([Field("StringProperty", JString(s1))])
  {
    var members := [
        Member(JsonProperty("StringProperty", Some(stringType), Some(anon)), Str(s1)),
        Member(JsonProperty("XhtmlStringProperty", Some(richType), Some(anon)), x)
      ];
    assert members[1..][1..] == [];
    assert JsonSerialization.KeptMembers(members) == [members[0]];
  }
}
