# Epinova.Infrastructure — REST call helper and log-message shaping, in Dafny

This project models two small parts of the Epinova.Infrastructure library.

- **`RestServiceBase`** makes one guarded HTTP call. `CallAsync` catches the
  exception `work()` may throw. It classifies the response as delivered only
  when the status is 2xx (the "Successful" class of section 15.3 of RFC 9110)
  and the content is not null. Otherwise the response is handed back only to
  verbose callers. Each failure path writes exactly one log entry.
  `ParseJsonAsync`, `ParseJsonArrayAsync` and `ParseXmlAsync` deserialize the
  body. On any failure they return a default-built result whose
  `ErrorMessage` names the stage that failed. `BuildQueryString` joins
  `key=value` pairs with `&` and does no escaping.
- **Logging**:
  - `LoggerExtensions.GetMessage` turns a log message object into text. Null
    stays null and a string passes through unchanged. Any other object is
    serialized to JSON through `LogItemsContractResolver` and
    `CustomMessageConverter`. If serialization throws, the result is
    `ToString()` and one report goes to the crisis logger.
  - `LogItemsContractResolver` drops properties whose type, or whose
    declaring type, is one of four EPiServer rich-text or form type names.
  - `CustomMessageConverter` writes an `ICustomLogMessage` as its
    `ToLoggableString()`.
  - The twelve level wrappers forward a message to the logger with
    `GetMessage` as the formatter.
- **`ServiceResponseBase`** is an envelope whose `ErrorList` starts out empty
  and can never be replaced.

Files, one module each:

- `wrappers.dfy` (`Wrappers`): `Option` for a nullable reference and
  `Result` for a call that returns or throws.
- `clr_model.dfy` (`ClrModel`): types, properties and objects as reflection
  sees them, the JSON tree, and exceptions.
- `logging.dfy` (`Logging`): the EPiServer `ILogger`, as a class that records
  every call made on it.
- `log_items_contract_resolver.dfy`, `custom_message_converter.dfy`,
  `logger_extensions.dfy`: the three files under `src/Logging`.
- `json_serialization.dfy` (`JsonSerialization`): the Newtonsoft object walk
  that the resolver and the converter plug into.
- `rest_service_base.dfy` (`RestService`): `RestServiceBase` as a class over
  a logger, with pure specification functions beside it.
- `service_response_base.dfy` (`ServiceResponse`): `ServiceResponseBase`.

Facts about the code worth stating up front:

- Success means any 2xx status (`IsSuccessStatusCode`).
- `BuildQueryString` on a null dictionary throws.
- The deny-list holds four type names: PropertyXhtmlString, XhtmlString,
  PropertyXForm and XForm.
- With debug logging on, a JSON body is read as a string and parsed by
  `JsonConvert.DeserializeObject`; with it off, it is read through a stream
  and parsed by a new `JsonSerializer`. The two can disagree, so debug
  logging can change what a JSON parse returns.

## Model

| member | source | states |
|---|---|---|
| `LogItemsContractResolver.IsSafeType` | src/Logging/LogItemsContractResolver.cs:28-37 | a type is safe exactly when it is non-null and its short name is none of PropertyXhtmlString, XhtmlString, PropertyXForm, XForm |
| `LogItemsContractResolver.SafetyIgnoresNamespace` | src/Logging/LogItemsContractResolver.cs:30-34 | two types with the same `Name` are equally safe whatever their namespaces |
| `LogItemsContractResolver.KeepIff` | src/Logging/LogItemsContractResolver.cs:16-23 | a property is kept iff its type is safe and its declaring type is null or safe; an unsafe type or a non-null unsafe declaring type always drops it |
| `LogItemsContractResolver.CreateProperties` | src/Logging/LogItemsContractResolver.cs:11-26 | the result is a subsequence of the base list (order kept, nothing added), holds only kept properties, holds every kept property of the base list, and contains no property whose type or non-null declaring type is deny-listed |
| `LogItemsContractResolver.CreatePropertiesIdempotent` | src/Logging/LogItemsContractResolver.cs:13-25 | filtering the filter's output again changes nothing |
| `LogItemsContractResolver.DeclaredByXhtmlStringIsEmpty` | src/Logging/LogItemsContractResolver.cs:21-22 | when every property is declared by a type named XhtmlString, the result is empty |
| `CustomMessageConverter.CanRead` | src/Logging/CustomMessageConverter.cs:8 | always false |
| `CustomMessageConverter.CanConvert` | src/Logging/CustomMessageConverter.cs:11-14 | true exactly for types assignable to ICustomLogMessage |
| `CustomMessageConverter.ReadJson` | src/Logging/CustomMessageConverter.cs:17-20 | always throws |
| `CustomMessageConverter.Written` | src/Logging/CustomMessageConverter.cs:25-27 | the value handed to the writer is the `ToLoggableString()` of an ICustomLogMessage and the value itself otherwise |
| `CustomMessageConverter.WriteOutcome` | src/Logging/CustomMessageConverter.cs:27 | `JsonWriter.WriteValue(object)` succeeds exactly for null or a string and throws for any other object |
| `CustomMessageConverter.WriteJson` | src/Logging/CustomMessageConverter.cs:23-28 | succeeds exactly for an ICustomLogMessage, null or a string, and then the writer's output gains exactly the value `Written` gives; any other object throws "Unsupported type" and nothing is written |
| `CustomMessageConverter.WrittenIsTokenIff` | src/Logging/CustomMessageConverter.cs:25-27 | the value handed to the writer is writable exactly when the value is an ICustomLogMessage, null or a string |
| `CustomMessageConverter.WriteJsonOnCustomMessage` | tests/Logging/CustomMessageConverterTests.cs:12-47 | a bare object type is not convertible; an ICustomLogMessage type is, and its value is written as its loggable string |
| `JsonSerialization.ConverterWriteSucceeds` | src/Logging/CustomMessageConverter.cs:11-14 | the serializer hands the converter only convertible values, and for those the write never throws |
| `JsonSerialization.KeptMembersMatchCreateProperties` | src/Logging/LoggerExtensions.cs:101-108 | the properties the serializer writes under the log resolver are exactly `CreateProperties` of the object's property list, in its order |
| `LoggerExtensions.MessageText` | src/Logging/LoggerExtensions.cs:90-117 | the text is null exactly for a null message, and a string message is returned unchanged |
| `LoggerExtensions.CrisisCalls` | src/Logging/LoggerExtensions.cs:110-114 | at most one crisis report, always at Critical level and without an exception object |
| `LoggerExtensions.FallbackIffCrisisReport` | src/Logging/LoggerExtensions.cs:92-116 | a crisis report is written exactly when the message is an object whose serialization throws; then the text is `ToString()`; otherwise an object's text is the serializer's output |
| `LoggerExtensions.GetMessage` | src/Logging/LoggerExtensions.cs:90-117 | returns `MessageText` and appends `CrisisCalls` to the crisis logger, nothing else |
| `LoggerExtensions.GetMessageWithException` | src/Logging/LoggerExtensions.cs:84-87 | ignores the exception: same text and same crisis reports as `GetMessage(message)` |
| `LoggerExtensions.ObjectFieldsAreResolvedProperties` | src/Logging/LoggerExtensions.cs:101-108 | an ordinary object is written as a JSON object with one field per property that `CreateProperties` keeps, in order, so a deny-listed property never reaches the text |
| `LoggerExtensions.CustomMessageIsLoggedAsLoggableString` | src/Logging/LoggerExtensions.cs:106-108 | an ICustomLogMessage is written as the JSON string of its `ToLoggableString()`, and that is the message text when the writer succeeds |
| `LoggerExtensions.RichTextPropertyOmitted` | tests/Logging/LoggerExtensionsTests.cs:8-34 | `{ StringProperty = s1, XhtmlStringProperty = x }` with a rich-text `x` serializes to `{"StringProperty": s1}` |
| `LoggerExtensions.Forwarded` | src/Logging/LoggerExtensions.cs:12-81 | a forwarded call carries the wrapper's level and the message unchanged; with an exception argument it carries that exception and the two-argument formatter, without one no exception and the one-argument formatter |
| `LoggerExtensions.ForwardedRendersAsGetMessage` | src/Logging/LoggerExtensions.cs:12-87 | whichever wrapper forwarded it, applying the formatter yields `GetMessage(message)` |
| `LoggerExtensions.Critical` | src/Logging/LoggerExtensions.cs:12-15 | exactly one call, at Critical, with the message and `GetMessage` |
| `LoggerExtensions.CriticalWithException` | src/Logging/LoggerExtensions.cs:18-21 | exactly one call, at Critical, with the message, the exception and `GetMessage` |
| `LoggerExtensions.Debug` | src/Logging/LoggerExtensions.cs:24-27 | exactly one call, at Debug, with the message and `GetMessage` |
| `LoggerExtensions.DebugWithException` | src/Logging/LoggerExtensions.cs:30-33 | exactly one call, at Debug, with the message, the exception and `GetMessage` |
| `LoggerExtensions.Error` | src/Logging/LoggerExtensions.cs:36-39 | exactly one call, at Error, with the message and `GetMessage` |
| `LoggerExtensions.ErrorWithException` | src/Logging/LoggerExtensions.cs:42-45 | exactly one call, at Error, with the message, the exception and `GetMessage` |
| `LoggerExtensions.Information` | src/Logging/LoggerExtensions.cs:48-51 | exactly one call, at Information, with the message and `GetMessage` |
| `LoggerExtensions.InformationWithException` | src/Logging/LoggerExtensions.cs:54-57 | exactly one call, at Information, with the message, the exception and `GetMessage` |
| `LoggerExtensions.Trace` | src/Logging/LoggerExtensions.cs:60-63 | exactly one call, at Trace, with the message and `GetMessage` |
| `LoggerExtensions.TraceWithException` | src/Logging/LoggerExtensions.cs:66-69 | exactly one call, at Trace, with the message, the exception and `GetMessage` |
| `LoggerExtensions.Warning` | src/Logging/LoggerExtensions.cs:72-75 | exactly one call, at Warning, with the message and `GetMessage` |
| `LoggerExtensions.WarningWithException` | src/Logging/LoggerExtensions.cs:78-81 | exactly one call, at Warning, with the message, the exception and `GetMessage` |
| `RestService.CreateErrorResult` | src/RestServiceBase.cs:134-137 | a default-built result whose `ErrorMessage` is the given message |
| `RestService.CallResult` | src/RestServiceBase.cs:29-55 | null when `work()` throws; any returned response is the one `work()` produced; a delivered response (2xx with content) is returned; any other response is returned exactly when verbose |
| `RestService.CallLog` | src/RestServiceBase.cs:36-52 | no entry for a delivered response, otherwise exactly one: an Error carrying the exception when `work()` throws, a Warning without exception otherwise |
| `RestService.CallResultAgreesWithLog` | src/RestServiceBase.cs:29-55 | a response comes back exactly when nothing was logged, or when verbose and `work()` did not throw |
| `RestService.CallOutcomesOfTests` | tests/RestServiceBaseTests.cs:20-54 | 200, 201 and 202 with content are returned; 400 gives null, or the same response when verbose |
| `RestService.RestServiceBase.constructor` | src/RestServiceBase.cs:17-20 | the service keeps the given logger |
| `RestService.RestServiceBase.CallAsync` | src/RestServiceBase.cs:29-55 | returns `CallResult` and appends exactly `CallLog` to the logger |
| `RestService.RestServiceBase.ParseJsonContent` | src/RestServiceBase.cs:139-155 | with debug on, the string reading of the body goes to `JsonConvert.DeserializeObject` after one "Raw JSON: …" Debug entry; with debug off, the stream reading goes to a new `JsonSerializer` and nothing is logged; a failed read is rethrown before any entry |
| `RestService.JsonParseLog` | src/RestServiceBase.cs:64-95 | with debug on and the body read, the first entry is "Raw JSON: " plus the body at Debug; a successful parse logs only Debug entries; a failed one logs at most the trace and then exactly one Error entry carrying the caught exception |
| `RestService.DebugChangesOnlyTheTrace` | src/RestServiceBase.cs:139-155 | when both readings give the same text and both deserializers agree on it, debug logging changes only the raw-JSON trace, not the result |
| `RestService.TrailingTextFailsOnlyWithDebug` | src/RestServiceBase.cs:139-155 | a body the stream path accepts and `JsonConvert` rejects (text after the JSON value) parses with debug off and gives the "Deserializing json failed" object plus an Error entry with debug on |
| `RestService.ParseJsonResult` | src/RestServiceBase.cs:84-95 | the deserialized object on success; on any failure, including a null response or content, a default object with `ErrorMessage` exactly "Deserializing json failed" |
| `RestService.RestServiceBase.ParseJsonAsync` | src/RestServiceBase.cs:84-95 | returns `ParseJsonResult` and appends exactly `JsonParseLog` |
| `RestService.ParseJsonArrayResult` | src/RestServiceBase.cs:64-75 | the deserialized array on success; on failure an array of exactly one default object with `ErrorMessage` "Deserializing json array failed" |
| `RestService.RestServiceBase.ParseJsonArrayAsync` | src/RestServiceBase.cs:64-75 | returns `ParseJsonArrayResult` and appends exactly `JsonParseLog` |
| `RestService.ParseXmlResult` | src/RestServiceBase.cs:104-124 | the deserialized object on success; on failure a default object with `ErrorMessage` "Deserializing xml failed: " followed by the raw body, or by nothing when the body was never read |
| `RestService.XmlParseLog` | src/RestServiceBase.cs:106-122 | once the body is read, the first entry is "Raw XML: " plus the body at Debug; a successful parse logs nothing else; a failed one ends with exactly one Error entry "Deserializing xml failed." carrying the caught exception, and every entry before it is at Debug |
| `RestService.RestServiceBase.ParseXmlAsync` | src/RestServiceBase.cs:104-124 | returns `ParseXmlResult` and appends exactly `XmlParseLog` |
| `RestService.BuildQueryString` | src/RestServiceBase.cs:129-132 | empty exactly for an empty dictionary; otherwise begins with the first entry's `key=value` |
| `RestService.QueryStringRoundTrip` | src/RestServiceBase.cs:129-132 | the entries are read back unchanged and in order exactly when no key holds `=` or `&` and no value holds `&`: the join adds only separators |
| `RestService.NoEscaping` | src/RestServiceBase.cs:131 | nothing is escaped, so `{a: "b&c=d"}` and `{a: "b", c: "d"}` give the same query string |
| `RestService.ThreeEntries` | src/RestServiceBase.cs:129-132 | three entries give "key1=value1&key2=value2&key3=value3" |
| `ServiceResponse.ServiceResponseBase.constructor` | src/ServiceResponseBase.cs:7-12 | `ErrorList` is a fresh, empty list; it is a constant field, so the list object is never replaced |

## Left out

- `src/AsyncHelper.cs` is not part of this model. It blocks a thread on a task scheduler, which is concurrency with no stateable logic.
- `async`/`await`, the HTTP transport, streams and reader disposal are not modelled. `work()` is given as its outcome (a response or an exception), and a content is given as the text each of its two readings yields (as a string by the charset of its header, or through a UTF-8 stream reader) or the exception that reading throws. Character decoding itself is not modelled.
- The JSON and XML deserializers, and the text writer of the JSON serializer, are parameters. JSON text escaping and quoting are theirs, so exact JSON text is not modelled.
- A JSON body `null`, which deserializes to a null object without an exception, is not modelled: a deserializer either returns a value or throws.
- `ReferenceLoopHandling.Ignore` is recorded in the settings but has no effect: message values are finite trees, so a reference loop cannot occur.
- Reflection is replaced by data. A type's `Name`, its interfaces, `work.Method?.Name` and `StatusCode.ToString()` are given as strings or tags.
- The logger's own behaviour is not modelled. This covers level filtering and how a deferred `(state, formatter)` call is finally rendered. The model records the calls made on the logger. `IsDebugEnabled()` is a constant of the logger.
- The crisis logger, a static field in the source, is passed to `GetMessage` as a parameter. `Environment.NewLine` is taken to be "\r\n".
- Non-string scalar messages (numbers, booleans, dates) are not modelled. A message value is null, a string, or an object with properties.
- The JSON path Newtonsoft appends to its "Unsupported type" message is not modelled.
- `ToLoggableString()` returning null and `ToString()` throwing are not modelled.
- `RestService.RestServiceBase.CallAsync`: a null response from `work()` is dereferenced outside the `try` and throws. Responses here cannot be null, so that path is absent.
- `RestService.BuildQueryString`: a null dictionary throws. The dictionary here is a sequence of its entries in enumeration order and cannot be null.
- `ServiceResponse.ServiceResponseBase.constructor`: the class is abstract and its constructor protected in the source. Dafny classes cannot be abstract without traits, so the model's constructor is public.
- The repository's tests call `Call` and override `ServiceName`; neither exists in the source. `CallAsync` is modelled as the source has it.
