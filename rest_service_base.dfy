/** `RestServiceBase`: one guarded HTTP call, classified as delivered or not,
    and three parsers that turn a response body into a service response
    object, replacing any failure by a default object whose `ErrorMessage`
    names the failed stage. The transport, the body reading and the JSON and
    XML deserializers are inputs. */
module RestService {
  import opened Wrappers
  import opened ClrModel
  import L = Logging

  /** An `HttpContent`, read either way the source reads it: `text` is what
      `ReadAsStringAsync()` yields (decoded by the charset of its
      Content-Type header) or throws, and `stream` is what a `StreamReader`
      over `ReadAsStreamAsync()` yields (decoded as UTF-8 unless a byte-order
      mark says otherwise) or throws. */
  datatype HttpContent = HttpContent(text: Result<string, Exn>, stream: Result<string, Exn>)

  /** An `HttpResponseMessage`: the numeric status, the text
      `StatusCode.ToString()` gives, and the content, which may be null. */
  datatype HttpResponse = HttpResponse(statusCode: int, statusName: string, content: Option<HttpContent>)

  /** A response type `T : IServiceResponseMessage, new()`: everything but
      `ErrorMessage` is the payload; `ErrorMessage` may be null. */
  datatype ServiceMessage<M> = ServiceMessage(payload: M, errorMessage: Option<string>)

  const JsonFailed := "Deserializing json failed"
  const JsonArrayFailed := "Deserializing json array failed"
  const XmlFailedPrefix := "Deserializing xml failed: "

  /** `IsSuccessStatusCode`: the 2xx (Successful) class of RFC 9110,
      section 15.3. */
  predicate IsSuccessStatusCode(statusCode: int)
  {
    200 <= statusCode <= 299
  }

  /** A response `CallAsync` hands back without any warning. */
  predicate Delivered(response: HttpResponse)
  {
    IsSuccessStatusCode(response.statusCode) && response.content.Some?
  }

  /** `CreateErrorResult`: `new T { ErrorMessage = message }`, where `blank`
      is the payload of `new T()`. */
  function CreateErrorResult<M>(blank: M, message: string): (r: ServiceMessage<M>)
    ensures r.payload == blank
    ensures r.errorMessage == Some(message)
  {
    ServiceMessage(blank, Some(message))
  }

  /** `work.Method?.Name` as it appears in an interpolated string. */
  function MethodName(workName: Option<string>): string
  {
    match workName
    case None => ""
    case Some(n) => n
  }

  function CallFailedText(serviceName: string, workName: Option<string>): string
  {
    serviceName + " call failed horribly. Method: " + MethodName(workName) + "."
  }

  function StatusWarningText(serviceName: string, statusName: string, workName: Option<string>): string
  {
    "Expected HTTP status code OK from " + serviceName + " when fetching data. Actual: "
      + statusName + ". Method: " + MethodName(workName) + "."
  }

  function NoContentText(serviceName: string, workName: Option<string>): string
  {
    "Could not fetch data from " + serviceName + ". Service returned NULL. Method: " + MethodName(workName) + "."
  }

  /** What `CallAsync` returns for the outcome of `work()`. */
  function CallResult(work: Result<HttpResponse, Exn>, isVerbose: bool): (r: Option<HttpResponse>)
    ensures work.Failure? ==> r.None?
    ensures r.Some? ==> work.Success? && r.value == work.value
    ensures work.Success? && Delivered(work.value) ==> r == Some(work.value)
    ensures work.Success? && !Delivered(work.value) ==> (r.Some? <==> isVerbose)
  {
    match work
    case Failure(_) => None
    case Success(response) =>
      if !IsSuccessStatusCode(response.statusCode) then (if isVerbose then Some(response) else None)
      else if response.content.None? then (if isVerbose then Some(response) else None)
      else Some(response)
  }

  /** What `CallAsync` logs for the outcome of `work()`. */
  function CallLog(serviceName: string, work: Result<HttpResponse, Exn>, workName: Option<string>): (entries: seq<L.LogCall>)
    ensures |entries| == if work.Success? && Delivered(work.value) then 0 else 1
    ensures work.Failure? ==> entries[0].Text? && entries[0].level == L.Error && entries[0].exception == Some(work.error)
    ensures work.Success? && entries != [] ==> entries[0].Text? && entries[0].level == L.Warning && entries[0].exception.None?
  {
    match work
    case Failure(ex) => [L.Text(L.Error, CallFailedText(serviceName, workName), Some(ex))]
    case Success(response) =>
      if !IsSuccessStatusCode(response.statusCode) then
        [L.Text(L.Warning, StatusWarningText(serviceName, response.statusName, workName), None)]
      else if response.content.None? then
        [L.Text(L.Warning, NoContentText(serviceName, workName), None)]
      else []
  }

  /** `content.ReadAsStringAsync()` on a content that may be null. */
  function ReadContent(content: Option<HttpContent>): Result<string, Exn>
  {
    match content
    case None => Failure(NullReference)
    case Some(c) => c.text
  }

  /** `new StreamReader(content.ReadAsStreamAsync())` read to its end, on a
      content that may be null. */
  function ReadStream(content: Option<HttpContent>): Result<string, Exn>
  {
    match content
    case None => Failure(NullReference)
    case Some(c) => c.stream
  }

  /** `response.Content` for a response that may be null. */
  function ContentOf(response: Option<HttpResponse>): Result<Option<HttpContent>, Exn>
  {
    match response
    case None => Failure(NullReference)
    case Some(r) => Success(r.content)
  }

  /** The two Newtonsoft entry points `ParseJsonContentAsync` uses:
      `convert` is `JsonConvert.DeserializeObject<T>(json)`, which applies
      `JsonConvert.DefaultSettings` and rejects text after the JSON value;
      `serializer` is `new JsonSerializer().Deserialize<T>(reader)`, which
      does neither. Each returns the value or the exception it throws. */
  datatype JsonDeserializers<T> = JsonDeserializers(convert: string -> Result<T, Exn>, serializer: string -> Result<T, Exn>)

  /** What `ParseJsonContentAsync` returns or throws: with debug logging on,
      the text read as a string goes to `convert`; otherwise the text read
      through the stream goes to `serializer`. */
  function Deserialized<T>(debugEnabled: bool, content: Option<HttpContent>, d: JsonDeserializers<T>): Result<T, Exn>
  {
    if debugEnabled then
      match ReadContent(content)
      case Failure(ex) => Failure(ex)
      case Success(json) => d.convert(json)
    else
      match ReadStream(content)
      case Failure(ex) => Failure(ex)
      case Success(json) => d.serializer(json)
  }

  /** The debug entry `ParseJsonContentAsync` writes before deserializing. */
  function RawJsonTrace(debugEnabled: bool, content: Option<HttpContent>): seq<L.LogCall>
  {
    if debugEnabled && ReadContent(content).Success? then
      [L.Text(L.Debug, "Raw JSON: " + ReadContent(content).value, None)]
    else []
  }

  /** The body text traced by a JSON parse with debug logging on, if it gets
      that far. */
  function RawJson(response: Option<HttpResponse>): Option<string>
  {
    if response.Some? && ReadContent(response.value.content).Success? then
      Some(ReadContent(response.value.content).value)
    else None
  }

  /** What `ParseJsonAsync` / `ParseJsonArrayAsync` obtain inside their `try`. */
  function JsonOutcome<T>(debugEnabled: bool, response: Option<HttpResponse>, d: JsonDeserializers<T>): Result<T, Exn>
  {
    match ContentOf(response)
    case Failure(ex) => Failure(ex)
    case Success(content) => Deserialized(debugEnabled, content, d)
  }

  /** Everything a JSON parse logs: the raw-JSON trace at Debug, then one
      Error entry with the caught exception if the parse failed. */
  function JsonParseLog<T>(debugEnabled: bool, response: Option<HttpResponse>, d: JsonDeserializers<T>, failure: string)
    : (entries: seq<L.LogCall>)
    ensures |entries| == (if debugEnabled && RawJson(response).Some? then 1 else 0)
      + (if JsonOutcome(debugEnabled, response, d).Failure? then 1 else 0)
    ensures debugEnabled && RawJson(response).Some? ==>
      entries[0] == L.Text(L.Debug, "Raw JSON: " + RawJson(response).value, None)
    ensures JsonOutcome(debugEnabled, response, d).Success? ==>
      forall i | 0 <= i < |entries| :: entries[i].level == L.Debug
    ensures JsonOutcome(debugEnabled, response, d).Failure? ==>
      entries[|entries| - 1] == L.Text(L.Error, failure, Some(JsonOutcome(debugEnabled, response, d).error))
      && forall i | 0 <= i < |entries| - 1 :: entries[i].level == L.Debug
  {
    var trace := if response.Some? then RawJsonTrace(debugEnabled, response.value.content) else [];
    match JsonOutcome(debugEnabled, response, d)
    case Success(_) => trace
    case Failure(ex) => trace + [L.Text(L.Error, failure, Some(ex))]
  }

  /** What `ParseJsonAsync` returns. */
  function ParseJsonResult<M>(debugEnabled: bool, response: Option<HttpResponse>, blank: M, d: JsonDeserializers<ServiceMessage<M>>)
    : (r: ServiceMessage<M>)
    ensures JsonOutcome(debugEnabled, response, d).Success? ==> r == JsonOutcome(debugEnabled, response, d).value
    ensures JsonOutcome(debugEnabled, response, d).Failure? ==> r.payload == blank && r.errorMessage == Some("Deserializing json failed")
  {
    match JsonOutcome(debugEnabled, response, d)
    case Success(v) => v
    case Failure(_) => CreateErrorResult(blank, JsonFailed)
  }

  /** What `ParseJsonArrayAsync` returns: on failure, a one-element array
      holding the error object, never an empty array. */
  function ParseJsonArrayResult<M>(debugEnabled: bool, response: Option<HttpResponse>, blank: M, d: JsonDeserializers<seq<ServiceMessage<M>>>)
    : (r: seq<ServiceMessage<M>>)
    ensures JsonOutcome(debugEnabled, response, d).Success? ==> r == JsonOutcome(debugEnabled, response, d).value
    ensures JsonOutcome(debugEnabled, response, d).Failure? ==>
      |r| == 1 && r[0].payload == blank && r[0].errorMessage == Some("Deserializing json array failed")
  {
    match JsonOutcome(debugEnabled, response, d)
    case Success(v) => v
    case Failure(_) => [CreateErrorResult(blank, JsonArrayFailed)]
  }

  /** Debug logging changes what a JSON parse returns only through the two
      readings and the two deserializers: when both readings give the same
      text and both deserializers agree on it, the result is the same either
      way. */
  lemma DebugChangesOnlyTheTrace<M>(response: Option<HttpResponse>, blank: M, d: JsonDeserializers<ServiceMessage<M>>)
    requires response.Some? ==> ReadContent(response.value.content) == ReadStream(response.value.content)
    requires RawJson(response).Some? ==> d.convert(RawJson(response).value) == d.serializer(RawJson(response).value)
    ensures ParseJsonResult(true, response, blank, d) == ParseJsonResult(false, response, blank, d)
    ensures JsonParseLog(false, response, d, "Deserializing json failed.")
      == JsonParseLog(true, response, d, "Deserializing json failed.")[(if RawJson(response).Some? then 1 else 0)..]
  {
  }

  /** A body with text after its JSON value, such as `{"ErrorMessage":null} x`,
      which `JsonConvert.DeserializeObject` rejects and a bare
      `JsonSerializer` accepts, parses with debug logging off and fails with
      it on. */
  lemma TrailingTextFailsOnlyWithDebug<M>(body: string, status: int, name: string, blank: M, d: JsonDeserializers<ServiceMessage<M>>)
    requires d.convert(body).Failure? && d.serializer(body).Success?
    ensures var response := Some(HttpResponse(status, name, Some(HttpContent(Success(body), Success(body)))));
      ParseJsonResult(false, response, blank, d) == d.serializer(body).value
      && ParseJsonResult(true, response, blank, d) == CreateErrorResult(blank, JsonFailed)
      && JsonParseLog(false, response, d, "Deserializing json failed.") == []
      && JsonParseLog(true, response, d, "Deserializing json failed.")[1].level == L.Error
  {
  }

  /** The value of the local `xml` when `ParseXmlAsync` leaves its `try`:
      the body text once it has been read, null before. */
  function XmlRead<S>(response: Option<HttpResponse>, xmlSerializer: Result<S, Exn>): Option<string>
  {
    if xmlSerializer.Failure? then None
    else match ContentOf(response)
      case Failure(_) => None
      case Success(content) =>
        match ReadContent(content)
        case Failure(_) => None
        case Success(text) => Some(text)
  }

  /** What `ParseXmlAsync` obtains inside its `try`. `xmlSerializer` is
      `new XmlSerializer(typeof(T))`, or what that constructor throws. */
  function XmlOutcome<M>(response: Option<HttpResponse>, xmlSerializer: Result<string -> Result<ServiceMessage<M>, Exn>, Exn>)
    : Result<ServiceMessage<M>, Exn>
  {
    match xmlSerializer
    case Failure(ex) => Failure(ex)
    case Success(deserialize) =>
      match ContentOf(response)
      case Failure(ex) => Failure(ex)
      case Success(content) =>
        match ReadContent(content)
        case Failure(ex) => Failure(ex)
        case Success(text) => deserialize(text)
  }

  /** What `ParseXmlAsync` returns: on failure the error message carries the
      raw body, or nothing when the body was never read. */
  function ParseXmlResult<M>(response: Option<HttpResponse>, blank: M, xmlSerializer: Result<string -> Result<ServiceMessage<M>, Exn>, Exn>)
    : (r: ServiceMessage<M>)
    ensures XmlOutcome(response, xmlSerializer).Success? ==> r == XmlOutcome(response, xmlSerializer).value
    ensures XmlOutcome(response, xmlSerializer).Failure? && XmlRead(response, xmlSerializer).Some? ==>
      r.payload == blank && r.errorMessage == Some("Deserializing xml failed: " + XmlRead(response, xmlSerializer).value)
    ensures XmlOutcome(response, xmlSerializer).Failure? && XmlRead(response, xmlSerializer).None? ==>
      r.payload == blank && r.errorMessage == Some("Deserializing xml failed: ")
  {
    match XmlOutcome(response, xmlSerializer)
    case Success(v) => v
    case Failure(_) =>
      assert XmlFailedPrefix + "" == XmlFailedPrefix;
      CreateErrorResult(blank, XmlFailedPrefix + (match XmlRead(response, xmlSerializer) case None => "" case Some(x) => x))
  }

  /** Everything `ParseXmlAsync` logs: the raw XML once read (the logger
      decides whether debug output is kept), then one error entry if the
      parse failed. */
  function XmlParseLog<M>(response: Option<HttpResponse>, xmlSerializer: Result<string -> Result<ServiceMessage<M>, Exn>, Exn>)
    : (entries: seq<L.LogCall>)
    ensures |entries| == (if XmlRead(response, xmlSerializer).Some? then 1 else 0) + (if XmlOutcome(response, xmlSerializer).Failure? then 1 else 0)
    ensures XmlRead(response, xmlSerializer).Some? ==>
      entries[0] == L.Text(L.Debug, "Raw XML: " + XmlRead(response, xmlSerializer).value, None)
    ensures XmlOutcome(response, xmlSerializer).Success? ==>
      forall i | 0 <= i < |entries| :: entries[i].level == L.Debug
    ensures XmlOutcome(response, xmlSerializer).Failure? ==>
      entries[|entries| - 1] == L.Text(L.Error, "Deserializing xml failed.", Some(XmlOutcome(response, xmlSerializer).error))
      && forall i | 0 <= i < |entries| - 1 :: entries[i].level == L.Debug
  {
    var trace := match XmlRead(response, xmlSerializer)
      case None => []
      case Some(x) => [L.Text(L.Debug, "Raw XML: " + x, None)];
    match XmlOutcome(response, xmlSerializer)
    case Success(_) => trace
    case Failure(ex) => trace + [L.Text(L.Error, "Deserializing xml failed.", Some(ex))]
  }

  /** The call outcomes the repository's tests pin down: 200, 201 and 202 with content are
      passed through; 400 gives null, or the same response when verbose. */
  lemma CallOutcomesOfTests(content: HttpContent, name: string, isVerbose: bool)
    ensures forall code | code in {200, 201, 202} ::
      CallResult(Success(HttpResponse(code, name, Some(content))), isVerbose) == Some(HttpResponse(code, name, Some(content)))
    ensures CallResult(Success(HttpResponse(400, name, Some(content))), false) == None
    ensures CallResult(Success(HttpResponse(400, name, Some(content))), true) == Some(HttpResponse(400, name, Some(content)))
  {
  }

  /** `CallAsync` yields a value exactly when it logs nothing, or when the
      caller asked for verbose results and `work()` did not throw. */
  lemma CallResultAgreesWithLog(serviceName: string, work: Result<HttpResponse, Exn>, workName: Option<string>, isVerbose: bool)
    ensures CallResult(work, isVerbose).Some? <==>
      CallLog(serviceName, work, workName) == [] || (isVerbose && work.Success?)
  {
  }

  // ---- Query strings --------------------------------------------------

  /** `String.Join(separator, parts)`. */
  function Join(separator: string, parts: seq<string>): (r: string)
    ensures parts == [] ==> r == ""
    ensures |parts| == 1 ==> r == parts[0]
    ensures parts != [] ==> |r| >= |parts[0]| && r[..|parts[0]|] == parts[0]
  {
    if parts == [] then ""
    else if |parts| == 1 then parts[0]
    else parts[0] + separator + Join(separator, parts[1..])
  }

  /** The `$"{pair.Key}={pair.Value}"` of one dictionary entry. */
  function QueryPair(key: string, value: string): string
  {
    key + "=" + value
  }

  /** `BuildQueryString(nvc)`, with the dictionary given as its entries in
      enumeration order. Nothing is percent-encoded. */
  function BuildQueryString(nvc: seq<(string, string)>): (r: string)
    ensures r == "" <==> nvc == []
    ensures nvc != [] ==> |r| >= |QueryPair(nvc[0].0, nvc[0].1)|
    ensures nvc != [] ==> r[..|QueryPair(nvc[0].0, nvc[0].1)|] == QueryPair(nvc[0].0, nvc[0].1)
  {
    var parts := seq(|nvc|, i requires 0 <= i < |nvc| => QueryPair(nvc[i].0, nvc[i].1));
    assert nvc != [] ==> parts[0] == QueryPair(nvc[0].0, nvc[0].1);
    Join("&", parts)
  }

  /** Splits `s` at every `separator`; the inverse of `Join` on parts that do
      not contain the separator. */
  function Split(s: string, separator: char): (parts: seq<string>)
    ensures |parts| >= 1
  {
    if s == [] then [""]
    else
      var rest := Split(s[1..], separator);
      if s[0] == separator then [""] + rest else [[s[0]] + rest[0]] + rest[1..]
  }

  /** Splits `s` at its first `=` into key and value. */
  function SplitPair(s: string): (string, string)
  {
    if s == [] then ("", "")
    else if s[0] == '=' then ("", s[1..])
    else
      var kv := SplitPair(s[1..]);
      ([s[0]] + kv.0, kv.1)
  }

  /** Reads a query string back into its entries. */
  function ParseQueryString(q: string): seq<(string, string)>
  {
    if q == "" then []
    else
      var parts := Split(q, '&');
      seq(|parts|, i requires 0 <= i < |parts| => SplitPair(parts[i]))
  }

  lemma {:induction false} SplitWithoutSeparator(p: string, separator: char)
    requires separator !in p
    ensures Split(p, separator) == [p]
  {
    if p != [] {
      SplitWithoutSeparator(p[1..], separator);
      assert p[0] != separator && [p[0]] + p[1..] == p;
    }
  }

  lemma {:induction false} SplitAtSeparator(p: string, t: string, separator: char)
    requires separator !in p
    ensures Split(p + [separator] + t, separator) == [p] + Split(t, separator)
  {
    if p == [] {
      assert p + [separator] + t == [separator] + t;
    } else {
      SplitAtSeparator(p[1..], t, separator);
      assert (p + [separator] + t)[1..] == p[1..] + [separator] + t;
      assert p[0] != separator && [p[0]] + p[1..] == p;
    }
  }

  lemma {:induction false} SplitJoin(parts: seq<string>, separator: char)
    requires parts != []
    requires forall i :: 0 <= i < |parts| ==> separator !in parts[i]
    ensures Split(Join([separator], parts), separator) == parts
  {
    if |parts| == 1 {
      SplitWithoutSeparator(parts[0], separator);
    } else {
      var rest := Join([separator], parts[1..]);
      assert Join([separator], parts) == parts[0] + [separator] + rest;
      assert separator !in parts[0];
      SplitJoin(parts[1..], separator);
      SplitAtSeparator(parts[0], rest, separator);
      assert [parts[0]] + parts[1..] == parts;
    }
  }

  lemma {:induction false} SplitPairOfQueryPair(key: string, value: string)
    requires '=' !in key
    ensures SplitPair(QueryPair(key, value)) == (key, value)
  {
    if key == [] {
      assert QueryPair(key, value) == "=" + value;
    } else {
      SplitPairOfQueryPair(key[1..], value);
      assert QueryPair(key, value)[1..] == QueryPair(key[1..], value);
      assert key[0] != '=' && [key[0]] + key[1..] == key;
    }
  }

  /** No part `Split` returns holds the separator. */
  lemma {:induction false} SplitPartsAreSeparatorFree(s: string, separator: char)
    ensures forall i :: 0 <= i < |Split(s, separator)| ==> separator !in Split(s, separator)[i]
  {
    if s != [] {
      SplitPartsAreSeparatorFree(s[1..], separator);
    }
  }

  /** `SplitPair` yields a key without `=`, and both halves use only
      characters of its input. */
  lemma {:induction false} SplitPairKeepsCharacters(s: string, c: char)
    ensures '=' !in SplitPair(s).0
    ensures c in SplitPair(s).0 || c in SplitPair(s).1 ==> c in s
  {
    if s != [] && s[0] != '=' {
      SplitPairKeepsCharacters(s[1..], c);
    }
  }

  /** Every entry read back from any query string has a key without `=` or
      `&` and a value without `&`. */
  lemma ParsedEntriesAreSeparatorFree(q: string)
    ensures forall i :: 0 <= i < |ParseQueryString(q)| ==>
      '=' !in ParseQueryString(q)[i].0 && '&' !in ParseQueryString(q)[i].0 && '&' !in ParseQueryString(q)[i].1
  {
    if q != "" {
      var parts := Split(q, '&');
      SplitPartsAreSeparatorFree(q, '&');
      forall i | 0 <= i < |parts|
        ensures '=' !in SplitPair(parts[i]).0 && '&' !in SplitPair(parts[i]).0 && '&' !in SplitPair(parts[i]).1
      {
        SplitPairKeepsCharacters(parts[i], '&');
      }
    }
  }

  /** The entries can be read back from the query string exactly when no key
      holds `=` or `&` and no value holds `&`: `BuildQueryString` keeps the
      order of the entries and adds nothing but the separators, and an entry
      that breaks the condition is never read back as it was. */
  lemma QueryStringRoundTrip(nvc: seq<(string, string)>)
    ensures ParseQueryString(BuildQueryString(nvc)) == nvc <==>
      forall i :: 0 <= i < |nvc| ==> '=' !in nvc[i].0 && '&' !in nvc[i].0 && '&' !in nvc[i].1
  {
    if forall i :: 0 <= i < |nvc| ==> '=' !in nvc[i].0 && '&' !in nvc[i].0 && '&' !in nvc[i].1 {
      if nvc != [] {
        var parts := seq(|nvc|, i requires 0 <= i < |nvc| => QueryPair(nvc[i].0, nvc[i].1));
        forall i | 0 <= i < |parts|
          ensures '&' !in parts[i] && SplitPair(parts[i]) == nvc[i]
        {
          SplitPairOfQueryPair(nvc[i].0, nvc[i].1);
        }
        SplitJoin(parts, '&');
        assert |BuildQueryString(nvc)| >= |parts[0]| > 0;
      }
    } else {
      ParsedEntriesAreSeparatorFree(BuildQueryString(nvc));
    }
  }

  /** Without escaping, an `&` or `=` inside a value is indistinguishable from
      a separator: two different dictionaries give the same query string. */
  lemma NoEscaping()
    ensures BuildQueryString([("a", "b&c=d")]) == BuildQueryString([("a", "b"), ("c", "d")]) == "a=b&c=d"
  {
  }

  /** Three entries are joined in their enumeration order. */
  lemma ThreeEntries()
    ensures BuildQueryString([("key1", "value1"), ("key2", "value2"), ("key3", "value3")])
      == "key1=value1&key2=value2&key3=value3"
  {
    var nvc := [("key1", "value1"), ("key2", "value2"), ("key3", "value3")];
    var parts := seq(|nvc|, i requires 0 <= i < |nvc| => QueryPair(nvc[i].0, nvc[i].1));
    assert parts[0] == "key1=value1" && parts[1] == "key2=value2" && parts[2] == "key3=value3";
    assert parts == ["key1=value1", "key2=value2", "key3=value3"];
    assert parts[1..] == ["key2=value2", "key3=value3"];
    assert parts[1..][1..] == ["key3=value3"];
    assert Join("&", parts[1..]) == "key2=value2" + "&" + "key3=value3";
    assert Join("&", parts) == "key1=value1" + "&" + ("key2=value2" + "&" + "key3=value3");
  }

  class RestServiceBase {
    const log: L.Logger
    /** `GetType().Name` of the concrete service. */
    const serviceName: string

    constructor (log: L.Logger, serviceName: string)
      ensures this.log == log && this.serviceName == serviceName
    {
      this.log := log;
      this.serviceName := serviceName;
    }

    /** `CallAsync(work, isVerbose)`, where `work` is the response `work()`
        produced or the exception it threw, and `workName` is
        `work.Method?.Name`. */
    method CallAsync(work: Result<HttpResponse, Exn>, workName: Option<string>, isVerbose: bool)
      returns (r: Option<HttpResponse>)
      modifies log
      ensures r == CallResult(work, isVerbose)
      ensures log.calls == old(log.calls) + CallLog(serviceName, work, workName)
    {
      var response: HttpResponse;
      match work {
        case Failure(ex) =>
          log.Log(L.Text(L.Error, CallFailedText(serviceName, workName), Some(ex)));
          return None;
        case Success(v) =>
          response := v;
      }

      if !IsSuccessStatusCode(response.statusCode) {
        log.Log(L.Text(L.Warning, StatusWarningText(serviceName, response.statusName, workName), None));
        return if isVerbose then Some(response) else None;
      }

      if response.content.None? {
        log.Log(L.Text(L.Warning, NoContentText(serviceName, workName), None));
        return if isVerbose then Some(response) else None;
      }

      return Some(response);
    }

    /** `ParseJsonContentAsync`: with debug logging on, the body is read as a
        string, traced and handed to `JsonConvert.DeserializeObject`;
        otherwise it is read through a stream and handed to a new
        `JsonSerializer`. */
    method ParseJsonContent<T>(content: Option<HttpContent>, d: JsonDeserializers<T>)
      returns (r: Result<T, Exn>)
      modifies log
      ensures r == Deserialized(log.debugEnabled, content, d)
      ensures log.calls == old(log.calls) + RawJsonTrace(log.debugEnabled, content)
    {
      if log.IsDebugEnabled() {
        var json := ReadContent(content);
        if json.Failure? {
          return Failure(json.error);
        }
        log.Log(L.Text(L.Debug, "Raw JSON: " + json.value, None));
        return d.convert(json.value);
      }

      var stream := ReadStream(content);
      if stream.Failure? {
        return Failure(stream.error);
      }
      return d.serializer(stream.value);
    }

    /** `ParseJsonAsync<T>(response)`. */
    method ParseJsonAsync<M>(response: Option<HttpResponse>, blank: M, d: JsonDeserializers<ServiceMessage<M>>)
      returns (r: ServiceMessage<M>)
      modifies log
      ensures r == ParseJsonResult(log.debugEnabled, response, blank, d)
      ensures log.calls == old(log.calls) + JsonParseLog(log.debugEnabled, response, d, "Deserializing json failed.")
    {
      var parsed: Result<ServiceMessage<M>, Exn>;
      if response.None? {
        parsed := Failure(NullReference);
      } else {
        parsed := ParseJsonContent(response.value.content, d);
      }
      if parsed.Success? {
        return parsed.value;
      }
      log.Log(L.Text(L.Error, "Deserializing json failed.", Some(parsed.error)));
      return CreateErrorResult(blank, JsonFailed);
    }

    /** `ParseJsonArrayAsync<T>(response)`. */
    method ParseJsonArrayAsync<M>(response: Option<HttpResponse>, blank: M, d: JsonDeserializers<seq<ServiceMessage<M>>>)
      returns (r: seq<ServiceMessage<M>>)
      modifies log
      ensures r == ParseJsonArrayResult(log.debugEnabled, response, blank, d)
      ensures log.calls == old(log.calls) + JsonParseLog(log.debugEnabled, response, d, "Deserializing json array failed.")
    {
      var parsed: Result<seq<ServiceMessage<M>>, Exn>;
      if response.None? {
        parsed := Failure(NullReference);
      } else {
        parsed := ParseJsonContent(response.value.content, d);
      }
      if parsed.Success? {
        return parsed.value;
      }
      log.Log(L.Text(L.Error, "Deserializing json array failed.", Some(parsed.error)));
      return [CreateErrorResult(blank, JsonArrayFailed)];
    }

    /** `ParseXmlAsync<T>(response)`. The local `xml` starts null and is
        assigned once the body has been read; the `catch` block uses it. */
    method ParseXmlAsync<M>(response: Option<HttpResponse>, blank: M, xmlSerializer: Result<string -> Result<ServiceMessage<M>, Exn>, Exn>)
      returns (r: ServiceMessage<M>)
      modifies log
      ensures r == ParseXmlResult(response, blank, xmlSerializer)
      ensures log.calls == old(log.calls) + XmlParseLog(response, xmlSerializer)
    {
      var xml: Option<string> := None;
      var caught: Option<Exn> := None;
      if xmlSerializer.Failure? {
        caught := Some(xmlSerializer.error);
      } else if response.None? {
        caught := Some(NullReference);
      } else {
        var body := ReadContent(response.value.content);
        if body.Failure? {
          caught := Some(body.error);
        } else {
          xml := Some(body.value);
          log.Log(L.Text(L.Debug, "Raw XML: " + body.value, None));
          var parsed := xmlSerializer.value(body.value);
          if parsed.Success? {
            return parsed.value;
          }
          caught := Some(parsed.error);
        }
      }
      log.Log(L.Text(L.Error, "Deserializing xml failed.", caught));
      r := CreateErrorResult(blank, XmlFailedPrefix + (match xml case None => "" case Some(x) => x));
    }
  }
}
