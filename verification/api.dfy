/** The portal's transport client: URL composition against the fixed API base and the
    normalisation of a response into a value or one error with a readable message.
    The network is a parameter: `fetch` maps a URL to what the browser's `fetch` yields. */
module Api {
  import opened Wrappers
  import opened Text

  /** The fixed API base every request is sent under. */
  const BASE: string := "http://localhost:8000/api"

  /** A parsed JSON value. */
  datatype JsValue =
    | JsNull
    | JsBool(b: bool)
    | JsNumber(n: int)
    | JsString(s: string)
    | JsArray(items: seq<JsValue>)
    | JsObject(fields: map<string, JsValue>)

  /** The result of reading a property: `undefined` or a value. */
  datatype Property = Undefined | Defined(value: JsValue)

  datatype Body = NotJson | Json(value: JsValue)

  datatype HttpResponse = HttpResponse(status: int, body: Body)

  /** What `fetch` settles with: a rejection (the request never got an answer) or a response. */
  datatype FetchReply = NetworkFailure(reason: string) | Responded(response: HttpResponse)

  /** Why `request` threw: the fetch rejected, `res.json()` rejected, reading a field of a
      `null` body raised a TypeError, or the status was not 2xx. */
  datatype RequestError =
    | NetworkError(reason: string)
    | InvalidJson
    | NullBodyAccess
    | HttpError(status: int, message: string)

  /** `${BASE}${path}`. */
  function RequestUrl(path: string): (url: string)
    ensures |url| == |BASE| + |path|
    ensures url[..|BASE|] == BASE && url[|BASE|..] == path
  {
    BASE + path
  }

  /** The URL `streamLogs(id)` subscribes to: the id sits between the per-service prefix
      and the stream suffix, so it can be read back from the URL. */
  function LogStreamUrl(id: string): (url: string)
    ensures url == RequestUrl("/services/" + id + "/logs/stream")
    ensures url[..|BASE| + |"/services/"|] == BASE + "/services/"
    ensures url[|url| - |"/logs/stream"|..] == "/logs/stream"
    ensures url[|BASE| + |"/services/"|..|url| - |"/logs/stream"|] == id
  {
    BASE + "/services/" + id + "/logs/stream"
  }

  /** `res.ok`. */
  predicate IsOk(status: int) {
    200 <= status <= 299
  }

  /** `data[key]` for an own property of a non-null value. */
  function GetProperty(data: JsValue, key: string): Property
    requires !data.JsNull?
  {
    match data
    case JsObject(fields) => if key in fields then Defined(fields[key]) else Undefined
    case _ => Undefined
  }

  /** JavaScript truthiness. */
  predicate Truthy(p: Property) {
    match p
    case Undefined => false
    case Defined(v) =>
      match v
      case JsNull => false
      case JsBool(b) => b
      case JsNumber(n) => n != 0
      case JsString(s) => |s| > 0
      case JsArray(_) => true
      case JsObject(_) => true
  }

  /** `String(v)`, which `new Error(v)` applies to its argument. */
  function ToJsString(v: JsValue): string
    decreases v
  {
    match v
    case JsNull => "null"
    case JsBool(b) => if b then "true" else "false"
    case JsNumber(n) => IntToString(n)
    case JsString(s) => s
    case JsObject(_) => "[object Object]"
    case JsArray(items) =>
      JoinWithCommas(seq(|items|, i requires 0 <= i < |items| =>
        if items[i].JsNull? then "" else ToJsString(items[i])))
  }

  function JoinWithCommas(parts: seq<string>): string
    decreases |parts|
  {
    if |parts| == 0 then ""
    else if |parts| == 1 then parts[0]
    else parts[0] + "," + JoinWithCommas(parts[1..])
  }

  /** The fallback message for a failed request. */
  function FallbackMessage(status: int): string {
    "Request failed: " + IntToString(status)
  }

  /** `data.error || data.message || fallback`: the first truthy of the two fields, else the fallback.
      The ensures are this definition, case by case; what it means for a reply is stated on
      `Request` and in `ErrorFieldSurfaces`, `MessageFieldSurfaces` and `BareFailureReportsStatus`. */
  function ErrorMessage(data: JsValue, status: int): (m: string)
    requires !data.JsNull?
    ensures Truthy(GetProperty(data, "error")) ==> m == ToJsString(GetProperty(data, "error").value)
    ensures !Truthy(GetProperty(data, "error")) && Truthy(GetProperty(data, "message")) ==>
              m == ToJsString(GetProperty(data, "message").value)
    ensures !Truthy(GetProperty(data, "error")) && !Truthy(GetProperty(data, "message")) ==>
              m == FallbackMessage(status)
  {
    var error := GetProperty(data, "error");
    var message := GetProperty(data, "message");
    if Truthy(error) then ToJsString(error.value)
    else if Truthy(message) then ToJsString(message.value)
    else FallbackMessage(status)
  }

  /** The daemon answered with a JSON body and a status outside 2xx. */
  predicate Failed(reply: FetchReply) {
    reply.Responded? && reply.response.body.Json? && !IsOk(reply.response.status)
  }

  /** `request(path)`: fetch the URL, parse the body, then check the status. */
  function Request(path: string, fetch: string -> FetchReply): (r: Result<JsValue, RequestError>)
    ensures r.Ok? <==>
      && fetch(RequestUrl(path)).Responded?
      && fetch(RequestUrl(path)).response.body.Json?
      && IsOk(fetch(RequestUrl(path)).response.status)
    ensures r.Ok? ==> r.value == fetch(RequestUrl(path)).response.body.value
    ensures fetch(RequestUrl(path)).Responded? && fetch(RequestUrl(path)).response.body.NotJson? ==>
              r == Err(InvalidJson)
    ensures r.Err? && r.error.HttpError? ==>
      && fetch(RequestUrl(path)).Responded?
      && r.error.status == fetch(RequestUrl(path)).response.status
      && !IsOk(r.error.status)
    ensures fetch(RequestUrl(path)).NetworkFailure? ==> r == Err(NetworkError(fetch(RequestUrl(path)).reason))
    ensures Failed(fetch(RequestUrl(path))) && fetch(RequestUrl(path)).response.body.value.JsNull? ==>
              r == Err(NullBodyAccess)
    ensures Failed(fetch(RequestUrl(path))) && !fetch(RequestUrl(path)).response.body.value.JsNull? ==>
              var response := fetch(RequestUrl(path)).response;
              r == Err(HttpError(response.status, ErrorMessage(response.body.value, response.status)))
  {
    match fetch(RequestUrl(path))
    case NetworkFailure(reason) => Err(NetworkError(reason))
    case Responded(response) =>
      match response.body
      case NotJson => Err(InvalidJson)
      case Json(data) =>
        if IsOk(response.status) then Ok(data)
        else if data.JsNull? then Err(NullBodyAccess)
        else Err(HttpError(response.status, ErrorMessage(data, response.status)))
  }

  /** A non-2xx JSON object whose `error` is a non-empty string surfaces as exactly that
      string, whatever else the object holds. */
  lemma ErrorFieldSurfaces(path: string, fetch: string -> FetchReply, status: int, fields: map<string, JsValue>, msg: string)
    requires !IsOk(status) && |msg| > 0
    requires "error" in fields && fields["error"] == JsString(msg)
    requires fetch(RequestUrl(path)) == Responded(HttpResponse(status, Json(JsObject(fields))))
    ensures Request(path, fetch) == Err(HttpError(status, msg))
  {
  }

  /** With a falsy or missing `error`, a non-empty string `message` surfaces instead. */
  lemma MessageFieldSurfaces(path: string, fetch: string -> FetchReply, status: int, fields: map<string, JsValue>, msg: string)
    requires !IsOk(status) && |msg| > 0
    requires !Truthy(GetProperty(JsObject(fields), "error"))
    requires "message" in fields && fields["message"] == JsString(msg)
    requires fetch(RequestUrl(path)) == Responded(HttpResponse(status, Json(JsObject(fields))))
    ensures Request(path, fetch) == Err(HttpError(status, msg))
  {
  }

  /** A non-2xx JSON object with neither field truthy reports its status code. */
  lemma BareFailureReportsStatus(path: string, fetch: string -> FetchReply, status: int, fields: map<string, JsValue>)
    requires !IsOk(status)
    requires !Truthy(GetProperty(JsObject(fields), "error")) && !Truthy(GetProperty(JsObject(fields), "message"))
    requires fetch(RequestUrl(path)) == Responded(HttpResponse(status, Json(JsObject(fields))))
    ensures Request(path, fetch) == Err(HttpError(status, "Request failed: " + IntToString(status)))
  {
  }
}
