/** The upload relay of the web front end (`POST /api/upload`): it takes the
    browser's multipart form, forwards its `file` part to the backend's
    `/upload`, and turns whatever comes back into one JSON response.

    The handler keeps no state between calls, so it is modelled as a function.
    What it awaits is passed in: the parsed inbound form (or what
    `req.formData()` threw), and the backend's response (or what `fetch`
    threw) together with the outcome of reading its body as JSON or as text. */
module Relay {
  import opened Outcomes
  import opened Text
  import opened Media

  const DefaultBackendBase := "http://127.0.0.1:8000"
  const DefaultFilename := "audio.webm"
  const ProcessTimeHeader := "x-process-time-ms"
  const ContentTypeHeader := "content-type"
  const JsonMediaType := "application/json"
  const MissingFileDetail := "Missing file"
  const UpstreamErrorDetail := "Upstream error"
  const ProxyFailedDetail := "Proxy failed"

  /** The two environment variables the relay consults. */
  datatype Env = Env(backendBaseUrl: Option<string>, publicApiBase: Option<string>)

  /** A JSON value, as `resp.json()` yields it and `NextResponse.json` sends it
      (numbers are restricted to integers). */
  datatype Json =
    | JNull
    | JBool(b: bool)
    | JNumber(n: int)
    | JString(s: string)
    | JArray(items: seq<Json>)
    | JObject(members: seq<(string, Json)>)

  /** Something thrown; `message` is absent when the thrown value has none. */
  datatype Thrown = Thrown(message: Option<string>)

  /** What `incoming.get('file')` returns. */
  datatype FormValue = Absent | StringValue(text: string) | BlobValue(blob: Blob)

  /** One part of the outbound multipart body. */
  datatype Part = Part(field: string, blob: Blob, filename: string)

  /** The request the relay sends to the backend. */
  datatype Forward = Forward(url: string, parts: seq<Part>)

  /** The status codes a `Response` from Node's `fetch` can carry: any three
      digits, except the informational ones below 200, which it does not
      deliver. */
  type HttpStatus = s: int | 200 <= s <= 999 witness 200

  /** A status for which `resp.ok` is false. */
  type FailStatus = s: int | 300 <= s <= 999 witness 500

  predicate IsOk(status: HttpStatus)
  {
    status <= 299
  }

  /** The backend's answer as the relay sees it: status, the two headers it
      reads, and what `resp.json()` and `resp.text()` would give. */
  datatype Upstream = Upstream(
    status: HttpStatus,
    contentType: Option<string>,
    processTime: Option<string>,
    json: Result<Json, Thrown>,
    text: Result<string, Thrown>)

  /** The four backend outcomes the relay distinguishes, once the body is read. */
  datatype BackendOutcome =
    | FailedJson(failStatus: FailStatus, data: Json)
    | FailedText(failStatus: FailStatus, text: string)
    | SucceededJson(data: Json)
    | SucceededText(text: string)

  /** The relay's reply to the browser. */
  datatype Response = Response(status: int, body: Json, headers: map<string, string>)

  /** One invocation: what was forwarded, if anything, and the reply. */
  datatype Exchange = Exchange(forwarded: Option<Forward>, response: Response)

  /** The backend base URL: `BACKEND_BASE_URL || NEXT_PUBLIC_API_BASE || default`. */
  function BackendBase(env: Env): (base: string)
    ensures base != ""
    ensures Truthy(env.backendBaseUrl) ==> base == env.backendBaseUrl.value
    ensures !Truthy(env.backendBaseUrl) && Truthy(env.publicApiBase) ==> base == env.publicApiBase.value
    ensures !Truthy(env.backendBaseUrl) && !Truthy(env.publicApiBase) ==> base == DefaultBackendBase
  {
    var candidates := [env.backendBaseUrl, env.publicApiBase];
    assert !Truthy(env.backendBaseUrl) ==> NoneTruthyBefore(candidates, 1);
    FirstNonEmpty(candidates, DefaultBackendBase)
  }

  /** The filename the file part is forwarded under: `file.name || 'audio.webm'`. */
  function ForwardedFilename(b: Blob): (name: string)
    ensures name != ""
    ensures Truthy(b.name) ==> name == b.name.value
    ensures !Truthy(b.name) ==> name == DefaultFilename
  {
    FirstNonEmpty([b.name], DefaultFilename)
  }

  /** `contentType.includes('application/json')`, with a missing header read as ''. */
  function IsJson(contentType: Option<string>): (r: bool)
    ensures r <==> contentType.Some? && exists i :: OccursAt(JsonMediaType, contentType.value, i)
    ensures r ==> |JsonMediaType| <= |contentType.value|
  {
    contentType.Some? && Contains(contentType.value, JsonMediaType)
  }

  function DetailBody(detail: string): Json
  {
    JObject([("detail", JString(detail))])
  }

  function TranscriptBody(transcript: string): Json
  {
    JObject([("transcript", JString(transcript)), ("summary", JString(""))])
  }

  /** The headers `NextResponse.json` sets, plus the processing time when the
      backend sent a non-empty one. */
  function ReplyHeaders(processTime: Option<string>): (h: map<string, string>)
    ensures ContentTypeHeader in h && h[ContentTypeHeader] == JsonMediaType
    ensures ProcessTimeHeader in h <==> Truthy(processTime)
    ensures ProcessTimeHeader in h ==> h[ProcessTimeHeader] == processTime.value
    ensures h.Keys <= {ContentTypeHeader, ProcessTimeHeader}
  {
    var base := map[ContentTypeHeader := JsonMediaType];
    if Truthy(processTime) then base[ProcessTimeHeader := processTime.value] else base
  }

  /** The 502 reply for anything thrown inside the handler. */
  function ProxyFailure(e: Thrown): (r: Response)
    ensures r.status == 502
    ensures exists d :: d != "" && r.body == DetailBody(d)
    ensures Truthy(e.message) ==> r.body == DetailBody(e.message.value)
  {
    Response(502, DetailBody(FirstNonEmpty([e.message], ProxyFailedDetail)), ReplyHeaders(None))
  }

  /** Reads the body the way the handler does: as JSON when the content type
      says so, as text otherwise; `ok` decides between the failed and the
      succeeded variants. A read that throws is returned as the error. */
  function Classify(u: Upstream): (r: Result<BackendOutcome, Thrown>)
    ensures r.Ok? ==> ((r.value.SucceededJson? || r.value.SucceededText?) <==> IsOk(u.status))
    ensures r.Ok? ==> ((r.value.FailedJson? || r.value.SucceededJson?) <==> IsJson(u.contentType))
    ensures r.Ok? && (r.value.FailedJson? || r.value.FailedText?) ==> r.value.failStatus == u.status
    ensures r.Ok? && (r.value.FailedJson? || r.value.SucceededJson?) ==> u.json == Ok(r.value.data)
    ensures r.Ok? && (r.value.FailedText? || r.value.SucceededText?) ==> u.text == Ok(r.value.text)
    ensures r.Err? <==> (if IsJson(u.contentType) then u.json.Err? else u.text.Err?)
    ensures r.Err? ==> r.error == (if IsJson(u.contentType) then u.json.error else u.text.error)
  {
    var json := IsJson(u.contentType);
    if !IsOk(u.status) then
      if json then
        match u.json
        case Ok(d) => Ok(FailedJson(u.status, d))
        case Err(e) => Err(e)
      else
        match u.text
        case Ok(t) => Ok(FailedText(u.status, t))
        case Err(e) => Err(e)
    else
      if json then
        match u.json
        case Ok(d) => Ok(SucceededJson(d))
        case Err(e) => Err(e)
      else
        match u.text
        case Ok(t) => Ok(SucceededText(t))
        case Err(e) => Err(e)
  }

  /** The statuses the Fetch standard calls null-body statuses: a response
      with one of them may not have a body. */
  predicate IsNullBodyStatus(status: int)
  {
    status == 101 || status == 103 || status == 204 || status == 205 || status == 304
  }

  /** What the `Response` constructor behind `NextResponse.json` throws when it
      is asked for a body under a null-body status (Node's wording). */
  function NullBodyStatusError(status: nat): (e: Thrown)
    ensures Truthy(e.message)
  {
    Thrown(Some("Response constructor: Invalid response status code " + DecimalString(status)))
  }

  /** The statuses the `Response` constructor accepts at all. */
  predicate IsReplyStatus(status: int)
  {
    200 <= status <= 599
  }

  /** What the `Response` constructor throws for a status outside 200..599
      (Node's wording). */
  const StatusRangeError := Thrown(Some("init[\"status\"] must be in the range of 200 to 599, inclusive."))

  /** A status under which `NextResponse.json` cannot build its reply. */
  predicate CannotCarryJson(status: int)
  {
    !IsReplyStatus(status) || IsNullBodyStatus(status)
  }

  /** `NextResponse.json(body, { status })` for a failing backend status, with
      the processing time copied over. Outside 200..599, and under a
      null-body status (304), the constructor throws, and the handler's
      `catch` answers 502 instead. */
  function FailureReply(status: FailStatus, body: Json, processTime: Option<string>): (r: Response)
    ensures !CannotCarryJson(status) ==> r.status == status && r.body == body && r.headers == ReplyHeaders(processTime)
    ensures !IsReplyStatus(status) ==> r == ProxyFailure(StatusRangeError)
    ensures IsReplyStatus(status) && IsNullBodyStatus(status) ==> r == ProxyFailure(NullBodyStatusError(status))
    ensures r.status != 200
  {
    if !IsReplyStatus(status) then ProxyFailure(StatusRangeError)
    else if IsNullBodyStatus(status) then ProxyFailure(NullBodyStatusError(status))
    else Response(status, body, ReplyHeaders(processTime))
  }

  /** The reply for each backend outcome: JSON is relayed as it is and text is
      wrapped; a failure keeps the backend's status (unless that status may
      carry no body) and a success gets 200. */
  function Normalize(o: BackendOutcome, processTime: Option<string>): (r: Response)
    ensures 200 <= r.status <= 299 <==> (o.SucceededJson? || o.SucceededText?)
    ensures (o.SucceededJson? || o.SucceededText?) ==> r.status == 200
    ensures (o.FailedJson? || o.FailedText?) ==>
              r.status == (if CannotCarryJson(o.failStatus) then 502 else o.failStatus)
    ensures r.headers == (if (o.FailedJson? || o.FailedText?) && CannotCarryJson(o.failStatus)
                          then ReplyHeaders(None) else ReplyHeaders(processTime))
  {
    match o
    case FailedJson(s, d) => FailureReply(s, d, processTime)
    case FailedText(s, t) => FailureReply(s, DetailBody(FirstNonEmpty([Some(t)], UpstreamErrorDetail)), processTime)
    case SucceededJson(d) => Response(200, d, ReplyHeaders(processTime))
    case SucceededText(t) => Response(200, TranscriptBody(t), ReplyHeaders(processTime))
  }

  /** The reply once the backend has answered: 200, 502, or the backend's own
      failing status. */
  function Relay(u: Upstream): (r: Response)
    ensures r.status == 200 || r.status == 502 || (!IsOk(u.status) && r.status == u.status)
    ensures r.status == 200 <==> IsOk(u.status) && Classify(u).Ok?
  {
    match Classify(u)
    case Ok(o) => Normalize(o, u.processTime)
    case Err(e) => ProxyFailure(e)
  }

  /** The whole handler: it forwards only binary `file` content, always as a
      single `file` part, and answers 200, 400, 502 or the backend's failing
      status. */
  function Post(env: Env, incoming: Result<FormValue, Thrown>, upstream: Result<Upstream, Thrown>): (x: Exchange)
    ensures x.forwarded.Some? ==>
              && incoming.Ok? && incoming.value.BlobValue?
              && x.forwarded.value.parts
                 == [Part("file", incoming.value.blob, ForwardedFilename(incoming.value.blob))]
    ensures x.response.status in {200, 400, 502}
            || (upstream.Ok? && !IsOk(upstream.value.status) && x.response.status == upstream.value.status)
    ensures x.forwarded.None? ==> x.response.status == (if incoming.Ok? then 400 else 502)
  {
    match incoming
    case Err(e) => Exchange(None, ProxyFailure(e))
    case Ok(v) =>
      if !v.BlobValue? then
        Exchange(None, Response(400, DetailBody(MissingFileDetail), ReplyHeaders(None)))
      else
        var fwd := Forward(BackendBase(env) + "/upload", [Part("file", v.blob, ForwardedFilename(v.blob))]);
        match upstream
        case Err(e) => Exchange(Some(fwd), ProxyFailure(e))
        case Ok(u) => Exchange(Some(fwd), Relay(u))
  }

  // ---------------------------------------------------------------------------
  // Properties of the handler
  // ---------------------------------------------------------------------------

  /** The form carries binary content under `file`. */
  predicate HasFile(incoming: Result<FormValue, Thrown>)
  {
    incoming.Ok? && incoming.value.BlobValue?
  }

  /** The backend was reached and its body read without throwing. */
  predicate Answered(incoming: Result<FormValue, Thrown>, upstream: Result<Upstream, Thrown>)
  {
    HasFile(incoming) && upstream.Ok? && Classify(upstream.value).Ok?
  }

  /** Nothing is forwarded unless the form has a binary `file`; a parsed form
      without one is answered 400 `{detail: "Missing file"}`. */
  lemma MissingFileNotForwarded(env: Env, incoming: Result<FormValue, Thrown>, upstream: Result<Upstream, Thrown>)
    ensures Post(env, incoming, upstream).forwarded.Some? <==> HasFile(incoming)
    ensures incoming.Ok? && !incoming.value.BlobValue? ==>
              Post(env, incoming, upstream).response == Response(400, DetailBody(MissingFileDetail), ReplyHeaders(None))
  {
  }

  /** The forwarded request goes to `{base}/upload` and holds exactly one part,
      `file`, with the inbound content under its own name or `audio.webm`. */
  lemma ForwardedRequestShape(env: Env, b: Blob, upstream: Result<Upstream, Thrown>)
    ensures var f := Post(env, Ok(BlobValue(b)), upstream).forwarded;
            && f.Some?
            && f.value.url == BackendBase(env) + "/upload"
            && |f.value.parts| == 1
            && f.value.parts[0].field == "file"
            && f.value.parts[0].blob == b
            && f.value.parts[0].filename == (if Truthy(b.name) then b.name.value else DefaultFilename)
  {
  }

  /** The normalisation table, row by row, for a backend that answered. */
  lemma RelayTable(u: Upstream)
    ensures !IsOk(u.status) && !CannotCarryJson(u.status) && IsJson(u.contentType) && u.json.Ok? ==>
              Relay(u) == Response(u.status, u.json.value, ReplyHeaders(u.processTime))
    ensures !IsOk(u.status) && !CannotCarryJson(u.status) && !IsJson(u.contentType) && u.text.Ok? ==>
              Relay(u) == Response(u.status,
                                   DetailBody(if u.text.value == "" then UpstreamErrorDetail else u.text.value),
                                   ReplyHeaders(u.processTime))
    ensures IsOk(u.status) && IsJson(u.contentType) && u.json.Ok? ==>
              Relay(u) == Response(200, u.json.value, ReplyHeaders(u.processTime))
    ensures IsOk(u.status) && !IsJson(u.contentType) && u.text.Ok? ==>
              Relay(u) == Response(200, TranscriptBody(u.text.value), ReplyHeaders(u.processTime))
    ensures !IsOk(u.status) && IsNullBodyStatus(u.status) && Classify(u).Ok? ==>
              Relay(u) == ProxyFailure(NullBodyStatusError(u.status))
    ensures u.status > 599 && Classify(u).Ok? ==> Relay(u) == ProxyFailure(StatusRangeError)
    ensures IsJson(u.contentType) && u.json.Err? ==> Relay(u) == ProxyFailure(u.json.error)
    ensures !IsJson(u.contentType) && u.text.Err? ==> Relay(u) == ProxyFailure(u.text.error)
  {
  }

  /** Whatever throws inside the handler (parsing the form, reaching the
      backend, decoding its body) is answered 502 with the thrown message,
      or "Proxy failed" when it has none. */
  lemma ThrownIsBadGateway(env: Env, incoming: Result<FormValue, Thrown>, upstream: Result<Upstream, Thrown>)
    ensures incoming.Err? ==> Post(env, incoming, upstream).response == ProxyFailure(incoming.error)
    ensures HasFile(incoming) && upstream.Err? ==> Post(env, incoming, upstream).response == ProxyFailure(upstream.error)
    ensures HasFile(incoming) && upstream.Ok? && IsJson(upstream.value.contentType) && upstream.value.json.Err? ==>
              Post(env, incoming, upstream).response == ProxyFailure(upstream.value.json.error)
    ensures HasFile(incoming) && upstream.Ok? && !IsJson(upstream.value.contentType) && upstream.value.text.Err? ==>
              Post(env, incoming, upstream).response == ProxyFailure(upstream.value.text.error)
    ensures forall e: Thrown :: ProxyFailure(e).body ==
              DetailBody(if Truthy(e.message) then e.message.value else ProxyFailedDetail)
  {
  }

  /** The reply is a success exactly when the backend succeeded and its body
      could be read, and then its status is 200 whatever 2xx the backend sent. */
  lemma SuccessIffBackendSucceeded(env: Env, incoming: Result<FormValue, Thrown>, upstream: Result<Upstream, Thrown>)
    ensures var r := Post(env, incoming, upstream).response;
            200 <= r.status <= 299 <==> Answered(incoming, upstream) && IsOk(upstream.value.status)
    ensures var r := Post(env, incoming, upstream).response;
            200 <= r.status <= 299 ==> r.status == 200
  {
  }

  /** A failing backend's status reaches the browser unchanged, except 304
      and statuses above 599, under which no JSON reply can be built and the
      reply is a 502. */
  lemma FailureStatusPreserved(env: Env, incoming: Result<FormValue, Thrown>, upstream: Result<Upstream, Thrown>)
    requires Answered(incoming, upstream) && !IsOk(upstream.value.status)
    ensures Post(env, incoming, upstream).response.status
            == if upstream.value.status == 304 || upstream.value.status > 599 then 502 else upstream.value.status
  {
  }

  /** Every failure reply is either the backend's own JSON, relayed, or a
      `{detail}` object the relay built, whose detail is never empty. */
  lemma FailureDetailNeverEmpty(env: Env, incoming: Result<FormValue, Thrown>, upstream: Result<Upstream, Thrown>)
    ensures var r := Post(env, incoming, upstream).response;
            !(200 <= r.status <= 299) ==>
              (exists d :: d != "" && r.body == DetailBody(d))
              || (Answered(incoming, upstream) && IsJson(upstream.value.contentType) && upstream.value.json == Ok(r.body))
  {
    var r := Post(env, incoming, upstream).response;
    if Answered(incoming, upstream) && !IsJson(upstream.value.contentType) && !IsOk(upstream.value.status)
       && !CannotCarryJson(upstream.value.status) {
      var t := upstream.value.text.value;
      assert r.body == DetailBody(if t == "" then UpstreamErrorDetail else t);
    } else if incoming.Ok? && !incoming.value.BlobValue? {
      assert r.body == DetailBody(MissingFileDetail);
    }
  }

  /** The processing-time header is on the reply exactly when the backend
      answered with a non-empty one under a status a JSON reply can carry, and
      then it carries the backend's value; the reply has no other header
      besides its JSON content type. */
  lemma ProcessTimePassedThrough(env: Env, incoming: Result<FormValue, Thrown>, upstream: Result<Upstream, Thrown>)
    ensures var h := Post(env, incoming, upstream).response.headers;
            ProcessTimeHeader in h <==>
              && Answered(incoming, upstream) && Truthy(upstream.value.processTime)
              && upstream.value.status != 304 && upstream.value.status <= 599
    ensures var h := Post(env, incoming, upstream).response.headers;
            ProcessTimeHeader in h ==> h[ProcessTimeHeader] == upstream.value.processTime.value
    ensures var h := Post(env, incoming, upstream).response.headers;
            h.Keys <= {ContentTypeHeader, ProcessTimeHeader} && h[ContentTypeHeader] == JsonMediaType
  {
  }
}
