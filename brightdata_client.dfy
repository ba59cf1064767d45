/** The asynchronous BrightData adapter (api_clients/brightdata_client.py):
    trigger a dataset crawl, normalise its progress report, and download a
    snapshot delivered as JSON lines. Each HTTP exchange is an input. */
module BrightDataApi {
  import opened Wrappers
  import opened Json
  import opened Strings
  import opened ApiBase
  import Http

  const Provider := "brightdata"
  const BaseUrl := "https://api.brightdata.com/datasets/v3"
  const UserAgent := "social-analytics-platform/data-ingestion-service"

  datatype Client = Client(apiKey: string)

  /** `__init__`: the explicit key, else the environment's; a ValueError when
      neither is a non-empty string. */
  function NewClient(apiKey: Option<string>, env: Option<string>): (r: Result<Client, string>)
    ensures r.Ok? <==> (apiKey.Some? && apiKey.value != "") || (env.Some? && env.value != "")
    ensures r.Ok? && apiKey.Some? && apiKey.value != "" ==> r.value.apiKey == apiKey.value
    ensures r.Ok? && !(apiKey.Some? && apiKey.value != "") ==> r.value.apiKey == env.value
    ensures r.Err? ==> r.error == "BrightData API key is required"
  {
    if apiKey.Some? && apiKey.value != "" then Ok(Client(apiKey.value))
    else if env.Some? && env.value != "" then Ok(Client(env.value))
    else Err("BrightData API key is required")
  }

  /** `_get_headers`. */
  function Headers(c: Client): (h: map<string, string>)
    ensures h.Keys == {"Authorization", "Content-Type", "User-Agent"}
    ensures h["Authorization"] == "Bearer " + c.apiKey && h["Content-Type"] == "application/json"
    ensures h["User-Agent"] == UserAgent
  {
    map["Authorization" := "Bearer " + c.apiKey, "Content-Type" := "application/json", "User-Agent" := UserAgent]
  }

  /** `_get_download_headers`. */
  function DownloadHeaders(c: Client): (h: map<string, string>)
    ensures h.Keys == {"Authorization", "Accept", "User-Agent"}
    ensures h["Authorization"] == "Bearer " + c.apiKey && h["Accept"] == "application/json"
    ensures h["User-Agent"] == UserAgent
  {
    map["Authorization" := "Bearer " + c.apiKey, "Accept" := "application/json", "User-Agent" := UserAgent]
  }

  // ---------------------------------------------------------------------
  // trigger_crawl

  /** The POST the trigger makes: its URL, query string and JSON body. */
  datatype TriggerRequest = TriggerRequest(url: string, query: map<string, Value>, body: seq<Object>)

  /** The request `trigger_crawl` builds from its params, or the error it
      raises before any request when `dataset_id` is missing or falsy. */
  function TriggerRequestFor(params: Object): (r: Result<TriggerRequest, ApiClientError>)
    ensures r.Ok? <==> "dataset_id" in params && Truthy(params["dataset_id"])
    ensures r.Ok? ==> |r.value.body| == 1 && "dataset_id" !in r.value.body[0]
    ensures r.Ok? ==> forall k :: k in params && k != "dataset_id" ==> k in r.value.body[0] && r.value.body[0][k] == params[k]
    ensures r.Ok? ==> r.value.body[0].Keys == params.Keys - {"dataset_id"}
    ensures r.Ok? ==> r.value.query == map["dataset_id" := params["dataset_id"], "include_errors" := Str("true")]
    ensures r.Err? ==> r.error == ClientError("Failed to trigger crawl: dataset_id is required in params", Provider)
  {
    var datasetId := GetOpt(params, "dataset_id");
    if !Truthy(datasetId) then
      Err(ClientError("Failed to trigger crawl: dataset_id is required in params", Provider))
    else
      Ok(TriggerRequest(BaseUrl + "/trigger",
        map["dataset_id" := datasetId, "include_errors" := Str("true")],
        [params - {"dataset_id"}]))
  }

  /** `"HTTP <status>"`, the fallback error text. */
  function HttpText(status: int): string {
    "HTTP " + IntToString(status)
  }

  /** `trigger_crawl`: the snapshot id of a 200 response, or an
      APIClientError; `reply` is what the POST produced. */
  function TriggerCrawl(params: Object, reply: Http.Reply): (r: Result<Value, ApiClientError>)
    ensures TriggerRequestFor(params).Err? ==> r == Err(TriggerRequestFor(params).error)
    ensures TriggerRequestFor(params).Ok? ==> r == TriggerReply(reply)
    ensures r.Err? ==> r.error.provider == Provider
  {
    match TriggerRequestFor(params)
    case Err(e) => Err(e)
    case Ok(_) => TriggerReply(reply)
  }

  /** How `trigger_crawl` reads the answer to its POST: the snapshot id of
      a 200 JSON object, the API's error with the status code for any other
      status, and an error without a code when the request raised, the body
      is not JSON or the snapshot id is missing. */
  function TriggerReply(reply: Http.Reply): (r: Result<Value, ApiClientError>)
    ensures r.Ok? ==>
      (Truthy(r.value) && reply.Response? && reply.status == 200
       && reply.body.Some? && reply.body.value.Dict? && "snapshot_id" in reply.body.value.fields
       && reply.body.value.fields["snapshot_id"] == r.value)
    ensures r.Err? ==> r.error.provider == Provider
    ensures r.Err? && r.error.statusCode.Some? ==>
      (reply.Response? && r.error.statusCode.value == reply.status && reply.status != 200)
    ensures (reply.Response? && reply.status != 200 && reply.body.Some? && reply.body.value.Dict?)
            ==> r.Err? && r.error.statusCode == Some(reply.status)
    ensures (reply.Response? && reply.status == 200 && reply.body.Some? && reply.body.value.Dict?
             && !Truthy(GetOpt(reply.body.value.fields, "snapshot_id")))
            ==> r == Err(ClientError("No snapshot_id returned from BrightData API", Provider))
  {
    match reply
    case Raised(_, detail) => Err(ClientError("Failed to trigger crawl: " + detail, Provider))
    case Response(status, _, body) =>
      match body
      case None => Err(ClientError("Failed to trigger crawl: " + NotJsonText, Provider))
      case Some(data) =>
        if !data.Dict? then Err(ClientError("Failed to trigger crawl: " + NoGetText(data), Provider))
        else if status != 200 then
          Err(ClientError("Failed to trigger crawl: " + PyStr(Get(data.fields, "error", Str(HttpText(status)))),
                          Provider, Some(status)))
        else
          var snapshotId := GetOpt(data.fields, "snapshot_id");
          if !Truthy(snapshotId) then Err(ClientError("No snapshot_id returned from BrightData API", Provider))
          else Ok(snapshotId)
  }

  /** `{"dataset_id": dataset_id, **crawl_params}`: a `dataset_id` inside
      `crawl_params` overrides the argument. */
  function LegacyParams(datasetId: string, crawlParams: Object): (p: Object)
    ensures p.Keys == crawlParams.Keys + {"dataset_id"}
    ensures forall k :: k in crawlParams ==> p[k] == crawlParams[k]
    ensures "dataset_id" !in crawlParams ==> p["dataset_id"] == Str(datasetId)
  {
    map["dataset_id" := Str(datasetId)] + crawlParams
  }

  /** `trigger_crawl_legacy_format`. */
  function TriggerCrawlLegacyFormat(datasetId: string, crawlParams: Object, reply: Http.Reply): (r: Result<Value, ApiClientError>)
    ensures r == TriggerCrawl(LegacyParams(datasetId, crawlParams), reply)
  {
    TriggerCrawl(LegacyParams(datasetId, crawlParams), reply)
  }

  /** The legacy form sends the same body as passing `crawl_params`
      directly, and queries the dataset named inside `crawl_params` when
      there is one, else the argument. */
  lemma LegacyRequest(datasetId: string, crawlParams: Object)
    ensures var req := TriggerRequestFor(LegacyParams(datasetId, crawlParams));
      && ("dataset_id" !in crawlParams ==> (req.Ok? <==> datasetId != ""))
      && (req.Ok? ==> req.value.body == [crawlParams - {"dataset_id"}])
      && (req.Ok? ==>
            req.value.query["dataset_id"] == if "dataset_id" in crawlParams then crawlParams["dataset_id"] else Str(datasetId))
  {
    var p := LegacyParams(datasetId, crawlParams);
    assert "dataset_id" in p;
    if "dataset_id" !in crawlParams {
      assert p["dataset_id"] == Str(datasetId);
      assert Truthy(Str(datasetId)) <==> datasetId != "";
    }
    LegacyBody(datasetId, crawlParams);
  }

  lemma LegacyBody(datasetId: string, crawlParams: Object)
    ensures LegacyParams(datasetId, crawlParams) - {"dataset_id"} == crawlParams - {"dataset_id"}
  {
    var p := LegacyParams(datasetId, crawlParams);
    assert p - {"dataset_id"} == crawlParams - {"dataset_id"};
  }

  // ---------------------------------------------------------------------
  // check_status

  const ReadyStatuses: seq<Value> := [Str("ready"), Str("completed")]
  const FailedStatuses: seq<Value> := [Str("failed"), Str("error"), Str("cancelled")]

  /** The normalised status of a progress report `f` for job `jobId`. */
  function StatusInfo(jobId: string, f: Object): (info: Object)
    ensures IsStatusResult(info)
    ensures info.Keys - {"error_message"} == StatusKeys
    ensures info["status"] == info["raw_status"] == Get(f, "status", Str("unknown"))
    ensures info["is_ready"] == Bool(info["status"] in ReadyStatuses)
    ensures info["snapshot_id"] == Get(f, "snapshot_id", Str(jobId))
    ensures info["items_scraped"] == Get(f, "total_rows", Int(0))
    ensures info["total_cost_usd"] == Int(0)
    ensures "error_message" in info <==> info["status"] in FailedStatuses
    ensures "error_message" in info ==> info["error_message"] == Get(f, "error", Str("Unknown error"))
  {
    var raw := Get(f, "status", Str("unknown"));
    var info := ProgressFields(jobId, f, raw);
    if raw in FailedStatuses then info["error_message" := Get(f, "error", Str("Unknown error"))] else info
  }

  const StatusKeys: set<string> := {"status", "is_ready", "snapshot_id", "dataset_id", "progress",
    "raw_status", "started_at", "finished_at", "items_scraped", "total_cost_usd"}

  /** The entries of the normalised status that every report has. */
  function ProgressFields(jobId: string, f: Object, raw: Value): (info: Object)
    ensures info.Keys == StatusKeys
    ensures info["status"] == info["raw_status"] == raw && info["is_ready"] == Bool(raw in ReadyStatuses)
    ensures info["snapshot_id"] == Get(f, "snapshot_id", Str(jobId))
    ensures info["items_scraped"] == Get(f, "total_rows", Int(0)) && info["total_cost_usd"] == Int(0)
  {
    map[
      "status" := raw,
      "is_ready" := Bool(raw in ReadyStatuses),
      "snapshot_id" := Get(f, "snapshot_id", Str(jobId)),
      "dataset_id" := GetOpt(f, "dataset_id"),
      "progress" := Get(f, "progress", Dict(map[])),
      "raw_status" := raw,
      "started_at" := GetOpt(f, "started_at"),
      "finished_at" := GetOpt(f, "finished_at"),
      "items_scraped" := Get(f, "total_rows", Int(0)),
      "total_cost_usd" := Int(0)]
  }

  /** `check_status`: `reply` is what the GET on the progress URL produced. */
  function CheckStatus(jobId: string, reply: Http.Reply): (r: Result<Object, ApiClientError>)
    ensures r.Ok? ==>
      (reply.Response? && reply.status == 200 && reply.body.Some? && reply.body.value.Dict?
       && r.value == StatusInfo(jobId, reply.body.value.fields))
    ensures r.Err? ==> r.error.provider == Provider
    ensures (reply.Response? && reply.status == 200 && reply.body.Some? && reply.body.value.List?)
      ==> r == Err(ClientError("Unexpected response format for status check", Provider, Some(200)))
    ensures (reply.Response? && reply.status != 200 && reply.body.Some? && reply.body.value.Dict?)
      ==> r.Err? && r.error.statusCode == Some(reply.status)
  {
    match reply
    case Raised(_, detail) => Err(ClientError("Failed to check status: " + detail, Provider))
    case Response(status, _, body) =>
      match body
      case None => Err(ClientError("Failed to check status: " + NotJsonText, Provider))
      case Some(data) =>
        if status != 200 then
          if data.Dict? then
            Err(ClientError("Failed to check status: " + PyStr(Get(data.fields, "error", Str(HttpText(status)))),
                            Provider, Some(status)))
          else Err(ClientError("Failed to check status: " + NoGetText(data), Provider))
        else if data.List? then Err(ClientError("Unexpected response format for status check", Provider, Some(status)))
        else if !data.Dict? then Err(ClientError("Failed to check status: " + NoGetText(data), Provider))
        else Ok(StatusInfo(jobId, data.fields))
  }

  /** A successful status check has the adapter contract's shape, and a
      ready job never carries an error message. */
  lemma CheckStatusContract(jobId: string, reply: Http.Reply)
    requires CheckStatus(jobId, reply).Ok?
    ensures IsStatusResult(CheckStatus(jobId, reply).value)
    ensures CheckStatus(jobId, reply).value["is_ready"] == Bool(true) ==> "error_message" !in CheckStatus(jobId, reply).value
  {
    var info := CheckStatus(jobId, reply).value;
    var st := info["status"];
    assert st in ReadyStatuses ==> st !in FailedStatuses;
  }

  // ---------------------------------------------------------------------
  // download_data

  /** The streamed GET of a snapshot: an exception somewhere along the way,
      or a status with the body decoded as JSON (used only on errors) and
      the text chunks read. */
  datatype Stream =
    | Interrupted(kind: Http.ExceptionKind, detail: string)
    | Streamed(status: int, errorBody: Option<Value>, chunks: seq<string>)

  /** `''.join(chunks)`. */
  function Concat(chunks: seq<string>): string {
    if chunks == [] then [] else Concat(chunks[..|chunks| - 1]) + chunks[|chunks| - 1]
  }

  /** Joining is associative: the first chunk leads the joined text. */
  lemma {:induction false} ConcatPrepend(c: string, chunks: seq<string>)
    ensures Concat([c] + chunks) == c + Concat(chunks)
    decreases |chunks|
  {
    if chunks != [] {
      var n := |chunks| - 1;
      assert ([c] + chunks)[..n + 1] == [c] + chunks[..n];
      ConcatPrepend(c, chunks[..n]);
    }
  }

  /** A line the loop hands to `json.loads`. */
  predicate NonBlank(line: string) {
    Strip(line) != []
  }

  /** The items of the JSON-lines loop: one per non-blank line that
      `loads` accepts, in line order. */
  function JsonLines(loads: string -> Option<Value>, lines: seq<string>): (r: seq<Value>)
    ensures |r| <= |lines|
  {
    if lines == [] then []
    else
      var last := lines[|lines| - 1];
      JsonLines(loads, lines[..|lines| - 1])
        + (if NonBlank(last) && loads(last).Some? then [loads(last).value] else [])
  }

  /** When every line is non-blank and parses, there is exactly one item per
      line, in order. */
  lemma {:induction false} JsonLinesOneEach(loads: string -> Option<Value>, lines: seq<string>, vs: seq<Value>)
    requires |lines| == |vs|
    requires forall k :: 0 <= k < |lines| ==> NonBlank(lines[k]) && loads(lines[k]) == Some(vs[k])
    ensures JsonLines(loads, lines) == vs
  {
    if lines != [] {
      var n := |lines| - 1;
      JsonLinesOneEach(loads, lines[..n], vs[..n]);
      assert vs == vs[..n] + [vs[n]];
    }
  }

  /** Blank or unparseable lines contribute nothing. */
  lemma {:induction false} JsonLinesSkip(loads: string -> Option<Value>, lines: seq<string>, line: string)
    requires !NonBlank(line) || loads(line).None?
    ensures JsonLines(loads, lines + [line]) == JsonLines(loads, lines)
  {
    assert (lines + [line])[..|lines|] == lines;
  }

  /** What `download_data` evidently means to return or raise. */
  function DownloadOutcome(loads: string -> Option<Value>, limit: Option<int>, s: Stream): (r: Result<seq<Value>, ApiClientError>)
    ensures r.Err? ==> r.error.provider == Provider
    ensures s.Streamed? && s.status != 200 ==> r.Err? && r.error.statusCode == Some(s.status)
    ensures s.Streamed? && s.status == 200 ==>
      r == Ok(ApplyLimit(JsonLines(loads, SplitLines(Strip(Concat(s.chunks)))), limit))
  {
    match s
    case Interrupted(TimeoutError, detail) => Err(ClientError("Download timeout after 5 minutes: " + detail, Provider))
    case Interrupted(ConnectionError, detail) => Err(ClientError("Network error during download: " + detail, Provider))
    case Interrupted(OtherError, detail) => Err(ClientError("Failed to download data: " + detail, Provider))
    case Streamed(status, errorBody, chunks) =>
      if status != 200 then
        var fallback := HttpText(status);
        var msg := if errorBody.Some? && errorBody.value.Dict?
          then PyStr(Get(errorBody.value.fields, "error", Str(fallback))) else fallback;
        Err(ClientError("Failed to download data: " + msg, Provider, Some(status)))
      else Ok(ApplyLimit(JsonLines(loads, SplitLines(Strip(Concat(chunks)))), limit))
  }

  /** `download_data` as written, with its chunk loop, its line loop and the
      limit. Whatever is raised inside the `try` (the interrupted request or
      the APIClientError for a status other than 200) meets the handler
      list, whose first entry is not an exception class, and leaves as a
      TypeError. */
  method DownloadData(loads: string -> Option<Value>, limit: Option<int>, s: Stream)
    returns (r: Result<seq<Value>, Raised>)
    ensures r == DownloadDataAsWritten(loads, limit, s)
  {
    if s.Interrupted? || s.status != 200 {
      return Err(TypeErrorRaised(CatchNonExceptionText));
    }
    var rawText := ReadChunks(s.chunks);
    var lines := SplitLines(Strip(rawText));
    var data := ParseLines(loads, lines);
    if limit.Some? && limit.value != 0 && |data| > limit.value {
      data := ApplyLimit(data, limit);
    }
    return Ok(data);
  }

  /** The chunk loop of `download_data`: the chunks joined in order. */
  method ReadChunks(chunks: seq<string>) returns (rawText: string)
    ensures rawText == Concat(chunks)
  {
    rawText := "";
    for i := 0 to |chunks|
      invariant rawText == Concat(chunks[..i])
    {
      assert chunks[..i + 1][..i] == chunks[..i];
      rawText := rawText + chunks[i];
    }
    assert chunks[..|chunks|] == chunks;
  }

  /** The line loop of `download_data`: each non-blank line that parses
      gives one item. */
  method ParseLines(loads: string -> Option<Value>, lines: seq<string>) returns (data: seq<Value>)
    ensures data == JsonLines(loads, lines)
  {
    data := [];
    for i := 0 to |lines|
      invariant data == JsonLines(loads, lines[..i])
    {
      assert lines[..i + 1][..i] == lines[..i];
      if Strip(lines[i]) != [] {
        match loads(lines[i])
        case Some(item) =>
          data := data + [item];
        case None =>
      }
    }
    assert lines[..|lines|] == lines;
  }

  /** What leaves `download_data` as written. Its first handler names
      `aiohttp.ClientTimeout`, a settings class rather than an exception
      class, so Python raises a TypeError as soon as any exception reaches
      the handlers: no error leaves as an APIClientError. */
  datatype Raised = ClientFailure(error: ApiClientError) | TypeErrorRaised(message: string)

  const CatchNonExceptionText := "catching classes that do not inherit from BaseException is not allowed"

  function DownloadDataAsWritten(loads: string -> Option<Value>, limit: Option<int>, s: Stream): (r: Result<seq<Value>, Raised>)
    ensures r.Ok? <==> DownloadOutcome(loads, limit, s).Ok?
    ensures r.Ok? ==> r.value == DownloadOutcome(loads, limit, s).value
    ensures r.Err? ==> r.error == TypeErrorRaised(CatchNonExceptionText)
  {
    match DownloadOutcome(loads, limit, s)
    case Ok(data) => Ok(data)
    case Err(_) => Err(TypeErrorRaised(CatchNonExceptionText))
  }

  /** A 404 from the snapshot URL: as written the caller sees a TypeError;
      as intended an APIClientError carrying the status. */
  lemma NotFoundSurfacesAsTypeError(loads: string -> Option<Value>)
    ensures DownloadDataAsWritten(loads, None, Streamed(404, None, [])) == Err(TypeErrorRaised(CatchNonExceptionText))
    ensures DownloadOutcome(loads, None, Streamed(404, None, []))
      == Err(ClientError("Failed to download data: HTTP 404", Provider, Some(404)))
  {
    assert NatToString(4) == "4";
    assert NatToString(40) == "40";
    assert NatToString(404) == "404";
    assert HttpText(404) == "HTTP 404";
    assert DownloadOutcome(loads, None, Streamed(404, None, []))
      == Err(ClientError("Failed to download data: " + HttpText(404), Provider, Some(404)));
    assert "Failed to download data: " + HttpText(404) == "Failed to download data: HTTP 404";
  }

  // ---------------------------------------------------------------------
  // _validate_params

  predicate HasHttpScheme(url: string) {
    StartsWith(url, "http://") || StartsWith(url, "https://")
  }

  /** `_validate_params`: `url` is required and must be an http(s) string. */
  function ValidateParams(params: Object): (r: Result<(), string>)
    ensures r.Ok? <==> "url" in params && params["url"].Str? && HasHttpScheme(params["url"].s)
    ensures "url" !in params ==> r == Err("Missing required parameter: url")
    ensures "url" in params && r.Err? ==> r.error == "Invalid URL format: " + PyStr(params["url"])
  {
    if "url" !in params then Err("Missing required parameter: url")
    else
      var url := params["url"];
      if !url.Str? || !HasHttpScheme(url.s) then Err("Invalid URL format: " + PyStr(url))
      else Ok(())
  }
}
