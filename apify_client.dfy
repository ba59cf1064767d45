/** The Apify adapter (api_clients/apify_client.py): start an actor run,
    normalise a run's status, and list a finished run's dataset. The Apify
    SDK is given as functions from a request to what the SDK returned. */
module ApifyApi {
  import opened Wrappers
  import opened Json
  import opened ApiBase

  const Provider := "apify"

  datatype Client = Client(token: string)

  /** `__init__`: the explicit token, else the environment's; a ValueError
      when neither is a non-empty string. */
  function NewClient(apiToken: Option<string>, env: Option<string>): (r: Result<Client, string>)
    ensures r.Ok? <==> (apiToken.Some? && apiToken.value != "") || (env.Some? && env.value != "")
    ensures r.Ok? && apiToken.Some? && apiToken.value != "" ==> r.value.token == apiToken.value
    ensures r.Ok? && !(apiToken.Some? && apiToken.value != "") ==> r.value.token == env.value
    ensures r.Err? ==> r.error == "Apify API token is required"
  {
    if apiToken.Some? && apiToken.value != "" then Ok(Client(apiToken.value))
    else if env.Some? && env.value != "" then Ok(Client(env.value))
    else Err("Apify API token is required")
  }

  /** `trigger_crawl`: `start(actor, input)` is the SDK's
      `actor(actor).start(run_input=input)`; the run id is `run_info['id']`. */
  function TriggerCrawl(start: (string, Object) -> SdkCall<Value>, actorId: string, params: Object): (r: Result<Value, ApiClientError>)
    ensures r.Ok? <==>
      (start(actorId, params).Returned? && start(actorId, params).value.Dict?
       && "id" in start(actorId, params).value.fields)
    ensures r.Ok? ==> r.value == start(actorId, params).value.fields["id"]
    ensures r.Err? ==>
      (r.error.provider == Provider && r.error.statusCode.None?
       && Strings.StartsWith(r.error.message, "Failed to trigger crawl: "))
  {
    var prefix := "Failed to trigger crawl: ";
    match start(actorId, params)
    case Threw(detail) => Err(ClientError(prefix + detail, Provider))
    case Returned(run) =>
      if !run.Dict? then Err(ClientError(prefix + SubscriptErrorText(run), Provider))
      else if "id" !in run.fields then Err(ClientError(prefix + KeyErrorText("id"), Provider))
      else Ok(run.fields["id"])
  }

  const FailedStatuses: seq<Value> := [Str("FAILED"), Str("ABORTED"), Str("TIMED-OUT")]

  /** The text of the TypeError raised by `x // 1000` on a non-number. */
  function FloorDivErrorText(v: Value): string {
    "unsupported operand type(s) for //: '" + TypeName(v) + "' and 'int'"
  }

  /** The `status_info` built from a run record, or the text of the Python
      exception building it raises. */
  function StatusInfo(run: Value): (r: Result<Object, string>)
    ensures r.Ok? ==> run.Dict? && "status" in run.fields
    ensures r.Ok? ==> IsStatusResult(r.value)
    ensures r.Ok? ==> r.value["status"] == run.fields["status"]
    ensures r.Ok? ==> r.value["is_ready"] == Bool(run.fields["status"] == Str("SUCCEEDED"))
    ensures r.Ok? ==> ("error_message" in r.value <==> run.fields["status"] in FailedStatuses)
    ensures r.Ok? && "error_message" in r.value ==>
      r.value["error_message"] == Get(run.fields, "statusMessage", Str("Unknown error"))
    ensures r.Ok? ==> "runtime_secs" in r.value && "items_scraped" in r.value
    ensures r.Ok? && "stats" !in run.fields ==> r.value["runtime_secs"] == Int(0) && r.value["items_scraped"] == Int(0)
    ensures r.Ok? ==> r.value["runtime_secs"].Int?
    ensures r.Ok? && "stats" in run.fields ==> run.fields["stats"].Dict?
    ensures r.Ok? && "stats" in run.fields ==>
      (var millis := Get(run.fields["stats"].fields, "runtimeMillis", Int(0));
       && IsPyInt(millis)
       && 1000 * r.value["runtime_secs"].i <= AsPyInt(millis) < 1000 * r.value["runtime_secs"].i + 1000)
    ensures !run.Dict? ==> r == Err(SubscriptErrorText(run))
    ensures run.Dict? && "status" !in run.fields ==> r == Err(KeyErrorText("status"))
  {
    if !run.Dict? then Err(SubscriptErrorText(run))
    else
      var f := run.fields;
      if "status" !in f then Err(KeyErrorText("status"))
      else
        var status := f["status"];
        var stats := Get(f, "stats", Dict(map[]));
        if !stats.Dict? then Err(NoGetText(stats))
        else
          var millis := Get(stats.fields, "runtimeMillis", Int(0));
          if !IsPyInt(millis) then Err(FloorDivErrorText(millis))
          else
            var usage := Get(f, "usage", Dict(map[]));
            if !usage.Dict? then Err(NoGetText(usage))
            else
              var info := RunFields(f, status, millis, stats.fields, usage.fields);
              if status in FailedStatuses then Ok(info["error_message" := Get(f, "statusMessage", Str("Unknown error"))])
              else Ok(info)
  }

  /** The entries of `status_info` that every run has; the run time is
      the whole seconds in the milliseconds. */
  function RunFields(f: Object, status: Value, millis: Value, stats: Object, usage: Object): (info: Object)
    requires IsPyInt(millis)
    ensures "error_message" !in info && "status" in info && "is_ready" in info
    ensures info["status"] == status && info["is_ready"] == Bool(status == Str("SUCCEEDED"))
    ensures "runtime_secs" in info && "items_scraped" in info && info["runtime_secs"].Int?
    ensures 1000 * info["runtime_secs"].i <= AsPyInt(millis) < 1000 * info["runtime_secs"].i + 1000
    ensures info["items_scraped"] == Get(stats, "items", Int(0))
  {
    map[
      "status" := status,
      "is_ready" := Bool(status == Str("SUCCEEDED")),
      "dataset_id" := GetOpt(f, "defaultDatasetId"),
      "started_at" := GetOpt(f, "startedAt"),
      "finished_at" := GetOpt(f, "finishedAt"),
      "runtime_secs" := Int(AsPyInt(millis) / 1000),
      "items_scraped" := Get(stats, "items", Int(0)),
      "compute_units" := Get(usage, "COMPUTE_UNITS", Int(0)),
      "total_cost_usd" := Get(f, "usageTotalUsd", Int(0)),
      "exit_code" := GetOpt(f, "exitCode")]
  }

  /** `check_status`: `getRun(job)` is the SDK's `run(job).get()`; every
      failure is re-raised as an APIClientError of this provider. */
  function CheckStatus(getRun: string -> SdkCall<Value>, jobId: string): (r: Result<Object, ApiClientError>)
    ensures r.Ok? ==> getRun(jobId).Returned? && StatusInfo(getRun(jobId).value) == Ok(r.value)
    ensures r.Err? ==>
      (r.error.provider == Provider && r.error.statusCode.None?
       && Strings.StartsWith(r.error.message, "Failed to check status: "))
  {
    match getRun(jobId)
    case Threw(detail) => Err(ClientError("Failed to check status: " + detail, Provider))
    case Returned(run) =>
      match StatusInfo(run)
      case Ok(info) => Ok(info)
      case Err(text) => Err(ClientError("Failed to check status: " + text, Provider))
  }

  /** A successful status check has the adapter contract's shape; a ready
      run never carries an error message. */
  lemma CheckStatusContract(getRun: string -> SdkCall<Value>, jobId: string)
    requires CheckStatus(getRun, jobId).Ok?
    ensures IsStatusResult(CheckStatus(getRun, jobId).value)
    ensures CheckStatus(getRun, jobId).value["is_ready"] == Bool(true) ==> "error_message" !in CheckStatus(getRun, jobId).value
  {
    var run := getRun(jobId).value;
    var st := run.fields["status"];
    assert st == Str("SUCCEEDED") ==> st !in FailedStatuses;
  }

  /** The `limit` keyword passed to `list_items`: only a truthy limit. */
  function ForwardedLimit(limit: Option<int>): (r: Option<int>)
    ensures r.Some? <==> limit.Some? && limit.value != 0
    ensures r.Some? ==> r == limit
  {
    if limit.Some? && limit.value != 0 then limit else None
  }

  /** `download_data`: `getRun` is `_get_run_info` and `listItems(ds, lim)`
      is `dataset(ds).list_items(limit=lim)`, giving the page's items. */
  function DownloadData(getRun: string -> SdkCall<Value>, listItems: (Value, Option<int>) -> SdkCall<seq<Value>>,
                        jobId: string, limit: Option<int>): (r: Result<seq<Value>, ApiClientError>)
    ensures r.Ok? ==>
      (&& getRun(jobId).Returned? && getRun(jobId).value.Dict?
       && "status" in getRun(jobId).value.fields
       && getRun(jobId).value.fields["status"] == Str("SUCCEEDED")
       && Truthy(GetOpt(getRun(jobId).value.fields, "defaultDatasetId"))
       && listItems(GetOpt(getRun(jobId).value.fields, "defaultDatasetId"), ForwardedLimit(limit)) == Returned(r.value))
    ensures r.Err? ==> r.error.provider == Provider && r.error.statusCode.None?
    ensures (getRun(jobId).Returned? && getRun(jobId).value.Dict? && "status" in getRun(jobId).value.fields
             && getRun(jobId).value.fields["status"] != Str("SUCCEEDED"))
      ==> r == Err(ClientError("Job not completed yet. Current status: " + PyStr(getRun(jobId).value.fields["status"]), Provider))
    ensures (getRun(jobId).Returned? && getRun(jobId).value.Dict? && "status" in getRun(jobId).value.fields
             && getRun(jobId).value.fields["status"] == Str("SUCCEEDED")
             && !Truthy(GetOpt(getRun(jobId).value.fields, "defaultDatasetId")))
      ==> r == Err(ClientError("No dataset available for this job", Provider))
  {
    var prefix := "Failed to download data: ";
    match getRun(jobId)
    case Threw(detail) => Err(ClientError(prefix + detail, Provider))
    case Returned(run) =>
      if !run.Dict? then Err(ClientError(prefix + SubscriptErrorText(run), Provider))
      else if "status" !in run.fields then Err(ClientError(prefix + KeyErrorText("status"), Provider))
      else if run.fields["status"] != Str("SUCCEEDED") then
        Err(ClientError("Job not completed yet. Current status: " + PyStr(run.fields["status"]), Provider))
      else
        var datasetId := GetOpt(run.fields, "defaultDatasetId");
        if !Truthy(datasetId) then Err(ClientError("No dataset available for this job", Provider))
        else
          match listItems(datasetId, ForwardedLimit(limit))
          case Threw(detail) => Err(ClientError(prefix + detail, Provider))
          case Returned(items) => Ok(items)
  }

  /** A zero limit is falsy: the download is the same as with no limit. */
  lemma ZeroLimitNotForwarded(getRun: string -> SdkCall<Value>, listItems: (Value, Option<int>) -> SdkCall<seq<Value>>, jobId: string)
    ensures DownloadData(getRun, listItems, jobId, Some(0)) == DownloadData(getRun, listItems, jobId, None)
  {
    assert ForwardedLimit(Some(0)) == ForwardedLimit(None);
  }
}
