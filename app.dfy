/** The service's HTTP layer (app.py): the background loop that polls a
    triggered crawl until it is ready, downloads it and reports the outcome,
    the set of crawls being polled, and the trigger, download and status
    endpoints. Observations of the provider, the download's result and the
    clock are inputs; the thread pool is not modelled (each background task
    runs to completion when it is called). */
module App {
  import opened Wrappers
  import opened Json
  import opened Strings
  import opened Events
  import opened Ingestion
  import Http

  /** `BACKGROUND_CONFIG`. */
  datatype BackgroundConfig = BackgroundConfig(maxWorkers: int, pollInterval: int, maxPolls: int,
                                               downloadTimeout: int, enabled: bool)

  /** The defaults, taken when the environment sets nothing. */
  const DefaultConfig := BackgroundConfig(10, 30, 120, 300, true)

  /** `BACKGROUND_POLLING_ENABLED`: enabled unless set to something other
      than `true` in any letter case. */
  function PollingEnabled(env: map<string, string>): (r: bool)
    ensures "BACKGROUND_POLLING_ENABLED" !in env ==> r
    ensures "BACKGROUND_POLLING_ENABLED" in env ==> (r <==> Lower(env["BACKGROUND_POLLING_ENABLED"]) == "true")
  {
    Lower(if "BACKGROUND_POLLING_ENABLED" in env then env["BACKGROUND_POLLING_ENABLED"] else "true") == "true"
  }

  /** `(max_polls * poll_interval) // 60`; the divisor is positive, so
      Dafny's division is Python's floor division here. */
  function MaxPollingMinutes(cfg: BackgroundConfig): (r: int)
    ensures r * 60 <= cfg.maxPolls * cfg.pollInterval < r * 60 + 60
  {
    (cfg.maxPolls * cfg.pollInterval) / 60
  }

  // ---------------------------------------------------------------------
  // The background poll loop

  /** What one poll attempt sees: no metadata for the crawl, the provider's
      (ready, error) answer, or an exception raised inside the attempt (such
      as the KeyError of metadata without `snapshot_id`). */
  datatype Observation =
    | MetadataMissing
    | Status(ready: bool, error: Option<string>)
    | PollRaised(message: string)

  /** An event the loop publishes. */
  datatype Event =
    | Failure(message: string, stage: string)
    | Completion(crawlId: string, snapshotId: Value, gcsPath: string, postCount: nat, mediaCount: nat)

  /** The event for the one download made once the crawl is ready. */
  function DownloadEvent(d: DownloadResult): (e: Event)
    ensures d.Downloaded? <==> e.Completion?
    ensures d.DownloadFailed? ==> e == Failure(d.message, "download_failure")
    ensures d.Downloaded? ==> e.crawlId == d.crawlId && e.gcsPath == d.gcsPath && e.postCount == d.postCount
  {
    match d
    case Downloaded(crawlId, snapshotId, gcsPath, postCount, mediaCount, _) =>
      Completion(crawlId, snapshotId, gcsPath, postCount, mediaCount)
    case DownloadFailed(message, _) => Failure(message, "download_failure")
  }

  /** What poll number `n` does: Some(e) publishes `e` and leaves the loop,
      None keeps polling. A provider error escalates only from poll
      `max_polls - 5` on, an exception only from poll `max_polls - 3` on. */
  function Attempt(cfg: BackgroundConfig, obs: Observation, download: DownloadResult, n: int): (r: Option<Event>)
    ensures obs.MetadataMissing? ==> r == Some(Failure("Crawl metadata not found", "metadata_lookup"))
    ensures obs.Status? && obs.error.Some? && obs.error.value != "" ==>
      r == (if n >= cfg.maxPolls - 5 then Some(Failure("BrightData polling error: " + obs.error.value, "brightdata_error")) else None)
    ensures obs.Status? && !(obs.error.Some? && obs.error.value != "") ==>
      r == (if obs.ready then Some(DownloadEvent(download)) else None)
    ensures obs.PollRaised? ==>
      r == (if n >= cfg.maxPolls - 3 then Some(Failure("Polling error: " + obs.message, "polling_exception")) else None)
  {
    match obs
    case MetadataMissing => Some(Failure("Crawl metadata not found", "metadata_lookup"))
    case Status(ready, error) =>
      if error.Some? && error.value != "" then
        if n >= cfg.maxPolls - 5 then Some(Failure("BrightData polling error: " + error.value, "brightdata_error")) else None
      else if ready then Some(DownloadEvent(download))
      else None
    case PollRaised(message) =>
      if n >= cfg.maxPolls - 3 then Some(Failure("Polling error: " + message, "polling_exception")) else None
  }

  /** How the loop ended: an attempt broke out, the polls ran out, or the
      sleep between polls raised. */
  datatype Exit = Broke | Exhausted | Crashed

  /** The polls made, the events published inside the loop, the sleeps
      taken and how the loop ended. */
  datatype PollRun = PollRun(polls: nat, events: seq<Event>, sleeps: nat, exit: Exit)

  /** `time.sleep` with a negative interval raises, and the outer handler
      reports it. */
  const SleepFailure := Failure("Background processing error: sleep length must be non-negative", "background_exception")

  /** The loop from `polls` polls done and `slept` sleeps taken on;
      `observe(n)` is what poll number `n` (counted from 1) sees. */
  function PollFrom(cfg: BackgroundConfig, observe: nat -> Observation, download: DownloadResult, polls: nat, slept: nat)
    : (r: PollRun)
    decreases cfg.maxPolls - polls
    ensures r.polls >= polls
    ensures r.exit == Exhausted <==> r.events == []
    ensures r.exit == Exhausted ==> r.polls == (if polls < cfg.maxPolls then cfg.maxPolls else polls)
    ensures r.exit != Exhausted ==> |r.events| == 1 && polls < r.polls <= cfg.maxPolls
    ensures r.sleeps == slept + (if r.polls == polls then 0 else r.polls - polls - 1)
    ensures forall n :: polls < n < r.polls ==> Attempt(cfg, observe(n), download, n).None?
    ensures r.exit == Exhausted && polls < cfg.maxPolls ==> Attempt(cfg, observe(r.polls), download, r.polls).None?
    ensures r.exit == Broke ==> Attempt(cfg, observe(r.polls), download, r.polls) == Some(r.events[0])
    ensures r.exit == Crashed <==> cfg.pollInterval < 0 && polls + 1 < cfg.maxPolls && r.polls == polls + 1
                                   && Attempt(cfg, observe(polls + 1), download, polls + 1).None?
    ensures r.exit == Crashed ==> r.events == [SleepFailure]
  {
    if polls >= cfg.maxPolls then PollRun(polls, [], slept, Exhausted)
    else
      var n := polls + 1;
      match Attempt(cfg, observe(n), download, n)
      case Some(e) => PollRun(n, [e], slept, Broke)
      case None =>
        if n < cfg.maxPolls then
          if cfg.pollInterval < 0 then PollRun(n, [SleepFailure], slept, Crashed)
          else PollFrom(cfg, observe, download, n, slept + 1)
        else PollFrom(cfg, observe, download, n, slept)
  }

  /** The timeout report, `Polling timeout after N minutes`. */
  function TimeoutEvent(cfg: BackgroundConfig): Event {
    Failure("Polling timeout after " + IntToString(MaxPollingMinutes(cfg)) + " minutes", "polling_timeout")
  }

  /** Every event a background task publishes, as the loop is written: the
      timeout is checked after any exit but the exception, so a task whose
      last permitted poll breaks out reports twice. */
  function ReportedAsWritten(cfg: BackgroundConfig, run: PollRun): seq<Event> {
    run.events + TimeoutAsWritten(cfg, run)
  }

  /** The timeout report after the loop as written: due whenever the poll
      count reached `max_polls` and no exception ended the background run. */
  function TimeoutAsWritten(cfg: BackgroundConfig, run: PollRun): seq<Event> {
    if run.exit != Crashed && run.polls >= cfg.maxPolls then [TimeoutEvent(cfg)] else []
  }

  /** Every event a background task publishes when the timeout is reported
      only for a loop that ran out of polls. */
  function Reported(cfg: BackgroundConfig, run: PollRun): seq<Event> {
    run.events + (if run.exit == Exhausted then [TimeoutEvent(cfg)] else [])
  }

  /** Each background task reports exactly one outcome: a completion, the
      failure that stopped it, or the timeout. */
  lemma OneReportPerTask(cfg: BackgroundConfig, observe: nat -> Observation, download: DownloadResult)
    ensures |Reported(cfg, PollFrom(cfg, observe, download, 0, 0))| == 1
    ensures var run := PollFrom(cfg, observe, download, 0, 0);
      Reported(cfg, run)[0] == TimeoutEvent(cfg) <== run.exit == Exhausted
  {
  }

  /** The two timeout rules differ exactly on a task that breaks out at its
      last permitted poll. */
  lemma AsWrittenDiffersOnlyAtLastPoll(cfg: BackgroundConfig, observe: nat -> Observation, download: DownloadResult)
    ensures var run := PollFrom(cfg, observe, download, 0, 0);
      ReportedAsWritten(cfg, run) != Reported(cfg, run) <==> run.exit == Broke && run.polls == cfg.maxPolls
    ensures var run := PollFrom(cfg, observe, download, 0, 0);
      run.exit == Broke && run.polls == cfg.maxPolls ==> |ReportedAsWritten(cfg, run)| == 2
  {
    var run := PollFrom(cfg, observe, download, 0, 0);
    if run.exit == Broke && run.polls == cfg.maxPolls {
      assert |ReportedAsWritten(cfg, run)| == 2;
    } else if run.exit == Broke {
      assert ReportedAsWritten(cfg, run) == run.events;
    }
  }

  const OnePoll := BackgroundConfig(10, 30, 1, 300, true)

  /** With a single permitted poll, a crawl that is ready at once is
      downloaded, and the loop as written then also reports a timeout. */
  lemma ReadyAtLastPollReportsTimeoutToo(d: DownloadResult)
    requires d.Downloaded?
    ensures var run := PollFrom(OnePoll, _ => Status(true, None), d, 0, 0);
      ReportedAsWritten(OnePoll, run) == [DownloadEvent(d), TimeoutEvent(OnePoll)]
  {
    var run := PollFrom(OnePoll, _ => Status(true, None), d, 0, 0);
    assert Attempt(OnePoll, Status(true, None), d, 1) == Some(DownloadEvent(d));
    assert run == PollRun(1, [DownloadEvent(d)], 0, Broke);
  }

  /** A provider error before poll `max_polls - 5` never stops the loop. */
  lemma EarlyErrorsKeepPolling(cfg: BackgroundConfig, observe: nat -> Observation, download: DownloadResult, n: nat)
    requires 0 < n < cfg.maxPolls - 5
    requires observe(n).Status? && observe(n).error.Some? && observe(n).error.value != ""
    ensures PollFrom(cfg, observe, download, 0, 0).polls != n || PollFrom(cfg, observe, download, 0, 0).exit == Crashed
  {
  }

  /** The message a background event becomes on the topic. The background
      completion carries no crawl metadata. */
  function EventMessage(prefix: string, crawlId: string, e: Event, now: string): (m: Message)
  {
    match e
    case Failure(message, stage) => Envelope(prefix, "crawl-failed", now, FailedPayload(crawlId, message, Some(stage)))
    case Completion(id, snapshotId, gcsPath, postCount, mediaCount) =>
      Envelope(prefix, "data-ingestion-completed", now,
               CompletedPayload(id, snapshotId, gcsPath, postCount, mediaCount, None, now).value)
  }

  /** The messages a run of events puts on the topics, all or none
      delivered. */
  function Messages(prefix: string, crawlId: string, events: seq<Event>, now: string, delivered: bool): (r: seq<Message>)
    ensures |r| == if delivered then |events| else 0
    ensures delivered ==> forall i :: 0 <= i < |events| ==> r[i] == EventMessage(prefix, crawlId, events[i], now)
  {
    if !delivered then [] else seq(|events|, i requires 0 <= i < |events| => EventMessage(prefix, crawlId, events[i], now))
  }

  /** Publishing two runs of events one after the other sends their
      messages one after the other. */
  lemma MessagesConcat(prefix: string, crawlId: string, a: seq<Event>, b: seq<Event>, now: string, delivered: bool)
    ensures Messages(prefix, crawlId, a + b, now, delivered)
         == Messages(prefix, crawlId, a, now, delivered) + Messages(prefix, crawlId, b, now, delivered)
  {
    if delivered {
      var whole := Messages(prefix, crawlId, a + b, now, delivered);
      var parts := Messages(prefix, crawlId, a, now, delivered) + Messages(prefix, crawlId, b, now, delivered);
      assert |whole| == |parts|;
      forall i | 0 <= i < |whole|
        ensures whole[i] == parts[i]
      {
        if i < |a| {
          assert (a + b)[i] == a[i];
        } else {
          assert (a + b)[i] == b[i - |a|];
        }
      }
    }
  }

  /** Every failure the loop reports reaches the `crawl-failed` topic with
      its stage. */
  lemma FailuresCarryTheirStage(prefix: string, crawlId: string, message: string, stage: string, now: string)
    requires stage != ""
    ensures var m := EventMessage(prefix, crawlId, Failure(message, stage), now);
      m.topic == prefix + "-crawl-failed" && ReadEnvelope(m.body).Some?
      && ReadEnvelope(m.body).value.1["stage"] == Str(stage)
  {
    var payload := FailedPayload(crawlId, message, Some(stage));
    EnvelopeRoundTrip(prefix, "crawl-failed", now, payload);
  }

  // ---------------------------------------------------------------------
  // Endpoints

  /** The `background_processing` part of a successful trigger response. */
  function BackgroundInfo(cfg: BackgroundConfig): (r: Object)
    ensures "enabled" in r && "message" in r
    ensures r["enabled"] == Bool(cfg.enabled)
    ensures cfg.enabled <==> "status" in r
    ensures cfg.enabled <==> "max_polling_time_minutes" in r
    ensures cfg.enabled ==> r["status"] == Str("started") && r["max_polling_time_minutes"] == Int(MaxPollingMinutes(cfg))
  {
    if cfg.enabled then
      map["enabled" := Bool(true), "status" := Str("started"), "poll_interval_seconds" := Int(cfg.pollInterval),
          "max_polling_time_minutes" := Int(MaxPollingMinutes(cfg)),
          "message" := Str("Background polling started - crawl will auto-download when ready")]
    else
      map["enabled" := Bool(false), "message" := Str("Background polling disabled - use /download endpoint manually")]
  }

  /** The status endpoint's reply. */
  datatype Reply = Reply(code: int, body: Object)

  /** `status` and `ready_for_download` from the provider's answer. */
  function ProviderStatus(ready: bool, error: Option<string>): (r: (string, bool))
    ensures r.1 <==> r.0 == "ready"
    ensures r.0 == "error" <==> error.Some? && error.value != ""
    ensures r.0 in {"error", "ready", "processing"}
  {
    if error.Some? && error.value != "" then ("error", false)
    else if ready then ("ready", true)
    else ("processing", false)
  }

  /** The background status the status endpoint reports. */
  function BackgroundStatus(isActive: bool, status: string): (r: string)
    ensures isActive <==> r == "polling"
    ensures r == "completed" <==> !isActive && status == "ready"
  {
    if isActive then "polling" else if status == "ready" then "completed" else "not_started"
  }

  /** `crawl_params.get(key)` as the status endpoint reads it: missing
      parameters read as `{}`; parameters that are not a dict raise. */
  function ParamField(metadata: Object, key: string): (r: Result<Value, string>)
    ensures r.Err? <==> "crawl_params" in metadata && !metadata["crawl_params"].Dict?
    ensures r.Ok? && "crawl_params" in metadata ==> r.value == GetOpt(metadata["crawl_params"].fields, key)
    ensures r.Ok? && "crawl_params" !in metadata ==> r.value == Null
  {
    var params := Get(metadata, "crawl_params", Dict(map[]));
    if params.Dict? then Ok(GetOpt(params.fields, key)) else Err(NoGetText(params))
  }

  /** `get_crawl_status`: 404 without metadata, 500 when reading the
      metadata raises, otherwise the provider's status, the metadata summary
      and the background state. `poll` is asked only when the metadata has a
      snapshot id. */
  function CrawlStatus(cfg: BackgroundConfig, crawlId: string, metadata: Option<Object>, poll: (bool, Option<string>),
                       isActive: bool, now: string): (r: Reply)
    ensures metadata.None? || metadata.value == map[] ==>
      r == Reply(404, map["error" := Str("Crawl not found"), "crawl_id" := Str(crawlId)])
    ensures r.code == 200 ==> (
      && metadata.Some? && "snapshot_id" in metadata.value
      && {"crawl_id", "snapshot_id", "status", "ready_for_download", "timestamp", "metadata", "background_processing"} <= r.body.Keys
      && r.body["snapshot_id"] == metadata.value["snapshot_id"]
      && r.body["status"] == Str(ProviderStatus(poll.0, poll.1).0)
      && r.body["ready_for_download"] == Bool(ProviderStatus(poll.0, poll.1).1)
      && ("error_message" in r.body <==> poll.1.Some? && poll.1.value != "")
      && r.body["background_processing"].Dict? && "status" in r.body["background_processing"].fields
      && r.body["background_processing"].fields["status"] == Str(BackgroundStatus(isActive, ProviderStatus(poll.0, poll.1).0)))
    ensures r.code in {200, 404, 500}
    ensures r.code == 500 ==> "error" in r.body && r.body["error"].Str? && StartsWith(r.body["error"].s, "Error checking crawl status: ")
  {
    if metadata.None? || metadata.value == map[] then
      Reply(404, map["error" := Str("Crawl not found"), "crawl_id" := Str(crawlId)])
    else
      var m := metadata.value;
      if "snapshot_id" !in m then StatusError(crawlId, KeyErrorText("snapshot_id"))
      else
        var platform := ParamField(m, "platform");
        if platform.Err? then StatusError(crawlId, platform.error)
        else
          var (status, readyForDownload) := ProviderStatus(poll.0, poll.1);
          Reply(200, StatusFields(crawlId, m["snapshot_id"], status, readyForDownload, poll.1, now)[
            "metadata" := Dict(map[
              "platform" := platform.value, "competitor" := ParamField(m, "competitor").value,
              "created_at" := GetOpt(m, "created_at")])][
            "background_processing" := BackgroundState(cfg, isActive, status)])
  }

  /** The provider's part of the status reply; `error_message` is added
      only for a non-empty error. */
  function StatusFields(crawlId: string, snapshotId: Value, status: string, readyForDownload: bool,
                        errorMessage: Option<string>, now: string): (r: Object)
    ensures {"crawl_id", "snapshot_id", "status", "ready_for_download", "timestamp"} <= r.Keys
    ensures r["snapshot_id"] == snapshotId && r["status"] == Str(status) && r["ready_for_download"] == Bool(readyForDownload)
    ensures "error_message" in r <==> errorMessage.Some? && errorMessage.value != ""
  {
    var base := map[
      "crawl_id" := Str(crawlId), "snapshot_id" := snapshotId, "status" := Str(status),
      "ready_for_download" := Bool(readyForDownload), "timestamp" := Str(now)];
    if errorMessage.Some? && errorMessage.value != "" then base["error_message" := Str(errorMessage.value)] else base
  }

  /** The `background_processing` entry of the status reply. */
  function BackgroundState(cfg: BackgroundConfig, isActive: bool, status: string): (r: Value)
    ensures r.Dict? && "status" in r.fields && r.fields["status"] == Str(BackgroundStatus(isActive, status))
  {
    Dict(map[
      "enabled" := Bool(cfg.enabled), "active" := Bool(isActive),
      "status" := Str(BackgroundStatus(isActive, status)),
      "poll_interval_seconds" := Int(cfg.pollInterval),
      "max_polling_time_minutes" := Int(MaxPollingMinutes(cfg))])
  }

  function StatusError(crawlId: string, detail: string): (r: Reply)
    ensures r.code == 500 && "error" in r.body && r.body["error"].Str? && StartsWith(r.body["error"].s, "Error checking crawl status: ")
  {
    var text := "Error checking crawl status: " + detail;
    assert text[..|"Error checking crawl status: "|] == "Error checking crawl status: ";
    Reply(500, map["error" := Str(text), "crawl_id" := Str(crawlId)])
  }

  // ---------------------------------------------------------------------
  // The service

  class Service {
    const config: BackgroundConfig
    const handler: CrawlHandler
    /** The service's own publisher, distinct from the handler's. */
    const publisher: EventPublisher
    /** `active_background_tasks`. */
    var active: set<string>

    constructor(config: BackgroundConfig, handler: CrawlHandler, publisher: EventPublisher)
      ensures this.config == config && this.handler == handler && this.publisher == publisher && active == {}
    {
      this.config := config;
      this.handler := handler;
      this.publisher := publisher;
      active := {};
    }

    /** Publishes one background event. */
    method Report(crawlId: string, e: Event, now: string, delivered: bool)
      modifies publisher
      ensures publisher.sent == old(publisher.sent) + Messages(publisher.topicPrefix, crawlId, [e], now, delivered)
    {
      match e
      case Failure(message, stage) =>
        var _ := publisher.PublishCrawlFailed(crawlId, message, Some(stage), now, delivered);
      case Completion(id, snapshotId, gcsPath, postCount, mediaCount) =>
        var _ := publisher.PublishDataIngestionCompleted(id, snapshotId, gcsPath, postCount, mediaCount, None, now, delivered);
    }

    /** One pass of the loop's body up to the sleep: what poll number `n`
        publishes before leaving the loop, if anything. */
    method Poll(obs: Observation, download: DownloadResult, n: int) returns (report: Option<Event>)
      ensures report == Attempt(config, obs, download, n)
    {
      report := None;
      match obs {
        case MetadataMissing =>
          report := Some(Failure("Crawl metadata not found", "metadata_lookup"));
        case Status(ready, error) =>
          if error.Some? && error.value != "" {
            if n >= config.maxPolls - 5 {
              report := Some(Failure("BrightData polling error: " + error.value, "brightdata_error"));
            }
          } else if ready {
            report := Some(DownloadEvent(download));
          }
        case PollRaised(message) =>
          if n >= config.maxPolls - 3 {
            report := Some(Failure("Polling error: " + message, "polling_exception"));
          }
      }
    }

    /** The check after the loop: the timeout is published when it is due. */
    method ReportTimeoutIfDue(crawlId: string, run: PollRun, now: string, delivered: bool)
      modifies publisher
      ensures publisher.sent == old(publisher.sent) + Messages(publisher.topicPrefix, crawlId, TimeoutAsWritten(config, run), now, delivered)
    {
      if run.exit != Crashed && run.polls >= config.maxPolls {
        Report(crawlId, TimeoutEvent(config), now, delivered);
      } else {
        assert Messages(publisher.topicPrefix, crawlId, [], now, delivered) == [];
      }
    }

    /** One pass of the loop body after `polls` polls and `sleeps` sleeps:
        poll, publish the report if there is one, and sleep unless this was
        the last poll. `stop` says the background run leaves the loop with `run`. */
    method PollStep(crawlId: string, observe: nat -> Observation, download: DownloadResult,
                    polls: nat, sleeps: nat, now: string, delivered: bool)
      returns (stop: bool, run: PollRun, sleeps': nat)
      requires polls < config.maxPolls
      modifies publisher
      ensures stop ==> run == PollFrom(config, observe, download, polls, sleeps) && run.exit != Exhausted
      ensures stop ==> publisher.sent == old(publisher.sent) + Messages(publisher.topicPrefix, crawlId, run.events, now, delivered)
      ensures !stop ==> PollFrom(config, observe, download, polls + 1, sleeps') == PollFrom(config, observe, download, polls, sleeps)
      ensures !stop ==> publisher.sent == old(publisher.sent)
    {
      var n := polls + 1;
      var report := Poll(observe(n), download, n);
      stop, run, sleeps' := false, PollRun(0, [], 0, Exhausted), sleeps;
      if report.Some? {
        Report(crawlId, report.value, now, delivered);
        stop, run := true, PollRun(n, [report.value], sleeps, Broke);
      } else if n < config.maxPolls {
        if config.pollInterval < 0 {
          Report(crawlId, SleepFailure, now, delivered);
          stop, run := true, PollRun(n, [SleepFailure], sleeps, Crashed);
        } else {
          sleeps' := sleeps + 1;
        }
      }
    }

    /** The polling loop of `background_poll_and_download`: each poll's
        report is published as it is made, and a report or an exception
        ends the loop. */
    method PollLoop(crawlId: string, observe: nat -> Observation, download: DownloadResult,
                    now: string, delivered: bool)
      returns (run: PollRun)
      modifies publisher
      ensures run == PollFrom(config, observe, download, 0, 0)
      ensures publisher.sent == old(publisher.sent) + Messages(publisher.topicPrefix, crawlId, run.events, now, delivered)
    {
      var polls: nat := 0;
      var sleeps: nat := 0;
      var stopped := false;
      run := PollRun(0, [], 0, Exhausted);
      while polls < config.maxPolls && !stopped
        invariant !stopped ==> publisher.sent == old(publisher.sent)
        invariant !stopped ==> PollFrom(config, observe, download, 0, 0) == PollFrom(config, observe, download, polls, sleeps)
        invariant stopped ==> run == PollFrom(config, observe, download, 0, 0) && run.exit != Exhausted
        invariant stopped ==> publisher.sent == old(publisher.sent) + Messages(publisher.topicPrefix, crawlId, run.events, now, delivered)
        decreases config.maxPolls - polls
      {
        stopped, run, sleeps := PollStep(crawlId, observe, download, polls, sleeps, now, delivered);
        polls := polls + 1;
      }
      if !stopped {
        run := PollRun(polls, [], sleeps, Exhausted);
        assert run == PollFrom(config, observe, download, polls, sleeps);
      }
    }

    /** `background_poll_and_download`: after the loop, the timeout is
        reported whenever the poll count reached `max_polls`, also after a
        report that broke out at the last poll; an exception skips it. The
        crawl is in `active` while the loop runs and is discarded on every
        exit. */
    method BackgroundPollAndDownload(crawlId: string, observe: nat -> Observation, download: DownloadResult,
                                     now: string, delivered: bool)
      returns (run: PollRun)
      modifies this, publisher
      ensures run == PollFrom(config, observe, download, 0, 0)
      ensures publisher.sent == old(publisher.sent) + Messages(publisher.topicPrefix, crawlId, ReportedAsWritten(config, run), now, delivered)
      ensures active == old(active) - {crawlId}
    {
      active := active + {crawlId};
      ghost var before := publisher.sent;
      run := PollLoop(crawlId, observe, download, now, delivered);
      ghost var polled := Messages(publisher.topicPrefix, crawlId, run.events, now, delivered);
      ghost var timeout := Messages(publisher.topicPrefix, crawlId, TimeoutAsWritten(config, run), now, delivered);
      assert publisher.sent == before + polled;
      ReportTimeoutIfDue(crawlId, run, now, delivered);
      assert publisher.sent == before + polled + timeout;
      MessagesConcat(publisher.topicPrefix, crawlId, run.events, TimeoutAsWritten(config, run), now, delivered);
      active := active - {crawlId};
    }

    /** The trigger endpoint: a successful trigger publishes `crawl-triggered`
        and, when background polling is enabled, starts a background task
        (`started`); `info` is the `background_processing` part of the
        response. */
    method Trigger(crawlId: string, params: Value, reply: Http.Reply, now: string, inserted: bool, delivered: bool)
      returns (result: TriggerResult, started: bool, info: Option<Object>)
      modifies handler, publisher
      ensures result == TriggerOutcome(crawlId, params, BrightDataCrawl.TriggerCrawl(reply), now)
      ensures started <==> result.Triggered? && config.enabled
      ensures info == if result.Triggered? then Some(BackgroundInfo(config)) else None
      ensures publisher.sent == old(publisher.sent) +
        (if result.Triggered? && delivered
         then [Envelope(publisher.topicPrefix, "crawl-triggered", now, TriggeredPayload(crawlId, result.snapshotId, params.fields))]
         else [])
    {
      var request;
      result, request := handler.TriggerCrawl(crawlId, params, reply, now, inserted);
      started := false;
      info := None;
      if result.Triggered? {
        var _ := publisher.PublishCrawlTriggered(result.crawlId, result.snapshotId, params.fields, now, delivered);
        started := config.enabled;
        info := Some(BackgroundInfo(config));
      }
    }

    /** The download endpoint: the handler publishes a completion carrying
        the crawl metadata, and the endpoint then publishes a second one
        without it. */
    method Download(crawlId: string, w: WarehouseReply, pollError: Option<string>, download: Result<seq<Value>, string>,
                    upload: nat -> Option<string>, clock: nat -> Platforms.DateTime, now: string,
                    handlerDelivered: bool, delivered: bool)
      returns (r: DownloadResult)
      requires forall k :: Platforms.ValidDateTime(clock(k))
      requires handler.publisher != publisher
      modifies handler.publisher, publisher
      ensures r == DownloadOutcome(crawlId, LookupMetadata(handler.localStore, crawlId, w), pollError, download,
                                   handler.bucket, upload, clock, now)
      ensures publisher.sent == old(publisher.sent) +
        (if r.Downloaded? && delivered
         then [Envelope(publisher.topicPrefix, "data-ingestion-completed", now,
                        CompletedPayload(r.crawlId, r.snapshotId, r.gcsPath, r.postCount, r.mediaCount, None, now).value)]
         else [])
      ensures r.DownloadFailed? ==> handler.publisher.sent == old(handler.publisher.sent)
    {
      r := handler.DownloadData(crawlId, w, pollError, download, upload, clock, now, handlerDelivered);
      if r.Downloaded? {
        var _ := publisher.PublishDataIngestionCompleted(r.crawlId, r.snapshotId, r.gcsPath, r.postCount, r.mediaCount,
                                                         None, now, delivered);
      }
    }

    /** The status endpoint, read-only. */
    function GetCrawlStatus(crawlId: string, w: WarehouseReply, poll: (bool, Option<string>), now: string): (r: Reply)
      reads this, handler
      ensures r == CrawlStatus(config, crawlId, LookupMetadata(handler.localStore, crawlId, w), poll, crawlId in active, now)
    {
      CrawlStatus(config, crawlId, handler.GetCrawlMetadata(crawlId, w), poll, crawlId in active, now)
    }
  }
}
