/** The service's crawl handler (handlers/crawl_handler.py): trigger a crawl
    and record its metadata, find that metadata again, and download a ready
    snapshot into cloud storage. The warehouse, the storage bucket, the
    provider and the clock are inputs; the handler's own state is the local
    metadata store it falls back on. */
module Ingestion {
  import opened Wrappers
  import opened Json
  import opened Strings
  import Dates
  import Http
  import BrightDataCrawl
  import Facebook
  import opened Platforms
  import opened Events

  // ---------------------------------------------------------------------
  // Request parameters

  /** `_convert_date_format`: a falsy value becomes None, a parseable
      `YYYY-MM-DD` string is rewritten, and anything else (including a
      truthy non-string, on which `strptime` raises) comes back unchanged. */
  function ConvertDateFormat(v: Value): (r: Value)
    ensures !Truthy(v) ==> r == Null
    ensures Truthy(v) && v.Str? ==> r == Str(Dates.ConvertIsoToUs(v.s))
    ensures Truthy(v) && !v.Str? ==> r == v
  {
    if !Truthy(v) then Null
    else if v.Str? then Str(Dates.ConvertIsoToUs(v.s))
    else v
  }

  /** On a non-empty string the crawl handler and the Facebook profile
      convert dates alike; they part ways only on other values. */
  lemma ConvertAgreesWithFacebook(v: Value)
    requires v.Str? && v.s != ""
    ensures ConvertDateFormat(v) == Str(Facebook.ConvertDateFormat(v))
  {
  }

  /** Converting a converted date changes nothing. */
  lemma ConvertDateFormatIdempotent(v: Value)
    ensures ConvertDateFormat(ConvertDateFormat(v)) == ConvertDateFormat(v)
  {
    if Truthy(v) && v.Str? {
      Dates.ConvertIdempotent(v.s);
      assert |Dates.ConvertIsoToUs(v.s)| > 0 by {
        if Dates.ParseIso(v.s).Some? {
          assert |Dates.FormatUs(Dates.ParseIso(v.s).value)| >= 7;
        }
      }
    }
  }

  const TriggerKeys: set<string> := {"url", "num_of_posts", "start_date", "end_date", "include_profile_data"}

  /** The five provider parameters `trigger_crawl` sends, with their
      defaults. */
  function TriggerParams(params: Object): (r: Object)
    ensures r.Keys == TriggerKeys
    ensures r["url"] == GetOpt(params, "url")
    ensures r["num_of_posts"] == Get(params, "num_of_posts", Int(10))
    ensures r["start_date"] == ConvertDateFormat(GetOpt(params, "start_date"))
    ensures r["end_date"] == ConvertDateFormat(GetOpt(params, "end_date"))
    ensures r["include_profile_data"] == Get(params, "include_profile_data", Bool(true))
  {
    map[
      "url" := GetOpt(params, "url"),
      "num_of_posts" := Get(params, "num_of_posts", Int(10)),
      "start_date" := ConvertDateFormat(GetOpt(params, "start_date")),
      "end_date" := ConvertDateFormat(GetOpt(params, "end_date")),
      "include_profile_data" := Get(params, "include_profile_data", Bool(true))]
  }

  /** The dataset the crawl runs on. */
  function DatasetId(params: Object): Value {
    Get(params, "dataset_id", Str("gd_default"))
  }

  /** Whatever the caller sends, the provider sees the same five keys, and
      none of the business fields. */
  lemma TriggerParamsHideBusinessFields(params: Object)
    ensures TriggerParams(params).Keys * BusinessFields == {}
    ensures TriggerParams(params).Keys == TriggerParams(map[]).Keys
  {
    var k := TriggerParams(params).Keys;
    assert k == TriggerKeys;
    assert "platform" !in k && "competitor" !in k && "brand" !in k && "category" !in k;
  }

  // ---------------------------------------------------------------------
  // Metadata

  /** The row `_store_crawl_metadata` inserts into the warehouse; the
      business fields default to `unknown`. `serialised` is
      `json.dumps(crawl_params)`. */
  function WarehouseRow(crawlId: string, snapshotId: Value, params: Object, serialised: string, now: string): (r: Object)
    ensures r.Keys == BusinessFields + {"crawl_id", "snapshot_id", "crawl_params", "created_at", "status", "updated_at"}
    ensures forall f :: f in BusinessFields ==> r[f] == Get(params, f, Str("unknown"))
    ensures r["crawl_id"] == Str(crawlId) && r["snapshot_id"] == snapshotId && r["status"] == Str("triggered")
  {
    map[
      "crawl_id" := Str(crawlId), "snapshot_id" := snapshotId,
      "platform" := Get(params, "platform", Str("unknown")),
      "competitor" := Get(params, "competitor", Str("unknown")),
      "brand" := Get(params, "brand", Str("unknown")),
      "category" := Get(params, "category", Str("unknown")),
      "crawl_params" := Str(serialised), "created_at" := Str(now),
      "status" := Str("triggered"), "updated_at" := Str(now)]
  }

  /** The record kept in the local store when the warehouse insert fails. */
  function LocalMetadata(crawlId: string, snapshotId: Value, params: Object, now: string): (r: Object)
    ensures r.Keys == {"crawl_id", "snapshot_id", "crawl_params", "created_at", "status"}
    ensures r["snapshot_id"] == snapshotId && r["crawl_params"] == Dict(params) && r["status"] == Str("triggered")
  {
    map[
      "crawl_id" := Str(crawlId), "snapshot_id" := snapshotId, "crawl_params" := Dict(params),
      "created_at" := Str(now), "status" := Str("triggered")]
  }

  /** The `crawl_params` column as the lookup reads it: empty, decodable
      JSON, or text that `json.loads` rejects. */
  datatype ParamsCell = Blank | Decoded(value: Value) | Undecodable

  /** What the warehouse query produced. */
  datatype WarehouseReply =
    | Row(crawlId: Value, snapshotId: Value, crawlParams: ParamsCell, createdAt: Value, status: Value)
    | NoRow
    | QueryFailed

  /** A reply the lookup answers from: a row whose parameters decode. */
  predicate Answers(w: WarehouseReply) {
    w.Row? && !w.crawlParams.Undecodable?
  }

  /** The metadata built from a warehouse row; blank parameters become `{}`. */
  function RowMetadata(w: WarehouseReply): (r: Object)
    requires Answers(w)
    ensures r.Keys == {"crawl_id", "snapshot_id", "crawl_params", "created_at", "status"}
    ensures r["snapshot_id"] == w.snapshotId
  {
    map[
      "crawl_id" := w.crawlId, "snapshot_id" := w.snapshotId,
      "crawl_params" := if w.crawlParams.Blank? then Dict(map[]) else w.crawlParams.value,
      "created_at" := w.createdAt, "status" := w.status]
  }

  /** `_get_crawl_metadata` over a given local store: the warehouse first,
      then the local store, None only when neither has the crawl. */
  function LookupMetadata(store: map<string, Object>, crawlId: string, w: WarehouseReply): (r: Option<Object>)
    ensures r.None? <==> !Answers(w) && crawlId !in store
    ensures Answers(w) ==> r == Some(RowMetadata(w))
    ensures !Answers(w) && crawlId in store ==> r == Some(store[crawlId])
  {
    if Answers(w) then Some(RowMetadata(w))
    else if crawlId in store then Some(store[crawlId])
    else None
  }

  /** Metadata that fell back to the local store is found there as long as
      the warehouse has no usable row for the crawl. */
  lemma StoredMetadataIsFound(store: map<string, Object>, crawlId: string, m: Object, w: WarehouseReply)
    requires !Answers(w)
    ensures LookupMetadata(store[crawlId := m], crawlId, w) == Some(m)
  {
  }

  // ---------------------------------------------------------------------
  // Storage and statistics

  /** The folder of one month's raw snapshots, `raw_snapshots/YYYY/MM/`,
      the year unpadded. */
  function RawMonthFolder(t: DateTime): string
    requires ValidDateTime(t)
  {
    "raw_snapshots/" + NatToString(t.year) + "/" + Pad2(t.month) + "/"
  }

  /** The folder of one day's raw snapshots, `raw_snapshots/YYYY/MM/DD/`. */
  function RawDayFolder(t: DateTime): string
    requires ValidDateTime(t)
  {
    RawMonthFolder(t) + Pad2(t.day) + "/"
  }

  /** The file name of one snapshot, `snapshot_<id>.json`. */
  function SnapshotFile(snapshotId: Value): string {
    "snapshot_" + PyStr(snapshotId) + ".json"
  }

  /** The object path of one raw snapshot: its file in the folder of the
      day it was stored. */
  function RawSnapshotPath(snapshotId: Value, t: DateTime): (r: string)
    requires ValidDateTime(t)
    ensures StartsWith(r, "raw_snapshots/")
    ensures r == RawDayFolder(t) + SnapshotFile(snapshotId)
  {
    RawDayFolder(t) + SnapshotFile(snapshotId)
  }

  /** `(a + b + c) + d` regrouped as `a + b + (c + d)`. */
  lemma RegroupFour(a: string, b: string, c: string, d: string)
    ensures a + b + c + d == a + b + (c + d)
  {
  }

  /** `a + (b + c + d)` regrouped as `a + b + c + d`. */
  lemma RegroupTail(a: string, b: string, c: string, d: string)
    ensures a + (b + c + d) == a + b + c + d
  {
  }

  /** Within one day, different snapshot ids never share an object. */
  lemma RawPathSeparatesSnapshots(a: Value, b: Value, t: DateTime)
    requires ValidDateTime(t)
    requires RawSnapshotPath(a, t) == RawSnapshotPath(b, t)
    ensures PyStr(a) == PyStr(b)
  {
    var pre := RawDayFolder(t) + "snapshot_";
    RegroupTail(RawDayFolder(t), "snapshot_", PyStr(a), ".json");
    RegroupTail(RawDayFolder(t), "snapshot_", PyStr(b), ".json");
    MiddleCancels(pre, PyStr(a), PyStr(b), ".json");
  }

  /** Within one month, snapshots of different days never share an object. */
  lemma RawPathSeparatesDays(id: Value, t1: DateTime, t2: DateTime)
    requires ValidDateTime(t1) && ValidDateTime(t2)
    requires t1.year == t2.year && t1.month == t2.month
    requires RawSnapshotPath(id, t1) == RawSnapshotPath(id, t2)
    ensures t1.day == t2.day
  {
    var month := RawMonthFolder(t1);
    var post := "/" + SnapshotFile(id);
    assert RawMonthFolder(t2) == month;
    RegroupFour(month, Pad2(t1.day), "/", SnapshotFile(id));
    RegroupFour(month, Pad2(t2.day), "/", SnapshotFile(id));
    SameFrameSameMiddle(month, Pad2(t1.day), Pad2(t2.day), post);
    Pad2Value(t1.day);
    Pad2Value(t2.day);
  }

  /** The `gs://` address of an object in a bucket. */
  function GcsUri(bucket: string, path: string): (r: string)
    ensures StartsWith(r, "gs://") && r[5..] == bucket + "/" + path
  {
    var r := "gs://" + bucket + "/" + path;
    assert r[..5] == "gs://";
    r
  }

  const MaxUploadAttempts: nat := 3

  /** The upload from attempt `attempt` on: `upload(k)` is None when attempt
      `k` stores the object and the error text otherwise, `clock(k)` is the
      time attempt `k` reads. The third failure is raised. */
  function UploadFrom(bucket: string, snapshotId: Value, upload: nat -> Option<string>, clock: nat -> DateTime,
                      attempt: nat): (r: Result<string, string>)
    requires attempt < MaxUploadAttempts
    requires forall k :: ValidDateTime(clock(k))
    decreases MaxUploadAttempts - attempt
  {
    if upload(attempt).None? then Ok(GcsUri(bucket, RawSnapshotPath(snapshotId, clock(attempt))))
    else if attempt == MaxUploadAttempts - 1 then Err(upload(attempt).value)
    else UploadFrom(bucket, snapshotId, upload, clock, attempt + 1)
  }

  /** The upload succeeds exactly when some remaining attempt stores the
      object, and a failure carries the last attempt's error. */
  lemma {:induction false} UploadSucceedsIff(bucket: string, snapshotId: Value, upload: nat -> Option<string>,
                                             clock: nat -> DateTime, attempt: nat)
    requires attempt < MaxUploadAttempts
    requires forall k :: ValidDateTime(clock(k))
    ensures UploadFrom(bucket, snapshotId, upload, clock, attempt).Ok? <==>
      exists k :: attempt <= k < MaxUploadAttempts && upload(k).None?
    ensures UploadFrom(bucket, snapshotId, upload, clock, attempt).Err? ==>
      UploadFrom(bucket, snapshotId, upload, clock, attempt) == Err(upload(MaxUploadAttempts - 1).value)
    decreases MaxUploadAttempts - attempt
  {
    if upload(attempt).Some? && attempt < MaxUploadAttempts - 1 {
      UploadSucceedsIff(bucket, snapshotId, upload, clock, attempt + 1);
    }
  }

  /** The sleeps between attempts from `attempt` on: `2 * (k + 1)` seconds
      after failed attempt `k`, none after the last. */
  function SleepsFrom(upload: nat -> Option<string>, attempt: nat): (r: seq<nat>)
    requires attempt < MaxUploadAttempts
    decreases MaxUploadAttempts - attempt
  {
    if upload(attempt).None? || attempt == MaxUploadAttempts - 1 then []
    else [2 * (attempt + 1)] + SleepsFrom(upload, attempt + 1)
  }

  /** Each failed attempt but the last is followed by a sleep twice its
      number, and nothing else is slept. */
  lemma {:induction false} SleepsSpacing(upload: nat -> Option<string>, attempt: nat)
    requires attempt < MaxUploadAttempts
    ensures |SleepsFrom(upload, attempt)| <= MaxUploadAttempts - 1 - attempt
    ensures forall i :: 0 <= i < |SleepsFrom(upload, attempt)| ==> SleepsFrom(upload, attempt)[i] == 2 * (attempt + i + 1)
    decreases MaxUploadAttempts - attempt
  {
    if upload(attempt).Some? && attempt < MaxUploadAttempts - 1 {
      SleepsSpacing(upload, attempt + 1);
    }
  }

  lemma UploadRetry(bucket: string, snapshotId: Value, upload: nat -> Option<string>, clock: nat -> DateTime,
                    attempt: nat)
    requires attempt < MaxUploadAttempts - 1 && upload(attempt).Some?
    requires forall k :: ValidDateTime(clock(k))
    ensures UploadFrom(bucket, snapshotId, upload, clock, attempt) == UploadFrom(bucket, snapshotId, upload, clock, attempt + 1)
  {
  }

  lemma SleepsStop(upload: nat -> Option<string>, attempt: nat, sleeps: seq<nat>)
    requires attempt < MaxUploadAttempts
    requires upload(attempt).None? || attempt == MaxUploadAttempts - 1
    ensures sleeps + SleepsFrom(upload, attempt) == sleeps
  {
  }

  lemma SleepsRetry(upload: nat -> Option<string>, attempt: nat, sleeps: seq<nat>)
    requires attempt < MaxUploadAttempts - 1 && upload(attempt).Some?
    ensures sleeps + SleepsFrom(upload, attempt) == (sleeps + [2 * (attempt + 1)]) + SleepsFrom(upload, attempt + 1)
  {
  }

  /** The total back-off is bounded: at most 2 + 4 seconds. */
  lemma SleepsBounded(upload: nat -> Option<string>)
    ensures |SleepsFrom(upload, 0)| <= 2
    ensures SleepsFrom(upload, 0) == [2, 4][..|SleepsFrom(upload, 0)|]
  {
    var s := SleepsFrom(upload, 0);
    if |s| == 1 {
      assert s == [2];
    } else if |s| == 2 {
      assert s == [2, 4];
    }
  }

  /** `sum(len(item['attachments']) ...)` over the dict items whose
      attachments are a list, counted from the end. */
  function MediaCount(items: seq<Value>): (r: nat)
  {
    if items == [] then 0 else MediaCount(items[..|items| - 1]) + AttachmentCount(items[|items| - 1])
  }

  /** One item's contribution to the media count. */
  function AttachmentCount(item: Value): nat {
    if item.Dict? && "attachments" in item.fields && item.fields["attachments"].List?
    then |item.fields["attachments"].items| else 0
  }

  /** The total of the Facebook profile's per-post media counts. */
  function ProfileMediaTotal(items: seq<Value>): int {
    if items == [] then 0 else ProfileMediaTotal(items[..|items| - 1]) + Facebook.ExtractMediaInfo(items[|items| - 1]).mediaCount
  }

  /** The handler's media count agrees with the Facebook profile's count
      post by post, although the two are written differently. */
  lemma {:induction false} MediaCountMatchesProfile(items: seq<Value>)
    ensures MediaCount(items) == ProfileMediaTotal(items)
  {
    if items != [] {
      MediaCountMatchesProfile(items[..|items| - 1]);
      var item := items[|items| - 1];
      if item.Dict? && "attachments" in item.fields {
        assert Get(item.fields, "attachments", List([])) == item.fields["attachments"];
      }
    }
  }

  const RawDataLimit: nat := 1000000

  /** The warehouse snapshot row's `raw_data` column: the serialised data,
      or `{}` once it reaches a million characters. */
  function RawDataColumn(serialised: string): (r: string)
    ensures |r| < RawDataLimit
    ensures |serialised| < RawDataLimit ==> r == serialised
  {
    if |serialised| < RawDataLimit then serialised else "{}"
  }

  // ---------------------------------------------------------------------
  // Results

  datatype TriggerResult =
    | Triggered(crawlId: string, snapshotId: Value, timestamp: string)
    | TriggerFailed(message: string, crawlId: string)

  /** `trigger_crawl`'s response, given the provider's (snapshot_id, error)
      pair: an error yields `error` with the crawl id and no snapshot. */
  function TriggerOutcome(crawlId: string, params: Value, provider: (Option<Value>, Option<string>), now: string): (r: TriggerResult)
    ensures r.crawlId == crawlId
    ensures !params.Dict? ==> r == TriggerFailed("Error triggering crawl: " + NoGetText(params), crawlId)
    ensures params.Dict? && provider.1.Some? && provider.1.value != "" ==>
      r == TriggerFailed("Failed to trigger crawl: " + provider.1.value, crawlId)
    ensures r.Triggered? <==> params.Dict? && !(provider.1.Some? && provider.1.value != "")
    ensures r.Triggered? ==> r.snapshotId == provider.0.GetOr(Null)
  {
    if !params.Dict? then TriggerFailed("Error triggering crawl: " + NoGetText(params), crawlId)
    else if provider.1.Some? && provider.1.value != "" then TriggerFailed("Failed to trigger crawl: " + provider.1.value, crawlId)
    else Triggered(crawlId, provider.0.GetOr(Null), now)
  }

  datatype DownloadResult =
    | Downloaded(crawlId: string, snapshotId: Value, gcsPath: string, postCount: nat, mediaCount: nat, timestamp: string)
    | DownloadFailed(message: string, failedId: Option<string>)

  /** `download_data`'s response. The checks come in order: metadata, then
      readiness (`pollError` is None when the crawl is ready), then the
      download, then the upload; only a raised upload error names the crawl. */
  function DownloadOutcome(crawlId: string, metadata: Option<Object>, pollError: Option<string>,
                           download: Result<seq<Value>, string>, bucket: string,
                           upload: nat -> Option<string>, clock: nat -> DateTime, now: string): (r: DownloadResult)
    requires forall k :: ValidDateTime(clock(k))
    ensures metadata.None? || metadata.value == map[] ==> r == DownloadFailed("Crawl metadata not found for " + crawlId, None)
    ensures r.Downloaded? ==>
      && metadata.Some? && "snapshot_id" in metadata.value && pollError.None? && download.Ok?
      && r.crawlId == crawlId && r.snapshotId == metadata.value["snapshot_id"]
      && Ok(r.gcsPath) == UploadFrom(bucket, r.snapshotId, upload, clock, 0)
      && r.postCount == |download.value| && r.mediaCount == MediaCount(download.value)
    ensures r.DownloadFailed? && r.failedId.Some? ==> r.failedId == Some(crawlId)
  {
    if metadata.None? || metadata.value == map[] then DownloadFailed("Crawl metadata not found for " + crawlId, None)
    else if "snapshot_id" !in metadata.value then DownloadFailed("Error downloading data: " + KeyErrorText("snapshot_id"), Some(crawlId))
    else
      var snapshotId := metadata.value["snapshot_id"];
      if pollError.Some? then DownloadFailed("Crawl not ready for download: " + pollError.value, None)
      else if download.Err? then DownloadFailed("Failed to download data: " + download.error, None)
      else match UploadFrom(bucket, snapshotId, upload, clock, 0)
        case Err(e) => DownloadFailed("Error downloading data: " + e, Some(crawlId))
        case Ok(path) => Downloaded(crawlId, snapshotId, path, |download.value|, MediaCount(download.value), now)
  }

  /** Nothing is stored unless the metadata exists, the crawl is ready and
      the download succeeded. */
  lemma UploadOnlyAfterChecks(crawlId: string, metadata: Option<Object>, pollError: Option<string>,
                              download: Result<seq<Value>, string>, bucket: string,
                              upload: nat -> Option<string>, clock: nat -> DateTime, now: string)
    requires forall k :: ValidDateTime(clock(k))
    requires metadata.None? || pollError.Some? || download.Err?
    ensures DownloadOutcome(crawlId, metadata, pollError, download, bucket, upload, clock, now).DownloadFailed?
    ensures DownloadOutcome(crawlId, metadata, pollError, download, bucket, upload, clock, now).failedId.None?
      || (metadata.Some? && "snapshot_id" !in metadata.value)
  {
  }

  // ---------------------------------------------------------------------
  // The handler

  class CrawlHandler {
    const bucket: string
    const publisher: EventPublisher
    /** `local_metadata_store`: crawl id to metadata. */
    var localStore: map<string, Object>

    constructor(bucket: string, publisher: EventPublisher)
      ensures this.bucket == bucket && this.publisher == publisher && localStore == map[]
    {
      this.bucket := bucket;
      this.publisher := publisher;
      localStore := map[];
    }

    /** `_store_crawl_metadata`: `inserted` is whether the warehouse insert
        went through; on any failure the record goes to the local store. */
    method StoreCrawlMetadata(crawlId: string, snapshotId: Value, params: Object, now: string, inserted: bool)
      modifies this
      ensures localStore == if inserted then old(localStore)
                            else old(localStore)[crawlId := LocalMetadata(crawlId, snapshotId, params, now)]
    {
      if !inserted {
        localStore := localStore[crawlId := LocalMetadata(crawlId, snapshotId, params, now)];
      }
    }

    /** `_get_crawl_metadata`. */
    function GetCrawlMetadata(crawlId: string, w: WarehouseReply): (r: Option<Object>)
      reads this
      ensures r == LookupMetadata(localStore, crawlId, w)
    {
      if Answers(w) then Some(RowMetadata(w))
      else if crawlId in localStore then Some(localStore[crawlId])
      else None
    }

    /** `trigger_crawl`: `crawlId` is the fresh uuid, `reply` the provider's
        answer to the trigger POST (sent only for dict parameters, and
        returned as `request`). A failure to store the metadata never turns
        a triggered crawl into an error. */
    method TriggerCrawl(crawlId: string, params: Value, reply: Http.Reply, now: string, inserted: bool)
      returns (r: TriggerResult, request: Option<BrightDataCrawl.TriggerPost>)
      modifies this
      ensures r == TriggerOutcome(crawlId, params, BrightDataCrawl.TriggerCrawl(reply), now)
      ensures params.Dict? <==> request.Some?
      ensures params.Dict? ==>
        request.value == BrightDataCrawl.TriggerRequest(PyStr(DatasetId(params.fields)), TriggerParams(params.fields))
      ensures localStore == if r.Triggered? && !inserted
                            then old(localStore)[crawlId := LocalMetadata(crawlId, r.snapshotId, params.fields, now)]
                            else old(localStore)
    {
      if !params.Dict? {
        return TriggerFailed("Error triggering crawl: " + NoGetText(params), crawlId), None;
      }
      var datasetId := DatasetId(params.fields);
      var providerParams := TriggerParams(params.fields);
      request := Some(BrightDataCrawl.TriggerRequest(PyStr(datasetId), providerParams));
      var (snapshotId, error) := BrightDataCrawl.TriggerCrawl(reply);
      if error.Some? && error.value != "" {
        return TriggerFailed("Failed to trigger crawl: " + error.value, crawlId), request;
      }
      StoreCrawlMetadata(crawlId, snapshotId.GetOr(Null), params.fields, now, inserted);
      r := Triggered(crawlId, snapshotId.GetOr(Null), now);
    }

    /** `_store_raw_data_gcs`: up to three attempts, with the back-off it
        sleeps reported as `sleeps`. */
    method StoreRawDataGcs(snapshotId: Value, upload: nat -> Option<string>, clock: nat -> DateTime)
      returns (r: Result<string, string>, sleeps: seq<nat>)
      requires forall k :: ValidDateTime(clock(k))
      ensures r == UploadFrom(bucket, snapshotId, upload, clock, 0)
      ensures sleeps == SleepsFrom(upload, 0)
    {
      sleeps := [];
      var attempt: nat := 0;
      while true
        invariant attempt < MaxUploadAttempts
        invariant UploadFrom(bucket, snapshotId, upload, clock, attempt) == UploadFrom(bucket, snapshotId, upload, clock, 0)
        invariant sleeps + SleepsFrom(upload, attempt) == SleepsFrom(upload, 0)
        decreases MaxUploadAttempts - attempt
      {
        var outcome := upload(attempt);
        if outcome.None? {
          SleepsStop(upload, attempt, sleeps);
          return Ok(GcsUri(bucket, RawSnapshotPath(snapshotId, clock(attempt)))), sleeps;
        }
        if attempt < MaxUploadAttempts - 1 {
          var pause: nat := 2 * (attempt + 1);
          SleepsRetry(upload, attempt, sleeps);
          UploadRetry(bucket, snapshotId, upload, clock, attempt);
          sleeps := sleeps + [pause];
          attempt := attempt + 1;
        } else {
          SleepsStop(upload, attempt, sleeps);
          return Err(outcome.value), sleeps;
        }
      }
    }

    /** `_count_media_files`. */
    method CountMediaFiles(items: seq<Value>) returns (count: nat)
      ensures count == MediaCount(items)
    {
      count := 0;
      for i := 0 to |items|
        invariant count == MediaCount(items[..i])
      {
        assert items[..i + 1][..i] == items[..i];
        var item := items[i];
        if item.Dict? && "attachments" in item.fields {
          var attachments := item.fields["attachments"];
          if attachments.List? {
            count := count + |attachments.items|;
          }
        }
      }
      assert items[..|items|] == items;
    }

    /** `download_data`. On success the handler publishes a completion
        event carrying the metadata; a failure to publish is ignored. */
    method DownloadData(crawlId: string, w: WarehouseReply, pollError: Option<string>,
                        download: Result<seq<Value>, string>, upload: nat -> Option<string>,
                        clock: nat -> DateTime, now: string, delivered: bool)
      returns (r: DownloadResult)
      requires forall k :: ValidDateTime(clock(k))
      modifies publisher
      ensures r == DownloadOutcome(crawlId, LookupMetadata(localStore, crawlId, w), pollError, download,
                                   bucket, upload, clock, now)
      ensures r.DownloadFailed? ==> publisher.sent == old(publisher.sent)
      ensures r.Downloaded? ==>
        var payload := CompletedPayload(crawlId, r.snapshotId, r.gcsPath, r.postCount, r.mediaCount,
                                        LookupMetadata(localStore, crawlId, w), now);
        publisher.sent == old(publisher.sent) +
          (if payload.Ok? && delivered then [Envelope(publisher.topicPrefix, "data-ingestion-completed", now, payload.value)] else [])
    {
      var metadata := GetCrawlMetadata(crawlId, w);
      if metadata.None? || metadata.value == map[] {
        return DownloadFailed("Crawl metadata not found for " + crawlId, None);
      }
      if "snapshot_id" !in metadata.value {
        return DownloadFailed("Error downloading data: " + KeyErrorText("snapshot_id"), Some(crawlId));
      }
      var snapshotId := metadata.value["snapshot_id"];
      if pollError.Some? {
        return DownloadFailed("Crawl not ready for download: " + pollError.value, None);
      }
      if download.Err? {
        return DownloadFailed("Failed to download data: " + download.error, None);
      }
      var data := download.value;
      var stored, _ := StoreRawDataGcs(snapshotId, upload, clock);
      if stored.Err? {
        return DownloadFailed("Error downloading data: " + stored.error, Some(crawlId));
      }
      var gcsPath := stored.value;
      var postCount := |data|;
      var mediaCount := CountMediaFiles(data);
      var _ := publisher.PublishDataIngestionCompleted(crawlId, snapshotId, gcsPath, postCount, mediaCount,
                                                       metadata, now, delivered);
      r := Downloaded(crawlId, snapshotId, gcsPath, postCount, mediaCount, now);
    }
  }
}
