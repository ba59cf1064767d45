/** The events the service publishes for other services
    (events/event_publisher.py): the topic naming, the message envelope and
    the payloads of the three crawl events. The Pub/Sub topic is modelled as
    the sequence of messages it has received. */
module Events {
  import opened Wrappers
  import opened Json
  import opened Strings

  /** A message handed to Pub/Sub: the topic and the JSON envelope. */
  datatype Message = Message(topic: string, body: Object)

  const Source := "data-ingestion-service"

  /** The topic and envelope `publish` builds for one event. */
  function Envelope(topicPrefix: string, eventType: string, timestamp: string, data: Object): (m: Message)
    ensures StartsWith(m.topic, topicPrefix + "-") && m.topic[|topicPrefix| + 1..] == eventType
    ensures m.body.Keys == {"event_type", "timestamp", "source", "data"}
    ensures m.body["source"] == Str(Source) && m.body["data"] == Dict(data)
  {
    var topic := topicPrefix + "-" + eventType;
    assert topic[..|topicPrefix| + 1] == topicPrefix + "-";
    Message(topic, map[
      "event_type" := Str(eventType), "timestamp" := Str(timestamp),
      "source" := Str(Source), "data" := Dict(data)])
  }

  /** What a subscriber reads back from an envelope: the event type and
      the payload. */
  function ReadEnvelope(body: Object): (r: Option<(string, Object)>)
    ensures r.Some? <==> "event_type" in body && body["event_type"].Str? && "data" in body && body["data"].Dict?
    ensures r.Some? ==> body["event_type"] == Str(r.value.0) && body["data"] == Dict(r.value.1)
  {
    if "event_type" in body && body["event_type"].Str? && "data" in body && body["data"].Dict? then
      Some((body["event_type"].s, body["data"].fields))
    else None
  }

  /** A subscriber recovers exactly the event type and payload that were
      published. */
  lemma EnvelopeRoundTrip(topicPrefix: string, eventType: string, timestamp: string, data: Object)
    ensures ReadEnvelope(Envelope(topicPrefix, eventType, timestamp, data).body) == Some((eventType, data))
  {
  }

  /** Under one prefix, different event types go to different topics. */
  lemma TopicsSeparateEventTypes(topicPrefix: string, a: string, b: string, t1: string, t2: string, d1: Object, d2: Object)
    requires Envelope(topicPrefix, a, t1, d1).topic == Envelope(topicPrefix, b, t2, d2).topic
    ensures a == b
  {
    var n := |topicPrefix| + 1;
    assert a == Envelope(topicPrefix, a, t1, d1).topic[n..];
    assert b == Envelope(topicPrefix, b, t2, d2).topic[n..];
  }

  // ---------------------------------------------------------------------
  // Payloads

  const BusinessFields: set<string> := {"platform", "competitor", "brand", "category"}

  /** `publish_crawl_triggered`'s payload: the business fields are read
      from the crawl parameters, None where absent. */
  function TriggeredPayload(crawlId: string, snapshotId: Value, params: Object): (r: Object)
    ensures r.Keys == {"crawl_id", "snapshot_id", "status"} + BusinessFields
    ensures r["crawl_id"] == Str(crawlId) && r["snapshot_id"] == snapshotId && r["status"] == Str("triggered")
    ensures forall f :: f in BusinessFields ==> r[f] == GetOpt(params, f)
  {
    map[
      "crawl_id" := Str(crawlId), "snapshot_id" := snapshotId,
      "platform" := GetOpt(params, "platform"), "competitor" := GetOpt(params, "competitor"),
      "brand" := GetOpt(params, "brand"), "category" := GetOpt(params, "category"),
      "status" := Str("triggered")]
  }

  /** Whether the completed payload reads the crawl parameters: the
      metadata must be given and hold `crawl_params`. */
  predicate HasCrawlParams(crawlMetadata: Option<Object>) {
    crawlMetadata.Some? && "crawl_params" in crawlMetadata.value
  }

  /** The dict the completed event carries: the identifiers, the four
      business fields and the nested crawl metadata. The source builds it
      with None in the business fields and then overwrites them with
      `update`; this is the dict that results. */
  function CompletedFields(crawlId: string, snapshotId: Value, gcsPath: string, business: Object,
                           datasetId: Value, postCount: int, crawlDate: Value): (r: Object)
    requires business.Keys == BusinessFields
    ensures r.Keys == {"crawl_id", "snapshot_id", "gcs_path", "crawl_metadata"} + BusinessFields
    ensures r["crawl_id"] == Str(crawlId) && r["snapshot_id"] == snapshotId && r["gcs_path"] == Str(gcsPath)
    ensures forall f :: f in BusinessFields ==> r[f] == business[f]
    ensures r["crawl_metadata"].Dict? && r["crawl_metadata"].fields.Keys == {"dataset_id", "num_posts", "crawl_date"}
    ensures r["crawl_metadata"].fields["dataset_id"] == datasetId
    ensures r["crawl_metadata"].fields["num_posts"] == Int(postCount)
    ensures r["crawl_metadata"].fields["crawl_date"] == crawlDate
  {
    business + map[
      "crawl_id" := Str(crawlId), "snapshot_id" := snapshotId, "gcs_path" := Str(gcsPath),
      "crawl_metadata" := Dict(map["dataset_id" := datasetId, "num_posts" := Int(postCount), "crawl_date" := crawlDate])]
  }

  /** `publish_data_ingestion_completed`'s payload. `media_count` is
      accepted but never used. When the metadata carries crawl parameters
      that are not a dict, `params.get` raises AttributeError. */
  function CompletedPayload(crawlId: string, snapshotId: Value, gcsPath: string, postCount: int, mediaCount: int,
                            crawlMetadata: Option<Object>, now: string): (r: Result<Object, string>)
    ensures r.Err? <==> HasCrawlParams(crawlMetadata) && !crawlMetadata.value["crawl_params"].Dict?
    ensures r.Err? ==> r.error == NoGetText(crawlMetadata.value["crawl_params"])
    ensures r.Ok? ==> r.value.Keys == {"crawl_id", "snapshot_id", "gcs_path", "crawl_metadata"} + BusinessFields
    ensures r.Ok? ==> r.value["crawl_id"] == Str(crawlId) && r.value["snapshot_id"] == snapshotId && r.value["gcs_path"] == Str(gcsPath)
    ensures r.Ok? ==> (r.value["crawl_metadata"].Dict?
      && r.value["crawl_metadata"].fields.Keys == {"dataset_id", "num_posts", "crawl_date"}
      && r.value["crawl_metadata"].fields["num_posts"] == Int(postCount))
    ensures r.Ok? && !HasCrawlParams(crawlMetadata) ==>
      (forall f :: f in BusinessFields ==> r.value[f] == Null)
      && r.value["crawl_metadata"].fields["dataset_id"] == Null
      && r.value["crawl_metadata"].fields["crawl_date"] == Str(now)
    ensures r.Ok? && HasCrawlParams(crawlMetadata) ==>
      var params := crawlMetadata.value["crawl_params"].fields;
      (forall f :: f in BusinessFields ==> r.value[f] == GetOpt(params, f))
      && r.value["crawl_metadata"].fields["dataset_id"] == GetOpt(params, "dataset_id")
      && r.value["crawl_metadata"].fields["crawl_date"] == Get(crawlMetadata.value, "crawl_date", Str(now))
  {
    if !HasCrawlParams(crawlMetadata) then
      Ok(CompletedFields(crawlId, snapshotId, gcsPath, map f | f in BusinessFields :: Null, Null, postCount, Str(now)))
    else
      var m := crawlMetadata.value;
      var params := m["crawl_params"];
      if !params.Dict? then Err(NoGetText(params))
      else
        var p := params.fields;
        Ok(CompletedFields(crawlId, snapshotId, gcsPath, map f | f in BusinessFields :: GetOpt(p, f),
                           GetOpt(p, "dataset_id"), postCount, Get(m, "crawl_date", Str(now))))
  }

  /** The media count never reaches the completed payload. */
  lemma CompletedIgnoresMediaCount(crawlId: string, snapshotId: Value, gcsPath: string, postCount: int,
                                   m1: int, m2: int, crawlMetadata: Option<Object>, now: string)
    ensures CompletedPayload(crawlId, snapshotId, gcsPath, postCount, m1, crawlMetadata, now)
         == CompletedPayload(crawlId, snapshotId, gcsPath, postCount, m2, crawlMetadata, now)
  {
  }

  /** `publish_crawl_failed`'s payload: `stage` appears only when it is a
      non-empty string. */
  function FailedPayload(crawlId: string, errorMessage: string, stage: Option<string>): (r: Object)
    ensures "stage" in r <==> stage.Some? && stage.value != ""
    ensures "stage" in r ==> r["stage"] == Str(stage.value)
    ensures r.Keys - {"stage"} == {"crawl_id", "error_message", "status"}
    ensures r["crawl_id"] == Str(crawlId) && r["error_message"] == Str(errorMessage) && r["status"] == Str("failed")
  {
    var r := map["crawl_id" := Str(crawlId), "error_message" := Str(errorMessage), "status" := Str("failed")];
    if stage.Some? && stage.value != "" then r["stage" := Str(stage.value)] else r
  }

  // ---------------------------------------------------------------------
  // The publisher

  class EventPublisher {
    const projectId: string
    const topicPrefix: string
    /** The messages Pub/Sub has accepted from this publisher. */
    var sent: seq<Message>

    /** The project and the topic prefix come from the environment, with
        fixed defaults. */
    constructor(env: map<string, string>)
      ensures projectId == (if "GOOGLE_CLOUD_PROJECT" in env then env["GOOGLE_CLOUD_PROJECT"] else "competitor-destroyer")
      ensures topicPrefix == (if "PUBSUB_TOPIC_PREFIX" in env then env["PUBSUB_TOPIC_PREFIX"] else "social-analytics")
      ensures sent == []
    {
      projectId := if "GOOGLE_CLOUD_PROJECT" in env then env["GOOGLE_CLOUD_PROJECT"] else "competitor-destroyer";
      topicPrefix := if "PUBSUB_TOPIC_PREFIX" in env then env["PUBSUB_TOPIC_PREFIX"] else "social-analytics";
      sent := [];
    }

    /** `publish`: `delivered` is whether the send completed; any failure
        is reported as False and never raised. */
    method Publish(eventType: string, data: Object, timestamp: string, delivered: bool) returns (ok: bool)
      modifies this
      ensures ok == delivered
      ensures sent == old(sent) + (if delivered then [Envelope(topicPrefix, eventType, timestamp, data)] else [])
    {
      if delivered {
        sent := sent + [Envelope(topicPrefix, eventType, timestamp, data)];
      }
      ok := delivered;
    }

    method PublishCrawlTriggered(crawlId: string, snapshotId: Value, params: Object, timestamp: string, delivered: bool)
      returns (ok: bool)
      modifies this
      ensures ok == delivered
      ensures sent == old(sent) + (if delivered then [Envelope(topicPrefix, "crawl-triggered", timestamp,
                                                               TriggeredPayload(crawlId, snapshotId, params))] else [])
    {
      ok := Publish("crawl-triggered", TriggeredPayload(crawlId, snapshotId, params), timestamp, delivered);
    }

    /** Raises, and sends nothing, when the payload cannot be built. */
    method PublishDataIngestionCompleted(crawlId: string, snapshotId: Value, gcsPath: string, postCount: int,
                                         mediaCount: int, crawlMetadata: Option<Object>, timestamp: string,
                                         delivered: bool)
      returns (r: Result<bool, string>)
      modifies this
      ensures var payload := CompletedPayload(crawlId, snapshotId, gcsPath, postCount, mediaCount, crawlMetadata, timestamp);
        && (payload.Err? ==> r == Err(payload.error) && sent == old(sent))
        && (payload.Ok? ==> (r == Ok(delivered)
             && sent == old(sent) + (if delivered then [Envelope(topicPrefix, "data-ingestion-completed", timestamp, payload.value)] else [])))
    {
      var payload := CompletedPayload(crawlId, snapshotId, gcsPath, postCount, mediaCount, crawlMetadata, timestamp);
      if payload.Err? {
        return Err(payload.error);
      }
      var ok := Publish("data-ingestion-completed", payload.value, timestamp, delivered);
      r := Ok(ok);
    }

    method PublishCrawlFailed(crawlId: string, errorMessage: string, stage: Option<string>, timestamp: string,
                              delivered: bool)
      returns (ok: bool)
      modifies this
      ensures ok == delivered
      ensures sent == old(sent) + (if delivered then [Envelope(topicPrefix, "crawl-failed", timestamp,
                                                               FailedPayload(crawlId, errorMessage, stage))] else [])
    {
      ok := Publish("crawl-failed", FailedPayload(crawlId, errorMessage, stage), timestamp, delivered);
    }
  }
}
