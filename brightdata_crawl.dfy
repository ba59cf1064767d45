/** The synchronous BrightData crawl handler
    (brightdata/handlers/crawl_handler.py): trigger a crawl and poll its
    progress until it is ready, fails or runs out of attempts. Each HTTP
    exchange is an input; the 30-second sleeps are not modelled. */
module BrightDataCrawl {
  import opened Wrappers
  import opened Json
  import opened ApiBase
  import Http
  import BrightDataBase

  /** The POST `trigger_crawl` makes. */
  datatype TriggerPost = TriggerPost(url: string, query: map<string, string>, body: seq<Object>)

  function TriggerRequest(datasetId: string, crawlParams: Object): (p: TriggerPost)
    ensures p.url == BrightDataBase.BaseUrl + "/trigger"
    ensures p.query == map["dataset_id" := datasetId, "include_errors" := "true"]
    ensures p.body == [crawlParams]
  {
    TriggerPost(BrightDataBase.BaseUrl + "/trigger",
      map["dataset_id" := datasetId, "include_errors" := "true"], [crawlParams])
  }

  /** `trigger_crawl`: (snapshot_id, error_message) for the reply to the POST. */
  function TriggerCrawl(reply: Http.Reply): (r: (Option<Value>, Option<string>))
    ensures r.0.Some? <==> r.1.None?
    ensures r.0.Some? ==>
      (Truthy(r.0.value) && reply.Response? && reply.status == 200 && reply.body.Some?
       && reply.body.value.Dict? && GetOpt(reply.body.value.fields, "snapshot_id") == r.0.value)
    ensures reply.Response? && reply.status != 200 ==> r == (None, Some("Trigger crawl failed: " + reply.text))
    ensures (reply.Response? && reply.status == 200 && reply.body.Some? && reply.body.value.Dict?
             && !Truthy(GetOpt(reply.body.value.fields, "snapshot_id")))
      ==> r == (None, Some("No snapshot_id returned: " + reply.text))
  {
    match reply
    case Raised(TimeoutError, _) => (None, Some("Request timeout while triggering crawl"))
    case Raised(ConnectionError, _) => (None, Some("Connection error while triggering crawl"))
    case Raised(OtherError, detail) => (None, Some("Unexpected error while triggering crawl: " + detail))
    case Response(status, text, body) =>
      if status != 200 then (None, Some("Trigger crawl failed: " + text))
      else match body
        case None => (None, Some("Unexpected error while triggering crawl: " + NotJsonText))
        case Some(data) =>
          if !data.Dict? then (None, Some("Unexpected error while triggering crawl: " + NoGetText(data)))
          else
            var snapshotId := GetOpt(data.fields, "snapshot_id");
            if !Truthy(snapshotId) then (None, Some("No snapshot_id returned: " + text))
            else (Some(snapshotId), None)
  }

  const MaxAttempts: nat := 60

  /** A progress reply saying the crawl is still running: 200, a JSON
      object, and a status other than `ready` and `failed`. */
  predicate InProgress(reply: Http.Reply) {
    && reply.Response? && reply.status == 200 && reply.body.Some? && reply.body.value.Dict?
    && Get(reply.body.value.fields, "status", Str("unknown")) != Str("ready")
    && Get(reply.body.value.fields, "status", Str("unknown")) != Str("failed")
  }

  predicate IsReady(reply: Http.Reply) {
    && reply.Response? && reply.status == 200 && reply.body.Some? && reply.body.value.Dict?
    && Get(reply.body.value.fields, "status", Str("unknown")) == Str("ready")
  }

  /** What one progress reply decides, if anything: None means keep polling. */
  function Verdict(reply: Http.Reply): (v: Option<(bool, Option<string>)>)
  {
    match reply
    case Raised(_, detail) => Some((false, Some("Error polling crawl status: " + detail)))
    case Response(status, text, body) =>
      if status != 200 then Some((false, Some("Error checking crawl status: " + text)))
      else match body
        case None => Some((false, Some("Error polling crawl status: " + NotJsonText)))
        case Some(data) =>
          if !data.Dict? then Some((false, Some("Error polling crawl status: " + NoGetText(data))))
          else
            var status := Get(data.fields, "status", Str("unknown"));
            if status == Str("ready") then Some((true, None))
            else if status == Str("failed") then
              Some((false, Some("Crawl failed: " + PyStr(Get(data.fields, "error", Str("Unknown error"))))))
            else None
  }

  /** A reply decides nothing exactly when the crawl is still in progress;
      it decides success exactly when the crawl is ready, and an error text
      comes with every other decision. */
  lemma VerdictMeaning(reply: Http.Reply)
    ensures Verdict(reply).None? <==> InProgress(reply)
    ensures Verdict(reply).Some? && Verdict(reply).value.0 <==> IsReady(reply)
    ensures Verdict(reply).Some? ==> (Verdict(reply).value.0 <==> Verdict(reply).value.1.None?)
  {
  }

  const TimeoutMessage := "Crawl status polling timed out after 60 attempts"

  /** The outcome of polling from attempt `attempt` on, where `probe(k)` is
      the reply to the k-th progress request. */
  function PollFrom(probe: nat -> Http.Reply, attempt: nat): (bool, Option<string>)
    decreases MaxAttempts - attempt
  {
    if attempt >= MaxAttempts then (false, Some(TimeoutMessage))
    else match Verdict(probe(attempt))
      case Some(v) => v
      case None => PollFrom(probe, attempt + 1)
  }

  /** How many progress requests polling from attempt `attempt` on makes. */
  function PollRequests(probe: nat -> Http.Reply, attempt: nat): nat
    decreases MaxAttempts - attempt
  {
    if attempt >= MaxAttempts then 0
    else if Verdict(probe(attempt)).Some? then 1
    else 1 + PollRequests(probe, attempt + 1)
  }

  /** `poll_crawl_status`, also reporting how many requests it made. */
  method PollCrawlStatus(probe: nat -> Http.Reply) returns (ready: bool, error: Option<string>, requests: nat)
    ensures (ready, error) == PollFrom(probe, 0)
    ensures requests == PollRequests(probe, 0)
  {
    var attempt: nat := 0;
    while attempt < MaxAttempts
      invariant attempt <= MaxAttempts
      invariant PollFrom(probe, attempt) == PollFrom(probe, 0)
      invariant attempt + PollRequests(probe, attempt) == PollRequests(probe, 0)
    {
      var reply := probe(attempt);
      var v := Verdict(reply);
      PollStep(probe, attempt);
      if v.Some? {
        return v.value.0, v.value.1, attempt + 1;
      }
      attempt := attempt + 1;
    }
    return false, Some(TimeoutMessage), MaxAttempts;
  }

  /** One attempt of the polling: a decisive reply ends it, any other moves
      on to the next attempt. */
  lemma PollStep(probe: nat -> Http.Reply, attempt: nat)
    requires attempt < MaxAttempts
    ensures Verdict(probe(attempt)).Some? ==>
      PollFrom(probe, attempt) == Verdict(probe(attempt)).value && PollRequests(probe, attempt) == 1
    ensures Verdict(probe(attempt)).None? ==>
      PollFrom(probe, attempt) == PollFrom(probe, attempt + 1)
      && PollRequests(probe, attempt) == 1 + PollRequests(probe, attempt + 1)
  {
  }

  /** Polling makes at least one request and at most the attempts left, and
      every reply but the last said the crawl was still running. */
  lemma {:induction false} PollRunsUntilDecided(probe: nat -> Http.Reply, attempt: nat)
    requires attempt < MaxAttempts
    ensures 1 <= PollRequests(probe, attempt) <= MaxAttempts - attempt
    ensures forall k :: attempt <= k < attempt + PollRequests(probe, attempt) - 1 ==> InProgress(probe(k))
    decreases MaxAttempts - attempt
  {
    VerdictMeaning(probe(attempt));
    if Verdict(probe(attempt)).None? && attempt + 1 < MaxAttempts {
      PollRunsUntilDecided(probe, attempt + 1);
    }
  }

  /** The last reply decides the answer: success exactly when it said
      ready, an error text exactly when not, and a last reply still running
      means the attempts ran out. */
  lemma {:induction false} PollLastReply(probe: nat -> Http.Reply, attempt: nat)
    requires attempt < MaxAttempts
    ensures var last := probe(attempt + PollRequests(probe, attempt) - 1);
      && (PollFrom(probe, attempt).0 <==> IsReady(last))
      && (PollFrom(probe, attempt).1.None? <==> PollFrom(probe, attempt).0)
      && (InProgress(last) ==> attempt + PollRequests(probe, attempt) == MaxAttempts
                               && PollFrom(probe, attempt) == (false, Some(TimeoutMessage)))
    decreases MaxAttempts - attempt
  {
    VerdictMeaning(probe(attempt));
    if Verdict(probe(attempt)).None? && attempt + 1 < MaxAttempts {
      PollLastReply(probe, attempt + 1);
    }
  }

  /** Only `ready` ends the polling successfully: a crawl that keeps
      reporting `completed` is polled 60 times and then times out. */
  lemma {:induction false} CompletedIsNotReady(probe: nat -> Http.Reply, attempt: nat)
    requires forall k :: attempt <= k < MaxAttempts ==>
      probe(k) == Http.Response(200, "", Some(Dict(map["status" := Str("completed")])))
    ensures PollFrom(probe, attempt) == (false, Some(TimeoutMessage))
    decreases MaxAttempts - attempt
  {
    if attempt < MaxAttempts {
      VerdictMeaning(probe(attempt));
      assert InProgress(probe(attempt));
      CompletedIsNotReady(probe, attempt + 1);
    }
  }
}
