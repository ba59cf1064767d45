# Crawl orchestration of the data-ingestion service, in Dafny

This project models the crawl orchestration core of a Python service. The service triggers scraping jobs at two providers (BrightData and Apify) for social-media platforms. It polls each job until the provider reports it ready, downloads and parses the provider's output, stores it, and publishes events about the job's progress.

The model follows the source module by module:

- `DownloadHandler`: the four-tier response parser (whole document, concatenated-object cursor scan, JSON lines, parse from the first marker), `download_snapshot`, `download_crawl_data` and the response builders. The scan and line loops are methods proved against recursive specification functions.
- `BrightDataApi`, `ApifyApi`, `ApiBase`: the two asynchronous provider clients. This covers trigger requests, status normalisation, the JSON-lines download with its limit, parameter validation and the shared `APIClientError`.
- `BrightDataCrawl`, `BrightDataBase`: the synchronous BrightData trigger and its bounded poll loop, config validation and the header builders.
- `Platforms`, `Facebook`, `TikTok`: the provider enum, platform configuration and handler base, and the two platform handlers. These cover URL validation, parameter whitelisting with defaults, date conversion, media extraction and the hierarchical storage path.
- `Registry`: the platform registry as a class whose handler and config maps the operations update. It covers loading from a parsed configuration and the built-in defaults.
- `Ingestion`: the crawl handler. It covers the trigger, the metadata store with its local fallback, the storage retry loop, media counting and the download sequence.
- `App`: the background poll-and-download loop with its set of active tasks, the crawl status mapping and the rule for starting background polling.
- `Events`: the event envelope, topic naming and the three payload builders. The publisher is a class that records what it sent.
- `ReferenceData`: the record validators of the integration reference data.
- `Json`, `Strings`, `Dates`, `Http`, `Wrappers`: the JSON value type with Python's `str`, `isinstance` and truthiness rules, the string built-ins used by the core, `YYYY-MM-DD` parsing, abstract HTTP replies, and `Option`/`Result`.

The outside world is given to the model as inputs. This covers HTTP replies, SDK results, storage and warehouse outcomes, the clock, uuids and the JSON decoder. Each poll's observation is a function of the poll number.

Two behaviours of the code shape the model:

- During background polling, a provider error ends the job only from poll `max_polls - 5` on, and an exception only from poll `max_polls - 3` on. So a job whose status checks fail on every poll up to `max_polls - 2` and that is ready at poll `max_polls - 1` is failed before it gets there; it does not reach completion.
- The whole-document and last-resort tiers of the parser return a top-level array as it is, non-dict elements included, and wrap any other value, dict or not, in a one-element list. Only the scan and line tiers keep dicts alone.

The operations follow the code as written, including the four places listed under "## Findings" where it evidently does not do what its authors meant. For each of those the model also defines the evidently intended behaviour and proves its property beside the as-written one.

## Model

| member | source | states |
|---|---|---|
| ApiBase.ClientError | api_clients/base.py:73-83 | the error keeps the message, provider and status code it is given, and the status code is None when none is given |
| ApiBase.ApplyLimit | api_clients/brightdata_client.py:283-284 | a falsy limit keeps every item; a positive limit keeps the first `limit` items (all when there are fewer); a negative one drops that many trailing items; the result is always a prefix |
| ApifyApi.NewClient | api_clients/apify_client.py:24-34 | a client is built exactly when the explicit token or, failing that, the environment's is non-empty, and the explicit one wins; otherwise "Apify API token is required" |
| ApifyApi.TriggerCrawl | api_clients/apify_client.py:40-64 | the run id is returned exactly when the SDK's start returns a record holding `id`; every other outcome is an APIClientError of provider `apify`, without status code, whose message starts "Failed to trigger crawl: " |
| ApifyApi.StatusInfo | api_clients/apify_client.py:86-104 | the status is copied; `is_ready` holds iff it is SUCCEEDED; `error_message` is present iff it is FAILED, ABORTED or TIMED-OUT and then defaults to "Unknown error"; `runtime_secs` is `runtimeMillis // 1000`, 0 without stats; `items_scraped` is present; a record without status fails with a KeyError, and a record that is not a dict with the TypeError text Python gives for a string, a list or any other value |
| ApifyApi.RunFields | api_clients/apify_client.py:87-98 | the ten status fields: no error message, the copied status, readiness iff SUCCEEDED, whole seconds of the run time, and `items_scraped` defaulting to 0 |
| ApifyApi.CheckStatus | api_clients/apify_client.py:66-107 | a result is returned only for a run the SDK returned, and is its status mapping; every failure becomes an APIClientError of provider `apify` starting "Failed to check status: " |
| ApifyApi.CheckStatusContract | api_clients/base.py:36-51 | every Apify status result holds `status` and a boolean `is_ready`, and a ready run carries no error message |
| ApifyApi.ForwardedLimit | api_clients/apify_client.py:140-142 | the limit reaches the item listing exactly when it is truthy, unchanged |
| ApifyApi.DownloadData | api_clients/apify_client.py:109-155 | items are returned only for a SUCCEEDED run with a truthy dataset id, and they are what the listing gave for the forwarded limit; a non-SUCCEEDED run raises "Job not completed yet. Current status: …" and a missing dataset "No dataset available for this job", both before any listing; every error names provider `apify` |
| ApifyApi.ZeroLimitNotForwarded | api_clients/apify_client.py:141-142 | a zero limit downloads exactly what no limit does |
| BrightDataBase.NewBaseClient | brightdata/base_client.py:25-33 | the key is the environment's BRIGHTDATA_API_KEY and the base URL the fixed datasets/v3 URL |
| BrightDataBase.ValidateConfig | brightdata/base_client.py:35-48 | valid iff the key is non-empty and the base URL is non-empty, with an empty message; the key is checked first, each failure with its own message |
| BrightDataBase.FreshClientValidIffKey | brightdata/base_client.py:25-48 | a freshly built client is valid exactly when the environment holds a non-empty key |
| BrightDataBase.Bearer | brightdata/base_client.py:53 | the Authorization value is "Bearer " followed by the key, "Bearer None" without one |
| BrightDataBase.Headers | brightdata/base_client.py:50-56 | exactly Authorization, a JSON Content-Type and the User-Agent |
| BrightDataBase.DownloadHeaders | brightdata/base_client.py:58-64 | exactly Authorization, a JSON Accept and the User-Agent |
| BrightDataBase.HeadersAgree | brightdata/base_client.py:50-64 | both header sets authenticate identically and differ only in Content-Type versus Accept |
| BrightDataApi.NewClient | api_clients/brightdata_client.py:33-43 | a client is built exactly when the explicit key or, failing that, the environment's is non-empty, and the explicit one wins; otherwise "BrightData API key is required" |
| BrightDataApi.Headers | api_clients/brightdata_client.py:390-396 | exactly a Bearer Authorization with the key, a JSON Content-Type and the service's User-Agent |
| BrightDataApi.DownloadHeaders | api_clients/brightdata_client.py:398-404 | exactly a Bearer Authorization with the key, a JSON Accept and the service's User-Agent |
| BrightDataApi.TriggerRequestFor | api_clients/brightdata_client.py:66-80 | a request is built iff `dataset_id` is present and truthy; its body is one record holding every other param unchanged and no `dataset_id`; its query is the dataset id with `include_errors` "true"; otherwise the error "Failed to trigger crawl: dataset_id is required in params" |
| BrightDataApi.TriggerCrawl | api_clients/brightdata_client.py:52-117 | a missing dataset id fails before any request; otherwise the outcome is how the reply is read; every error names provider `brightdata` |
| BrightDataApi.TriggerReply | api_clients/brightdata_client.py:92-117 | a snapshot id is returned only from a 200 JSON object holding a truthy `snapshot_id`; a non-200 JSON object fails with that status code; a 200 without snapshot id fails with "No snapshot_id returned from BrightData API"; a status code is only ever the reply's non-200 status |
| BrightDataApi.LegacyParams | api_clients/brightdata_client.py:383 | the merged params hold every crawl param unchanged plus `dataset_id`, which is the argument unless the crawl params carry their own |
| BrightDataApi.LegacyBody | api_clients/brightdata_client.py:383 | apart from `dataset_id`, the merged params are exactly the crawl params |
| BrightDataApi.TriggerCrawlLegacyFormat | api_clients/brightdata_client.py:369-384 | the legacy form is `trigger_crawl` on the merged params |
| BrightDataApi.LegacyRequest | api_clients/brightdata_client.py:369-384 | the legacy form sends the crawl params minus `dataset_id` as its body, queries the dataset named in the crawl params when there is one and the argument otherwise, and without one in the crawl params fails only for an empty argument |
| BrightDataApi.StatusInfo | api_clients/brightdata_client.py:161-178 | the status and raw status are the report's, default "unknown"; `is_ready` iff it is `ready` or `completed`; `snapshot_id` defaults to the queried id, `items_scraped` to 0; `error_message` is present iff the status is failed, error or cancelled, default "Unknown error" |
| BrightDataApi.ProgressFields | api_clients/brightdata_client.py:163-174 | exactly the ten status keys, with the readiness, snapshot id and item-count defaults above and a cost of 0 |
| BrightDataApi.CheckStatus | api_clients/brightdata_client.py:119-188 | a result comes only from a 200 JSON object and is its status mapping; a 200 list body fails with "Unexpected response format for status check" and code 200; a non-200 JSON object fails with that code; every error names provider `brightdata` |
| BrightDataApi.CheckStatusContract | api_clients/base.py:36-51 | every BrightData status result holds `status` and a boolean `is_ready`, and a ready job carries no error message |
| BrightDataApi.ConcatPrepend | api_clients/brightdata_client.py:263 | `''.join` of one more chunk in front is that chunk followed by the join of the rest |
| BrightDataApi.JsonLines | api_clients/brightdata_client.py:267-278 | at most one item per line |
| BrightDataApi.JsonLinesOneEach | api_clients/brightdata_client.py:270-274 | when every line is non-blank and parses, the items are exactly the parsed lines, one each, in order |
| BrightDataApi.JsonLinesSkip | api_clients/brightdata_client.py:271-278 | a blank or unparseable line adds nothing |
| BrightDataApi.DownloadOutcome | api_clients/brightdata_client.py:204-286 | the download the `try` body evidently intends: a 200 stream gives the parsed JSON lines of the stripped text cut by the limit; a non-200 stream fails with that status code; every error names provider `brightdata` |
| BrightDataApi.DownloadData | api_clients/brightdata_client.py:204-299 | the chunk loop, line loop and truncation give the download as written: the intended outcome when it succeeds, and otherwise the TypeError its `except aiohttp.ClientTimeout` clause raises |
| BrightDataApi.ReadChunks | api_clients/brightdata_client.py:247-263 | the text read is the chunks joined in order |
| BrightDataApi.ParseLines | api_clients/brightdata_client.py:264-278 | the items collected are one per non-blank line that parses, in line order |
| BrightDataApi.DownloadDataAsWritten | api_clients/brightdata_client.py:288-299 | as written, a download that succeeds is unchanged, and every failure leaves as a TypeError rather than an APIClientError |
| BrightDataApi.NotFoundSurfacesAsTypeError | api_clients/brightdata_client.py:226-288 | a 404 surfaces as a TypeError as written, where an APIClientError "Failed to download data: HTTP 404" with code 404 is intended |
| BrightDataApi.ValidateParams | api_clients/brightdata_client.py:406-423 | valid iff `url` is present and is a string starting with http:// or https://; a missing url and a bad one each give their own message |
| BrightDataCrawl.TriggerRequest | brightdata/handlers/crawl_handler.py:44-55 | the trigger posts `[crawl_params]` to the /trigger URL with query `dataset_id` and `include_errors` "true" |
| BrightDataCrawl.TriggerCrawl | brightdata/handlers/crawl_handler.py:43-96 | exactly one of snapshot id and error is present; a snapshot id only from a 200 JSON object holding a truthy one; a non-200 gives "Trigger crawl failed: " with the body text, a missing id "No snapshot_id returned: " with it |
| BrightDataCrawl.VerdictMeaning | brightdata/handlers/crawl_handler.py:118-139 | a progress reply leaves polling undecided exactly when it is a 200 object whose status is neither `ready` nor `failed`; it decides success exactly when the status is `ready`; every other decision carries an error text |
| BrightDataCrawl.PollCrawlStatus | brightdata/handlers/crawl_handler.py:98-149 | the loop's answer is the polling outcome from attempt 0, and the number of requests it makes is the polling count |
| BrightDataCrawl.PollStep | brightdata/handlers/crawl_handler.py:118-135 | a decisive reply ends polling after one request with its verdict; any other moves on to the next attempt |
| BrightDataCrawl.PollRunsUntilDecided | brightdata/handlers/crawl_handler.py:109-135 | polling makes at least one and at most 60 requests, and every reply before the last said the crawl was still running |
| BrightDataCrawl.PollLastReply | brightdata/handlers/crawl_handler.py:120-144 | success exactly when the last reply said `ready`, an error text exactly when not, and a last reply still running means all 60 attempts were used and the timeout message is returned |
| BrightDataCrawl.CompletedIsNotReady | brightdata/handlers/crawl_handler.py:124-144 | a crawl that keeps reporting `completed` is not ready: polling times out |
| Dates.ParseIso | platforms/facebook/handler.py:171 | a parsed date is a real calendar date, read from ten characters with dashes in the fifth and eighth places |
| Dates.FormatIso | platforms/facebook/handler.py:171 | a date written as `YYYY-MM-DD` takes ten characters |
| Dates.FormatUs | platforms/facebook/handler.py:173 | `MM-DD-YYYY` puts dashes in the third and sixth places |
| Dates.ConvertIsoToUs | platforms/facebook/handler.py:169-176 | a parseable `YYYY-MM-DD` is rewritten as `MM-DD-YYYY` and any other string is returned unchanged |
| Dates.ParseUs | platforms/facebook/handler.py:173 | a `MM-DD-YYYY` text read back is a real calendar date |
| Dates.ConvertIdempotent | platforms/facebook/handler.py:169-176 | converting twice is converting once |
| Dates.ParseFormatIso | platforms/facebook/handler.py:171 | a date written as `YYYY-MM-DD` parses back to itself |
| Dates.ConvertRoundTrip | platforms/facebook/handler.py:169-176 | for four-digit years, the converted text reads back as the same date: the conversion loses nothing |
| Facebook.HostMatchIff | platforms/facebook/handler.py:23-26 | the host part of the pattern accepts exactly the hosts beginning facebook.com, fb.com, www.facebook.com or www.fb.com |
| Facebook.SchemeSplit | platforms/facebook/handler.py:23-26 | the scheme part of the pattern accepts exactly http:// and https:// before the host |
| Facebook.PatternIsPrefixList | platforms/facebook/handler.py:23-46 | the pattern accepts a URL exactly when it begins with one of the eight scheme-and-host combinations |
| Facebook.ValidateParams | platforms/facebook/handler.py:28-46 | true exactly for a dict whose `url` is a non-empty string that, stripped and lower-cased, matches the pattern |
| Facebook.PatternAcceptsProfiles | platforms/facebook/handler.py:23-26 | profile URLs on either domain are accepted, with or without `www.` and whatever the path |
| Facebook.PatternRejectsOthers | platforms/facebook/handler.py:23-26 | the mobile sub-domain and a URL without a scheme are refused, whatever the path |
| Facebook.AcceptsSecureWww | platforms/facebook/handler.py:23-26 | any https URL on www.facebook.com is accepted, whatever the path |
| Facebook.AcceptsPlainShort | platforms/facebook/handler.py:23-26 | any http URL on fb.com is accepted, whatever the path |
| Facebook.RejectsMobile | platforms/facebook/handler.py:23-26 | no https URL on m.facebook.com is accepted, whatever the path |
| Facebook.ValidateRejectsNonStringUrl | platforms/facebook/handler.py:37-43 | a non-dict, a missing url, an empty url and a non-string url are all refused |
| Facebook.ConvertDateFormat | platforms/facebook/handler.py:157-176 | a string goes through the `YYYY-MM-DD` to `MM-DD-YYYY` conversion and any other value becomes its `str` |
| Facebook.Whitelisted | platforms/facebook/handler.py:61-71 | the copy keeps exactly the incoming keys that are among the six expected ones, with their values |
| Facebook.ConvertDateField | platforms/facebook/handler.py:74-77 | a truthy date field is replaced by its converted text and nothing else changes |
| Facebook.PreparedParams | platforms/facebook/handler.py:48-79 | a non-dict gives `{}`; otherwise the keys are the incoming ones among the six expected, every non-date value is copied unchanged and a truthy date is converted |
| Facebook.PrepareRequestParams | platforms/facebook/handler.py:57-79 | the copy loop and date rewrite give exactly the prepared parameters above |
| Facebook.PrepareIdempotent | platforms/facebook/handler.py:48-79 | preparing already prepared parameters changes nothing |
| Facebook.PyStrNotIsoDate | platforms/facebook/handler.py:166-167 | the `str` of a non-string value never parses as a `YYYY-MM-DD` date |
| Facebook.NonStrDateStable | platforms/facebook/handler.py:157-176 | converting again the text a non-string date was turned into gives that text back |
| Facebook.MediaTypes | platforms/facebook/handler.py:99-103 | at most one type per attachment, and every type listed is truthy |
| Facebook.ExtractMediaInfo | platforms/facebook/handler.py:81-109 | a non-dict or a missing, empty or non-list `attachments` gives the zero result; otherwise `has_media` is true, `media_count` counts every attachment and `media_types` lists the truthy types of the dict entries, never more than the count |
| Facebook.MediaTypesAppend | platforms/facebook/handler.py:99-103 | the type list of two attachment runs is the two type lists one after the other: each attachment contributes independently and in order |
| Facebook.GetStoragePath | platforms/facebook/handler.py:111-127 | a path exactly when the snapshot id is a string, the timestamp a datetime and the configured name a string, and then the shared hierarchical path; bad arguments give "Invalid snapshot_id or timestamp" and a non-string name the AttributeError of `lower()` |
| Facebook.GetApiClient | platforms/facebook/handler.py:129-137 | always refused with "API client is managed externally" |
| Facebook.ParseApiResponse | platforms/facebook/handler.py:139-155 | a list is returned as it is, a dict as a one-element list, anything else as the empty list |
| Platforms.ProviderFromValue | platforms/base.py:15-18 | a provider exists for exactly the two values "brightdata" and "apify" |
| Platforms.ProviderValueBijection | platforms/base.py:15-18 | the two members and their values correspond one to one |
| Platforms.NewHandler | platforms/base.py:46-52 | a handler keeps the configuration it is given, unchanged |
| Platforms.StoragePath | platforms/facebook/handler.py:127 | the path starts with `raw_snapshots/platform=` and the lower-cased name, and ends with the snapshot's file name under the day's partition |
| Platforms.MonthPrefix | platforms/facebook/handler.py:127 | the partition prefix starts with `raw_snapshots/platform=` and the lower-cased name |
| Platforms.StoragePathSeparatesSnapshots | platforms/facebook/handler.py:127 | within one partition, two snapshots share a path only when their ids render the same |
| Platforms.StoragePathSeparatesDays | platforms/facebook/handler.py:127 | within one month, two days never share a path |
| Platforms.MiddleCancels | platforms/facebook/handler.py:127 | two texts framed by the same prefix and suffix are equal when the framed texts are |
| TikTok.ProfilesEntry | platforms/tiktok/handler.py:37-40 | a `url` becomes a one-element `profiles` list and wins over `profiles`; with neither key no entry is made |
| TikTok.Copied | platforms/tiktok/handler.py:43-58 | exactly the listed keys the request has are copied, with the request's values |
| TikTok.PreparedParams | platforms/tiktok/handler.py:30-72 | a non-dict request gives `{}`; otherwise the keys are the profiles entry, the copied options and the five defaults, every copied key carries the request's value and every absent default its default |
| TikTok.CopyStep | platforms/tiktok/handler.py:56-58 | one pass of the copy loop extends the copied map by that key |
| TikTok.CopyUnion | platforms/tiktok/handler.py:43-58 | copying the date keys and then the actor options equals copying both sets at once |
| TikTok.WithDefault | platforms/tiktok/handler.py:61-70 | a default is set only when the key is absent, and otherwise the map is unchanged |
| TikTok.FillDefaultsIsUnion | platforms/tiktok/handler.py:61-70 | the five default steps give the defaults overridden by whatever the request already set |
| TikTok.FillDefaultsKeys | platforms/tiktok/handler.py:61-70 | after the default steps the keys are the request's plus the defaults' |
| TikTok.FillDefaultsAt | platforms/tiktok/handler.py:61-70 | each value after the default steps is the request's when present, else the default |
| TikTok.CopyOptions | platforms/tiktok/handler.py:56-58 | the copy loop adds every listed option the request has, with its value |
| TikTok.PrepareRequestParams | platforms/tiktok/handler.py:18-72 | the builder returns exactly the prepared map described above |
| TikTok.UnionAssociates | platforms/tiktok/handler.py:34-72 | building the result step by step equals building it from the combined maps |
| TikTok.DatesCopied | platforms/tiktok/handler.py:43-46 | the two date `if`s copy exactly the date bounds the request has |
| TikTok.PrepareIdempotent | platforms/tiktok/handler.py:30-72 | preparing an already prepared request changes nothing |
| TikTok.KeyFacts | platforms/tiktok/handler.py:49-70 | neither `url` nor `profiles` is a copied or defaulted key, and every defaulted key is a copied option |
| TikTok.RebuildIsIdentity | platforms/tiktok/handler.py:34-72 | rebuilding from a built map gives that map back |
| TikTok.UrlVerdict | platforms/tiktok/handler.py:95-101 | a string is accepted iff it contains `tiktok.com`, or starts with `@` and names none of the other three platforms' domains; a list or dict passes only by membership and otherwise raises on `startswith`; a number raises as not iterable |
| TikTok.Validation | platforms/tiktok/handler.py:84-101 | a required field that is missing or falsy gives False; a list or dict field raises `unhashable type`, a required value that is not iterable raises, and a dict of required fields is walked by its keys; True implies every required field passed and `url` is present; once the fields pass, a falsy `url` gives False and any other `url` gets the URL verdict |
| TikTok.ValidateParams | platforms/tiktok/handler.py:74-101 | the loop over the configured required fields, stopping at the first that fails, then the URL test, answers exactly the validation above |
| TikTok.FieldCheck | platforms/tiktok/handler.py:85 | a string field passes iff it is a key of the request with a truthy value; a list or dict field raises `unhashable type`; any other field is never a key and fails |
| TikTok.CheckFields | platforms/tiktok/handler.py:84-86 | the fields pass iff each one passes, and otherwise the answer is that of one of the fields |
| TikTok.CheckFieldsStopsAt | platforms/tiktok/handler.py:84-86 | the loop answers with the first field that does not pass |
| TikTok.Required | platforms/tiktok/handler.py:84-86 | a list is checked item by item, a string character by character and a dict by its keys; any other value raises `object is not iterable` |
| TikTok.RequiredStringList | platforms/tiktok/handler.py:84-86 | a list of strings never raises, and passes iff every listed field is present and truthy |
| TikTok.KeyOrder | platforms/tiktok/handler.py:84 | iterating a dict yields exactly its keys |
| TikTok.RequiresOnlyUrl | platforms/tiktok/handler.py:84-86 | with only `url` required, the fields pass iff `url` is present and truthy |
| TikTok.AcceptsHandleAndProfileUrl | platforms/tiktok/handler.py:95-99 | `@nike` and `www.tiktok.com/@nike` are accepted |
| TikTok.RejectsForeignHandle | platforms/tiktok/handler.py:97-101 | `@youtube.com` is refused |
| TikTok.YoutubeHandleFacts | platforms/tiktok/handler.py:95-97 | `@youtube.com` contains `youtube.com` and not `tiktok.com` |
| TikTok.NamesYoutube | platforms/tiktok/handler.py:97 | `@youtube.com` contains `youtube.com` |
| TikTok.RejectsBareName | platforms/tiktok/handler.py:95-101 | `nike` is refused |
| TikTok.ExtractMediaInfo | platforms/tiktok/handler.py:113-127 | a non-dict `videoMeta` raises; otherwise the post has media iff the metadata is a non-empty dict, the count is 1 or 0 and the types are `['video']` or `[]` with it; duration (default 0), cover image, height and width come from the metadata, and play count, ad flag and video URL from the post, with the source's defaults |
| TikTok.MediaInfoReadsFourKeys | platforms/tiktok/handler.py:113-127 | two posts that agree on `videoMeta`, `playCount`, `isAd` and `webVideoUrl` get the same summary or the same error |
| TikTok.GetStoragePath | platforms/tiktok/handler.py:142 | a path exactly when the configured name is a string, starting with `raw_snapshots/platform=` and the lower-cased name and ending with `snapshot_<id>.json` under the partition prefix; a non-string name raises the AttributeError of `lower()` |
| TikTok.GetApiClient | platforms/tiktok/handler.py:152 | always raises "API client is managed externally" |
| TikTok.Videos | platforms/tiktok/handler.py:166-170 | the kept items are no more than the input and each is a dict with a truthy `webVideoUrl` |
| TikTok.ParsedResponse | platforms/tiktok/handler.py:164-174 | a list is filtered to its videos, a dict is kept alone iff it is a video, anything else gives `[]` |
| TikTok.ParseApiResponse | platforms/tiktok/handler.py:154-174 | the filtering loop returns the parsed response above |
| TikTok.VideosIdempotent | platforms/tiktok/handler.py:166-170 | filtering twice is filtering once |
| TikTok.ParseIdempotent | platforms/tiktok/handler.py:164-174 | parsing a parsed response returns it unchanged |
| TikTok.TagNames | platforms/tiktok/handler.py:187 | no more names than tags, and every name is the `name` of some dict tag that has one |
| TikTok.TagNamesAppend | platforms/tiktok/handler.py:187 | the comprehension distributes over concatenation of tag lists |
| TikTok.ExtractHashtags | platforms/tiktok/handler.py:185-188 | a missing or non-list `hashtags` gives `[]`; a list gives its tags' names |
| TikTok.TransformMetrics | platforms/tiktok/handler.py:199-210 | a non-dict `authorMeta` raises; otherwise likes, views, shares, comments and created_at are `diggCount`, `playCount`, `shareCount`, `commentCount`, `createTimeISO` with defaults 0 and `''`; author, verification and nickname are `authorMeta`'s `name`, `verified`, `nickName` with defaults `''`, False, `''`, and a post without author metadata gets those defaults |
| DownloadHandler.SkipSpaces | brightdata/handlers/download_handler.py:151-152 | the cursor after skipping stays within the text and, when inside it, rests on a non-whitespace character |
| DownloadHandler.Step | brightdata/handlers/download_handler.py:150-161 | every pass that does not stop moves the cursor forward; a decoded value moves it to the non-blank index plus the end index the decoder reports, as the code adds them |
| DownloadHandler.ScanIntoEmit | brightdata/handlers/download_handler.py:157-161 | a pass that decodes a value at the first non-blank index `j` appends it and continues from `j` plus the end index the decoder reports (`idx += end_idx`) |
| DownloadHandler.ScanIntoJump | brightdata/handlers/download_handler.py:163-170 | a pass that decodes nothing continues from the next `{` after the cursor, or ends the loop when there is none |
| DownloadHandler.ScanIntoBlank | brightdata/handlers/download_handler.py:154-155 | a pass that finds only whitespace ends the loop |
| DownloadHandler.ScanIntoIsScan | brightdata/handlers/download_handler.py:142-170 | collecting into an accumulator appends the scanned values to it |
| DownloadHandler.SkipBlank | brightdata/handlers/download_handler.py:151-152 | the whitespace loop stops at the first non-whitespace index |
| DownloadHandler.ScanConcatenated | brightdata/handlers/download_handler.py:142-170 | the concatenated-object loop, with its cursor as written, collects exactly the scanned values |
| DownloadHandler.ScanBound | brightdata/handlers/download_handler.py:149-170 | the loop yields at most one value per character it passes over |
| DownloadHandler.ScanDecoded | brightdata/handlers/download_handler.py:151-160 | every collected value was decoded at a non-whitespace position of the text |
| DownloadHandler.AsWrittenSkipsObjects | brightdata/handlers/download_handler.py:149-161 | as written (`idx += end_idx`), three concatenated empty objects yield only two records |
| DownloadHandler.ScanRecoversAll | brightdata/handlers/download_handler.py:149-170 | with the evidently intended cursor (`idx = end_idx`), N values written back to back give exactly those N values, in order |
| DownloadHandler.RecoversThree | brightdata/handlers/download_handler.py:149-161 | with the evidently intended cursor, `{}{}{}` yields all three objects |
| DownloadHandler.ParseFindsTwo | brightdata/handlers/download_handler.py:127-177 | as written, the parser answers `{}{}{}` with two of its three objects |
| DownloadHandler.LineValue | brightdata/handlers/download_handler.py:184-190 | a line contributes at most one value, and only when the stripped line starts with `{` or `[` and decodes whole to it |
| DownloadHandler.LineValues | brightdata/handlers/download_handler.py:182-190 | no more values than lines |
| DownloadHandler.LineValuesSnoc | brightdata/handlers/download_handler.py:183-190 | one more line adds that line's value at the end |
| DownloadHandler.CollectJsonLines | brightdata/handlers/download_handler.py:182-190 | the line loop collects the values of the text's lines, in order |
| DownloadHandler.LineValuesFromLines | brightdata/handlers/download_handler.py:183-188 | every line value is the decoding of some stripped line of the text |
| DownloadHandler.AsList | brightdata/handlers/download_handler.py:133-136 | a list is returned as it is and anything else wrapped in a one-element list |
| DownloadHandler.MarkerStart | brightdata/handlers/download_handler.py:201-203 | the marker is the position of a `[` or `{`, and is absent iff the text has neither |
| DownloadHandler.ParseResponse | brightdata/handlers/download_handler.py:110-230 | the four-tier parser, with the scan cursor as written, returns the first tier that yields records |
| DownloadHandler.ParseNoneIff | brightdata/handlers/download_handler.py:127-226 | the parser gives None iff the whole text does not decode, no value the scan as written collects and no line value is a dict, and the text from its first marker does not decode |
| DownloadHandler.ParseEmptyOnlyFromEmptyArray | brightdata/handlers/download_handler.py:129-211 | an empty record list comes only from a document that is an empty array |
| DownloadHandler.LastResortEmpty | brightdata/handlers/download_handler.py:205-211 | the last tier gives no records only when the text from the marker is an empty array |
| DownloadHandler.FirstTierEmpty | brightdata/handlers/download_handler.py:129-211 | an empty answer comes from the first tier's empty array or from the last tier's |
| DownloadHandler.ScannedRecordsAreDecodedDicts | brightdata/handlers/download_handler.py:172-177 | when the scan tier answers, every record is a dict decoded somewhere in the text |
| DownloadHandler.SuccessResponse | brightdata/handlers/download_handler.py:279-293 | a success response carries the message and data, and the snapshot id only when it is non-empty |
| DownloadHandler.ErrorResponse | brightdata/handlers/download_handler.py:295-302 | an error response carries the message and the code |
| DownloadHandler.DownloadSnapshot | brightdata/handlers/download_handler.py:27-83 | a missing id is an error; success iff the id is given, the reply is 200 and the text parses as written, and then the data are the parsed records; an unparseable 200 and a non-200 reply give their own errors, and only a non-200 reply sets a code other than 500 |
| DownloadHandler.DownloadCrawlData | brightdata/handlers/download_handler.py:85-108 | exactly one of data and error is present; data iff the download succeeded, and then they are the records the parser as written gives; otherwise the error is the download's message |
| Events.Envelope | events/event_publisher.py:45-54 | the topic is the prefix, a dash and the event type; the envelope has exactly the four keys, with the service's name as source and the payload as data |
| Events.ReadEnvelope | events/event_publisher.py:49-54 | a subscriber reads an event iff the envelope has a string `event_type` and a dict `data`, and then reads exactly those |
| Events.EnvelopeRoundTrip | events/event_publisher.py:45-57 | reading a published envelope gives back the event type and payload that were published |
| Events.TopicsSeparateEventTypes | events/event_publisher.py:45 | under one prefix, two events on the same topic have the same type |
| Events.TriggeredPayload | events/event_publisher.py:84-92 | the payload has the ids, status `triggered` and the four business fields read from the parameters, `None` where missing |
| Events.CompletedFields | events/event_publisher.py:112-142 | the completed dict has the ids, the path, the given business fields and a `crawl_metadata` of dataset id, post count and crawl date |
| Events.CompletedPayload | events/event_publisher.py:112-142 | without `crawl_params` the business fields and dataset id are `None` and the crawl date is now; with them they come from the parameters and the given crawl date; a non-dict `crawl_params` raises |
| Events.CompletedIgnoresMediaCount | events/event_publisher.py:96-144 | the media count never changes the completed payload |
| Events.FailedPayload | events/event_publisher.py:158-165 | the payload has the id, the message and status `failed`, plus `stage` exactly when a non-empty stage is given |
| Events.EventPublisher.constructor | events/event_publisher.py:26-30 | project and prefix come from the environment, with their defaults; nothing has been sent |
| Events.EventPublisher.Publish | events/event_publisher.py:32-70 | the answer is whether the send completed, and exactly the envelope of this event is added to what was sent when it did |
| Events.EventPublisher.PublishCrawlTriggered | events/event_publisher.py:72-94 | sends the `crawl-triggered` envelope of the triggered payload when delivered, and answers delivery |
| Events.EventPublisher.PublishDataIngestionCompleted | events/event_publisher.py:96-144 | raises and sends nothing when the payload cannot be built; otherwise sends the `data-ingestion-completed` envelope when delivered |
| Events.EventPublisher.PublishCrawlFailed | events/event_publisher.py:146-167 | sends the `crawl-failed` envelope of the failed payload when delivered, and answers delivery |
| Ingestion.ConvertDateFormat | handlers/crawl_handler.py:373-395 | a falsy value becomes None, a string goes through the `YYYY-MM-DD` to `MM-DD-YYYY` conversion (unchanged when it does not parse), and any other truthy value comes back unchanged |
| Ingestion.ConvertAgreesWithFacebook | handlers/crawl_handler.py:383-395 | on a non-empty string the handler converts exactly as the Facebook profile does |
| Ingestion.ConvertDateFormatIdempotent | handlers/crawl_handler.py:383-395 | converting a converted date changes nothing |
| Ingestion.TriggerParams | handlers/crawl_handler.py:65-71 | the provider receives exactly the five keys: `url`, the post count defaulting to 10, both dates converted, and the profile flag defaulting to True |
| Ingestion.TriggerParamsHideBusinessFields | handlers/crawl_handler.py:65-71 | whatever the caller sends, the provider sees the same five keys and none of the business fields |
| Ingestion.WarehouseRow | handlers/crawl_handler.py:203-214 | the inserted row has the ids, status `triggered` and the four business fields, each defaulting to `unknown` |
| Ingestion.LocalMetadata | handlers/crawl_handler.py:226-232 | the fallback record keeps the snapshot id and the parameters as given, with status `triggered` |
| Ingestion.RowMetadata | handlers/crawl_handler.py:257-264 | metadata from a warehouse row has the five keys and the row's snapshot id |
| Ingestion.LookupMetadata | handlers/crawl_handler.py:236-279 | a usable warehouse row wins; otherwise the local record; None iff neither has the crawl |
| Ingestion.StoredMetadataIsFound | handlers/crawl_handler.py:233-276 | metadata stored locally is found again whenever the warehouse has no usable row |
| Ingestion.RawSnapshotPath | handlers/crawl_handler.py:296 | the object name lies under `raw_snapshots/` and is the day's folder followed by the snapshot's file name |
| Ingestion.RawPathSeparatesSnapshots | handlers/crawl_handler.py:296 | on one day, two snapshots share an object name only when their ids render the same |
| Ingestion.RawPathSeparatesDays | handlers/crawl_handler.py:296 | within one month, two days never share an object name |
| Ingestion.GcsUri | handlers/crawl_handler.py:317 | the address is `gs://`, the bucket, a slash and the object name |
| Ingestion.UploadSucceedsIff | handlers/crawl_handler.py:287-330 | the upload succeeds iff some remaining attempt stores the object, and a failure re-raises the last attempt's error |
| Ingestion.SleepsSpacing | handlers/crawl_handler.py:325-327 | after each failed attempt but the last the handler sleeps twice the attempt's number of seconds, and at no other time |
| Ingestion.UploadRetry | handlers/crawl_handler.py:322-327 | a failed attempt that is not the last hands over to the next attempt |
| Ingestion.SleepsStop | handlers/crawl_handler.py:320-330 | no sleep follows a successful or final attempt |
| Ingestion.SleepsRetry | handlers/crawl_handler.py:325-327 | a failed attempt that is not the last sleeps `2 * (attempt + 1)` seconds before the next |
| Ingestion.SleepsBounded | handlers/crawl_handler.py:287-327 | the total back-off is at most 2 then 4 seconds |
| Ingestion.MediaCountMatchesProfile | handlers/crawl_handler.py:359-371 | the handler's media count equals the sum of the Facebook profile's per-post media counts |
| Ingestion.RawDataColumn | handlers/crawl_handler.py:344 | the column is always under a million characters, and is the serialised data whenever that fits |
| Ingestion.TriggerOutcome | handlers/crawl_handler.py:57-110 | the result always names the crawl id; a non-dict request is an `Error triggering crawl`; a provider error gives `Failed to trigger crawl`; otherwise the crawl is triggered with the provider's snapshot id |
| Ingestion.DownloadOutcome | handlers/crawl_handler.py:112-195 | missing or empty metadata fails first; success needs the snapshot id, readiness and a download, and then carries the uploaded path, the record count and the media count; only the error paths that raise name the crawl |
| Ingestion.UploadOnlyAfterChecks | handlers/crawl_handler.py:124-152 | without metadata, readiness or downloaded data nothing is uploaded and the download fails |
| Ingestion.CrawlHandler.constructor | handlers/crawl_handler.py:31-45 | the handler starts with an empty local metadata store |
| Ingestion.CrawlHandler.StoreCrawlMetadata | handlers/crawl_handler.py:197-234 | the local store is unchanged when the warehouse insert succeeds, and gains the crawl's record when it fails |
| Ingestion.CrawlHandler.GetCrawlMetadata | handlers/crawl_handler.py:236-279 | answers the lookup over the handler's local store |
| Ingestion.CrawlHandler.TriggerCrawl | handlers/crawl_handler.py:47-110 | the result is the trigger outcome of the provider's reply; the request is sent iff the parameters are a dict, with the dataset id and the five provider keys; the local store gains a record only for a triggered crawl whose warehouse insert failed |
| Ingestion.CrawlHandler.StoreRawDataGcs | handlers/crawl_handler.py:281-330 | the upload result and the sleeps are those of the three-attempt retry above |
| Ingestion.CrawlHandler.CountMediaFiles | handlers/crawl_handler.py:359-371 | the loop counts the attachments of every dict item whose attachments are a list |
| Ingestion.CrawlHandler.DownloadData | handlers/crawl_handler.py:112-195 | the result is the download outcome over the looked-up metadata; a failure publishes nothing; a success publishes the completion event when its payload builds and the send completes |
| App.PollingEnabled | app.py:29 | polling is on when the variable is unset, and otherwise exactly when it reads `true` in any letter case |
| App.MaxPollingMinutes | app.py:138 | the minutes are the floor of polls times interval over 60 |
| App.DownloadEvent | app.py:97-116 | a successful download becomes a completion with its crawl id, path and post count; a failed one becomes a `download_failure` with its message |
| App.Attempt | app.py:64-130 | missing metadata stops at once; a provider error stops only from poll `max_polls - 5` on, an exception only from `max_polls - 3` on; a ready crawl stops with its download event; otherwise polling goes on |
| App.PollFrom | app.py:57-134 | the loop ends after at most `max_polls` polls with at most one event, exactly when an attempt stops it or a negative sleep raises; every earlier poll kept polling; it sleeps once between consecutive polls |
| App.OneReportPerTask | app.py:40-152 | with the timeout reported only for exhausted polls, every background task publishes exactly one outcome, the timeout when the polls ran out |
| App.AsWrittenDiffersOnlyAtLastPoll | app.py:61-144 | the loop as written publishes something different exactly when it breaks out at its last permitted poll, and then it publishes two events |
| App.ReadyAtLastPollReportsTimeoutToo | app.py:93-144 | with one permitted poll, a crawl ready at once is downloaded and, as written, a polling timeout is also published |
| App.EarlyErrorsKeepPolling | app.py:81-91 | a provider error before poll `max_polls - 5` never ends the loop |
| App.Messages | app.py:69-144 | all of a task's events are sent, in order, each as its own envelope, or none when the send fails |
| App.MessagesConcat | app.py:69-144 | publishing two runs of events one after the other sends their messages one after the other |
| App.FailuresCarryTheirStage | app.py:69-151 | every failure the loop reports reaches the `crawl-failed` topic, and a subscriber reads back its stage |
| App.BackgroundInfo | app.py:196-212 | the trigger response says whether polling is enabled; only when it is does it say `started` and give the maximum polling minutes |
| App.ProviderStatus | app.py:266-274 | `error` exactly for a non-empty error, otherwise `ready` or `processing`, and ready for download exactly when `ready` |
| App.BackgroundStatus | app.py:302 | `polling` exactly while the background task is active; `completed` exactly when inactive and the crawl is ready |
| App.ParamField | app.py:290-291 | missing parameters read as empty, so the field is None; non-dict parameters raise |
| App.CrawlStatus | app.py:244-334 | no metadata gives 404 `Crawl not found`; a 200 reply carries the snapshot id, the provider status, `error_message` exactly for a non-empty error and the background state; an error is a 500 `Error checking crawl status: …`; no other code is returned |
| App.StatusFields | app.py:276-286 | the reply has the ids, the status and readiness, with `error_message` exactly for a non-empty error |
| App.BackgroundState | app.py:299-305 | the background entry's status is the background status of the crawl's background task |
| App.StatusError | app.py:329-334 | an error reply is a 500 whose message starts with `Error checking crawl status: ` |
| App.Service.constructor | app.py:19-38 | no background task is active at start |
| App.Service.Report | app.py:69-107 | publishing one event adds exactly its message, when delivered |
| App.Service.Poll | app.py:64-130 | one pass of the loop's body publishes what the attempt decides |
| App.Service.BackgroundPollAndDownload | app.py:40-158 | the run is the loop described above; what is published is the loop's report followed by the timeout as written, so a task that breaks out at its last permitted poll publishes two reports; the crawl leaves the active set on every exit |
| App.Service.PollLoop | app.py:60-134 | the loop leaves the run defined above and has published exactly that run's events |
| App.Service.PollStep | app.py:61-134 | one pass either ends the loop with the run from this point and publishes its one event, or publishes nothing and continues to a run with the same outcome |
| App.Service.ReportTimeoutIfDue | app.py:136-144 | the timeout is published iff the poll count reached `max_polls` and no exception ended the loop |
| App.Service.Trigger | app.py:177-218 | the result is the handler's trigger outcome; a triggered crawl publishes `crawl-triggered` with the caller's parameters and starts polling exactly when polling is enabled |
| App.Service.Download | app.py:220-242 | the result is the handler's download outcome; a success publishes a second completion without crawl metadata; a failure publishes nothing on either publisher |
| App.Service.GetCrawlStatus | app.py:244-334 | the reply is the status reply over the looked-up metadata and whether a background task is active |
| Registry.WithPlatform | platforms/registry.py:27-37 | registering keeps every handler backed by a configuration, adds the lower-cased name to both tables and leaves the initialised flag alone |
| Registry.HandlerFor | platforms/registry.py:40-54 | a handler is made iff the lower-cased name has a handler class, and it carries that name's configuration |
| Registry.ConfigFor | platforms/registry.py:57-67 | the configuration is found iff it is stored under the lower-cased name |
| Registry.IsRegistered | platforms/registry.py:88-97 | a platform is registered iff its configuration is found |
| Registry.ListPlatforms | platforms/registry.py:70-85 | one summary per stored configuration, with its name, its provider's value, its dataset id and its required and optional parameters |
| Registry.RegisterThenLookup | platforms/registry.py:27-67 | a registration is found under any capitalisation of its name and replaces the earlier one; other names are unaffected |
| Registry.LookupIgnoresCase | platforms/registry.py:35-97 | looking a name up and looking up its lower-cased form agree |
| Registry.WithBuiltins | platforms/registry.py:186-229 | the fallback stores the three built-in configurations, Facebook on BrightData and TikTok and YouTube on Apify, each with string fields and string lists, registers no handler and marks the registry initialised |
| Registry.BuiltinsRegisterWithoutHandlers | platforms/registry.py:186-229 | after the fallback alone each built-in platform is registered yet has no handler |
| Registry.Attr | platforms/registry.py:146-149 | an attribute is found iff the module defines that name |
| Registry.AttrIgnoringCase | platforms/registry.py:144-149 | a class is found iff the module defines a name that lower-cases to the one asked for |
| Registry.HandlerLookupAsWritten | platforms/registry.py:143-149 | as written, no handler is found iff the module has neither `<Capitalized>Handler` nor `Handler` |
| Registry.HandlerLookup | platforms/registry.py:143-149 | a class named `<platform>Handler` in any capitalisation, or else `Handler`, is always found |
| Registry.LookupExtendsAsWritten | platforms/registry.py:143-149 | the corrected lookup finds a handler wherever the lookup as written does |
| Registry.AsWrittenMissesTikTok | platforms/registry.py:140-149 | as written, the loader finds no handler in the TikTok module, whose class is `TikTokHandler` |
| Registry.LookupFindsTikTok | platforms/registry.py:140-149 | the corrected lookup finds `TikTokHandler` |
| Registry.TikTokEntryLoadsWithoutHandler | platforms/registry.py:140-160 | as written, a good TikTok entry stores its configuration but registers no handler |
| Registry.FirstMissing | platforms/registry.py:122-131 | no key is reported iff every key is present; a reported key is one of them and absent |
| Registry.ProviderOf | platforms/registry.py:124 | a provider is found only for the exact string value of that provider |
| Registry.InvalidEntry | platforms/registry.py:159-160 | the error is a ValueError whose message starts with `Invalid config for platform '<name>': ` |
| Registry.BuildConfig | platforms/registry.py:122-131 | the configuration holds the entry's values for its seven keys, as they are, and the provider |
| Registry.ParseFields | platforms/registry.py:119-160 | an entry builds iff every key is present and the provider is known, and then gives the configuration built from its values; otherwise a ValueError naming the platform |
| Registry.ParseEntry | platforms/registry.py:119-131 | a dict entry is built from its fields, whatever the types of its values; any other entry raises the uncaught TypeError of `config['name']` on it, worded as Python words it for a string, a list or any other value |
| Registry.Parsed | platforms/registry.py:119 | one outcome per entry of the section |
| Registry.ParsedAt | platforms/registry.py:119-131 | outcome `i` is entry `i` built |
| Registry.LoadEntry | platforms/registry.py:119-160 | a failing entry raises and changes nothing; a good one stores its configuration under the lower-cased name and registers at most that name's handler, found by the lookup as written, and none when its module does not import |
| Registry.LoadFirst | platforms/registry.py:119-160 | the loop keeps handlers backed by configurations, never drops a configuration and leaves the initialised flag alone |
| Registry.Load | platforms/registry.py:100-162 | a missing file raises FileNotFoundError, a file without `platforms` raises ValueError, and a section that is not a mapping raises the uncaught AttributeError of `.items()`, all three changing nothing; the registry is marked initialised iff it was already or the whole section loaded |
| Registry.EmptySectionRaises | platforms/registry.py:113-119 | a `platforms` key with nothing under it raises `'NoneType' object has no attribute 'items'` and leaves the registry as it was |
| Registry.FailureIsFinal | platforms/registry.py:119-160 | once an entry fails, the later entries change nothing |
| Registry.FailureKeepsEarlierEntries | platforms/registry.py:119-160 | a failing load stops at some entry, after the entries before it have loaded, and keeps what they stored |
| Registry.SuccessStoresEveryConfig | platforms/registry.py:119-162 | after a successful load every entry built and is stored under its lower-cased name |
| Registry.FirstExisting | platforms/registry.py:177-180 | the chosen path is one of the candidates and exists; none is chosen only when none exists |
| Registry.PlatformRegistry.constructor | platforms/registry.py:22-24 | the registry starts empty and uninitialised |
| Registry.PlatformRegistry.Register | platforms/registry.py:27-37 | the new state is the registration above |
| Registry.PlatformRegistry.GetHandler | platforms/registry.py:40-54 | answers the handler lookup on the current state |
| Registry.PlatformRegistry.GetConfig | platforms/registry.py:57-67 | answers the configuration lookup on the current state |
| Registry.PlatformRegistry.IsInitialized | platforms/registry.py:232-238 | answers the initialised flag |
| Registry.PlatformRegistry.LoadFromConfig | platforms/registry.py:100-162 | the new state and the raised error are those of the load above |
| Registry.PlatformRegistry.LoadEntriesInto | platforms/registry.py:119-160 | the entry loop leaves the state and error of the first-failure fold over the entries' parse outcomes |
| Registry.PlatformRegistry.LoadNext | platforms/registry.py:119-160 | one more entry after entries that all loaded is the next step of the fold, and an error there is the fold's result |
| Registry.PlatformRegistry.LoadEntryInto | platforms/registry.py:120-160 | one iteration, with the handler lookup as written, leaves the state and error of one entry's load |
| Registry.PlatformRegistry.RegisterBuiltinConfigs | platforms/registry.py:186-229 | the new state is the built-in fallback |
| Registry.PlatformRegistry.LoadDefaultConfig | platforms/registry.py:165-183 | the first existing location is loaded; the built-ins are registered, and nothing raised, only when none exists |
| Json.PyStr | tests/integration/reference_data.py:155 | `str(v)` of a string is that string |
| Json.DictsOf | brightdata/handlers/download_handler.py:174-194 | the dict filter keeps exactly the dict values and never more values than it is given; a list of dicts is kept unchanged and a leading dict stays first |
| Json.DictsOfAppend | brightdata/handlers/download_handler.py:174-194 | filtering two runs of values one after the other is filtering each and joining the results, so the kept dicts stay in their input order |
| Strings.FindChar | brightdata/handlers/download_handler.py:165-203 | `str.find` gives an index at or after the start that holds the character, or nothing |
| Strings.FindCharFirst | brightdata/handlers/download_handler.py:165-203 | the index found is the first occurrence from the start, and nothing is found only when the character does not occur from there on |
| Strings.Strip | brightdata/handlers/download_handler.py:184 | `str.strip` leaves no whitespace at either end and gives the empty string exactly for an all-whitespace line |
| Strings.SplitLines | brightdata/handlers/download_handler.py:183 | `split('\n')` gives at least one piece and no piece holds a newline |
| Strings.Lower | platforms/registry.py:35-97 | `lower()` keeps the length and lowers each character |
| Strings.LowerIdempotent | platforms/registry.py:35 | lowering a lowered name changes nothing |
| Strings.LowerCapitalize | platforms/registry.py:140-153 | a capitalized name lowers to the same key as the name itself |
| Strings.NatToStringValue | tests/integration/reference_data.py:155 | the decimal rendering of a count reads back as that count |
| Strings.NatToStringInjective | tests/integration/reference_data.py:155 | different counts render to different decimal strings |
| ReferenceData.Messages | tests/integration/reference_data.py:140-192 | one error line per problem found |
| ReferenceData.MessagesAppend | tests/integration/reference_data.py:142-169 | rendering two runs of problems is rendering each and joining the lines |
| ReferenceData.CollectInOrder | tests/integration/reference_data.py:145-152 | a checking loop reports one problem per failing entry, in the entries' order, and every failing entry is reported |
| ReferenceData.CollectKind | tests/integration/reference_data.py:145-152 | a checking loop reports only the kind of problem its check produces |
| ReferenceData.AppendFlagged | tests/integration/reference_data.py:145-147 | the loop appends one error line per failing entry, in order, after the earlier ones |
| ReferenceData.MissingIff | tests/integration/reference_data.py:145-147 | a missing-field line is reported for a field iff the field is listed and absent, and the loop reports nothing else |
| ReferenceData.MissingNoneIff | tests/integration/reference_data.py:145-147 | no missing-field line is reported iff every listed field is present |
| ReferenceData.MissingInOrder | tests/integration/reference_data.py:145-147 | missing fields are reported in the order the list declares them, each absent one exactly once |
| ReferenceData.TypeErrorsInOrder | tests/integration/reference_data.py:150-152 | a type line is reported, in declared order, exactly for each present field (non-None where None is skipped) whose value is not an instance of its declared type |
| ReferenceData.TypeKind | tests/integration/reference_data.py:150-152 | the type loop reports only wrong types |
| ReferenceData.ValidateTikTokItem | tests/integration/reference_data.py:140-169 | the TikTok validator returns the rendered report of the item, or the TypeError a non-string author name raises |
| ReferenceData.CheckTikTokFields | tests/integration/reference_data.py:144-156 | the required-field, type and id checks give the lines of their problems |
| ReferenceData.CheckAuthorMeta | tests/integration/reference_data.py:158-169 | after the first checks, the authorMeta checks complete the item's report |
| ReferenceData.CheckAuthorDict | tests/integration/reference_data.py:160-167 | the author checks append their lines, or fail with the TypeError of `re.match` on a non-string name |
| ReferenceData.TikTokParts | tests/integration/reference_data.py:140-169 | the report is the missing fields, then wrong types, then the id, then the authorMeta problems |
| ReferenceData.AuthorKind | tests/integration/reference_data.py:158-167 | the authorMeta checks report only authorMeta fields and usernames |
| ReferenceData.TikTokBaseKind | tests/integration/reference_data.py:144-156 | the checks before authorMeta report only required fields, wrong types and the id |
| ReferenceData.TikTokMissingReported | tests/integration/reference_data.py:144-147 | the report opens with the missing required fields, and a required field is reported iff it is absent |
| ReferenceData.TikTokTypeErrorsOnlyPresent | tests/integration/reference_data.py:149-152 | a type problem is reported exactly for each present field of the wrong type, in declared order |
| ReferenceData.TikTokIdReported | tests/integration/reference_data.py:154-156 | the id problem is reported iff the item has an id whose `str` does not match `^\d{17,20}$` |
| ReferenceData.AuthorChecksNeedDict | tests/integration/reference_data.py:158-159 | without an authorMeta dict there is no authorMeta line, no username line and no TypeError |
| ReferenceData.AuthorChecksForDict | tests/integration/reference_data.py:158-167 | with an authorMeta dict: TypeError iff the name is present and not a string; otherwise an author field is reported iff absent, and the username iff it does not match `^[a-zA-Z0-9_.]+$` |
| ReferenceData.IntIdMatchesIffDigitCount | tests/integration/reference_data.py:155-156 | an integer id passes the id pattern iff it has 17 to 20 digits; a negative one never does |
| ReferenceData.TikTokIdEdges | tests/integration/reference_data.py:155-156 | `$` lets a 19-digit id with a final newline through, while 16 digits are too few |
| ReferenceData.DigitCountRange | tests/integration/reference_data.py:78 | a count has between lo and hi digits iff it lies between the matching powers of ten |
| ReferenceData.ValidateApifyStatus | tests/integration/reference_data.py:172-192 | the status validator returns the lines of the status's problems |
| ReferenceData.ApifyStatusChecked | tests/integration/reference_data.py:172-192 | a missing status is reported iff absent; a present status iff it is not one of the eight values; stats are checked only when a dict; and nothing is reported iff all of that holds |
| ReferenceData.PatternKind | tests/integration/reference_data.py:317-320 | the pattern loop reports only pattern mismatches |
| ReferenceData.ValidateYouTubeItem | tests/integration/reference_data.py:301-351 | the YouTube validator returns the lines of the item's problems |
| ReferenceData.CheckYouTubeFields | tests/integration/reference_data.py:305-320 | the required-field, type and pattern loops give the lines of their problems |
| ReferenceData.CheckAboutChannel | tests/integration/reference_data.py:322-336 | the aboutChannelInfo checks run only on a dict and append its lines |
| ReferenceData.CheckAboutInfo | tests/integration/reference_data.py:324-336 | the channel info's missing fields, then its two integer checks, are appended |
| ReferenceData.AppendIntField | tests/integration/reference_data.py:330-336 | a present count that is not an int is reported |
| ReferenceData.CheckRanges | tests/integration/reference_data.py:338-349 | the three range checks append their lines |
| ReferenceData.AppendNegative | tests/integration/reference_data.py:339-349 | a count that is an int and negative is reported |
| ReferenceData.NoneSkipsChecks | tests/integration/reference_data.py:311-320 | a None value is neither type- nor pattern-checked; every failing present non-None value is reported |
| ReferenceData.NegativeCountReported | tests/integration/reference_data.py:338-349 | a negative-count line is reported iff the field is viewCount, likes or commentsCount and holds a negative integer |
| ReferenceData.RangeReported | tests/integration/reference_data.py:338-349 | the range checks flag exactly the negative counts among the three |
| ReferenceData.NoNegativeBeforeRanges | tests/integration/reference_data.py:305-336 | no check before the range checks reports a negative count |
| ReferenceData.AboutInfoKind | tests/integration/reference_data.py:324-336 | the channel info checks report only missing fields and non-int counts |
| ReferenceData.ValidateYouTubeChannelInfo | tests/integration/reference_data.py:354-372 | the channel validator returns the lines of the info's problems |
| ReferenceData.ChannelInfoChecked | tests/integration/reference_data.py:358-370 | nothing is reported iff the four fields are present and the subscriber count is a non-negative int; a field is reported iff absent |

## Left out

- Network and cloud calls (aiohttp, requests, the Apify SDK, Cloud Storage, BigQuery, Pub/Sub) are not modelled. Their results are inputs: an HTTP status and body, an SDK record, or a success or error outcome.
- Concurrency is not modelled: the thread pool, the lock and async/await. The active-task set is a field updated by sequential calls.
- `time.sleep`, `datetime.utcnow()` and `uuid.uuid4()` are parameters. The storage retry loop records the sleeps it would make instead of sleeping.
- JSON decoding is an abstract decoder: a whole-text decoder, and a decoder at an index that ends strictly after it. Decoder exceptions other than a decode failure, and chunked UTF-8 decoding, are not modelled.
- Regular expressions are explicit predicates. Unicode `\d` is modelled as the ASCII digits. `re.match` accepting bytes is not modelled because the core never passes bytes.
- `strptime` is modelled as zero-padded `YYYY-MM-DD` with calendar checks. Single-digit fields, which `strptime` also accepts, are not modelled.
- Floating-point logic is left out: the elapsed and estimated completion of the status endpoint (with `fromisoformat`), cost fields and the cost thresholds. `Json.Value` has no floats.
- `str()` of a list or dict renders as `<list>` / `<dict>`, not as Python's repr. The message of a JSON decode error is a fixed text.
- The TypeError text of `re.match` on a non-string follows Python 3.11 and later.
- `lower()` and `capitalize()` map ASCII letters only.
- YAML loading, the file-existence check and `__import__` are not modelled. The registry takes whether the file exists, the loaded `platforms` section (absent, a mapping given as its entries in file order, or any other value), and a map from module path to the class names it defines. An empty YAML document (`None`), on which the `'platforms' in` test raises a TypeError, is not modelled.
- Registry.Load: a platform key that is not a string is not modelled, because section entries are keyed by strings. The source builds that entry's configuration, then raises an AttributeError at `platform.lower()` (registry.py:134), which the `except (KeyError, ValueError)` does not catch. The same holds for Registry.PlatformRegistry.LoadFromConfig and LoadDefaultConfig.
- The platform configuration stores whatever values the entry gives, as the dataclass does. The model does not check their types when loading; a wrongly typed value fails only where a handler uses it, as in `lower()` of a non-string name or iteration over a non-iterable `required_params`.
- `get_platform_handler` and `_auto_initialize` are not modelled; they only wire the registry to module globals.
- The debug-file writer (`_store_failed_response_for_debug`) and all logging are left out.
- `health_check` in app.py is not modelled beyond the active-task set it reports.
- Ingestion: `_store_crawl_snapshot_bigquery` is modelled only by its rule that the stored raw data is `{}` at 1,000,000 characters or more. Its errors are logged and swallowed, so it changes no result.
- App.Service.BackgroundPollAndDownload takes the download's result as an input. The download itself is `Ingestion.CrawlHandler.DownloadData`.
- Integer environment settings are given already parsed. Python's `int()` parsing of them is not modelled.
- Key order of dictionaries is not modelled: objects are maps. So the TikTok whitelist is a set of keys, where the source's list only fixes the order in which the keys are inserted.
- The `secUid` pattern in the reference data is never used by a validator, so it is not modelled.
- The facades brightdata/client.py and brightdata/handlers/connection_handler.py are not part of this model: they delegate, or probe the network.
- The placeholders `list_recent_runs` / `cancel_job` of the BrightData client are left out, as are Apify's `export_dataset`, `list_recent_runs` and `cancel_job`. They are network-only.
- Setup scripts, test drivers and `__init__.py` wiring are left out.
- Iterating a dict of required parameters is modelled by its keys in an unspecified order. The validation answer depends on that order only when two keys fail in different ways, which a dict of string keys cannot do.

## Findings

| source | as written | input that shows it | evidently intended | confidence | as-written member | corrected member |
|---|---|---|---|---|---|---|
| brightdata/handlers/download_handler.py:161 | `idx += end_idx` adds the decoder's absolute end index to the cursor | the text `{}{}{}`: after the second object (ending at 4) the cursor jumps from 2 to 6, so two records come back instead of three | `idx = end_idx`, continuing where the value ended | not executed | DownloadHandler.AsWrittenSkipsObjects | DownloadHandler.ScanRecoversAll |
| app.py:136-144 | the timeout check runs after the loop whatever made it stop | `max_polls = 1` and a crawl ready at the first poll: the download's completion is published and then a `polling_timeout` failure as well | a timeout only when polling was exhausted without an outcome | not executed | App.ReadyAtLastPollReportsTimeoutToo | App.OneReportPerTask |
| api_clients/brightdata_client.py:288 | `except aiohttp.ClientTimeout:` names a class that is not an exception | a 404 reply to the download: evaluating the except clause raises TypeError, which replaces the intended APIClientError | an except clause naming a timeout exception class, so that the APIClientError with code 404 passes through | not executed | BrightDataApi.NotFoundSurfacesAsTypeError | BrightDataApi.DownloadOutcome |
| platforms/registry.py:140-149 | the handler class is looked up as `platform.capitalize() + "Handler"` | the platform `tiktok`, whose module defines `TikTokHandler`: `capitalize()` gives `Tiktok`, so the lookup finds no handler | find the platform's handler class whatever its inner capitals | not executed | Registry.AsWrittenMissesTikTok | Registry.LookupFindsTikTok |
