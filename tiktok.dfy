/** The TikTok profile (platforms/tiktok/handler.py): the Apify actor
    input, URL validation, video extraction and metric renaming. */
module TikTok {
  import opened Wrappers
  import opened Json
  import opened Strings
  import opened Platforms

  // ---------------------------------------------------------------------
  // prepare_request_params

  /** The actor options copied through when the caller gives them. */
  const ApifyParams: set<string> := {
    "excludePinnedPosts", "profileScrapeSections", "profileSorting",
    "proxyCountryCode", "resultsPerPage", "scrapeRelatedVideos",
    "shouldDownloadAvatars", "shouldDownloadCovers", "shouldDownloadMusicCovers",
    "shouldDownloadSlideshowImages", "shouldDownloadSubtitles", "shouldDownloadVideos"}

  /** The two date bounds, copied through unchanged. */
  const DateParams: set<string> := {"newestPostDate", "oldestPostDateUnified"}

  /** Every key copied from the request as it is. */
  const CopiedParams: set<string> := DateParams + ApifyParams

  /** The options the actor receives when the caller leaves them out. */
  const Defaults: Object := map[
    "excludePinnedPosts" := Bool(true),
    "profileScrapeSections" := List([Str("videos")]),
    "profileSorting" := Str("latest"),
    "proxyCountryCode" := Str("None"),
    "resultsPerPage" := Int(10)]

  /** The `profiles` entry: a `url` becomes a one-element list and wins over
      a `profiles` list. */
  function ProfilesEntry(f: Object): (r: Object)
    ensures r.Keys <= {"profiles"}
    ensures "url" in f ==> r == map["profiles" := List([f["url"]])]
    ensures "url" !in f && "profiles" in f ==> r == map["profiles" := f["profiles"]]
    ensures "url" !in f && "profiles" !in f ==> r == map[]
  {
    if "url" in f then map["profiles" := List([f["url"]])]
    else if "profiles" in f then map["profiles" := f["profiles"]]
    else map[]
  }

  /** The copied keys present in the request, with their values. */
  function Copied(f: Object, keys: set<string>): (r: Object)
    ensures r.Keys == f.Keys * keys
    ensures forall k :: k in r ==> r[k] == f[k]
  {
    map k | k in f.Keys * keys :: f[k]
  }

  /** What `prepare_request_params` returns. */
  function PreparedParams(params: Value): (r: Object)
    ensures !params.Dict? ==> r == map[]
    ensures params.Dict? ==>
      r.Keys == ProfilesEntry(params.fields).Keys + (params.fields.Keys * CopiedParams) + Defaults.Keys
    ensures params.Dict? ==> forall k :: k in CopiedParams && k in params.fields ==> r[k] == params.fields[k]
    ensures params.Dict? ==> forall k :: k in Defaults && k !in params.fields ==> r[k] == Defaults[k]
    ensures params.Dict? ==> "profiles" in params.fields || "url" in params.fields ==>
      r["profiles"] == ProfilesEntry(params.fields)["profiles"]
  {
    if !params.Dict? then map[]
    else
      KeyFacts();
      Defaults + ProfilesEntry(params.fields) + Copied(params.fields, CopiedParams)
  }

  /** One step of the copy loop: copying `k` when the request has it. */
  lemma CopyStep(f: Object, base: Object, keys: set<string>, k: string)
    ensures (if k in f then (base + Copied(f, keys))[k := f[k]] else base + Copied(f, keys))
            == base + Copied(f, keys + {k})
  {
  }

  /** Copying two key sets one after the other. */
  lemma CopyUnion(f: Object, base: Object, a: set<string>, b: set<string>)
    ensures base + Copied(f, a) + Copied(f, b) == base + Copied(f, a + b)
  {
  }

  /** One default: set only when the key is still absent. */
  function WithDefault(m: Object, k: string, v: Value): (r: Object)
    ensures k in m ==> r == m
    ensures k !in m ==> r == m[k := v]
  {
    if k in m then m else m[k := v]
  }

  /** The five `if key not in params` steps, in the order they run. */
  function FillDefaults(m: Object): Object {
    var m1 := WithDefault(m, "excludePinnedPosts", Bool(true));
    var m2 := WithDefault(m1, "profileScrapeSections", List([Str("videos")]));
    var m3 := WithDefault(m2, "profileSorting", Str("latest"));
    var m4 := WithDefault(m3, "proxyCountryCode", Str("None"));
    WithDefault(m4, "resultsPerPage", Int(10))
  }

  /** The five steps add exactly the defaults the request lacks. */
  lemma FillDefaultsIsUnion(m: Object)
    ensures FillDefaults(m) == Defaults + m
  {
    var r := FillDefaults(m);
    FillDefaultsKeys(m);
    forall k | k in r
      ensures r[k] == (Defaults + m)[k]
    {
      FillDefaultsAt(m, k);
    }
  }

  /** The keys after the five steps: the request's and the defaults'. */
  lemma FillDefaultsKeys(m: Object)
    ensures FillDefaults(m).Keys == Defaults.Keys + m.Keys
  {
  }

  /** The value of a key after the five steps: the request's when it has
      the key, the default otherwise. */
  lemma FillDefaultsAt(m: Object, k: string)
    requires k in FillDefaults(m)
    ensures FillDefaults(m)[k] == if k in m then m[k] else Defaults[k]
  {
    var m1 := WithDefault(m, "excludePinnedPosts", Bool(true));
    var m2 := WithDefault(m1, "profileScrapeSections", List([Str("videos")]));
    var m3 := WithDefault(m2, "profileSorting", Str("latest"));
    var m4 := WithDefault(m3, "proxyCountryCode", Str("None"));
    if k in m {
      assert m4[k] == m[k];
    }
  }

  /** The `for param in apify_params` loop: every listed option the request
      has is copied into `into`. */
  method CopyOptions(f: Object, options: set<string>, into: Object) returns (r: Object)
    ensures r == into + Copied(f, options)
  {
    r := into;
    var pending := options;
    ghost var done: set<string> := {};
    while pending != {}
      invariant done + pending == options
      invariant r == into + Copied(f, done)
      decreases pending
    {
      var param :| param in pending;
      CopyStep(f, into, done, param);
      if param in f {
        r := r[param := f[param]];
      }
      pending := pending - {param};
      done := done + {param};
    }
  }

  /** `prepare_request_params`: profiles, the dates, the copy loop over the
      actor options, then the five defaults. */
  method PrepareRequestParams(params: Value) returns (r: Object)
    ensures r == PreparedParams(params)
  {
    if !params.Dict? {
      return map[];
    }
    var f := params.fields;
    var profiles := ProfilesEntry(f);
    r := profiles;
    if "newestPostDate" in f {
      r := r["newestPostDate" := f["newestPostDate"]];
    }
    if "oldestPostDateUnified" in f {
      r := r["oldestPostDateUnified" := f["oldestPostDateUnified"]];
    }
    DatesCopied(f, profiles);
    r := CopyOptions(f, ApifyParams, r);
    CopyUnion(f, profiles, DateParams, ApifyParams);
    ghost var copied := r;
    assert copied == profiles + Copied(f, CopiedParams);
    r := WithDefault(r, "excludePinnedPosts", Bool(true));
    r := WithDefault(r, "profileScrapeSections", List([Str("videos")]));
    r := WithDefault(r, "profileSorting", Str("latest"));
    r := WithDefault(r, "proxyCountryCode", Str("None"));
    r := WithDefault(r, "resultsPerPage", Int(10));
    assert r == FillDefaults(copied);
    FillDefaultsIsUnion(copied);
    UnionAssociates(Defaults, profiles, Copied(f, CopiedParams));
  }

  /** Map union associates. */
  lemma UnionAssociates(a: Object, b: Object, c: Object)
    ensures a + (b + c) == a + b + c
  {
    forall k | k in a + b + c
      ensures (a + (b + c))[k] == (a + b + c)[k]
    {
    }
  }

  /** The two date `if`s copy exactly the date bounds the request has. */
  lemma DatesCopied(f: Object, base: Object)
    ensures (var m1 := if "newestPostDate" in f then base["newestPostDate" := f["newestPostDate"]] else base;
             if "oldestPostDateUnified" in f then m1["oldestPostDateUnified" := f["oldestPostDateUnified"]] else m1)
            == base + Copied(f, DateParams)
  {
    CopyStep(f, base, {}, "newestPostDate");
    CopyStep(f, base, {"newestPostDate"}, "oldestPostDateUnified");
    assert base + Copied(f, {}) == base;
  }

  /** Preparing the parameters prepared from a dict changes nothing: the
      `profiles` list is kept, and every other key is either copied or
      already defaulted. (A non-dict request prepares to `{}`, which then
      prepares to the defaults.) */
  lemma PrepareIdempotent(f: Object)
    ensures PreparedParams(Dict(PreparedParams(Dict(f)))) == PreparedParams(Dict(f))
  {
    var r := PreparedParams(Dict(f));
    assert r == Defaults + ProfilesEntry(f) + Copied(f, CopiedParams);
    assert PreparedParams(Dict(r)) == Defaults + ProfilesEntry(r) + Copied(r, CopiedParams);
    KeyFacts();
    RebuildIsIdentity(f, Defaults, CopiedParams);
  }

  /** The keys the builder produces: neither `url` nor `profiles` is copied
      or defaulted, and every defaulted key is also a copied one. */
  lemma KeyFacts()
    ensures "url" !in CopiedParams && "url" !in Defaults
    ensures "profiles" !in CopiedParams && "profiles" !in Defaults
    ensures Defaults.Keys <= CopiedParams
  {
  }

  /** Rebuilding from a built map gives it back, for any defaults and copied
      keys that leave `url` and `profiles` alone. */
  lemma RebuildIsIdentity(f: Object, defaults: Object, copied: set<string>)
    requires "url" !in copied && "url" !in defaults
    requires "profiles" !in copied && "profiles" !in defaults
    requires defaults.Keys <= copied
    ensures var r := defaults + ProfilesEntry(f) + Copied(f, copied);
            defaults + ProfilesEntry(r) + Copied(r, copied) == r
  {
    var r := defaults + ProfilesEntry(f) + Copied(f, copied);
    assert ProfilesEntry(r) == ProfilesEntry(f);
  }

  // ---------------------------------------------------------------------
  // validate_params

  /** One pass of the required-field loop, `field not in params or not
      params[field]`: Ok(true) lets the loop go on. A field that is not a
      string is never a key of `params`, and a list or dict cannot be
      looked up at all. */
  function FieldCheck(field: Value, params: Object): (r: Result<bool, string>)
    ensures field.Str? ==> r == Ok(field.s in params && Truthy(params[field.s]))
    ensures (field.List? || field.Dict?) <==> r.Err?
  {
    match field
    case Str(s) => Ok(s in params && Truthy(params[s]))
    case List(_) => Err("unhashable type: 'list'")
    case Dict(_) => Err("unhashable type: 'dict'")
    case _ => Ok(false)
  }

  /** The loop over `fields` in order: the first check that does not pass
      ends it with its own verdict. */
  function CheckFields(fields: seq<Value>, params: Object): (r: Result<bool, string>)
    ensures r == Ok(true) <==> forall i :: 0 <= i < |fields| ==> FieldCheck(fields[i], params) == Ok(true)
    ensures r != Ok(true) ==> exists i :: 0 <= i < |fields| && r == FieldCheck(fields[i], params)
  {
    if fields == [] then Ok(true)
    else
      var v := FieldCheck(fields[0], params);
      if v != Ok(true) then v
      else
        var r := CheckFields(fields[1..], params);
        assert forall i :: 1 <= i < |fields| ==> fields[i] == fields[1..][i - 1];
        r
  }

  /** The loop stops at the first field that does not pass, with that
      field's verdict. */
  lemma {:induction false} CheckFieldsStopsAt(fields: seq<Value>, params: Object, k: nat)
    requires k < |fields|
    requires forall i :: 0 <= i < k ==> FieldCheck(fields[i], params) == Ok(true)
    requires FieldCheck(fields[k], params) != Ok(true)
    ensures CheckFields(fields, params) == FieldCheck(fields[k], params)
  {
    if k > 0 {
      assert FieldCheck(fields[0], params) == Ok(true);
      CheckFieldsStopsAt(fields[1..], params, k - 1);
    }
  }

  /** The one-character strings iterating over `s` yields. */
  function Chars(s: string): (r: seq<Value>)
    ensures |r| == |s| && forall i :: 0 <= i < |s| ==> r[i] == Str([s[i]])
  {
    seq(|s|, i requires 0 <= i < |s| => Str([s[i]]))
  }

  /** The TypeError of `for field in v` on a value that is not iterable. */
  function NotIterableText(v: Value): string {
    "'" + TypeName(v) + "' object is not iterable"
  }

  /** `for field in required`: a list yields its items, a string its
      characters, a dict its keys (strings, which never raise, so their order
      does not change the outcome); anything else is not iterable. */
  function Required(required: Value, params: Object): (r: Result<bool, string>)
    ensures required.List? ==> r == CheckFields(required.items, params)
    ensures required.Str? ==> r == CheckFields(Chars(required.s), params)
    ensures required.Dict? ==> r == Ok(forall k :: k in required.fields ==> k in params && Truthy(params[k]))
    ensures !(required.List? || required.Str? || required.Dict?) ==> r == Err(NotIterableText(required))
  {
    match required
    case List(items) => CheckFields(items, params)
    case Str(s) => CheckFields(Chars(s), params)
    case Dict(fields) => Ok(forall k :: k in fields ==> k in params && Truthy(params[k]))
    case _ => Err(NotIterableText(required))
  }

  /** With the declared list of strings, the loop never raises, and passes
      exactly when every listed field is present and truthy. */
  lemma RequiredStringList(required: Value, params: Object)
    requires StringList(required)
    ensures Required(required, params).Ok?
    ensures Required(required, params) == Ok(true) <==>
      forall i :: 0 <= i < |required.items| ==> required.items[i].s in params && Truthy(params[required.items[i].s])
  {
    if CheckFields(required.items, params).Err? {
      var i :| 0 <= i < |required.items| && CheckFields(required.items, params) == FieldCheck(required.items[i], params);
    }
  }

  /** The URL test on a truthy `url` value. `in` on a list or dict tests
      membership; when that fails, `startswith` does not exist on them; on a
      number `in` itself raises. */
  function UrlVerdict(url: Value): (r: Result<bool, string>)
    requires Truthy(url)
    ensures url.Str? ==> r.Ok?
    ensures url.Str? ==> (r.value <==>
      (|| Contains(url.s, "tiktok.com")
       || (&& StartsWith(url.s, "@") && !Contains(url.s, "instagram.com")
           && !Contains(url.s, "facebook.com") && !Contains(url.s, "youtube.com"))))
    ensures url.List? ==> r == if Str("tiktok.com") in url.items then Ok(true)
                               else Err("'list' object has no attribute 'startswith'")
    ensures url.Dict? ==> r == if "tiktok.com" in url.fields then Ok(true)
                               else Err("'dict' object has no attribute 'startswith'")
    ensures IsPyInt(url) ==> r == Err("argument of type '" + TypeName(url) + "' is not iterable")
  {
    match url
    case Str(s) =>
      if Contains(s, "tiktok.com") then Ok(true)
      else Ok(StartsWith(s, "@") && !Contains(s, "tiktok.com") && !Contains(s, "instagram.com")
              && !Contains(s, "facebook.com") && !Contains(s, "youtube.com"))
    case List(items) =>
      if Str("tiktok.com") in items then Ok(true) else Err("'list' object has no attribute 'startswith'")
    case Dict(fields) =>
      if "tiktok.com" in fields then Ok(true) else Err("'dict' object has no attribute 'startswith'")
    case _ => Err("argument of type '" + TypeName(url) + "' is not iterable")
  }

  /** What `validate_params` returns or raises. */
  function Validation(required: Value, params: Object): (r: Result<bool, string>)
    ensures r == Ok(true) ==> Required(required, params) == Ok(true) && "url" in params
    ensures Required(required, params) != Ok(true) ==> r == Required(required, params)
    ensures Required(required, params) == Ok(true) && !Truthy(Get(params, "url", Str(""))) ==> r == Ok(false)
    ensures Required(required, params) == Ok(true) && Truthy(Get(params, "url", Str(""))) ==> r == UrlVerdict(params["url"])
  {
    var verdict := Required(required, params);
    if verdict != Ok(true) then verdict
    else
      var url := Get(params, "url", Str(""));
      if !Truthy(url) then Ok(false) else UrlVerdict(url)
  }

  /** The keys of `m` in the order iterating over the dict yields them,
      which the model does not fix. */
  method KeyOrder(m: Object) returns (keys: seq<Value>)
    ensures forall i :: 0 <= i < |keys| ==> keys[i].Str? && keys[i].s in m
    ensures forall k :: k in m ==> Str(k) in keys
  {
    keys := [];
    var rest := m.Keys;
    while rest != {}
      invariant rest <= m.Keys
      invariant forall i :: 0 <= i < |keys| ==> keys[i].Str? && keys[i].s in m
      invariant forall k :: k in m ==> k in rest || Str(k) in keys
      decreases rest
    {
      var k :| k in rest;
      keys := keys + [Str(k)];
      rest := rest - {k};
    }
  }

  /** `validate_params`: the loop over the configured required fields, then
      the URL test. */
  method ValidateParams(config: PlatformConfig, params: Object) returns (r: Result<bool, string>)
    ensures r == Validation(config.requiredParams, params)
  {
    var required := config.requiredParams;
    var fields: seq<Value>;
    match required {
      case List(items) => fields := items;
      case Str(s) => fields := Chars(s);
      case Dict(m) => fields := KeyOrder(m);
      case _ => return Err(NotIterableText(required));
    }
    for i := 0 to |fields|
      invariant forall j :: 0 <= j < i ==> FieldCheck(fields[j], params) == Ok(true)
    {
      var check := FieldCheck(fields[i], params);
      if check != Ok(true) {
        if !required.Dict? {
          CheckFieldsStopsAt(fields, params, i);
        }
        return check;
      }
    }
    var url := Get(params, "url", Str(""));
    if !Truthy(url) {
      return Ok(false);
    }
    r := UrlVerdict(url);
  }

  /** Requiring only `url` passes exactly when `url` is present and truthy. */
  lemma RequiresOnlyUrl(params: Object)
    ensures Required(List([Str("url")]), params) == Ok("url" in params && Truthy(params["url"]))
  {
    assert CheckFields([Str("url")][1..], params) == Ok(true);
  }

  /** A bare handle is accepted, and so is a profile URL. */
  lemma AcceptsHandleAndProfileUrl()
    ensures Validation(List([Str("url")]), map["url" := Str("@nike")]) == Ok(true)
    ensures Validation(List([Str("url")]), map["url" := Str("www.tiktok.com/@nike")]) == Ok(true)
  {
    RequiresOnlyUrl(map["url" := Str("@nike")]);
    RequiresOnlyUrl(map["url" := Str("www.tiktok.com/@nike")]);
    var h := "@nike";
    ContainsNeedsRoom(h, "tiktok.com");
    ContainsNeedsRoom(h, "instagram.com");
    ContainsNeedsRoom(h, "facebook.com");
    ContainsNeedsRoom(h, "youtube.com");
    assert h[..1] == "@";
    var u := "www.tiktok.com/@nike";
    assert OccursAt(u, "tiktok.com", 4);
    ContainsAt(u, "tiktok.com");
  }

  /** A handle naming another platform's domain is refused. */
  lemma RejectsForeignHandle()
    ensures Validation(List([Str("url")]), map["url" := Str("@youtube.com")]) == Ok(false)
  {
    RequiresOnlyUrl(map["url" := Str("@youtube.com")]);
    var y := "@youtube.com";
    YoutubeHandleFacts();
    assert y[..1] == "@";
  }

  /** The handle `@youtube.com` names YouTube's domain and not TikTok's. */
  lemma YoutubeHandleFacts()
    ensures !Contains("@youtube.com", "tiktok.com")
    ensures Contains("@youtube.com", "youtube.com")
  {
    assert "tiktok.com"[2] == 'k';
    MissingCharNotContained("@youtube.com", "tiktok.com", 'k');
    NamesYoutube();
  }

  /** The handle names the YouTube domain right after its `@`. */
  lemma NamesYoutube()
    ensures Contains("@youtube.com", "youtube.com")
  {
    var y := "@youtube.com";
    assert StartsWith(y[1..], "youtube.com");
  }

  /** A name without `@` or `tiktok.com` is refused. */
  lemma RejectsBareName()
    ensures Validation(List([Str("url")]), map["url" := Str("nike")]) == Ok(false)
  {
    RequiresOnlyUrl(map["url" := Str("nike")]);
    var n := "nike";
    ContainsNeedsRoom(n, "tiktok.com");
    assert n[..1] != "@" by { assert n[..1][0] == 'n'; }
  }

  // ---------------------------------------------------------------------
  // extract_media_info

  /** The media summary of one video. */
  datatype VideoMedia = VideoMedia(
    hasMedia: bool, mediaCount: int, mediaTypes: seq<string>,
    duration: Value, playCount: Value, isAd: Value, videoUrl: Value,
    coverImage: Value, height: Value, width: Value)

  /** `extract_media_info`: `videoMeta.get` is called whether or not the
      metadata is present, so a non-dict `videoMeta` raises. */
  function ExtractMediaInfo(data: Object): (r: Result<VideoMedia, string>)
    ensures r.Err? <==> !Get(data, "videoMeta", Dict(map[])).Dict?
    ensures r.Err? ==> r.error == NoGetText(Get(data, "videoMeta", Dict(map[])))
    ensures r.Ok? ==> (r.value.hasMedia <==> r.value.mediaCount == 1)
    ensures r.Ok? ==> r.value.mediaCount == |r.value.mediaTypes| <= 1
    ensures r.Ok? ==> (r.value.hasMedia <==> "videoMeta" in data && data["videoMeta"].fields != map[])
    ensures r.Ok? ==> r.value.playCount == Get(data, "playCount", Int(0)) && r.value.isAd == Get(data, "isAd", Bool(false))
    ensures r.Ok? ==> r.value.videoUrl == GetOpt(data, "webVideoUrl")
    ensures r.Ok? ==> r.value.mediaTypes == (if r.value.hasMedia then ["video"] else [])
    ensures r.Ok? ==>
      (var meta := Get(data, "videoMeta", Dict(map[])).fields;
       && r.value.duration == Get(meta, "duration", Int(0))
       && r.value.coverImage == GetOpt(meta, "coverUrl")
       && r.value.height == GetOpt(meta, "height")
       && r.value.width == GetOpt(meta, "width"))
  {
    var meta := Get(data, "videoMeta", Dict(map[]));
    var hasVideo := Truthy(meta);
    if !meta.Dict? then Err(NoGetText(meta))
    else
      Ok(VideoMedia(
        hasVideo, if hasVideo then 1 else 0, if hasVideo then ["video"] else [],
        Get(meta.fields, "duration", Int(0)), Get(data, "playCount", Int(0)), Get(data, "isAd", Bool(false)),
        GetOpt(data, "webVideoUrl"), GetOpt(meta.fields, "coverUrl"),
        GetOpt(meta.fields, "height"), GetOpt(meta.fields, "width")))
  }

  /** The summary reads only `videoMeta`, `playCount`, `isAd` and
      `webVideoUrl`: two posts that agree on those four keys, present or
      absent, get the same summary, or the same error. */
  lemma MediaInfoReadsFourKeys(a: Object, b: Object)
    requires forall k :: k in ["videoMeta", "playCount", "isAd", "webVideoUrl"] ==>
      (k in a <==> k in b) && (k in a ==> a[k] == b[k])
    ensures ExtractMediaInfo(a) == ExtractMediaInfo(b)
  {
  }

  // ---------------------------------------------------------------------
  // get_storage_path, get_api_client

  /** `get_storage_path`: no argument check, unlike the Facebook profile; any
      snapshot id is rendered with `str`, and only a configured name that is
      not a string makes it raise. */
  function GetStoragePath(config: PlatformConfig, snapshotId: Value, competitor: string, brand: string,
                          category: string, timestamp: DateTime): (r: Result<string, string>)
    requires ValidDateTime(timestamp)
    ensures r.Ok? <==> config.name.Str?
    ensures r.Err? ==> r.error == NoLowerText(config.name)
    ensures r.Ok? ==> StartsWith(r.value, "raw_snapshots/platform=" + Lower(config.name.s) + "/competitor=")
    ensures r.Ok? ==> r.value == StoragePrefix(config.name.s, competitor, brand, category, timestamp) + "snapshot_" + PyStr(snapshotId) + ".json"
  {
    if !config.name.Str? then Err(NoLowerText(config.name))
    else Ok(StoragePath(config.name.s, snapshotId, competitor, brand, category, timestamp))
  }

  /** `get_api_client` always raises NotImplementedError. */
  function GetApiClient(): (r: Result<(), string>)
    ensures r == Err("API client is managed externally")
  {
    Err("API client is managed externally")
  }

  // ---------------------------------------------------------------------
  // parse_api_response

  /** A dataset item that is a video: a dict with a truthy `webVideoUrl`. */
  predicate IsVideo(item: Value) {
    item.Dict? && Truthy(GetOpt(item.fields, "webVideoUrl"))
  }

  /** The videos among `items`, in order. */
  function Videos(items: seq<Value>): (r: seq<Value>)
    ensures |r| <= |items|
    ensures forall k :: 0 <= k < |r| ==> IsVideo(r[k])
  {
    if items == [] then []
    else Videos(items[..|items| - 1]) + (if IsVideo(items[|items| - 1]) then [items[|items| - 1]] else [])
  }

  /** What `parse_api_response` returns. */
  function ParsedResponse(response: Value): (r: seq<Value>)
    ensures response.List? ==> r == Videos(response.items)
    ensures response.Dict? ==> r == if IsVideo(response) then [response] else []
    ensures !response.List? && !response.Dict? ==> r == []
  {
    if response.List? then Videos(response.items)
    else if IsVideo(response) then [response]
    else []
  }

  /** `parse_api_response`: the filtering loop over a list. */
  method ParseApiResponse(response: Value) returns (videos: seq<Value>)
    ensures videos == ParsedResponse(response)
  {
    if response.List? {
      var items := response.items;
      videos := [];
      for i := 0 to |items|
        invariant videos == Videos(items[..i])
      {
        assert items[..i + 1][..i] == items[..i];
        var item := items[i];
        if item.Dict? && Truthy(GetOpt(item.fields, "webVideoUrl")) {
          videos := videos + [item];
        }
      }
      assert items[..|items|] == items;
    } else if response.Dict? && Truthy(GetOpt(response.fields, "webVideoUrl")) {
      videos := [response];
    } else {
      videos := [];
    }
  }

  /** Filtering twice is filtering once. */
  lemma {:induction false} VideosIdempotent(items: seq<Value>)
    ensures Videos(Videos(items)) == Videos(items)
  {
    if items != [] {
      var init := items[..|items| - 1];
      var last := items[|items| - 1];
      VideosIdempotent(init);
      var v := Videos(init);
      if IsVideo(last) {
        var w := v + [last];
        assert Videos(items) == w;
        assert w[..|w| - 1] == v && w[|w| - 1] == last;
      } else {
        assert Videos(items) == v + [];
        assert v + [] == v;
      }
    }
  }

  /** Parsing a parsed response returns it unchanged. */
  lemma ParseIdempotent(response: Value)
    ensures ParsedResponse(List(ParsedResponse(response))) == ParsedResponse(response)
  {
    if response.List? {
      VideosIdempotent(response.items);
    } else if IsVideo(response) {
      assert Videos([response]) == Videos([]) + [response];
    }
  }

  // ---------------------------------------------------------------------
  // extract_hashtags, transform_metrics

  /** `[tag.get('name', '') for tag in tags if isinstance(tag, dict) and 'name' in tag]`. */
  function TagNames(tags: seq<Value>): (r: seq<Value>)
    ensures |r| <= |tags|
    ensures forall i :: 0 <= i < |r| ==> exists t :: t in tags && t.Dict? && "name" in t.fields && r[i] == t.fields["name"]
  {
    if tags == [] then []
    else
      var t := tags[0];
      var rest := TagNames(tags[1..]);
      var r := (if t.Dict? && "name" in t.fields then [t.fields["name"]] else []) + rest;
      assert forall i :: 0 <= i < |r| && (i > 0 || !(t.Dict? && "name" in t.fields)) ==>
        r[i] in rest;
      r
  }

  /** Hashtags of one post are the names of its tags, in order, one per
      named tag. */
  lemma {:induction false} TagNamesAppend(a: seq<Value>, b: seq<Value>)
    ensures TagNames(a + b) == TagNames(a) + TagNames(b)
  {
    if a == [] {
      assert a + b == b;
    } else {
      assert (a + b)[1..] == a[1..] + b;
      TagNamesAppend(a[1..], b);
    }
  }

  /** `extract_hashtags`: a missing or non-list `hashtags` gives none. */
  function ExtractHashtags(data: Object): (r: seq<Value>)
    ensures !Get(data, "hashtags", List([])).List? ==> r == []
    ensures "hashtags" in data && data["hashtags"].List? ==> r == TagNames(data["hashtags"].items)
  {
    var hashtags := Get(data, "hashtags", List([]));
    if hashtags.List? then TagNames(hashtags.items) else []
  }

  /** The standardised metrics of one post. */
  datatype Metrics = Metrics(
    likes: Value, shares: Value, views: Value, comments: Value,
    author: Value, createdAt: Value, isVerified: Value, authorNickname: Value)

  /** `transform_metrics`: TikTok's names mapped to the common ones; a
      non-dict `authorMeta` raises. */
  function TransformMetrics(data: Object): (r: Result<Metrics, string>)
    ensures r.Err? <==> !Get(data, "authorMeta", Dict(map[])).Dict?
    ensures r.Err? ==> r.error == NoGetText(Get(data, "authorMeta", Dict(map[])))
    ensures r.Ok? ==> r.value.likes == Get(data, "diggCount", Int(0)) && r.value.views == Get(data, "playCount", Int(0))
    ensures r.Ok? ==> r.value.shares == Get(data, "shareCount", Int(0)) && r.value.comments == Get(data, "commentCount", Int(0))
    ensures r.Ok? && "authorMeta" !in data ==>
      r.value.author == Str("") && r.value.isVerified == Bool(false) && r.value.authorNickname == Str("")
    ensures r.Ok? ==> r.value.createdAt == Get(data, "createTimeISO", Str(""))
    ensures r.Ok? && "authorMeta" in data ==>
      && r.value.author == Get(data["authorMeta"].fields, "name", Str(""))
      && r.value.isVerified == Get(data["authorMeta"].fields, "verified", Bool(false))
      && r.value.authorNickname == Get(data["authorMeta"].fields, "nickName", Str(""))
  {
    var author := Get(data, "authorMeta", Dict(map[]));
    if !author.Dict? then Err(NoGetText(author))
    else
      Ok(Metrics(
        Get(data, "diggCount", Int(0)), Get(data, "shareCount", Int(0)), Get(data, "playCount", Int(0)),
        Get(data, "commentCount", Int(0)), Get(author.fields, "name", Str("")),
        Get(data, "createTimeISO", Str("")), Get(author.fields, "verified", Bool(false)),
        Get(author.fields, "nickName", Str(""))))
  }
}
