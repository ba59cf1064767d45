/** The Facebook profile (platforms/facebook/handler.py): URL validation,
    the BrightData request parameters, media extraction, storage paths and
    response shaping. */
module Facebook {
  import opened Wrappers
  import opened Json
  import opened Strings
  import opened Platforms
  import Dates

  // ---------------------------------------------------------------------
  // validate_params

  /** The host part of the pattern, `(www\.)?(facebook\.com|fb\.com)`: the
      optional `www.` is taken when present, and taking it never has to be
      undone, because neither domain begins with `w`. */
  predicate HostMatch(host: string) {
    var domain := if StartsWith(host, "www.") then host[4..] else host;
    StartsWith(domain, "facebook.com") || StartsWith(domain, "fb.com")
  }

  /** `https?://(www\.)?(facebook\.com|fb\.com)` matched at the start of an
      already lower-cased string, read left to right as the regex engine
      does; the optional `s` is likewise never given back. */
  predicate PatternMatch(u: string) {
    StartsWith(u, "http") &&
    var afterScheme := if StartsWith(u[4..], "s") then u[5..] else u[4..];
    StartsWith(afterScheme, "://") && HostMatch(afterScheme[3..])
  }

  /** The URL beginnings the pattern is made of: a scheme, then a host. */
  const Schemes: seq<string> := ["http://", "https://"]
  const Hosts: seq<string> := ["facebook.com", "fb.com", "www.facebook.com", "www.fb.com"]

  /** The URL begins with one of the eight scheme-and-host combinations. */
  predicate HasListedPrefix(u: string) {
    exists i, j :: 0 <= i < |Schemes| && 0 <= j < |Hosts| && StartsWith(u, Schemes[i] + Hosts[j])
  }

  lemma StartsWithConcat(u: string, a: string, b: string)
    ensures StartsWith(u, a + b) <==> StartsWith(u, a) && StartsWith(u[|a|..], b)
  {
    if StartsWith(u, a) && StartsWith(u[|a|..], b) {
      assert u[..|a + b|] == u[..|a|] + u[|a|..][..|b|];
    }
    if StartsWith(u, a + b) {
      assert u[..|a|] == (a + b)[..|a|];
      assert u[|a|..][..|b|] == u[..|a + b|][|a|..];
    }
  }

  /** The host part accepts exactly the four host beginnings. */
  lemma HostMatchIff(host: string)
    ensures HostMatch(host) <==>
      (|| StartsWith(host, "facebook.com") || StartsWith(host, "fb.com")
       || StartsWith(host, "www.facebook.com") || StartsWith(host, "www.fb.com"))
  {
    StartsWithConcat(host, "www.", "facebook.com");
    StartsWithConcat(host, "www.", "fb.com");
    if StartsWith(host, "www.") {
      assert host[0] == 'w';
      assert !StartsWith(host, "facebook.com") && !StartsWith(host, "fb.com");
      assert HostMatch(host) <==> StartsWith(host[4..], "facebook.com") || StartsWith(host[4..], "fb.com");
    } else {
      assert !StartsWith(host, "www.facebook.com") && !StartsWith(host, "www.fb.com");
      assert HostMatch(host) <==> StartsWith(host, "facebook.com") || StartsWith(host, "fb.com");
    }
  }

  /** The scheme part accepts exactly `http://` and `https://`. */
  lemma SchemeSplit(u: string)
    ensures PatternMatch(u) <==>
      ((StartsWith(u, "http://") && HostMatch(u[7..])) || (StartsWith(u, "https://") && HostMatch(u[8..])))
  {
    StartsWithConcat(u, "http", "://");
    StartsWithConcat(u, "http", "s://");
    if |u| >= 4 {
      var r := u[4..];
      StartsWithConcat(r, "s", "://");
      if StartsWith(r, "://") {
        assert r[0] == ':';
        assert r[3..] == u[7..];
      }
      if StartsWith(r, "s") && |u| >= 8 {
        assert r[1..] == u[5..];
        assert u[5..][3..] == u[8..];
      }
    }
  }

  /** The pattern accepts exactly the URLs that begin with one of the eight
      scheme-and-host combinations. */
  lemma PatternIsPrefixList(u: string)
    ensures PatternMatch(u) <==> HasListedPrefix(u)
  {
    SchemeSplit(u);
    forall i, j | 0 <= i < |Schemes| && 0 <= j < |Hosts|
      ensures StartsWith(u, Schemes[i] + Hosts[j]) <==> StartsWith(u, Schemes[i]) && StartsWith(u[|Schemes[i]|..], Hosts[j])
    {
      StartsWithConcat(u, Schemes[i], Hosts[j]);
    }
    if |u| >= 7 {
      HostMatchIff(u[7..]);
    }
    if |u| >= 8 {
      HostMatchIff(u[8..]);
    }
    if PatternMatch(u) {
      var i := if StartsWith(u, "http://") && HostMatch(u[7..]) then 0 else 1;
      var host := u[|Schemes[i]|..];
      var j := if StartsWith(host, Hosts[0]) then 0 else if StartsWith(host, Hosts[1]) then 1
               else if StartsWith(host, Hosts[2]) then 2 else 3;
      assert StartsWith(u, Schemes[i] + Hosts[j]);
    }
  }

  /** `validate_params`: a dict whose `url` is a non-empty string that,
      stripped and compared case-insensitively, matches the pattern. */
  function ValidateParams(params: Value): (r: bool)
    ensures r <==>
      (&& params.Dict? && "url" in params.fields && params.fields["url"].Str?
       && params.fields["url"].s != [] && PatternMatch(Lower(Strip(params.fields["url"].s))))
  {
    if !params.Dict? then false
    else
      var url := Get(params.fields, "url", Str(""));
      if !Truthy(url) || !url.Str? then false
      else PatternMatch(Lower(Strip(url.s)))
  }

  /** Profile URLs on the two domains are accepted, with or without `www`,
      whatever the profile path. */
  lemma PatternAcceptsProfiles(path: string)
    ensures PatternMatch("https://www.facebook.com/" + path)
    ensures PatternMatch("http://fb.com/" + path)
  {
    AcceptsSecureWww(path);
    AcceptsPlainShort(path);
  }

  lemma AcceptsSecureWww(path: string)
    ensures PatternMatch("https://www.facebook.com/" + path)
  {
    var host := "www.facebook.com/" + path;
    var u := "https://" + host;
    assert u == "https://www.facebook.com/" + path;
    SchemeSplit(u);
    HostMatchIff(host);
    assert u[..8] == "https://" && u[8..] == host;
    assert host[..16] == "www.facebook.com";
  }

  lemma AcceptsPlainShort(path: string)
    ensures PatternMatch("http://fb.com/" + path)
  {
    var host := "fb.com/" + path;
    var v := "http://" + host;
    assert v == "http://fb.com/" + path;
    SchemeSplit(v);
    HostMatchIff(host);
    assert v[..7] == "http://" && v[7..] == host;
    assert host[..6] == "fb.com";
  }

  /** A mobile sub-domain and a URL without a scheme are refused, whatever
      follows them. */
  lemma PatternRejectsOthers(path: string)
    ensures !PatternMatch("https://m.facebook.com/" + path)
    ensures !PatternMatch("facebook.com/" + path)
  {
    RejectsMobile(path);
    var v := "facebook.com/" + path;
    assert v[..4][0] == 'f';
  }

  lemma RejectsMobile(path: string)
    ensures !PatternMatch("https://m.facebook.com/" + path)
  {
    var host := "m.facebook.com/" + path;
    var u := "https://" + host;
    assert u == "https://m.facebook.com/" + path;
    assert u[4..][..1] == "s";
    assert u[5..][..3] == "://";
    assert u[5..][3..] == host;
    assert host[..4][0] == 'm' && host[..6][0] == 'm' && host[..12][0] == 'm';
  }

  /** A missing or non-string `url` is refused before any matching. */
  lemma ValidateRejectsNonStringUrl()
    ensures !ValidateParams(Dict(map[]))
    ensures !ValidateParams(Dict(map["url" := Int(1)]))
    ensures !ValidateParams(Dict(map["url" := Str("")]))
    ensures !ValidateParams(Str("https://facebook.com"))
  {
  }

  // ---------------------------------------------------------------------
  // prepare_request_params and _convert_date_format

  const ExpectedParams: set<string> := {"url", "num_of_posts", "start_date", "end_date", "include_profile_data", "dataset_id"}

  /** `_convert_date_format`: a string goes through the date conversion, any
      other value becomes its `str`. */
  function ConvertDateFormat(v: Value): (r: string)
    ensures v.Str? ==> r == Dates.ConvertIsoToUs(v.s)
    ensures !v.Str? ==> r == PyStr(v)
  {
    if v.Str? then Dates.ConvertIsoToUs(v.s) else PyStr(v)
  }

  /** The parameters after the whitelist copy. */
  function Whitelisted(f: Object): (r: Object)
    ensures r.Keys == f.Keys * ExpectedParams
    ensures forall k :: k in r ==> r[k] == f[k]
  {
    map k | k in f.Keys * ExpectedParams :: f[k]
  }

  /** A truthy date field, rewritten. */
  function ConvertDateField(m: Object, field: string): (r: Object)
    ensures r.Keys == m.Keys
    ensures forall k :: k in m && k != field ==> r[k] == m[k]
    ensures field in m && Truthy(m[field]) ==> r[field] == Str(ConvertDateFormat(m[field]))
    ensures field in m && !Truthy(m[field]) ==> r[field] == m[field]
  {
    if field in m && Truthy(m[field]) then m[field := Str(ConvertDateFormat(m[field]))] else m
  }

  /** What `prepare_request_params` returns. */
  function PreparedParams(params: Value): (r: Object)
    ensures !params.Dict? ==> r == map[]
    ensures params.Dict? ==> r.Keys == params.fields.Keys * ExpectedParams
    ensures params.Dict? ==> forall k :: k in r && k != "start_date" && k != "end_date" ==> r[k] == params.fields[k]
    ensures params.Dict? ==> forall k :: k in r && (k == "start_date" || k == "end_date") ==>
      r[k] == if Truthy(params.fields[k]) then Str(ConvertDateFormat(params.fields[k])) else params.fields[k]
  {
    if !params.Dict? then map[]
    else ConvertDateField(ConvertDateField(Whitelisted(params.fields), "start_date"), "end_date")
  }

  /** `prepare_request_params`: the copy loop over the incoming keys, then
      the date rewrite. */
  method PrepareRequestParams(params: Value) returns (r: Object)
    ensures r == PreparedParams(params)
  {
    if !params.Dict? {
      return map[];
    }
    var f := params.fields;
    r := map[];
    var remaining := f.Keys;
    while remaining != {}
      invariant remaining <= f.Keys
      invariant r == map k | k in (f.Keys - remaining) * ExpectedParams :: f[k]
      decreases remaining
    {
      var key :| key in remaining;
      if key in ExpectedParams {
        r := r[key := f[key]];
      }
      remaining := remaining - {key};
    }
    assert f.Keys - remaining == f.Keys;
    var dateFields := ["start_date", "end_date"];
    for i := 0 to 2
      invariant r == if i == 0 then Whitelisted(f)
                     else if i == 1 then ConvertDateField(Whitelisted(f), "start_date")
                     else PreparedParams(params)
    {
      var field := dateFields[i];
      if field in r && Truthy(r[field]) {
        r := r[field := Str(ConvertDateFormat(r[field]))];
      }
    }
  }

  /** The date rewrite is stable: preparing already prepared parameters
      changes nothing. */
  lemma PrepareIdempotent(params: Value)
    ensures PreparedParams(Dict(PreparedParams(params))) == PreparedParams(params)
  {
    var r := PreparedParams(params);
    var r2 := PreparedParams(Dict(r));
    if params.Dict? {
      forall k | k in r && (k == "start_date" || k == "end_date") && Truthy(r[k])
        ensures r2[k] == r[k]
      {
        var v := params.fields[k];
        if Truthy(v) {
          assert r[k] == Str(ConvertDateFormat(v));
          if v.Str? {
            Dates.ConvertIdempotent(v.s);
          }
          NonStrDateStable(v);
        }
      }
    }
  }

  /** Converting the string a date field was turned into gives it back. */
  lemma NonStrDateStable(v: Value)
    ensures ConvertDateFormat(Str(ConvertDateFormat(v))) == ConvertDateFormat(v) || v.Str?
  {
    if !v.Str? {
      var s := PyStr(v);
      Dates.ConvertIdempotent(s);
      assert Dates.ConvertIsoToUs(s) == s || Dates.ParseIso(s).Some?;
      if Dates.ParseIso(s).Some? {
        PyStrNotIsoDate(v);
      }
    }
  }

  /** No rendering of a non-string value is a `YYYY-MM-DD` date: the
      renderings of numbers have no `-` after the first character and the
      others are words. */
  lemma PyStrNotIsoDate(v: Value)
    requires !v.Str?
    ensures Dates.ParseIso(PyStr(v)).None?
  {
    var s := PyStr(v);
    if v.Int? && |s| == 10 {
      if v.i < 0 {
        var t := NatToString(-v.i);
        assert s == "-" + t;
        assert s[4] == t[3];
        assert IsDigit(t[3]);
      } else {
        assert IsDigit(s[4]);
      }
    }
  }

  // ---------------------------------------------------------------------
  // extract_media_info

  datatype MediaInfo = MediaInfo(hasMedia: bool, mediaCount: int, mediaTypes: seq<Value>)

  /** `_create_media_info()` with its defaults. */
  const NoMedia := MediaInfo(false, 0, [])

  /** `[a.get('type', '') for a in attachments if isinstance(a, dict) and a.get('type')]`. */
  function MediaTypes(attachments: seq<Value>): (r: seq<Value>)
    ensures |r| <= |attachments|
    ensures forall t :: t in r ==> Truthy(t)
  {
    if attachments == [] then []
    else
      var a := attachments[0];
      (if a.Dict? && Truthy(GetOpt(a.fields, "type")) then [a.fields["type"]] else []) + MediaTypes(attachments[1..])
  }

  /** `extract_media_info`. */
  function ExtractMediaInfo(data: Value): (r: MediaInfo)
    ensures r.hasMedia <==> r.mediaCount > 0
    ensures |r.mediaTypes| <= r.mediaCount
    ensures !data.Dict? ==> r == NoMedia
    ensures data.Dict? ==>
      var atts := Get(data.fields, "attachments", List([]));
      (if atts.List? && atts.items != [] then r == MediaInfo(true, |atts.items|, MediaTypes(atts.items)) else r == NoMedia)
  {
    if !data.Dict? then NoMedia
    else
      var attachments := Get(data.fields, "attachments", List([]));
      if !Truthy(attachments) || !attachments.List? then NoMedia
      else MediaInfo(true, |attachments.items|, MediaTypes(attachments.items))
  }

  /** Every attachment that is a dict with a truthy type contributes its
      type, whatever the others are. */
  lemma {:induction false} MediaTypesAppend(a: seq<Value>, b: seq<Value>)
    ensures MediaTypes(a + b) == MediaTypes(a) + MediaTypes(b)
  {
    if a == [] {
      assert a + b == b;
    } else {
      assert (a + b)[1..] == a[1..] + b;
      MediaTypesAppend(a[1..], b);
    }
  }

  // ---------------------------------------------------------------------
  // get_storage_path, get_api_client, parse_api_response

  /** `get_storage_path`: `timestamp` is None when the argument is not a
      `datetime`. The arguments are checked first; the configured name's
      `lower()` then raises unless the name is a string. */
  function GetStoragePath(config: PlatformConfig, snapshotId: Value, competitor: string, brand: string,
                          category: string, timestamp: Option<DateTime>): (r: Result<string, string>)
    requires timestamp.Some? ==> ValidDateTime(timestamp.value)
    ensures r.Ok? <==> snapshotId.Str? && timestamp.Some? && config.name.Str?
    ensures !snapshotId.Str? || timestamp.None? ==> r == Err("Invalid snapshot_id or timestamp")
    ensures snapshotId.Str? && timestamp.Some? && !config.name.Str? ==> r == Err(NoLowerText(config.name))
    ensures r.Ok? ==> r.value == StoragePath(config.name.s, snapshotId, competitor, brand, category, timestamp.value)
  {
    if !snapshotId.Str? || timestamp.None? then Err("Invalid snapshot_id or timestamp")
    else if !config.name.Str? then Err(NoLowerText(config.name))
    else Ok(StoragePath(config.name.s, snapshotId, competitor, brand, category, timestamp.value))
  }

  /** `get_api_client` always raises NotImplementedError. */
  function GetApiClient(): (r: Result<(), string>)
    ensures r == Err("API client is managed externally")
  {
    Err("API client is managed externally")
  }

  /** `parse_api_response`: a list as it is, a dict as a one-element list,
      anything else as the empty list. */
  function ParseApiResponse(response: Value): (r: seq<Value>)
    ensures response.List? ==> r == response.items
    ensures response.Dict? ==> r == [response]
    ensures !response.List? && !response.Dict? ==> r == []
  {
    match response
    case List(items) => items
    case Dict(_) => [response]
    case _ => []
  }
}
