/** The configuration every synchronous BrightData handler shares
    (brightdata/base_client.py): the API key read from the environment and
    the fixed base URL, their validation, and the request headers. */
module BrightDataBase {
  import opened Wrappers

  const BaseUrl := "https://api.brightdata.com/datasets/v3"
  const UserAgent := "social-analytics-platform/1.0"

  datatype BaseClient = BaseClient(apiKey: Option<string>, baseUrl: string)

  /** `__init__`: `env` is the value of BRIGHTDATA_API_KEY, if set. */
  function NewBaseClient(env: Option<string>): (c: BaseClient)
    ensures c.apiKey == env && c.baseUrl == BaseUrl
  {
    BaseClient(env, BaseUrl)
  }

  predicate HasKey(c: BaseClient) {
    c.apiKey.Some? && c.apiKey.value != ""
  }

  /** `validate_config`: the key is checked before the base URL. */
  function ValidateConfig(c: BaseClient): (r: (bool, string))
    ensures r.0 <==> HasKey(c) && c.baseUrl != ""
    ensures r.0 ==> r.1 == ""
    ensures !HasKey(c) ==> r == (false, "BRIGHTDATA_API_KEY environment variable is not set")
    ensures HasKey(c) && c.baseUrl == "" ==> r == (false, "BrightData base URL is not configured")
  {
    if !HasKey(c) then (false, "BRIGHTDATA_API_KEY environment variable is not set")
    else if c.baseUrl == "" then (false, "BrightData base URL is not configured")
    else (true, "")
  }

  /** A freshly built client is valid exactly when the environment holds a
      non-empty key: the base URL is never empty. */
  lemma FreshClientValidIffKey(env: Option<string>)
    ensures ValidateConfig(NewBaseClient(env)).0 <==> env.Some? && env.value != ""
  {
    assert BaseUrl != "";
  }

  /** `f'Bearer {self.api_key}'`, which renders a missing key as `None`. */
  function Bearer(c: BaseClient): (r: string)
    ensures c.apiKey.Some? ==> r == "Bearer " + c.apiKey.value
    ensures c.apiKey.None? ==> r == "Bearer None"
  {
    "Bearer " + if c.apiKey.Some? then c.apiKey.value else "None"
  }

  /** `get_headers`. */
  function Headers(c: BaseClient): (h: map<string, string>)
    ensures h.Keys == {"Authorization", "Content-Type", "User-Agent"}
    ensures h["Authorization"] == Bearer(c) && h["Content-Type"] == "application/json"
    ensures h["User-Agent"] == UserAgent
  {
    map["Authorization" := Bearer(c), "Content-Type" := "application/json", "User-Agent" := UserAgent]
  }

  /** `get_download_headers`. */
  function DownloadHeaders(c: BaseClient): (h: map<string, string>)
    ensures h.Keys == {"Authorization", "Accept", "User-Agent"}
    ensures h["Authorization"] == Bearer(c) && h["Accept"] == "application/json"
    ensures h["User-Agent"] == UserAgent
  {
    map["Authorization" := Bearer(c), "Accept" := "application/json", "User-Agent" := UserAgent]
  }

  /** The two header sets authenticate identically and differ only in
      announcing (`Content-Type`) versus requesting (`Accept`) JSON. */
  lemma HeadersAgree(c: BaseClient)
    ensures Headers(c)["Authorization"] == DownloadHeaders(c)["Authorization"]
    ensures Headers(c) - {"Content-Type"} == DownloadHeaders(c) - {"Accept"}
  {
    assert (Headers(c) - {"Content-Type"}).Keys == (DownloadHeaders(c) - {"Accept"}).Keys;
  }
}
