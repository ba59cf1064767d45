/** The platform registry (platforms/registry.py): a case-insensitive table
    from platform name to handler class and configuration, filled by
    `register`, by the configuration loader and by the built-in fallback. */
module Registry {
  import opened Wrappers
  import opened Json
  import opened Strings
  import opened Platforms

  /** The registry's class-level state: `_handlers`, `_configs` and
      `_initialized`. */
  datatype RegistryState = RegistryState(
    handlers: map<string, HandlerClass>,
    configs: map<string, PlatformConfig>,
    initialized: bool)

  /** Every registered handler has a configuration, so `get_handler` never
      reaches a missing config. */
  predicate Consistent(st: RegistryState) {
    st.handlers.Keys <= st.configs.Keys
  }

  const Empty := RegistryState(map[], map[], false)

  // ---------------------------------------------------------------------
  // register and the read-only queries

  /** `register`: both tables are written under the lower-cased name. */
  function WithPlatform(st: RegistryState, platform: string, cls: HandlerClass, config: PlatformConfig): (r: RegistryState)
    ensures Consistent(st) ==> Consistent(r)
    ensures r.initialized == st.initialized
    ensures r.handlers.Keys == st.handlers.Keys + {Lower(platform)}
    ensures r.configs.Keys == st.configs.Keys + {Lower(platform)}
  {
    RegistryState(st.handlers[Lower(platform) := cls], st.configs[Lower(platform) := config], st.initialized)
  }

  /** `get_handler`: a fresh handler built from the registered class and
      configuration, or None when no class is registered. */
  function HandlerFor(st: RegistryState, platform: string): (r: Option<Handler>)
    requires Consistent(st)
    ensures r.Some? <==> Lower(platform) in st.handlers
    ensures r.Some? ==> r.value.config == st.configs[Lower(platform)]
  {
    var key := Lower(platform);
    if key in st.handlers then Some(NewHandler(st.handlers[key], st.configs[key])) else None
  }

  /** `get_config`. */
  function ConfigFor(st: RegistryState, platform: string): (r: Option<PlatformConfig>)
    ensures r.Some? <==> Lower(platform) in st.configs
    ensures r.Some? ==> r.value == st.configs[Lower(platform)]
  {
    if Lower(platform) in st.configs then Some(st.configs[Lower(platform)]) else None
  }

  /** `is_registered`: only the configuration table is consulted. */
  function IsRegistered(st: RegistryState, platform: string): (r: bool)
    ensures r <==> ConfigFor(st, platform).Some?
  {
    Lower(platform) in st.configs
  }

  /** One entry of `list_platforms`. */
  datatype PlatformSummary = PlatformSummary(
    name: Value, apiProvider: string, datasetId: Value,
    requiredParams: Value, optionalParams: Value)

  /** `list_platforms`: one summary per configuration, the provider given
      by its value. */
  function ListPlatforms(st: RegistryState): (r: map<string, PlatformSummary>)
    ensures r.Keys == st.configs.Keys
    ensures forall p :: p in r ==>
      && r[p].name == st.configs[p].name
      && ProviderFromValue(r[p].apiProvider) == Some(st.configs[p].apiProvider)
      && r[p].datasetId == st.configs[p].datasetId
      && r[p].requiredParams == st.configs[p].requiredParams
      && r[p].optionalParams == st.configs[p].optionalParams
  {
    map p | p in st.configs ::
      var c := st.configs[p];
      PlatformSummary(c.name, ProviderValue(c.apiProvider), c.datasetId, c.requiredParams, c.optionalParams)
  }

  /** A registration is found under any capitalisation of its name, and
      replaces whatever was registered under that name before; other names
      are unaffected. */
  lemma RegisterThenLookup(st: RegistryState, platform: string, cls: HandlerClass, config: PlatformConfig, query: string)
    requires Consistent(st)
    ensures var r := WithPlatform(st, platform, cls, config);
      Lower(query) == Lower(platform) ==>
        HandlerFor(r, query) == Some(Handler(cls, config)) && ConfigFor(r, query) == Some(config)
    ensures var r := WithPlatform(st, platform, cls, config);
      Lower(query) != Lower(platform) ==>
        HandlerFor(r, query) == HandlerFor(st, query) && ConfigFor(r, query) == ConfigFor(st, query)
  {
  }

  /** Looking a name up and looking up its lower-cased form agree. */
  lemma LookupIgnoresCase(st: RegistryState, platform: string)
    requires Consistent(st)
    ensures HandlerFor(st, platform) == HandlerFor(st, Lower(platform))
    ensures ConfigFor(st, platform) == ConfigFor(st, Lower(platform))
    ensures IsRegistered(st, platform) == IsRegistered(st, Lower(platform))
  {
    LowerIdempotent(platform);
  }

  // ---------------------------------------------------------------------
  // The built-in fallback

  /** A list of strings, as the configuration file would give it. */
  function Strs(ss: seq<string>): (v: Value)
    ensures StringList(v) && |v.items| == |ss|
    ensures forall i :: 0 <= i < |ss| ==> v.items[i] == Str(ss[i])
  {
    List(seq(|ss|, i requires 0 <= i < |ss| => Str(ss[i])))
  }

  const FacebookConfig := PlatformConfig(
    Str("Facebook"), BrightData, Str("gd_lkaxegm826bjpoo9m5"), Str("MM-DD-YYYY"), Strs(["url"]),
    Strs(["num_of_posts", "start_date", "end_date", "include_profile_data"]),
    Str("https://api.brightdata.com/datasets/v3/trigger"), Strs(["attachments"]))

  const TikTokConfig := PlatformConfig(
    Str("TikTok"), Apify, Str("clockworks/tiktok-scraper"), Str("YYYY-MM-DD"), Strs(["url"]),
    Strs(["country", "start_date", "end_date", "num_of_posts"]), Null, Strs(["videoMeta", "webVideoUrl"]))

  const YouTubeConfig := PlatformConfig(
    Str("YouTube"), Apify, Str("streamers/youtube-scraper"), Str("YYYY-MM-DD"), Strs(["url"]),
    Strs(["date_filter", "video_type", "quality_filters", "sorting", "start_date", "num_of_posts"]),
    Null, Strs(["thumbnailUrl", "url"]))

  /** `_register_builtin_configs`: three configurations, no handler. */
  function WithBuiltins(st: RegistryState): (r: RegistryState)
    ensures Consistent(st) ==> Consistent(r)
    ensures r.initialized && r.handlers == st.handlers
    ensures r.configs.Keys == st.configs.Keys + {"facebook", "tiktok", "youtube"}
    ensures r.configs["facebook"].apiProvider == BrightData
    ensures r.configs["tiktok"].apiProvider == Apify && r.configs["youtube"].apiProvider == Apify
    ensures forall p :: p in {"facebook", "tiktok", "youtube"} ==> Declared(r.configs[p])
  {
    RegistryState(
      st.handlers,
      st.configs["facebook" := FacebookConfig]["tiktok" := TikTokConfig]["youtube" := YouTubeConfig],
      true)
  }

  /** After the fallback alone, every built-in platform is registered yet has
      no handler. */
  lemma BuiltinsRegisterWithoutHandlers(platform: string)
    requires Lower(platform) in {"facebook", "tiktok", "youtube"}
    ensures IsRegistered(WithBuiltins(Empty), platform)
    ensures HandlerFor(WithBuiltins(Empty), platform) == None
  {
  }

  // ---------------------------------------------------------------------
  // load_from_config

  /** A handler module, as the attributes it defines in order. */
  datatype HandlerModule = HandlerModule(classes: seq<(string, HandlerClass)>)

  /** `getattr(module, name)`, None for AttributeError. */
  function Attr(m: HandlerModule, name: string): (r: Option<HandlerClass>)
    ensures r.Some? <==> exists i :: 0 <= i < |m.classes| && m.classes[i].0 == name
    decreases |m.classes|
  {
    if m.classes == [] then None
    else if m.classes[0].0 == name then Some(m.classes[0].1)
    else
      var r := Attr(HandlerModule(m.classes[1..]), name);
      assert forall i :: 1 <= i < |m.classes| ==> m.classes[i] == m.classes[1..][i - 1];
      r
  }

  /** The first attribute whose name, lower-cased, is `lowered`. */
  function AttrIgnoringCase(m: HandlerModule, lowered: string): (r: Option<HandlerClass>)
    ensures r.Some? <==> exists i :: 0 <= i < |m.classes| && Lower(m.classes[i].0) == lowered
    decreases |m.classes|
  {
    if m.classes == [] then None
    else if Lower(m.classes[0].0) == lowered then Some(m.classes[0].1)
    else
      var r := AttrIgnoringCase(HandlerModule(m.classes[1..]), lowered);
      assert forall i :: 1 <= i < |m.classes| ==> m.classes[i] == m.classes[1..][i - 1];
      r
  }

  /** The handler lookup as written: `<platform.capitalize()>Handler`, then
      `Handler`. `capitalize` lower-cases all but the first letter, so the
      first name is `TiktokHandler` for `tiktok`. */
  function HandlerLookupAsWritten(m: HandlerModule, platform: string): (r: Option<HandlerClass>)
    ensures r.None? <==> Attr(m, Capitalize(platform) + "Handler").None? && Attr(m, "Handler").None?
  {
    match Attr(m, Capitalize(platform) + "Handler")
    case Some(c) => Some(c)
    case None => Attr(m, "Handler")
  }

  /** The lookup the loader evidently intends: a class named
      `<platform>Handler` in any capitalisation, then `Handler`. */
  function HandlerLookup(m: HandlerModule, platform: string): (r: Option<HandlerClass>)
    ensures (exists i :: 0 <= i < |m.classes| && Lower(m.classes[i].0) == Lower(platform) + "handler") ==> r.Some?
    ensures Attr(m, "Handler").Some? ==> r.Some?
  {
    match AttrIgnoringCase(m, Lower(platform) + "handler")
    case Some(c) => Some(c)
    case None => Attr(m, "Handler")
  }

  /** The intended lookup finds a handler wherever the lookup as written
      does. */
  lemma LookupExtendsAsWritten(m: HandlerModule, platform: string)
    ensures HandlerLookupAsWritten(m, platform).Some? ==> HandlerLookup(m, platform).Some?
  {
    var name := Capitalize(platform) + "Handler";
    if Attr(m, name).Some? {
      var i :| 0 <= i < |m.classes| && m.classes[i].0 == name;
      LowerCapitalize(platform);
      LowerAppend(Capitalize(platform), "Handler");
      LowerHandler();
    }
  }

  lemma LowerHandler()
    ensures Lower("Handler") == "handler"
  {
    assert Lower("Handler")[0] == LowerChar('H');
  }

  /** The TikTok module as it is: its class is `TikTokHandler`. */
  const TikTokModule := HandlerModule([("TikTokHandler", TikTokHandler)])

  /** As written, the loader finds no handler in the TikTok module. */
  lemma AsWrittenMissesTikTok()
    ensures HandlerLookupAsWritten(TikTokModule, "tiktok") == None
  {
    var cap := Capitalize("tiktok") + "Handler";
    assert cap != "TikTokHandler" by {
      assert "TikTokHandler"[3] == 'T' && cap[3] == 't';
    }
    assert cap != "Handler" by {
      assert |cap| == 13;
    }
  }

  /** The intended lookup finds `TikTokHandler`. */
  lemma LookupFindsTikTok()
    ensures HandlerLookup(TikTokModule, "tiktok") == Some(TikTokHandler)
  {
    assert Lower("TikTokHandler") == Lower("tiktok") + "handler";
  }

  /** As written, loading a `tiktok` entry whose module defines
      `TikTokHandler` stores the configuration and registers no handler. */
  lemma TikTokEntryLoadsWithoutHandler(st: RegistryState, c: PlatformConfig)
    requires Consistent(st) && "tiktok" !in st.handlers
    ensures var r := LoadEntry(st, "tiktok", Ok(c), map["tiktok" := TikTokModule]);
      r.1.None? && ConfigFor(r.0, "tiktok") == Some(c) && HandlerFor(r.0, "tiktok") == None
  {
    AsWrittenMissesTikTok();
    assert Lower("tiktok") == "tiktok";
  }

  /** The errors `load_from_config` raises. */
  datatype LoadError =
    | FileNotFound(message: string)
    | InvalidConfig(message: string)
    | Raised(message: string)

  /** `repr(v)` as the enum's ValueError prints it. */
  function Repr(v: Value): string {
    if v.Str? then "'" + v.s + "'" else PyStr(v)
  }

  /** The configuration keys, in the order the constructor call reads them. */
  const ConfigKeys: seq<string> := HeadKeys + TailKeys

  /** The keys read before the provider is converted. */
  const HeadKeys: seq<string> := ["name", "api_provider"]

  /** The keys read after it. */
  const TailKeys: seq<string> := [
    "dataset_id", "date_format", "required_params", "optional_params", "api_endpoint", "media_fields"]

  /** The first key of `keys` that `config` lacks. */
  function FirstMissing(config: Object, keys: seq<string>): (r: Option<string>)
    ensures r.None? <==> forall k :: k in keys ==> k in config
    ensures r.Some? ==> r.value in keys && r.value !in config
  {
    if keys == [] then None
    else if keys[0] !in config then Some(keys[0])
    else FirstMissing(config, keys[1..])
  }

  /** `APIProvider(v)`, None where it raises ValueError. */
  function ProviderOf(v: Value): (r: Option<ApiProvider>)
    ensures r.Some? ==> v == Str(ProviderValue(r.value))
  {
    if v.Str? then ProviderFromValue(v.s) else None
  }

  function InvalidPrefix(platform: string): string {
    "Invalid config for platform '" + platform + "': "
  }

  /** The ValueError wrapping a KeyError or ValueError of one entry. */
  function InvalidEntry(platform: string, detail: string): (e: LoadError)
    ensures e.InvalidConfig? && StartsWith(e.message, InvalidPrefix(platform))
  {
    var e := InvalidConfig(InvalidPrefix(platform) + detail);
    assert e.message[..|InvalidPrefix(platform)|] == InvalidPrefix(platform);
    e
  }

  /** The configuration record, once every key is present and the provider
      converted: every other field is the file's value, unchecked. */
  function BuildConfig(f: Object, provider: ApiProvider): (c: PlatformConfig)
    requires forall k :: k in ConfigKeys ==> k in f
    ensures c.apiProvider == provider
    ensures c.name == f["name"] && c.datasetId == f["dataset_id"] && c.dateFormat == f["date_format"]
    ensures c.requiredParams == f["required_params"] && c.optionalParams == f["optional_params"]
    ensures c.apiEndpoint == f["api_endpoint"] && c.mediaFields == f["media_fields"]
  {
    assert "name" in ConfigKeys && "dataset_id" in ConfigKeys && "date_format" in ConfigKeys;
    assert "required_params" in ConfigKeys && "optional_params" in ConfigKeys;
    assert "api_endpoint" in ConfigKeys && "media_fields" in ConfigKeys;
    PlatformConfig(
      f["name"], provider, f["dataset_id"], f["date_format"],
      f["required_params"], f["optional_params"], f["api_endpoint"], f["media_fields"])
  }

  /** The keyword arguments of the `PlatformConfig(...)` call, evaluated in
      order: a missing `name` or `api_provider`, then an unknown provider,
      then a missing later key. */
  function ParseFields(platform: string, f: Object): (r: Result<PlatformConfig, LoadError>)
    ensures r.Ok? <==> (forall k :: k in ConfigKeys ==> k in f) && ProviderOf(f["api_provider"]).Some?
    ensures r.Ok? ==> r.value == BuildConfig(f, ProviderOf(f["api_provider"]).value)
    ensures r.Err? ==> r.error.InvalidConfig? && StartsWith(r.error.message, InvalidPrefix(platform))
  {
    if FirstMissing(f, HeadKeys).Some? then
      Err(InvalidEntry(platform, KeyErrorText(FirstMissing(f, HeadKeys).value)))
    else
      assert "api_provider" in HeadKeys;
      var provider := f["api_provider"];
      if ProviderOf(provider).None? then
        Err(InvalidEntry(platform, Repr(provider) + " is not a valid APIProvider"))
      else if FirstMissing(f, TailKeys).Some? then
        Err(InvalidEntry(platform, KeyErrorText(FirstMissing(f, TailKeys).value)))
      else
        Ok(BuildConfig(f, ProviderOf(provider).value))
  }

  /** Building one entry's configuration. A non-dict entry raises a
      TypeError at its first subscript, which the loader does not catch. */
  function ParseEntry(platform: string, config: Value): (r: Result<PlatformConfig, LoadError>)
    ensures config.Dict? ==> r == ParseFields(platform, config.fields)
    ensures !config.Dict? ==> r == Err(Raised(SubscriptErrorText(config)))
  {
    if config.Dict? then ParseFields(platform, config.fields)
    else Err(Raised(SubscriptErrorText(config)))
  }

  /** Each entry of the `platforms` section with the outcome of building
      its configuration. */
  function Parsed(entries: seq<(string, Value)>): (r: seq<(string, Result<PlatformConfig, LoadError>)>)
    ensures |r| == |entries|
  {
    if entries == [] then []
    else [(entries[0].0, ParseEntry(entries[0].0, entries[0].1))] + Parsed(entries[1..])
  }

  /** Entry `i` of the parsed section is entry `i` of the file, parsed. */
  lemma {:induction false} ParsedAt(entries: seq<(string, Value)>, i: nat)
    requires i < |entries|
    ensures Parsed(entries)[i] == (entries[i].0, ParseEntry(entries[i].0, entries[i].1))
  {
    if i > 0 {
      ParsedAt(entries[1..], i - 1);
    }
  }

  /** One loop iteration, given the outcome of building the configuration:
      store it under the lower-cased name, then register the handler the
      module provides, if the module imports and has one. */
  function LoadEntry(st: RegistryState, platform: string, parsed: Result<PlatformConfig, LoadError>,
                     modules: map<string, HandlerModule>): (r: (RegistryState, Option<LoadError>))
    ensures Consistent(st) ==> Consistent(r.0)
    ensures parsed.Err? ==> r == (st, Some(parsed.error))
    ensures parsed.Ok? ==> r.1.None? && r.0.configs == st.configs[Lower(platform) := parsed.value]
    ensures parsed.Ok? ==> r.0.handlers == st.handlers || r.0.handlers.Keys == st.handlers.Keys + {Lower(platform)}
    ensures platform !in modules ==> r.0.handlers == st.handlers
    ensures r.0.initialized == st.initialized
  {
    match parsed
    case Err(e) => (st, Some(e))
    case Ok(c) =>
      var key := Lower(platform);
      var lookup := if platform in modules then HandlerLookupAsWritten(modules[platform], platform) else None;
      var handlers := if lookup.Some? then st.handlers[key := lookup.value] else st.handlers;
      (RegistryState(handlers, st.configs[key := c], st.initialized), None)
  }

  /** The first `k` entries, processed in order until the first failure. */
  function LoadFirst(st: RegistryState, steps: seq<(string, Result<PlatformConfig, LoadError>)>, k: nat,
                     modules: map<string, HandlerModule>): (r: (RegistryState, Option<LoadError>))
    requires k <= |steps|
    ensures Consistent(st) ==> Consistent(r.0)
    ensures r.0.initialized == st.initialized
    ensures st.configs.Keys <= r.0.configs.Keys
  {
    if k == 0 then (st, None)
    else
      var before := LoadFirst(st, steps, k - 1, modules);
      if before.1.Some? then before else LoadEntry(before.0, steps[k - 1].0, steps[k - 1].1, modules)
  }

  /** After entries that all loaded, loading the next one is the next step. */
  lemma LoadFirstStep(st: RegistryState, steps: seq<(string, Result<PlatformConfig, LoadError>)>, i: nat,
                      modules: map<string, HandlerModule>, before: RegistryState, after: RegistryState, err: Option<LoadError>)
    requires i < |steps|
    requires (before, None) == LoadFirst(st, steps, i, modules)
    requires (after, err) == LoadEntry(before, steps[i].0, steps[i].1, modules)
    ensures (after, err) == LoadFirst(st, steps, i + 1, modules)
  {
  }

  /** The `platforms` section as YAML loaded it: a mapping, given as its
      entries in file order, or some other value (null, a list or a
      scalar), on which `.items()` fails. */
  datatype Section = Mapping(entries: seq<(string, Value)>) | NotMapping(found: NonMapping)

  /** A loaded YAML value that is not a mapping. */
  type NonMapping = v: Value | !v.Dict? witness Null

  /** The AttributeError of `.items()` on a section that is not a mapping. */
  function NoItemsText(v: Value): string {
    "'" + TypeName(v) + "' object has no attribute 'items'"
  }

  /** What `load_from_config` does to the registry and what it raises.
      `fileExists` is the file check and `platforms` the parsed `platforms`
      section, None when the section is missing. */
  function Load(st: RegistryState, path: string, fileExists: bool, platforms: Option<Section>,
                modules: map<string, HandlerModule>): (r: (RegistryState, Option<LoadError>))
    ensures Consistent(st) ==> Consistent(r.0)
    ensures !fileExists ==> r == (st, Some(FileNotFound("Platform config file not found: " + path)))
    ensures fileExists && platforms.None? ==> r == (st, Some(InvalidConfig("Config file must contain 'platforms' section")))
    ensures fileExists && platforms.Some? && platforms.value.NotMapping? ==>
      r == (st, Some(Raised(NoItemsText(platforms.value.found))))
    ensures r.0.initialized <==> st.initialized || r.1.None?
  {
    if !fileExists then (st, Some(FileNotFound("Platform config file not found: " + path)))
    else if platforms.None? then (st, Some(InvalidConfig("Config file must contain 'platforms' section")))
    else match platforms.value
      case NotMapping(v) => (st, Some(Raised(NoItemsText(v))))
      case Mapping(entries) =>
        var steps := Parsed(entries);
        var (loaded, err) := LoadFirst(st, steps, |steps|, modules);
        if err.Some? then (loaded, err) else (loaded.(initialized := true), None)
  }

  /** A `platforms:` key with nothing under it loads as null: `.items()`
      raises before any entry is stored, and the registry stays as it was. */
  lemma EmptySectionRaises(st: RegistryState, path: string, modules: map<string, HandlerModule>)
    ensures Load(st, path, true, Some(NotMapping(Null)), modules)
      == (st, Some(Raised("'" + "NoneType" + "' object has no attribute 'items'")))
  {
  }

  /** Once a step fails, the later steps change nothing. */
  lemma {:induction false} FailureIsFinal(st: RegistryState, steps: seq<(string, Result<PlatformConfig, LoadError>)>,
                                          k: nat, j: nat, modules: map<string, HandlerModule>)
    requires k <= j <= |steps|
    requires LoadFirst(st, steps, k, modules).1.Some?
    ensures LoadFirst(st, steps, j, modules) == LoadFirst(st, steps, k, modules)
    decreases j
  {
    if k < j {
      FailureIsFinal(st, steps, k, j - 1, modules);
    }
  }

  /** Step `k` is where the first `j` steps stop: the steps before it
      succeeded, it failed, and the registry is what they left. */
  predicate FailsAt(st: RegistryState, steps: seq<(string, Result<PlatformConfig, LoadError>)>, j: nat,
                    modules: map<string, HandlerModule>, k: nat)
    requires k < j <= |steps|
  {
    var before := LoadFirst(st, steps, k, modules);
    && before.1.None?
    && steps[k].1.Err?
    && LoadFirst(st, steps, j, modules) == (before.0, Some(steps[k].1.error))
  }

  /** A failing entry leaves the registry as the entries before it left it:
      some entry `k` fails, the ones before it load, and nothing after it
      runs. */
  lemma {:induction false} FailureKeepsEarlierEntries(st: RegistryState, steps: seq<(string, Result<PlatformConfig, LoadError>)>,
                                                      j: nat, modules: map<string, HandlerModule>)
    requires j <= |steps|
    requires LoadFirst(st, steps, j, modules).1.Some?
    ensures exists k: nat :: k < j && FailsAt(st, steps, j, modules, k)
    decreases j
  {
    var before := LoadFirst(st, steps, j - 1, modules);
    if before.1.Some? {
      FailureKeepsEarlierEntries(st, steps, j - 1, modules);
      var k: nat :| k < j - 1 && FailsAt(st, steps, j - 1, modules, k);
      assert FailsAt(st, steps, j, modules, k);
    } else {
      assert FailsAt(st, steps, j, modules, j - 1);
    }
  }

  /** Every configuration in a successfully loaded file is stored, under its
      lower-cased name, whether or not its handler could be found. */
  lemma {:induction false} SuccessStoresEveryConfig(st: RegistryState, steps: seq<(string, Result<PlatformConfig, LoadError>)>,
                                                    j: nat, modules: map<string, HandlerModule>)
    requires j <= |steps|
    requires LoadFirst(st, steps, j, modules).1.None?
    ensures forall i :: 0 <= i < j ==> steps[i].1.Ok? && Lower(steps[i].0) in LoadFirst(st, steps, j, modules).0.configs
    decreases j
  {
    if j > 0 {
      SuccessStoresEveryConfig(st, steps, j - 1, modules);
    }
  }

  // ---------------------------------------------------------------------
  // The registry object

  /** The locations `load_default_config` tries, in order; the third is
      relative to the installed package. */
  function ConfigPaths(packageDir: string): seq<string> {
    ["/app/config/platforms.yaml", "config/platforms.yaml", packageDir + "/../config/platforms.yaml"]
  }

  /** The first of `paths` that exists. */
  function FirstExisting(paths: seq<string>, existing: set<string>): (r: Option<string>)
    ensures r.Some? ==> r.value in paths && r.value in existing
    ensures r.None? ==> forall p :: p in paths ==> p !in existing
  {
    if paths == [] then None
    else if paths[0] in existing then Some(paths[0])
    else FirstExisting(paths[1..], existing)
  }

  class PlatformRegistry {
    var handlers: map<string, HandlerClass>
    var configs: map<string, PlatformConfig>
    var initialized: bool

    function State(): RegistryState
      reads this
    {
      RegistryState(handlers, configs, initialized)
    }

    predicate Valid()
      reads this
    {
      Consistent(State())
    }

    constructor()
      ensures Valid() && State() == Empty
    {
      handlers := map[];
      configs := map[];
      initialized := false;
    }

    method Register(platform: string, cls: HandlerClass, config: PlatformConfig)
      requires Valid()
      modifies this
      ensures Valid()
      ensures State() == WithPlatform(old(State()), platform, cls, config)
    {
      var key := Lower(platform);
      handlers := handlers[key := cls];
      configs := configs[key := config];
    }

    function GetHandler(platform: string): (r: Option<Handler>)
      requires Valid()
      reads this
      ensures r == HandlerFor(State(), platform)
    {
      var key := Lower(platform);
      if key in handlers then Some(NewHandler(handlers[key], configs[key])) else None
    }

    function GetConfig(platform: string): (r: Option<PlatformConfig>)
      reads this
      ensures r == ConfigFor(State(), platform)
    {
      if Lower(platform) in configs then Some(configs[Lower(platform)]) else None
    }

    function IsInitialized(): (r: bool)
      reads this
      ensures r == State().initialized
    {
      initialized
    }

    /** `load_from_config`: the per-entry loop stops at the first bad entry,
        and `_initialized` is set only after the whole section loads. */
    method LoadFromConfig(path: string, fileExists: bool, platforms: Option<Section>,
                          modules: map<string, HandlerModule>) returns (err: Option<LoadError>)
      requires Valid()
      modifies this
      ensures Valid()
      ensures (State(), err) == Load(old(State()), path, fileExists, platforms, modules)
    {
      if !fileExists {
        return Some(FileNotFound("Platform config file not found: " + path));
      }
      if platforms.None? {
        return Some(InvalidConfig("Config file must contain 'platforms' section"));
      }
      if platforms.value.NotMapping? {
        return Some(Raised(NoItemsText(platforms.value.found)));
      }
      var entries := platforms.value.entries;
      forall i | 0 <= i < |entries| {
        ParsedAt(entries, i);
      }
      err := LoadEntriesInto(entries, modules, Parsed(entries));
      if err.None? {
        initialized := true;
      }
    }

    /** The loop over the `platforms` section: each entry's configuration is
        stored before its handler is looked up, and the first bad entry
        ends the loop with what the earlier ones stored still in place. */
    method LoadEntriesInto(entries: seq<(string, Value)>, modules: map<string, HandlerModule>,
                           ghost steps: seq<(string, Result<PlatformConfig, LoadError>)>)
      returns (err: Option<LoadError>)
      requires Valid()
      requires |steps| == |entries|
      requires forall i {:trigger ParseEntry(entries[i].0, entries[i].1)} :: 0 <= i < |entries| ==>
                 steps[i] == (entries[i].0, ParseEntry(entries[i].0, entries[i].1))
      modifies this
      ensures Valid()
      ensures (State(), err) == LoadFirst(old(State()), steps, |entries|, modules)
    {
      ghost var start := State();
      for i := 0 to |entries|
        invariant (State(), None) == LoadFirst(start, steps, i, modules)
        invariant Valid()
      {
        err := LoadNext(entries, i, modules, start, steps);
        if err.Some? {
          return;
        }
      }
      err := None;
    }

    /** Loads entry `i` of a run that has loaded entries `0..i` without an
        error; an error there is what the whole run reports. */
    method LoadNext(entries: seq<(string, Value)>, i: nat, modules: map<string, HandlerModule>,
                    ghost start: RegistryState, ghost steps: seq<(string, Result<PlatformConfig, LoadError>)>)
      returns (err: Option<LoadError>)
      requires Valid()
      requires i < |entries| == |steps|
      requires forall j {:trigger ParseEntry(entries[j].0, entries[j].1)} :: 0 <= j < |entries| ==>
                 steps[j] == (entries[j].0, ParseEntry(entries[j].0, entries[j].1))
      requires (State(), None) == LoadFirst(start, steps, i, modules)
      modifies this
      ensures Valid()
      ensures (State(), err) == LoadFirst(start, steps, i + 1, modules)
      ensures err.Some? ==> (State(), err) == LoadFirst(start, steps, |steps|, modules)
    {
      ghost var before := State();
      err := LoadEntryInto(entries[i].0, entries[i].1, modules);
      LoadFirstStep(start, steps, i, modules, before, State(), err);
      if err.Some? {
        FailureIsFinal(start, steps, i + 1, |steps|, modules);
      }
    }

    /** One iteration: the configuration is stored under the lower-cased
        name, then the handler registered if the module has one. */
    method LoadEntryInto(platform: string, config: Value, modules: map<string, HandlerModule>) returns (err: Option<LoadError>)
      requires Valid()
      modifies this
      ensures Valid()
      ensures (State(), err) == LoadEntry(old(State()), platform, ParseEntry(platform, config), modules)
    {
      var parsed := ParseEntry(platform, config);
      if parsed.Err? {
        return Some(parsed.error);
      }
      var key := Lower(platform);
      configs := configs[key := parsed.value];
      if platform in modules {
        var handlerClass := HandlerLookupAsWritten(modules[platform], platform);
        if handlerClass.Some? {
          handlers := handlers[key := handlerClass.value];
        }
      }
      err := None;
    }

    /** `_register_builtin_configs`. */
    method RegisterBuiltinConfigs()
      requires Valid()
      modifies this
      ensures Valid()
      ensures State() == WithBuiltins(old(State()))
    {
      configs := configs["facebook" := FacebookConfig];
      configs := configs["tiktok" := TikTokConfig];
      configs := configs["youtube" := YouTubeConfig];
      initialized := true;
    }

    /** `load_default_config`: the first existing location is loaded, and
        only when none exists are the built-ins registered. */
    method LoadDefaultConfig(packageDir: string, existing: set<string>, platforms: Option<Section>,
                             modules: map<string, HandlerModule>) returns (err: Option<LoadError>)
      requires Valid()
      modifies this
      ensures Valid()
      ensures FirstExisting(ConfigPaths(packageDir), existing).None? ==>
        State() == WithBuiltins(old(State())) && err.None?
      ensures FirstExisting(ConfigPaths(packageDir), existing).Some? ==>
        (State(), err) == Load(old(State()), FirstExisting(ConfigPaths(packageDir), existing).value, true, platforms, modules)
    {
      var paths := ConfigPaths(packageDir);
      for i := 0 to |paths|
        invariant FirstExisting(paths, existing) == FirstExisting(paths[i..], existing)
        invariant State() == old(State())
      {
        if paths[i] in existing {
          err := LoadFromConfig(paths[i], true, platforms, modules);
          return;
        }
        assert paths[i..][1..] == paths[i + 1..];
      }
      RegisterBuiltinConfigs();
      err := None;
    }
  }
}
