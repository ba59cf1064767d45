/** The types every platform profile shares (platforms/base.py): the API
    providers, the platform configuration record, the handler object and
    the hierarchical storage path both profiles build. */
module Platforms {
  import opened Wrappers
  import opened Json
  import opened Strings

  /** `APIProvider`. */
  datatype ApiProvider = BrightData | Apify

  /** The enum member's value. */
  function ProviderValue(p: ApiProvider): string {
    match p
    case BrightData => "brightdata"
    case Apify => "apify"
  }

  /** `APIProvider(value)`: the member with that value, if any. */
  function ProviderFromValue(s: string): (r: Option<ApiProvider>)
    ensures r.Some? <==> s == "brightdata" || s == "apify"
  {
    if s == "brightdata" then Some(BrightData)
    else if s == "apify" then Some(Apify)
    else None
  }

  /** Values and members correspond one to one. */
  lemma ProviderValueBijection(p: ApiProvider, s: string)
    ensures ProviderFromValue(ProviderValue(p)) == Some(p)
    ensures ProviderFromValue(s) == Some(p) <==> ProviderValue(p) == s
  {
  }

  /** `PlatformConfig`. The dataclass stores whatever it is given: only the
      provider is converted, and the other fields keep the configuration
      file's values whatever their type. */
  datatype PlatformConfig = PlatformConfig(
    name: Value,
    apiProvider: ApiProvider,
    datasetId: Value,
    dateFormat: Value,
    requiredParams: Value,
    optionalParams: Value,
    apiEndpoint: Value,
    mediaFields: Value)

  /** A list of strings. */
  predicate StringList(v: Value) {
    v.List? && forall i :: 0 <= i < |v.items| ==> v.items[i].Str?
  }

  /** The field types the dataclass declares: strings, lists of strings, and
      a string or None for the endpoint. */
  predicate Declared(c: PlatformConfig) {
    && c.name.Str? && c.datasetId.Str? && c.dateFormat.Str?
    && StringList(c.requiredParams) && StringList(c.optionalParams)
    && (c.apiEndpoint.Str? || c.apiEndpoint.Null?)
    && StringList(c.mediaFields)
  }

  /** The concrete handler classes; the abstract base has no constructor of
      its own. */
  datatype HandlerClass = FacebookHandler | TikTokHandler

  /** A handler object: its class and the configuration it was built with. */
  datatype Handler = Handler(cls: HandlerClass, config: PlatformConfig)

  /** `BasePlatformHandler.__init__`: the configuration is kept as given. */
  function NewHandler(cls: HandlerClass, config: PlatformConfig): (h: Handler)
    ensures h.cls == cls && h.config == config
  {
    Handler(cls, config)
  }

  /** The AttributeError `name.lower()` raises when the configured name is
      not a string. */
  function NoLowerText(name: Value): string {
    "'" + TypeName(name) + "' object has no attribute 'lower'"
  }

  /** A `datetime`, of which the storage path uses the calendar date. */
  datatype DateTime = DateTime(year: int, month: int, day: int, hour: int, minute: int, second: int)

  predicate ValidDateTime(t: DateTime) {
    1 <= t.year <= 9999 && 1 <= t.month <= 12 && 1 <= t.day <= 31
    && 0 <= t.hour < 24 && 0 <= t.minute < 60 && 0 <= t.second < 60
  }

  /** The path of one snapshot, partitioned by platform, business context
      and day: `raw_snapshots/platform=<name lower-cased>/competitor=…/brand=…/
      category=…/year=YYYY/month=MM/day=DD/snapshot_<id>.json`. */
  function StoragePath(platformName: string, snapshotId: Value, competitor: string, brand: string,
                       category: string, t: DateTime): (p: string)
    requires ValidDateTime(t)
    ensures StartsWith(p, "raw_snapshots/platform=" + Lower(platformName) + "/competitor=")
    ensures p == StoragePrefix(platformName, competitor, brand, category, t) + "snapshot_" + PyStr(snapshotId) + ".json"
  {
    MonthPrefix(platformName, competitor, brand, category, t) + Pad2(t.day) + "/snapshot_" + PyStr(snapshotId) + ".json"
  }

  /** The path up to and including `day=`. */
  function MonthPrefix(platformName: string, competitor: string, brand: string, category: string, t: DateTime): (p: string)
    requires ValidDateTime(t)
    ensures StartsWith(p, "raw_snapshots/platform=" + Lower(platformName) + "/competitor=")
  {
    "raw_snapshots/platform=" + Lower(platformName) + "/competitor=" + competitor + "/brand=" + brand
      + "/category=" + category + "/year=" + NatToString(t.year) + "/month=" + Pad2(t.month) + "/day="
  }

  /** Everything in a storage path before the snapshot's file name. */
  function StoragePrefix(platformName: string, competitor: string, brand: string, category: string, t: DateTime): string
    requires ValidDateTime(t)
  {
    MonthPrefix(platformName, competitor, brand, category, t) + Pad2(t.day) + "/"
  }

  /** Within one partition, different snapshot ids never share a path. */
  lemma StoragePathSeparatesSnapshots(platformName: string, a: Value, b: Value, competitor: string,
                                      brand: string, category: string, t: DateTime)
    requires ValidDateTime(t)
    requires StoragePath(platformName, a, competitor, brand, category, t)
          == StoragePath(platformName, b, competitor, brand, category, t)
    ensures PyStr(a) == PyStr(b)
  {
    var pre := StoragePrefix(platformName, competitor, brand, category, t) + "snapshot_";
    MiddleCancels(pre, PyStr(a), PyStr(b), ".json");
  }

  /** Two strings between the same prefix and suffix are equal when the
      whole strings are. */
  lemma MiddleCancels(pre: string, x: string, y: string, suf: string)
    requires pre + x + suf == pre + y + suf
    ensures x == y
  {
    var w := pre + x + suf;
    assert |x| == |y|;
    assert x == w[|pre|..|pre| + |x|];
    assert y == (pre + y + suf)[|pre|..|pre| + |y|];
  }

  /** Paths of different days differ, whatever the business context: the
      date fields sit between fixed markers. */
  lemma StoragePathSeparatesDays(platformName: string, id: Value, competitor: string, brand: string,
                                 category: string, t1: DateTime, t2: DateTime)
    requires ValidDateTime(t1) && ValidDateTime(t2)
    requires t1.year == t2.year && t1.month == t2.month
    requires StoragePath(platformName, id, competitor, brand, category, t1)
          == StoragePath(platformName, id, competitor, brand, category, t2)
    ensures t1.day == t2.day
  {
    var pre := MonthPrefix(platformName, competitor, brand, category, t1);
    assert pre == MonthPrefix(platformName, competitor, brand, category, t2);
    var post := "/snapshot_" + PyStr(id) + ".json";
    PathShape(platformName, id, competitor, brand, category, t1);
    PathShape(platformName, id, competitor, brand, category, t2);
    SameFrameSameMiddle(pre, Pad2(t1.day), Pad2(t2.day), post);
    Pad2Value(t1.day);
    Pad2Value(t2.day);
  }

  lemma PathShape(platformName: string, id: Value, competitor: string, brand: string, category: string, t: DateTime)
    requires ValidDateTime(t)
    ensures StoragePath(platformName, id, competitor, brand, category, t)
      == MonthPrefix(platformName, competitor, brand, category, t) + Pad2(t.day) + ("/snapshot_" + PyStr(id) + ".json")
  {
  }

  lemma SameFrameSameMiddle(pre: string, x: string, y: string, post: string)
    requires |x| == |y| && pre + x + post == pre + y + post
    ensures x == y
  {
    assert (pre + x + post)[|pre|..|pre| + |x|] == x;
    assert (pre + y + post)[|pre|..|pre| + |y|] == y;
  }
}
