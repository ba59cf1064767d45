/** Downloading a BrightData snapshot and turning its raw text into records
    (brightdata/handlers/download_handler.py). The JSON decoder itself is a
    parameter: `whole` is `json.loads` and `at` is `JSONDecoder.raw_decode`,
    which returns the decoded value and the absolute index just past it. */
module DownloadHandler {
  import opened Wrappers
  import opened Json
  import opened Strings
  import Http

  datatype RawDecoder = RawDecoder(
    whole: string -> Option<Value>,
    at: (string, nat) -> Option<(Value, nat)>)

  /** `raw_decode(s, i)` consumes at least one character and stops inside `s`. */
  ghost predicate EndsInside(d: RawDecoder) {
    forall s: string, i: nat {:trigger d.at(s, i)} ::
      d.at(s, i).Some? ==> i < d.at(s, i).value.1 <= |s|
  }

  type Decoder = d: RawDecoder | EndsInside(d)
    witness RawDecoder(s => None, (s, i) => None)

  // ---------------------------------------------------------------------
  // Tier 2: concatenated objects

  /** The first index at or after `i` that is not whitespace. */
  function SkipSpaces(s: string, i: nat): (j: nat)
    requires i <= |s|
    decreases |s| - i
    ensures i <= j <= |s|
    ensures j < |s| ==> !IsSpace(s[j])
  {
    if i < |s| && IsSpace(s[i]) then SkipSpaces(s, i + 1) else i
  }

  /** What one pass of the concatenated-object loop does at cursor `idx`. */
  datatype Move = Stop | Emit(value: Value, next: nat) | Jump(next: nat)

  /** One pass: skip blanks to `j`; if a value decodes at `j` and ends at
      the absolute index `e`, emit it and add `e` to the cursor, giving
      `j + e`; where nothing decodes, move to the next `{` after `j`, or
      stop. Moving to `e` is evidently meant; `ScanIntended` below models
      that cursor. */
  function Step(d: Decoder, s: string, idx: nat): (m: Move)
    requires idx < |s|
    ensures !m.Stop? ==> idx < m.next
  {
    var j := SkipSpaces(s, idx);
    if j >= |s| then Stop
    else match d.at(s, j)
      case Some(r) => Emit(r.0, j + r.1)
      case None =>
        match FindChar(s, '{', j + 1)
        case None => Stop
        case Some(n) => Jump(n)
  }

  /** The values the loop collects from cursor `idx` on. */
  function Scan(d: Decoder, s: string, idx: nat): seq<Value>
    decreases |s| - idx
  {
    if idx >= |s| then []
    else match Step(d, s, idx)
      case Stop => []
      case Emit(v, n) => [v] + Scan(d, s, n)
      case Jump(n) => Scan(d, s, n)
  }

  /** `Scan` with the values collected so far in `acc`: the form the loop
      keeps as its invariant. */
  function ScanInto(d: Decoder, s: string, idx: nat, acc: seq<Value>): seq<Value>
    decreases |s| - idx
  {
    if idx >= |s| then acc
    else match Step(d, s, idx)
      case Stop => acc
      case Emit(v, n) => ScanInto(d, s, n, acc + [v])
      case Jump(n) => ScanInto(d, s, n, acc)
  }

  /** A pass that decodes a value at the first non-blank index `j` appends
      it and adds the index it ended at to `j`. */
  lemma ScanIntoEmit(d: Decoder, s: string, idx: nat, acc: seq<Value>, j: nat)
    requires idx < |s| && j == SkipSpaces(s, idx) && j < |s| && d.at(s, j).Some?
    ensures ScanInto(d, s, idx, acc) == ScanInto(d, s, j + d.at(s, j).value.1, acc + [d.at(s, j).value.0])
  {
  }

  /** A pass that decodes nothing moves the cursor to the next `{`. */
  lemma ScanIntoJump(d: Decoder, s: string, idx: nat, acc: seq<Value>, j: nat)
    requires idx < |s| && j == SkipSpaces(s, idx) && j < |s| && d.at(s, j).None?
    ensures FindChar(s, '{', j + 1).Some? ==> ScanInto(d, s, idx, acc) == ScanInto(d, s, FindChar(s, '{', j + 1).value, acc)
    ensures FindChar(s, '{', j + 1).None? ==> ScanInto(d, s, idx, acc) == acc
  {
  }

  /** A pass that finds only blanks ends the scan. */
  lemma ScanIntoBlank(d: Decoder, s: string, idx: nat, acc: seq<Value>)
    requires idx < |s| && SkipSpaces(s, idx) == |s|
    ensures ScanInto(d, s, idx, acc) == acc
  {
  }

  /** Collecting into an accumulator appends the scan to it. */
  lemma {:induction false} ScanIntoIsScan(d: Decoder, s: string, idx: nat, acc: seq<Value>)
    ensures ScanInto(d, s, idx, acc) == acc + Scan(d, s, idx)
    decreases |s| - idx
  {
    if idx < |s| {
      match Step(d, s, idx)
      case Stop =>
      case Emit(v, n) =>
        ScanIntoIsScan(d, s, n, acc + [v]);
        assert acc + [v] + Scan(d, s, n) == acc + ([v] + Scan(d, s, n));
      case Jump(n) =>
        ScanIntoIsScan(d, s, n, acc);
    }
  }

  /** The whitespace loop at the head of each pass. */
  method SkipBlank(text: string, from: nat) returns (idx: nat)
    requires from <= |text|
    ensures idx == SkipSpaces(text, from)
  {
    idx := from;
    while idx < |text| && IsSpace(text[idx])
      invariant from <= idx <= |text|
      invariant SkipSpaces(text, from) == SkipSpaces(text, idx)
      decreases |text| - idx
    {
      idx := idx + 1;
    }
  }

  /** The concatenated-object loop itself. */
  method ScanConcatenated(d: Decoder, text: string) returns (parsed: seq<Value>)
    ensures parsed == Scan(d, text, 0)
  {
    parsed := [];
    var idx: nat := 0;
    var n := |text|;
    while idx < n
      invariant ScanInto(d, text, idx, parsed) == ScanInto(d, text, 0, [])
      decreases n - idx
    {
      ghost var from := idx;
      idx := SkipBlank(text, idx);
      if idx >= n {
        ScanIntoBlank(d, text, from, parsed);
        break;
      }
      match d.at(text, idx)
      case Some(r) =>
        ScanIntoEmit(d, text, from, parsed, idx);
        parsed := parsed + [r.0];
        idx := idx + r.1;
      case None =>
        ScanIntoJump(d, text, from, parsed, idx);
        var next := FindChar(text, '{', idx + 1);
        if next.None? {
          break;
        }
        idx := next.value;
    }
    ScanIntoIsScan(d, text, 0, []);
    assert [] + Scan(d, text, 0) == Scan(d, text, 0);
  }

  /** The loop yields at most one value per character it passes over. */
  lemma {:induction false} ScanBound(d: Decoder, s: string, idx: nat)
    ensures idx <= |s| ==> |Scan(d, s, idx)| <= |s| - idx
    decreases |s| - idx
  {
    if idx < |s| {
      match Step(d, s, idx)
      case Stop =>
      case Emit(_, n) => ScanBound(d, s, n);
      case Jump(n) => ScanBound(d, s, n);
    }
  }

  /** Every value the loop collects was decoded by `raw_decode` at some
      non-blank position at or after the cursor: nothing is invented. */
  lemma {:induction false} ScanDecoded(d: Decoder, s: string, idx: nat, v: Value)
    requires v in Scan(d, s, idx)
    ensures exists j :: idx <= j < |s| && !IsSpace(s[j]) && d.at(s, j).Some? && d.at(s, j).value.0 == v
    decreases |s| - idx
  {
    match Step(d, s, idx)
    case Emit(w, n) =>
      if v != w {
        ScanDecoded(d, s, n, v);
      } else {
        var j := SkipSpaces(s, idx);
        assert d.at(s, j).Some? && d.at(s, j).value.0 == v;
      }
    case Jump(n) => ScanDecoded(d, s, n, v);
  }

  // ---------------------------------------------------------------------
  // Tier 3: one JSON document per line

  /** A stripped line worth handing to `json.loads`. */
  predicate IsJsonLineCandidate(line: string) {
    line != [] && (line[0] == '{' || line[0] == '[')
  }

  /** What one line contributes to `json_lines`. */
  function LineValue(d: Decoder, line: string): (r: seq<Value>)
    ensures |r| <= 1
    ensures r != [] ==> IsJsonLineCandidate(Strip(line)) && d.whole(Strip(line)) == Some(r[0])
  {
    var l := Strip(line);
    if IsJsonLineCandidate(l) then
      match d.whole(l)
      case Some(v) => [v]
      case None => []
    else []
  }

  /** The values decoded from the candidate lines, in line order. */
  function LineValues(d: Decoder, lines: seq<string>): (r: seq<Value>)
    ensures |r| <= |lines|
  {
    if lines == [] then []
    else LineValues(d, lines[..|lines| - 1]) + LineValue(d, lines[|lines| - 1])
  }

  lemma LineValuesSnoc(d: Decoder, lines: seq<string>, i: nat)
    requires i < |lines|
    ensures LineValues(d, lines[..i + 1]) == LineValues(d, lines[..i]) + LineValue(d, lines[i])
  {
    assert lines[..i + 1][..i] == lines[..i];
  }

  /** The line loop. */
  method CollectJsonLines(d: Decoder, text: string) returns (jsonLines: seq<Value>)
    ensures jsonLines == LineValues(d, SplitLines(text))
  {
    var lines := SplitLines(text);
    jsonLines := [];
    for i := 0 to |lines|
      invariant jsonLines == LineValues(d, lines[..i])
    {
      LineValuesSnoc(d, lines, i);
      ghost var before := jsonLines;
      var line := Strip(lines[i]);
      if IsJsonLineCandidate(line) {
        match d.whole(line)
        case Some(v) =>
          jsonLines := jsonLines + [v];
        case None =>
      }
      assert jsonLines == before + LineValue(d, lines[i]);
    }
    assert lines[..|lines|] == lines;
  }

  /** Every line value came from one line of the text. */
  lemma {:induction false} LineValuesFromLines(d: Decoder, lines: seq<string>, v: Value)
    requires v in LineValues(d, lines)
    ensures exists k :: 0 <= k < |lines| && d.whole(Strip(lines[k])) == Some(v)
  {
    var last := |lines| - 1;
    if v in LineValue(d, lines[last]) {
      assert d.whole(Strip(lines[last])) == Some(v);
    } else {
      LineValuesFromLines(d, lines[..last], v);
      var k :| 0 <= k < last && d.whole(Strip(lines[..last][k])) == Some(v);
      assert lines[..last][k] == lines[k];
    }
  }

  // ---------------------------------------------------------------------
  // Tier 4 and the whole parser

  /** `data if isinstance(data, list) else [data]`. */
  function AsList(v: Value): (r: seq<Value>)
    ensures v.List? ==> r == v.items
    ensures !v.List? ==> |r| == 1 && r[0] == v
  {
    if v.List? then v.items else [v]
  }

  /** Where tier 4 starts: the first `[`, or failing that the first `{`. */
  function MarkerStart(text: string): (r: Option<nat>)
    ensures r.Some? ==> r.value < |text| && (text[r.value] == '[' || text[r.value] == '{')
    ensures r.None? <==> ('[' !in text && '{' !in text)
  {
    FindCharFirst(text, '[', 0);
    FindCharFirst(text, '{', 0);
    match FindChar(text, '[', 0)
    case Some(i) => Some(i)
    case None => FindChar(text, '{', 0)
  }

  function LastResort(d: Decoder, text: string): Option<seq<Value>> {
    match MarkerStart(text)
    case None => None
    case Some(i) =>
      match d.whole(text[i..])
      case None => None
      case Some(v) => Some(AsList(v))
  }

  /** How the four tiers combine: the first that yields records wins. */
  function FirstTier(whole: Option<Value>, scanned: seq<Value>, lines: seq<Value>, last: Option<seq<Value>>)
    : Option<seq<Value>>
  {
    match whole
    case Some(v) => Some(AsList(v))
    case None =>
      if scanned != [] then Some(scanned)
      else if lines != [] then Some(lines)
      else last
  }

  /** `_parse_brightdata_response`: the four tiers, each tried only when the
      ones before it gave nothing usable. */
  function Parse(d: Decoder, text: string): Option<seq<Value>> {
    FirstTier(d.whole(text), DictsOf(Scan(d, text, 0)), DictsOf(LineValues(d, SplitLines(text))), LastResort(d, text))
  }

  method ParseResponse(d: Decoder, text: string) returns (records: Option<seq<Value>>)
    ensures records == Parse(d, text)
  {
    match d.whole(text)
    case Some(v) =>
      return Some(AsList(v));
    case None =>
    var parsedObjects := ScanConcatenated(d, text);
    if parsedObjects != [] {
      var validObjects := DictsOf(parsedObjects);
      if validObjects != [] {
        return Some(validObjects);
      }
    }
    var jsonLines := CollectJsonLines(d, text);
    if jsonLines != [] {
      var validLines := DictsOf(jsonLines);
      if validLines != [] {
        return Some(validLines);
      }
    }
    var start := MarkerStart(text);
    if start.Some? {
      match d.whole(text[start.value..])
      case Some(v) =>
        return Some(AsList(v));
      case None =>
    }
    return None;
  }

  /** The parser answers None exactly when every tier fails: the whole text
      does not decode, no scanned or line value is a dictionary, and there is
      no `[`/`{` from which the rest of the text decodes. */
  lemma ParseNoneIff(d: Decoder, text: string)
    ensures Parse(d, text).None? <==>
      d.whole(text).None?
      && (forall v :: v in Scan(d, text, 0) ==> !v.Dict?)
      && (forall v :: v in LineValues(d, SplitLines(text)) ==> !v.Dict?)
      && (MarkerStart(text).None? || d.whole(text[MarkerStart(text).value..]).None?)
  {
    var scanned := DictsOf(Scan(d, text, 0));
    var lines := DictsOf(LineValues(d, SplitLines(text)));
    if scanned != [] {
      assert scanned[0] in Scan(d, text, 0) && scanned[0].Dict?;
    }
    if lines != [] {
      assert lines[0] in LineValues(d, SplitLines(text)) && lines[0].Dict?;
    }
  }

  /** An empty record list can only come from a document that is an empty
      JSON array: tiers 2 and 3 never answer with nothing. */
  lemma ParseEmptyOnlyFromEmptyArray(d: Decoder, text: string)
    requires Parse(d, text) == Some([])
    ensures d.whole(text) == Some(List([]))
      || (d.whole(text).None? && MarkerStart(text).Some?
          && d.whole(text[MarkerStart(text).value..]) == Some(List([])))
  {
    FirstTierEmpty(d.whole(text), DictsOf(Scan(d, text, 0)), DictsOf(LineValues(d, SplitLines(text))), LastResort(d, text));
    if d.whole(text).None? {
      LastResortEmpty(d, text);
    }
  }

  lemma LastResortEmpty(d: Decoder, text: string)
    requires LastResort(d, text) == Some([])
    ensures MarkerStart(text).Some? && d.whole(text[MarkerStart(text).value..]) == Some(List([]))
  {
    assert AsList(d.whole(text[MarkerStart(text).value..]).value) == [];
  }

  lemma FirstTierEmpty(whole: Option<Value>, scanned: seq<Value>, lines: seq<Value>, last: Option<seq<Value>>)
    requires FirstTier(whole, scanned, lines, last) == Some([])
    ensures whole == Some(List([])) || (whole.None? && last == Some([]))
  {
    if whole.Some? {
      assert AsList(whole.value) == [];
    }
  }

  /** When the whole text is not one document but the scan finds
      dictionaries, the records are exactly those dictionaries, in order,
      and all of them were decoded somewhere in the text. */
  lemma ScannedRecordsAreDecodedDicts(d: Decoder, text: string, k: nat)
    requires d.whole(text).None? && DictsOf(Scan(d, text, 0)) != []
    requires Parse(d, text).Some? && k < |Parse(d, text).value|
    ensures Parse(d, text).value[k].Dict?
    ensures exists j :: 0 <= j < |text| && d.at(text, j).Some? && d.at(text, j).value.0 == Parse(d, text).value[k]
  {
    var rs := Parse(d, text).value;
    assert rs == DictsOf(Scan(d, text, 0));
    assert rs[k] in Scan(d, text, 0);
    ScanDecoded(d, text, 0, rs[k]);
  }

  // ---------------------------------------------------------------------
  // The concatenated-object cursor: as written and as intended

  /** A decoder for the language whose only document is `{}`: enough to
      compare the two cursors on `{}{}{}`. */
  function EmptyObjectAt(s: string, i: nat): Option<(Value, nat)> {
    if i + 2 <= |s| && s[i] == '{' && s[i + 1] == '}' then Some((Dict(map[]), i + 2)) else None
  }

  const EmptyObjects: Decoder :=
    RawDecoder(s => if s == "{}" then Some(Dict(map[])) else None, EmptyObjectAt)

  /** The loop as evidently intended: after a value ending at index `e`
      the cursor moves to `e`. */
  function ScanIntended(d: Decoder, s: string, idx: nat): seq<Value>
    decreases |s| - idx
  {
    if idx >= |s| then []
    else
      var j := SkipSpaces(s, idx);
      if j >= |s| then []
      else match d.at(s, j)
        case Some(r) => [r.0] + ScanIntended(d, s, r.1)
        case None =>
          match FindChar(s, '{', j + 1)
          case None => []
          case Some(n) => ScanIntended(d, s, n)
  }

  /** As written, three concatenated empty objects yield two records: the
      second value ends at index 4, the cursor jumps to 2 + 4 = 6 and the
      third object is never decoded. */
  lemma {:induction false} AsWrittenSkipsObjects()
    ensures Scan(EmptyObjects, "{}{}{}", 0) == [Dict(map[]), Dict(map[])]
  {
    var s := "{}{}{}";
    assert SkipSpaces(s, 0) == 0;
    assert SkipSpaces(s, 2) == 2;
    assert Step(EmptyObjects, s, 0) == Emit(Dict(map[]), 2);
    assert Step(EmptyObjects, s, 2) == Emit(Dict(map[]), 6);
    assert Scan(EmptyObjects, s, 6) == [];
    assert Scan(EmptyObjects, s, 2) == [Dict(map[])] + Scan(EmptyObjects, s, 6);
    assert Scan(EmptyObjects, s, 0) == [Dict(map[])] + Scan(EmptyObjects, s, 2);
  }

  /** So the parser answers `{}{}{}` with two records. */
  lemma ParseFindsTwo()
    ensures Parse(EmptyObjects, "{}{}{}") == Some([Dict(map[]), Dict(map[])])
  {
    var e := Dict(map[]);
    var two := [e, e];
    AsWrittenSkipsObjects();
    assert DictsOf(two) == two by {
      assert two[1..] == [e] && [e][1..] == [];
    }
    assert EmptyObjects.whole("{}{}{}").None? by {
      assert |"{}{}{}"| != |"{}"|;
    }
  }

  /** `s` is the values `vs` written back to back: value `k` starts at the
      non-blank index `starts[k]` and ends where value `k + 1` starts. */
  ghost predicate Concatenation(d: Decoder, s: string, starts: seq<nat>, vs: seq<Value>) {
    && |starts| == |vs| + 1
    && starts[|vs|] == |s|
    && (forall k :: 0 <= k < |vs| ==>
          starts[k] < |s| && !IsSpace(s[starts[k]])
          && d.at(s, starts[k]) == Some((vs[k], starts[k + 1])))
  }

  /** With the intended cursor, N values written back to back give N
      records, in order. */
  lemma {:induction false} ScanRecoversAll(d: Decoder, s: string, starts: seq<nat>, vs: seq<Value>, k: nat)
    requires Concatenation(d, s, starts, vs) && k <= |vs|
    ensures ScanIntended(d, s, starts[k]) == vs[k..]
    decreases |vs| - k
  {
    if k < |vs| {
      assert SkipSpaces(s, starts[k]) == starts[k];
      ScanRecoversAll(d, s, starts, vs, k + 1);
      assert vs[k..] == [vs[k]] + vs[k + 1..];
    }
  }

  /** With the intended cursor, all three objects of `{}{}{}` are recovered. */
  lemma RecoversThree()
    ensures ScanIntended(EmptyObjects, "{}{}{}", 0) == [Dict(map[]), Dict(map[]), Dict(map[])]
  {
    var s := "{}{}{}";
    var vs := [Dict(map[]), Dict(map[]), Dict(map[])];
    var starts: seq<nat> := [0, 2, 4, 6];
    assert Concatenation(EmptyObjects, s, starts, vs);
    ScanRecoversAll(EmptyObjects, s, starts, vs, 0);
  }

  // ---------------------------------------------------------------------
  // Responses and the two download operations

  /** The standard response dictionaries; the timestamp is left out. */
  datatype HandlerResponse =
    | Success(message: string, data: Option<seq<Value>>, snapshotId: Option<string>)
    | Error(message: string, responseCode: int)

  /** `_create_success_response`: a falsy snapshot id is not recorded. */
  function SuccessResponse(message: string, data: Option<seq<Value>>, snapshotId: Option<string>): (r: HandlerResponse)
    ensures r.Success? && r.message == message && r.data == data
    ensures r.snapshotId.Some? <==> snapshotId.Some? && snapshotId.value != ""
    ensures r.snapshotId.Some? ==> r.snapshotId == snapshotId
  {
    Success(message, data, if snapshotId.Some? && snapshotId.value != "" then snapshotId else None)
  }

  /** `_create_error_response`, whose code defaults to 500. */
  function ErrorResponse(message: string, code: int := 500): (r: HandlerResponse)
    ensures r.Error? && r.message == message && r.responseCode == code
  {
    Error(message, code)
  }

  /** `download_snapshot`: `reply` is what the GET on the snapshot URL
      produced; it is not consulted when no snapshot id is given. */
  function DownloadSnapshot(d: Decoder, snapshotId: Option<string>, reply: Http.Reply): (r: HandlerResponse)
    ensures (snapshotId.None? || snapshotId.value == "") ==> r == Error("No snapshot_id provided", 500)
    ensures r.Success? <==>
      snapshotId.Some? && snapshotId.value != "" && reply.Response? && reply.status == 200
      && Parse(d, reply.text).Some?
    ensures r.Success? ==> r.data == Parse(d, reply.text) && r.snapshotId == snapshotId
    ensures (snapshotId.Some? && snapshotId.value != "" && reply.Response? && reply.status == 200
      && Parse(d, reply.text).None?) ==> r == Error("Failed to parse BrightData response as JSON", 500)
    ensures (snapshotId.Some? && snapshotId.value != "" && reply.Response? && reply.status != 200)
      ==> r == Error("Download failed: " + reply.text, reply.status)
    ensures r.Error? && r.responseCode != 500 ==> reply.Response? && reply.status == r.responseCode
  {
    if snapshotId.None? || snapshotId.value == "" then ErrorResponse("No snapshot_id provided")
    else match reply
      case Raised(TimeoutError, _) => ErrorResponse("Request timeout while downloading snapshot")
      case Raised(ConnectionError, _) => ErrorResponse("Connection error while downloading snapshot")
      case Raised(OtherError, detail) => ErrorResponse("Unexpected error while downloading snapshot: " + detail)
      case Response(status, text, _) =>
        if status == 200 then
          match Parse(d, text)
          case None => ErrorResponse("Failed to parse BrightData response as JSON")
          case Some(data) => SuccessResponse("Snapshot downloaded successfully", Some(data), snapshotId)
        else ErrorResponse("Download failed: " + text, status)
  }

  /** `download_crawl_data`: exactly one of the data and the error is present. */
  function DownloadCrawlData(d: Decoder, snapshotId: string, reply: Http.Reply): (r: (Option<seq<Value>>, Option<string>))
    ensures r.0.Some? <==> r.1.None?
    ensures r.0.Some? <==> DownloadSnapshot(d, Some(snapshotId), reply).Success?
    ensures r.0.Some? ==> reply.Response? && Some(r.0.value) == Parse(d, reply.text)
    ensures r.1.Some? ==> r.1.value == DownloadSnapshot(d, Some(snapshotId), reply).message
  {
    match DownloadSnapshot(d, Some(snapshotId), reply)
    case Success(_, data, _) => (Some(data.GetOr([])), None)
    case Error(message, _) => (None, Some(message))
  }
}
