/** The validators the integration tests use to judge scraped records
    against the reference shapes of the TikTok, Apify and YouTube data.
    Each walks fixed lists of field names and appends one message per
    problem it finds, in the order of the lists. A problem is modelled as a
    `Problem` value and `Message` renders it as the validator's text. */
module ReferenceData {
  import opened Wrappers
  import opened Json
  import opened Strings

  // ---------------------------------------------------------------------
  // Problems and their messages
  // ---------------------------------------------------------------------

  /** The Python types named in the reference shapes. */
  datatype PyType = StrType | IntType | BoolType | DictType | ListType

  /** `t.__name__`. */
  function TypeLabel(t: PyType): string {
    match t
    case StrType => "str"
    case IntType => "int"
    case BoolType => "bool"
    case DictType => "dict"
    case ListType => "list"
  }

  /** `isinstance(v, t)`; a boolean is an instance of `int`. */
  predicate IsInstance(v: Value, t: PyType) {
    match t
    case StrType => v.Str?
    case IntType => IsPyInt(v)
    case BoolType => v.Bool?
    case DictType => v.Dict?
    case ListType => v.List?
  }

  /** The dictionary a list of required fields is looked up in. */
  datatype Scope = Record | AuthorMeta | Stats | AboutChannelInfo | ChannelInfo

  /** One problem a validator reports. */
  datatype Problem =
    | Missing(scope: Scope, field: string)
    | WrongType(field: string, expected: PyType, got: Value)
    | BadTikTokId(id: Value)
    | BadUsername(name: string)
    | MissingStatus
    | BadStatus(status: Value)
    | PatternMismatch(field: string, value: Value)
    | NotInt(field: string, got: Value)
    | NegativeCount(field: string)
    | BadSubscribers(subscribers: Value)

  function MissingPrefix(scope: Scope): string {
    match scope
    case Record => "Missing required field: "
    case AuthorMeta => "Missing authorMeta."
    case Stats => "Missing stats."
    case AboutChannelInfo => "Missing aboutChannelInfo."
    case ChannelInfo => "Missing channel field: "
  }

  /** The text the validators append for a problem (f-strings format a
      value as `str` does). */
  function Message(p: Problem): string {
    match p
    case Missing(scope, f) => MissingPrefix(scope) + f
    case WrongType(f, t, v) => "Field " + f + " should be " + TypeLabel(t) + ", got " + TypeName(v)
    case BadTikTokId(v) => "Invalid TikTok ID format: " + PyStr(v)
    case BadUsername(name) => "Invalid username format: " + name
    case MissingStatus => "Missing status field"
    case BadStatus(v) => "Invalid status value: " + PyStr(v)
    case PatternMismatch(f, v) => "Field " + f + " doesn't match expected pattern: " + PyStr(v)
    case NotInt(f, v) => f + " should be int, got " + TypeName(v)
    case NegativeCount(f) => f + " should be non-negative"
    case BadSubscribers(v) => "Invalid numberOfSubscribers: " + PyStr(v)
  }

  /** The messages of a list of problems, in order. */
  function Messages(ps: seq<Problem>): (r: seq<string>)
    ensures |r| == |ps|
  {
    if ps == [] then [] else Messages(ps[..|ps| - 1]) + [Message(ps[|ps| - 1])]
  }

  /** Rendering distributes over concatenation. */
  lemma {:induction false} MessagesAppend(a: seq<Problem>, b: seq<Problem>)
    ensures Messages(a + b) == Messages(a) + Messages(b)
    decreases |b|
  {
    if b == [] {
      assert a + b == a;
    } else {
      var init, last := b[..|b| - 1], b[|b| - 1];
      assert a + b == (a + init) + [last];
      assert ((a + init) + [last])[..|a + init|] == a + init;
      MessagesAppend(a, init);
    }
  }

  // ---------------------------------------------------------------------
  // Collecting problems over a list of fields
  // ---------------------------------------------------------------------

  /** The problems `check` finds over `xs`, in the order of `xs`: what a
      loop `for x in xs: if <problem>: errors.append(<message>)` reports. */
  function Collect<T>(xs: seq<T>, check: T -> Option<Problem>): (r: seq<Problem>)
    ensures |r| <= |xs|
  {
    if xs == [] then []
    else
      var last := check(xs[|xs| - 1]);
      Collect(xs[..|xs| - 1], check) + (if last.Some? then [last.value] else [])
  }

  /** The positions of `xs` at which `check` finds a problem. */
  function Flagged<T>(xs: seq<T>, check: T -> Option<Problem>): (r: seq<nat>)
    ensures |r| <= |xs|
  {
    if xs == [] then []
    else Flagged(xs[..|xs| - 1], check) + (if check(xs[|xs| - 1]).Some? then [|xs| - 1] else [])
  }

  /** The collected problems are exactly those of the flagged elements, one
      each and in the order of the list, and every element with a problem
      is flagged. */
  lemma {:induction false} CollectInOrder<T>(xs: seq<T>, check: T -> Option<Problem>)
    ensures |Collect(xs, check)| == |Flagged(xs, check)|
    ensures forall k :: 0 <= k < |Flagged(xs, check)| ==>
      Flagged(xs, check)[k] < |xs| && check(xs[Flagged(xs, check)[k]]).Some?
      && Collect(xs, check)[k] == check(xs[Flagged(xs, check)[k]]).value
    ensures forall k, l :: 0 <= k < l < |Flagged(xs, check)| ==> Flagged(xs, check)[k] < Flagged(xs, check)[l]
    ensures forall i :: 0 <= i < |xs| && check(xs[i]).Some? ==> i in Flagged(xs, check)
  {
    if xs != [] {
      var n := |xs| - 1;
      var init := xs[..n];
      CollectInOrder(init, check);
      var c0, f0 := Collect(init, check), Flagged(init, check);
      assert forall i :: 0 <= i < n ==> init[i] == xs[i];
      assert Collect(xs, check) == c0 + (if check(xs[n]).Some? then [check(xs[n]).value] else []);
      assert Flagged(xs, check) == f0 + (if check(xs[n]).Some? then [n] else []);
      forall i | 0 <= i < |xs| && check(xs[i]).Some?
        ensures i in Flagged(xs, check)
      {
        if i < n {
          assert init[i] == xs[i];
          assert i in f0;
        }
      }
    }
  }

  /** A kind every problem of `check` has is had by every collected one. */
  lemma {:induction false} CollectKind<T>(xs: seq<T>, check: T -> Option<Problem>, kind: Problem -> bool)
    requires forall k :: 0 <= k < |xs| && check(xs[k]).Some? ==> kind(check(xs[k]).value)
    ensures forall p :: p in Collect(xs, check) ==> kind(p)
  {
    if xs != [] {
      var init := xs[..|xs| - 1];
      assert forall k :: 0 <= k < |init| ==> init[k] == xs[k];
      CollectKind(init, check, kind);
    }
  }

  /** The loop that appends the messages of the problems `check` finds over
      `xs` to `errors`. */
  method AppendFlagged<T>(errors: seq<string>, xs: seq<T>, check: T -> Option<Problem>)
    returns (out: seq<string>)
    ensures out == errors + Messages(Collect(xs, check))
  {
    out := errors;
    for i := 0 to |xs|
      invariant out == errors + Messages(Collect(xs[..i], check))
    {
      assert xs[..i + 1][..i] == xs[..i];
      var before := Collect(xs[..i], check);
      var problem := check(xs[i]);
      if problem.Some? {
        assert Collect(xs[..i + 1], check) == before + [problem.value];
        assert (before + [problem.value])[..|before|] == before;
        out := out + [Message(problem.value)];
      } else {
        assert Collect(xs[..i + 1], check) == before + [];
        assert before + [] == before;
      }
    }
    assert xs[..|xs|] == xs;
  }

  // ---------------------------------------------------------------------
  // The per-field checks
  // ---------------------------------------------------------------------

  /** `if field not in m: errors.append(...)`. */
  function MissingCheck(m: Object, scope: Scope): string -> Option<Problem> {
    (f: string) => if f in m then None else Some(Missing(scope, f))
  }

  /** The type check of a present field; with `skipNone` a `None` value is
      not checked. */
  function TypeCheck(m: Object, skipNone: bool): ((string, PyType)) -> Option<Problem> {
    (p: (string, PyType)) =>
      if p.0 in m && (!skipNone || m[p.0] != Null) && !IsInstance(m[p.0], p.1)
      then Some(WrongType(p.0, p.1, m[p.0]))
      else None
  }

  /** The problem for a field names it: `Missing(scope, f)` is collected
      exactly when `f` is one of the fields and is absent; and every
      collected problem is a missing field of that scope. */
  lemma {:induction false} MissingIff(m: Object, fields: seq<string>, scope: Scope, f: string)
    ensures Missing(scope, f) in Collect(fields, MissingCheck(m, scope)) <==> f in fields && f !in m
    ensures forall p :: p in Collect(fields, MissingCheck(m, scope)) ==> p.Missing? && p.scope == scope
  {
    if fields != [] {
      var init, g := fields[..|fields| - 1], fields[|fields| - 1];
      MissingIff(m, init, scope, f);
      assert fields == init + [g];
    }
  }

  /** Nothing is collected exactly when every field is present. */
  lemma {:induction false} MissingNoneIff(m: Object, fields: seq<string>, scope: Scope)
    ensures Collect(fields, MissingCheck(m, scope)) == [] <==> forall f :: f in fields ==> f in m
  {
    if fields != [] {
      var init, g := fields[..|fields| - 1], fields[|fields| - 1];
      MissingNoneIff(m, init, scope);
      assert fields == init + [g];
    }
  }

  /** One problem per absent field, in the order of `fields`. */
  lemma MissingInOrder(m: Object, fields: seq<string>, scope: Scope)
    ensures |Collect(fields, MissingCheck(m, scope))| == |Flagged(fields, MissingCheck(m, scope))|
    ensures forall k :: 0 <= k < |Flagged(fields, MissingCheck(m, scope))| ==>
      var i := Flagged(fields, MissingCheck(m, scope))[k];
      i < |fields| && fields[i] !in m && Collect(fields, MissingCheck(m, scope))[k] == Missing(scope, fields[i])
    ensures forall k, l :: 0 <= k < l < |Flagged(fields, MissingCheck(m, scope))| ==>
      Flagged(fields, MissingCheck(m, scope))[k] < Flagged(fields, MissingCheck(m, scope))[l]
    ensures forall i :: 0 <= i < |fields| && fields[i] !in m ==> i in Flagged(fields, MissingCheck(m, scope))
  {
    CollectInOrder(fields, MissingCheck(m, scope));
  }

  /** Type problems are found only for present fields whose value is not an
      instance of the declared type (and, with `skipNone`, is not `None`),
      one per such field in declared order. */
  lemma TypeErrorsInOrder(m: Object, types: seq<(string, PyType)>, skipNone: bool)
    ensures |Collect(types, TypeCheck(m, skipNone))| == |Flagged(types, TypeCheck(m, skipNone))|
    ensures forall k :: 0 <= k < |Flagged(types, TypeCheck(m, skipNone))| ==>
      var i := Flagged(types, TypeCheck(m, skipNone))[k];
      i < |types| && types[i].0 in m && !IsInstance(m[types[i].0], types[i].1)
      && (skipNone ==> m[types[i].0] != Null)
      && Collect(types, TypeCheck(m, skipNone))[k] == WrongType(types[i].0, types[i].1, m[types[i].0])
    ensures forall i :: (0 <= i < |types| && types[i].0 in m && !IsInstance(m[types[i].0], types[i].1)
                         && (skipNone ==> m[types[i].0] != Null)) ==> i in Flagged(types, TypeCheck(m, skipNone))
  {
    CollectInOrder(types, TypeCheck(m, skipNone));
  }

  lemma TypeKind(m: Object, types: seq<(string, PyType)>, skipNone: bool)
    ensures forall p :: p in Collect(types, TypeCheck(m, skipNone)) ==> p.WrongType?
  {
    CollectKind(types, TypeCheck(m, skipNone), (p: Problem) => p.WrongType?);
  }

  // ---------------------------------------------------------------------
  // Regular expressions
  // ---------------------------------------------------------------------

  /** `re.match(r'^P$', s)` for a pattern whose body matches exactly the
      strings `shape` accepts: `$` also matches just before a newline that
      ends the string. */
  predicate Anchored(shape: string -> bool, s: string) {
    shape(s) || (|s| > 0 && s[|s| - 1] == '\n' && shape(s[..|s| - 1]))
  }

  /** `\d{17,20}`. */
  predicate TikTokIdShape(s: string) {
    17 <= |s| <= 20 && AllDigits(s)
  }

  predicate UsernameChar(c: char) {
    'a' <= c <= 'z' || 'A' <= c <= 'Z' || '0' <= c <= '9' || c == '_' || c == '.'
  }

  /** `[a-zA-Z0-9_.]+`. */
  predicate UsernameShape(s: string) {
    |s| >= 1 && forall k :: 0 <= k < |s| ==> UsernameChar(s[k])
  }

  /** The text of the TypeError `re.match` raises on a non-string subject. */
  function MatchTypeErrorText(v: Value): string {
    "expected string or bytes-like object, got '" + TypeName(v) + "'"
  }

  // ---------------------------------------------------------------------
  // TikTok items
  // ---------------------------------------------------------------------

  const TikTokRequired: seq<string> := [
    "id", "text", "createTime", "authorMeta", "musicMeta", "covers", "videoUrl",
    "diggCount", "shareCount", "playCount", "commentCount", "downloaded",
    "mentions", "hashtags"]

  const AuthorMetaFields: seq<string> := [
    "id", "secUid", "name", "nickName", "verified", "signature", "avatar"]

  const TikTokFieldTypes: seq<(string, PyType)> := [
    ("id", StrType), ("text", StrType), ("createTime", IntType),
    ("authorMeta", DictType), ("musicMeta", DictType), ("covers", DictType),
    ("diggCount", IntType), ("shareCount", IntType), ("playCount", IntType),
    ("commentCount", IntType), ("downloaded", BoolType),
    ("mentions", ListType), ("hashtags", ListType)]

  /** The id check: `str(item["id"])` must match `^\d{17,20}$`. */
  function TikTokIdProblems(item: Object): seq<Problem> {
    if "id" in item && !Anchored(TikTokIdShape, PyStr(item["id"])) then [BadTikTokId(item["id"])] else []
  }

  /** The problems found before the authorMeta checks. */
  function TikTokBaseProblems(item: Object): seq<Problem> {
    Collect(TikTokRequired, MissingCheck(item, Record))
    + Collect(TikTokFieldTypes, TypeCheck(item, false))
    + TikTokIdProblems(item)
  }

  /** The checks on an authorMeta dictionary; `re.match` raises a
      TypeError when its name is not a string. */
  function AuthorDictProblems(author: Object): Result<seq<Problem>, string> {
    var missing := Collect(AuthorMetaFields, MissingCheck(author, AuthorMeta));
    if "name" !in author then Ok(missing)
    else if !author["name"].Str? then Err(MatchTypeErrorText(author["name"]))
    else if Anchored(UsernameShape, author["name"].s) then Ok(missing)
    else Ok(missing + [BadUsername(author["name"].s)])
  }

  /** The authorMeta checks, made only when it is a dictionary. */
  function AuthorProblems(item: Object): Result<seq<Problem>, string> {
    if "authorMeta" in item && item["authorMeta"].Dict? then
      AuthorDictProblems(item["authorMeta"].fields)
    else Ok([])
  }

  /** The messages of `problems` appended to `errors`, or the error raised. */
  function RenderAfter(errors: seq<string>, problems: Result<seq<Problem>, string>): Result<seq<string>, string> {
    match problems
    case Err(e) => Err(e)
    case Ok(ps) => Ok(errors + Messages(ps))
  }

  /** What `validate_tiktok_item(item)` reports, or the TypeError it raises. */
  function TikTokProblems(item: Object): Result<seq<Problem>, string> {
    match AuthorProblems(item)
    case Err(e) => Err(e)
    case Ok(author) => Ok(TikTokBaseProblems(item) + author)
  }

  /** `validate_tiktok_item(item)`: the list of messages, or the TypeError. */
  function TikTokItemErrors(item: Object): Result<seq<string>, string> {
    match TikTokProblems(item)
    case Err(e) => Err(e)
    case Ok(ps) => Ok(Messages(ps))
  }

  method ValidateTikTokItem(item: Object) returns (r: Result<seq<string>, string>)
    ensures r == TikTokItemErrors(item)
  {
    var errors := CheckTikTokFields(item);
    r := CheckAuthorMeta(item, errors);
  }

  /** The required-field, type and id checks of `validate_tiktok_item`. */
  method CheckTikTokFields(item: Object) returns (errors: seq<string>)
    ensures errors == Messages(TikTokBaseProblems(item))
  {
    var missing := Collect(TikTokRequired, MissingCheck(item, Record));
    var types := Collect(TikTokFieldTypes, TypeCheck(item, false));
    errors := [];
    errors := AppendFlagged(errors, TikTokRequired, MissingCheck(item, Record));
    assert errors == Messages(missing);
    errors := AppendFlagged(errors, TikTokFieldTypes, TypeCheck(item, false));
    MessagesAppend(missing, types);
    if "id" in item && !Anchored(TikTokIdShape, PyStr(item["id"])) {
      errors := errors + [Message(BadTikTokId(item["id"]))];
      MessagesAppend(missing + types, [BadTikTokId(item["id"])]);
    } else {
      assert missing + types + TikTokIdProblems(item) == missing + types;
    }
  }

  /** The authorMeta checks of `validate_tiktok_item`, appending to the
      messages of the earlier checks. */
  method CheckAuthorMeta(item: Object, errors: seq<string>) returns (r: Result<seq<string>, string>)
    requires errors == Messages(TikTokBaseProblems(item))
    ensures r == TikTokItemErrors(item)
  {
    var base := TikTokBaseProblems(item);
    if "authorMeta" in item && item["authorMeta"].Dict? {
      var author := item["authorMeta"].fields;
      r := CheckAuthorDict(author, errors);
      if AuthorDictProblems(author).Ok? {
        MessagesAppend(base, AuthorDictProblems(author).value);
      }
    } else {
      assert base + [] == base;
      r := Ok(errors);
    }
  }

  /** The checks on an authorMeta dictionary, appending to `errors`. */
  method CheckAuthorDict(author: Object, errors: seq<string>) returns (r: Result<seq<string>, string>)
    ensures r == RenderAfter(errors, AuthorDictProblems(author))
  {
    var missing := Collect(AuthorMetaFields, MissingCheck(author, AuthorMeta));
    var out := AppendFlagged(errors, AuthorMetaFields, MissingCheck(author, AuthorMeta));
    if "name" in author {
      if !author["name"].Str? {
        return Err(MatchTypeErrorText(author["name"]));
      }
      if !Anchored(UsernameShape, author["name"].s) {
        var bad := BadUsername(author["name"].s);
        out := out + [Message(bad)];
        MessagesAppend(missing, [bad]);
        assert Messages([bad]) == [Message(bad)];
        assert AuthorDictProblems(author) == Ok(missing + [bad]);
        assert out == errors + (Messages(missing) + Messages([bad]));
        return Ok(out);
      }
    }
    return Ok(out);
  }

  /** The TikTok report, when there is one, is the base problems followed by
      the authorMeta problems. */
  lemma TikTokParts(item: Object)
    requires AuthorProblems(item).Ok?
    ensures TikTokProblems(item).Ok?
    ensures TikTokProblems(item).value
      == Collect(TikTokRequired, MissingCheck(item, Record))
         + (Collect(TikTokFieldTypes, TypeCheck(item, false)) + TikTokIdProblems(item) + AuthorProblems(item).value)
  {
  }

  /** The authorMeta checks report only authorMeta fields and usernames. */
  lemma AuthorKind(item: Object)
    requires AuthorProblems(item).Ok?
    ensures forall p :: p in AuthorProblems(item).value ==>
      (p.Missing? && p.scope == AuthorMeta) || p.BadUsername?
  {
    if "authorMeta" in item && item["authorMeta"].Dict? {
      var author := item["authorMeta"].fields;
      CollectKind(AuthorMetaFields, MissingCheck(author, AuthorMeta), (p: Problem) => p.Missing? && p.scope == AuthorMeta);
    }
  }

  /** The report opens with the missing required fields, and a required
      field's problem is reported exactly when the field is absent. */
  lemma TikTokMissingReported(item: Object, f: string)
    ensures TikTokProblems(item).Ok? ==>
      var missing := Collect(TikTokRequired, MissingCheck(item, Record));
      |missing| <= |TikTokProblems(item).value|
      && TikTokProblems(item).value[..|missing|] == missing
      && (Missing(Record, f) in TikTokProblems(item).value <==> f in TikTokRequired && f !in item)
  {
    if AuthorProblems(item).Ok? {
      var missing := Collect(TikTokRequired, MissingCheck(item, Record));
      var rest := Collect(TikTokFieldTypes, TypeCheck(item, false)) + TikTokIdProblems(item) + AuthorProblems(item).value;
      TikTokParts(item);
      MissingIff(item, TikTokRequired, Record, f);
      TypeKind(item, TikTokFieldTypes, false);
      AuthorKind(item);
      assert Missing(Record, f) !in rest;
      assert (missing + rest)[..|missing|] == missing;
    }
  }

  /** A type problem is reported exactly for each present field whose
      value is not an instance of its declared type, in declared order. */
  lemma TikTokTypeErrorsOnlyPresent(item: Object)
    ensures forall k :: 0 <= k < |Flagged(TikTokFieldTypes, TypeCheck(item, false))| ==>
      var i := Flagged(TikTokFieldTypes, TypeCheck(item, false))[k];
      i < |TikTokFieldTypes| && TikTokFieldTypes[i].0 in item
      && !IsInstance(item[TikTokFieldTypes[i].0], TikTokFieldTypes[i].1)
    ensures forall i :: (0 <= i < |TikTokFieldTypes| && TikTokFieldTypes[i].0 in item
                         && !IsInstance(item[TikTokFieldTypes[i].0], TikTokFieldTypes[i].1)) ==>
      i in Flagged(TikTokFieldTypes, TypeCheck(item, false))
  {
    TypeErrorsInOrder(item, TikTokFieldTypes, false);
  }

  /** The id problem is reported exactly when the item has an id whose
      `str` does not match the pattern. */
  lemma TikTokIdReported(item: Object, v: Value)
    ensures TikTokProblems(item).Ok? ==>
      (BadTikTokId(v) in TikTokProblems(item).value <==>
       "id" in item && item["id"] == v && !Anchored(TikTokIdShape, PyStr(v)))
  {
    if AuthorProblems(item).Ok? {
      var missing := Collect(TikTokRequired, MissingCheck(item, Record));
      var types := Collect(TikTokFieldTypes, TypeCheck(item, false));
      var author := AuthorProblems(item).value;
      MissingIff(item, TikTokRequired, Record, "");
      TypeKind(item, TikTokFieldTypes, false);
      AuthorKind(item);
      assert TikTokProblems(item).value == missing + types + TikTokIdProblems(item) + author;
      assert BadTikTokId(v) !in missing;
      assert BadTikTokId(v) !in types;
      assert BadTikTokId(v) !in author;
    }
  }

  /** Without an authorMeta dictionary no authorMeta field, no username
      problem and no TypeError is reported. */
  lemma AuthorChecksNeedDict(item: Object)
    requires !("authorMeta" in item && item["authorMeta"].Dict?)
    ensures TikTokProblems(item).Ok?
    ensures forall p :: p in TikTokProblems(item).value ==>
      !(p.Missing? && p.scope == AuthorMeta) && !p.BadUsername?
  {
    MissingIff(item, TikTokRequired, Record, "");
    TypeKind(item, TikTokFieldTypes, false);
  }

  /** With an authorMeta dictionary: the TypeError arises exactly when its
      name is present and not a string; otherwise an author field's
      problem is reported exactly when the field is absent, and the
      username problem exactly when the name does not match
      `^[a-zA-Z0-9_.]+$`. */
  lemma AuthorChecksForDict(item: Object, f: string, name: string)
    requires "authorMeta" in item && item["authorMeta"].Dict?
    ensures var author := item["authorMeta"].fields;
      TikTokProblems(item).Err? <==> "name" in author && !author["name"].Str?
    ensures var author := item["authorMeta"].fields;
      TikTokProblems(item).Ok? ==>
        (Missing(AuthorMeta, f) in TikTokProblems(item).value <==> f in AuthorMetaFields && f !in author)
    ensures var author := item["authorMeta"].fields;
      TikTokProblems(item).Ok? ==>
        (BadUsername(name) in TikTokProblems(item).value <==>
         "name" in author && author["name"] == Str(name) && !Anchored(UsernameShape, name))
  {
    if AuthorProblems(item).Ok? {
      var author := item["authorMeta"].fields;
      var missing := Collect(AuthorMetaFields, MissingCheck(author, AuthorMeta));
      TikTokBaseKind(item);
      assert TikTokProblems(item).value == TikTokBaseProblems(item) + AuthorProblems(item).value;
      assert Missing(AuthorMeta, f) !in TikTokBaseProblems(item);
      assert BadUsername(name) !in TikTokBaseProblems(item);
      MissingIff(author, AuthorMetaFields, AuthorMeta, f);
      assert AuthorDictProblems(author).value == missing || AuthorDictProblems(author).value == missing + [BadUsername(author["name"].s)];
    }
  }

  /** The checks before the authorMeta ones report required fields, types
      and the id only. */
  lemma TikTokBaseKind(item: Object)
    ensures forall p :: p in TikTokBaseProblems(item) ==>
      (p.Missing? && p.scope == Record) || p.WrongType? || p.BadTikTokId?
  {
    MissingIff(item, TikTokRequired, Record, "");
    TypeKind(item, TikTokFieldTypes, false);
  }

  /** Powers of ten, to count decimal digits. */
  function Pow10(k: nat): (r: nat)
    ensures r >= 1
  {
    if k == 0 then 1 else 10 * Pow10(k - 1)
  }

  lemma {:induction false} Pow10Monotone(a: nat, b: nat)
    requires a <= b
    ensures Pow10(a) <= Pow10(b)
    decreases b
  {
    if a < b {
      Pow10Monotone(a, b - 1);
    }
  }

  /** A natural number has `k` decimal digits exactly when it lies in
      `[10^(k-1), 10^k)` (zero being written with one digit). */
  lemma {:induction false} NatToStringLength(n: nat)
    ensures n < Pow10(|NatToString(n)|)
    ensures n >= 1 ==> Pow10(|NatToString(n)| - 1) <= n
    decreases n
  {
    if n >= 10 {
      var q := n / 10;
      NatToStringLength(q);
      var len := |NatToString(q)|;
      assert |NatToString(n)| == len + 1;
      assert n == 10 * q + n % 10;
      assert Pow10(len + 1) == 10 * Pow10(len);
      assert Pow10(len) == 10 * Pow10(len - 1);
    }
  }

  /** A number written with `lo` to `hi` digits lies in `[10^(lo-1), 10^hi)`,
      and conversely. */
  lemma DigitCountRange(n: nat, lo: nat, hi: nat)
    requires 2 <= lo <= hi
    ensures lo <= |NatToString(n)| <= hi <==> Pow10(lo - 1) <= n < Pow10(hi)
  {
    var len := |NatToString(n)|;
    NatToStringLength(n);
    if lo <= len <= hi {
      Pow10Monotone(lo - 1, len - 1);
      Pow10Monotone(len, hi);
    }
    if Pow10(lo - 1) <= n < Pow10(hi) {
      if len < lo {
        Pow10Monotone(len, lo - 1);
      }
      if len > hi {
        Pow10Monotone(hi, len - 1);
      }
    }
  }

  /** A numeric id passes the id pattern exactly when it has 17 to 20
      digits; a negative one never does. */
  lemma IntIdMatchesIffDigitCount(i: int)
    ensures Anchored(TikTokIdShape, PyStr(Int(i))) <==> Pow10(16) <= i < Pow10(20)
  {
    var s := PyStr(Int(i));
    if i < 0 {
      var t := NatToString(-i);
      assert s == "-" + t;
      assert !IsDigit(s[0]);
      assert s[|s| - 1] == t[|t| - 1];
    } else {
      assert s == NatToString(i);
      assert IsDigit(s[|s| - 1]);
      DigitCountRange(i, 17, 20);
    }
  }

  /** `$` lets a final newline through, while 16 digits are too few. */
  lemma TikTokIdEdges()
    ensures Anchored(TikTokIdShape, "7234567890123456789\n")
    ensures !Anchored(TikTokIdShape, "1234567890123456")
  {
    var s := "7234567890123456789\n";
    assert s[..|s| - 1] == "7234567890123456789";
    var t := "1234567890123456";
    assert t[|t| - 1] == '6';
  }

  // ---------------------------------------------------------------------
  // Apify run status
  // ---------------------------------------------------------------------

  const ApifyStatuses: seq<string> := [
    "READY", "RUNNING", "SUCCEEDED", "FAILED", "TIMING-OUT", "TIMED-OUT", "ABORTING", "ABORTED"]

  const ExpectedStats: seq<string> := ["durationMillis", "computeUnits", "memMaxBytes"]

  /** `v in APIFY_STATUS_STRUCTURE["status_values"]`: only a string can equal one. */
  predicate KnownStatus(v: Value) {
    v.Str? && v.s in ApifyStatuses
  }

  /** The status check: absent, or not one of the eight values. */
  function StatusValueProblems(status: Object): seq<Problem> {
    if "status" !in status then [MissingStatus]
    else if !KnownStatus(status["status"]) then [BadStatus(status["status"])]
    else []
  }

  /** The stats check, made only when stats is a dictionary. */
  function StatsProblems(status: Object): seq<Problem> {
    if "stats" in status && status["stats"].Dict?
    then Collect(ExpectedStats, MissingCheck(status["stats"].fields, Stats))
    else []
  }

  /** What `validate_apify_status(status)` reports. */
  function ApifyStatusProblems(status: Object): seq<Problem> {
    StatusValueProblems(status) + StatsProblems(status)
  }

  method ValidateApifyStatus(status: Object) returns (errors: seq<string>)
    ensures errors == Messages(ApifyStatusProblems(status))
  {
    errors := [];
    if "status" in status {
      if !KnownStatus(status["status"]) {
        errors := errors + [Message(BadStatus(status["status"]))];
      }
    } else {
      errors := errors + [Message(MissingStatus)];
    }
    assert errors == Messages(StatusValueProblems(status));
    if "stats" in status && status["stats"].Dict? {
      var stats := status["stats"].fields;
      errors := AppendFlagged(errors, ExpectedStats, MissingCheck(stats, Stats));
    }
    MessagesAppend(StatusValueProblems(status), StatsProblems(status));
  }

  /** A missing status is reported; a present one is reported exactly when
      it is not one of the eight values; stats are checked only when they
      are a dictionary; and the status passes exactly when all of it
      holds. */
  lemma ApifyStatusChecked(status: Object, v: Value)
    ensures MissingStatus in ApifyStatusProblems(status) <==> "status" !in status
    ensures BadStatus(v) in ApifyStatusProblems(status)
      <==> "status" in status && status["status"] == v && !KnownStatus(v)
    ensures !("stats" in status && status["stats"].Dict?) ==> |ApifyStatusProblems(status)| <= 1
    ensures ApifyStatusProblems(status) == [] <==>
      "status" in status && KnownStatus(status["status"])
      && (("stats" in status && status["stats"].Dict?) ==>
            forall f :: f in ExpectedStats ==> f in status["stats"].fields)
  {
    if "stats" in status && status["stats"].Dict? {
      var stats := status["stats"].fields;
      MissingIff(stats, ExpectedStats, Stats, "");
      MissingNoneIff(stats, ExpectedStats, Stats);
    }
  }

  // ---------------------------------------------------------------------
  // YouTube items
  // ---------------------------------------------------------------------

  const YouTubeRequired: seq<string> := [
    "title", "type", "id", "url", "thumbnailUrl", "viewCount", "date", "likes",
    "channelName", "channelUrl", "channelId", "channelUsername", "channelDescription",
    "duration", "commentsCount", "text", "aboutChannelInfo"]

  const AboutChannelFields: seq<string> := [
    "channelDescription", "channelJoinedDate", "channelDescriptionLinks", "channelLocation",
    "channelUsername", "channelAvatarUrl", "channelBannerUrl", "channelTotalVideos",
    "channelTotalViews", "numberOfSubscribers", "isChannelVerified", "channelName",
    "channelUrl", "channelId"]

  const YouTubeFieldTypes: seq<(string, PyType)> := [
    ("title", StrType), ("type", StrType), ("id", StrType), ("url", StrType),
    ("thumbnailUrl", StrType), ("viewCount", IntType), ("date", StrType),
    ("likes", IntType), ("channelName", StrType), ("channelUrl", StrType),
    ("channelId", StrType), ("channelUsername", StrType), ("channelDescription", StrType),
    ("duration", StrType), ("commentsCount", IntType), ("text", StrType),
    ("aboutChannelInfo", DictType), ("descriptionLinks", ListType), ("hashtags", ListType)]

  /** The patterns of the YouTube reference shape. */
  datatype YouTubePattern = VideoId | ChannelId | WatchUrl | ChannelUrl | ThumbnailUrl | Duration | Date

  const YouTubePatterns: seq<(string, YouTubePattern)> := [
    ("id", VideoId), ("channelId", ChannelId), ("url", WatchUrl), ("channelUrl", ChannelUrl),
    ("thumbnailUrl", ThumbnailUrl), ("duration", Duration), ("date", Date)]

  /** `[A-Za-z0-9_-]`. */
  predicate IdChar(c: char) {
    'A' <= c <= 'Z' || 'a' <= c <= 'z' || '0' <= c <= '9' || c == '_' || c == '-'
  }

  predicate IdChars(s: string) {
    forall k :: 0 <= k < |s| ==> IdChar(s[k])
  }

  /** `s` has the layout of `template`, where each 'd' stands for a decimal
      digit and every other character for itself. */
  predicate FitsTemplate(s: string, template: string) {
    |s| == |template|
    && forall k :: 0 <= k < |s| ==>
      if template[k] == 'd' then IsDigit(s[k]) else s[k] == template[k]
  }

  const WatchPrefix := "https://www.youtube.com/watch?v="
  const ChannelPrefix := "https://www.youtube.com/channel/"
  const ThumbnailPrefix := "https://i.ytimg.com/vi/"

  /** `[A-Za-z0-9_-]{11}`. */
  predicate VideoIdShape(s: string) {
    |s| == 11 && IdChars(s)
  }

  /** `UC[A-Za-z0-9_-]{22}`. */
  predicate ChannelIdShape(s: string) {
    |s| == 24 && s[..2] == "UC" && IdChars(s[2..])
  }

  predicate WatchUrlShape(s: string) {
    StartsWith(s, WatchPrefix) && VideoIdShape(s[|WatchPrefix|..])
  }

  predicate ChannelUrlShape(s: string) {
    StartsWith(s, ChannelPrefix) && ChannelIdShape(s[|ChannelPrefix|..])
  }

  /** `https://i\.ytimg\.com/vi/[A-Za-z0-9_-]{11}/.*\.jpg.*`: `.` does not
      match a newline, so the tail is newline-free and holds ".jpg". */
  predicate ThumbnailUrlShape(s: string) {
    var n := |ThumbnailPrefix|;
    StartsWith(s, ThumbnailPrefix) && |s| >= n + 12
    && VideoIdShape(s[n..n + 11]) && s[n + 11] == '/'
    && '\n' !in s[n + 12..] && Contains(s[n + 12..], ".jpg")
  }

  /** `\d{2}:\d{2}:\d{2}`. */
  predicate DurationShape(s: string) {
    FitsTemplate(s, "dd:dd:dd")
  }

  /** `\d{4}-\d{2}-\d{2}T\d{2}:\d{2}:\d{2}\.\d{3}Z`. */
  predicate DateShape(s: string) {
    FitsTemplate(s, "dddd-dd-ddTdd:dd:dd.dddZ")
  }

  function ShapeOf(p: YouTubePattern): string -> bool {
    match p
    case VideoId => VideoIdShape
    case ChannelId => ChannelIdShape
    case WatchUrl => WatchUrlShape
    case ChannelUrl => ChannelUrlShape
    case ThumbnailUrl => ThumbnailUrlShape
    case Duration => DurationShape
    case Date => DateShape
  }

  /** The pattern check of a present, non-None field on `str(value)`. */
  function PatternCheck(m: Object): ((string, YouTubePattern)) -> Option<Problem> {
    (p: (string, YouTubePattern)) =>
      if p.0 in m && m[p.0] != Null && !Anchored(ShapeOf(p.1), PyStr(m[p.0]))
      then Some(PatternMismatch(p.0, m[p.0]))
      else None
  }

  lemma PatternKind(m: Object, patterns: seq<(string, YouTubePattern)>)
    ensures forall p :: p in Collect(patterns, PatternCheck(m)) ==> p.PatternMismatch?
  {
    CollectKind(patterns, PatternCheck(m), (p: Problem) => p.PatternMismatch?);
  }

  /** `if f in info and not isinstance(info[f], int)`. */
  function IntFieldProblems(info: Object, f: string): seq<Problem> {
    if f in info && !IsPyInt(info[f]) then [NotInt(f, info[f])] else []
  }

  /** The checks made on an aboutChannelInfo dictionary. */
  function AboutInfoProblems(info: Object): seq<Problem> {
    Collect(AboutChannelFields, MissingCheck(info, AboutChannelInfo))
    + IntFieldProblems(info, "numberOfSubscribers")
    + IntFieldProblems(info, "channelTotalVideos")
  }

  /** The aboutChannelInfo checks, made only when it is a dictionary. */
  function AboutChannelProblems(item: Object): seq<Problem> {
    if "aboutChannelInfo" in item && item["aboutChannelInfo"].Dict? then
      AboutInfoProblems(item["aboutChannelInfo"].fields)
    else []
  }

  /** `isinstance(v, int) and v < 0`; `True < 0` is false. */
  predicate Negative(item: Object, f: string) {
    f in item && IsPyInt(item[f]) && AsPyInt(item[f]) < 0
  }

  function NegativeProblems(item: Object, f: string): seq<Problem> {
    if Negative(item, f) then [NegativeCount(f)] else []
  }

  function RangeProblems(item: Object): seq<Problem> {
    NegativeProblems(item, "viewCount") + NegativeProblems(item, "likes") + NegativeProblems(item, "commentsCount")
  }

  /** The per-field checks: required fields, types and patterns. */
  function FieldProblems(item: Object): seq<Problem> {
    Collect(YouTubeRequired, MissingCheck(item, Record))
    + Collect(YouTubeFieldTypes, TypeCheck(item, true))
    + Collect(YouTubePatterns, PatternCheck(item))
  }

  /** What `validate_youtube_item(item)` reports. */
  function YouTubeProblems(item: Object): seq<Problem> {
    FieldProblems(item) + AboutChannelProblems(item) + RangeProblems(item)
  }

  method ValidateYouTubeItem(item: Object) returns (errors: seq<string>)
    ensures errors == Messages(YouTubeProblems(item))
  {
    errors := CheckYouTubeFields(item);
    errors := CheckAboutChannel(item, errors);
    MessagesAppend(FieldProblems(item), AboutChannelProblems(item));
    errors := CheckRanges(item, errors);
    MessagesAppend(FieldProblems(item) + AboutChannelProblems(item), RangeProblems(item));
  }

  /** The required-field, type and pattern loops of `validate_youtube_item`. */
  method CheckYouTubeFields(item: Object) returns (errors: seq<string>)
    ensures errors == Messages(FieldProblems(item))
  {
    var missing := Collect(YouTubeRequired, MissingCheck(item, Record));
    var types := Collect(YouTubeFieldTypes, TypeCheck(item, true));
    var patterns := Collect(YouTubePatterns, PatternCheck(item));
    errors := [];
    errors := AppendFlagged(errors, YouTubeRequired, MissingCheck(item, Record));
    assert errors == Messages(missing);
    errors := AppendFlagged(errors, YouTubeFieldTypes, TypeCheck(item, true));
    MessagesAppend(missing, types);
    errors := AppendFlagged(errors, YouTubePatterns, PatternCheck(item));
    MessagesAppend(missing + types, patterns);
  }

  /** The aboutChannelInfo checks of `validate_youtube_item`. */
  method CheckAboutChannel(item: Object, errors: seq<string>) returns (out: seq<string>)
    ensures out == errors + Messages(AboutChannelProblems(item))
  {
    out := errors;
    if "aboutChannelInfo" in item && item["aboutChannelInfo"].Dict? {
      out := CheckAboutInfo(item["aboutChannelInfo"].fields, out);
    } else {
      assert out == out + [];
    }
  }

  /** The checks on an aboutChannelInfo dictionary. */
  method CheckAboutInfo(info: Object, errors: seq<string>) returns (out: seq<string>)
    ensures out == errors + Messages(AboutInfoProblems(info))
  {
    var about := Collect(AboutChannelFields, MissingCheck(info, AboutChannelInfo));
    var subscribers := IntFieldProblems(info, "numberOfSubscribers");
    var videos := IntFieldProblems(info, "channelTotalVideos");
    out := AppendFlagged(errors, AboutChannelFields, MissingCheck(info, AboutChannelInfo));
    out := AppendIntField(info, "numberOfSubscribers", out);
    out := AppendIntField(info, "channelTotalVideos", out);
    MessagesAppend(about, subscribers);
    MessagesAppend(about + subscribers, videos);
    assert out == errors + (Messages(about + subscribers) + Messages(videos));
  }

  /** One `isinstance(info[f], int)` check of the aboutChannelInfo block. */
  method AppendIntField(info: Object, f: string, errors: seq<string>) returns (out: seq<string>)
    ensures out == errors + Messages(IntFieldProblems(info, f))
  {
    out := errors;
    if f in info && !IsPyInt(info[f]) {
      out := out + [Message(NotInt(f, info[f]))];
    }
  }

  /** The range checks of `validate_youtube_item`. */
  method CheckRanges(item: Object, errors: seq<string>) returns (out: seq<string>)
    ensures out == errors + Messages(RangeProblems(item))
  {
    var v, l, c := NegativeProblems(item, "viewCount"), NegativeProblems(item, "likes"), NegativeProblems(item, "commentsCount");
    out := AppendNegative(item, "viewCount", errors);
    out := AppendNegative(item, "likes", out);
    out := AppendNegative(item, "commentsCount", out);
    MessagesAppend(v, l);
    MessagesAppend(v + l, c);
    assert out == errors + (Messages(v + l) + Messages(c));
  }

  /** One `isinstance(item[f], int) and item[f] < 0` check. */
  method AppendNegative(item: Object, f: string, errors: seq<string>) returns (out: seq<string>)
    ensures out == errors + Messages(NegativeProblems(item, f))
  {
    out := errors;
    if f in item && IsPyInt(item[f]) && AsPyInt(item[f]) < 0 {
      out := out + [Message(NegativeCount(f))];
    }
  }

  /** A field whose value is None is neither type-checked nor
      pattern-checked: every type or pattern problem is for a present,
      non-None field, and every failing present non-None field has one. */
  lemma NoneSkipsChecks(item: Object)
    ensures forall k :: 0 <= k < |Flagged(YouTubeFieldTypes, TypeCheck(item, true))| ==>
      var i := Flagged(YouTubeFieldTypes, TypeCheck(item, true))[k];
      i < |YouTubeFieldTypes| && YouTubeFieldTypes[i].0 in item && item[YouTubeFieldTypes[i].0] != Null
      && !IsInstance(item[YouTubeFieldTypes[i].0], YouTubeFieldTypes[i].1)
    ensures forall k :: 0 <= k < |Flagged(YouTubePatterns, PatternCheck(item))| ==>
      var i := Flagged(YouTubePatterns, PatternCheck(item))[k];
      i < |YouTubePatterns| && YouTubePatterns[i].0 in item && item[YouTubePatterns[i].0] != Null
      && !Anchored(ShapeOf(YouTubePatterns[i].1), PyStr(item[YouTubePatterns[i].0]))
    ensures forall i :: (0 <= i < |YouTubePatterns| && YouTubePatterns[i].0 in item
                         && item[YouTubePatterns[i].0] != Null
                         && !Anchored(ShapeOf(YouTubePatterns[i].1), PyStr(item[YouTubePatterns[i].0]))) ==>
      i in Flagged(YouTubePatterns, PatternCheck(item))
  {
    TypeErrorsInOrder(item, YouTubeFieldTypes, true);
    CollectInOrder(YouTubePatterns, PatternCheck(item));
  }

  /** Each of viewCount, likes and commentsCount is reported as negative
      exactly when it is a negative integer (a boolean never is), and no
      other field is. */
  lemma NegativeCountReported(item: Object, f: string)
    ensures NegativeCount(f) in YouTubeProblems(item)
      <==> (f == "viewCount" || f == "likes" || f == "commentsCount")
           && f in item && item[f].Int? && item[f].i < 0
  {
    NoNegativeBeforeRanges(item);
    assert NegativeCount(f) !in FieldProblems(item) + AboutChannelProblems(item);
    RangeReported(item, f);
  }

  /** The range checks flag exactly the three counts that are negative. */
  lemma RangeReported(item: Object, f: string)
    ensures NegativeCount(f) in RangeProblems(item)
      <==> (f == "viewCount" || f == "likes" || f == "commentsCount") && Negative(item, f)
  {
    var v, l, c := NegativeProblems(item, "viewCount"), NegativeProblems(item, "likes"), NegativeProblems(item, "commentsCount");
    assert RangeProblems(item) == v + l + c;
  }

  /** Only the range checks report negative counts. */
  lemma NoNegativeBeforeRanges(item: Object)
    ensures forall p :: p in FieldProblems(item) ==> !p.NegativeCount?
    ensures forall p :: p in AboutChannelProblems(item) ==> !p.NegativeCount?
  {
    var missing := Collect(YouTubeRequired, MissingCheck(item, Record));
    var types := Collect(YouTubeFieldTypes, TypeCheck(item, true));
    var patterns := Collect(YouTubePatterns, PatternCheck(item));
    MissingIff(item, YouTubeRequired, Record, "");
    TypeKind(item, YouTubeFieldTypes, true);
    PatternKind(item, YouTubePatterns);
    forall p | p in FieldProblems(item)
      ensures !p.NegativeCount?
    {
      assert p in missing || p in types || p in patterns;
    }
    if "aboutChannelInfo" in item && item["aboutChannelInfo"].Dict? {
      AboutInfoKind(item["aboutChannelInfo"].fields);
    }
  }

  /** The aboutChannelInfo checks report its fields and int types only. */
  lemma AboutInfoKind(info: Object)
    ensures forall p :: p in AboutInfoProblems(info) ==> p.Missing? || p.NotInt?
  {
    var about := Collect(AboutChannelFields, MissingCheck(info, AboutChannelInfo));
    MissingIff(info, AboutChannelFields, AboutChannelInfo, "");
    forall p | p in AboutInfoProblems(info)
      ensures p.Missing? || p.NotInt?
    {
      assert p in about || p in IntFieldProblems(info, "numberOfSubscribers") || p in IntFieldProblems(info, "channelTotalVideos");
    }
  }

  // ---------------------------------------------------------------------
  // YouTube channel information
  // ---------------------------------------------------------------------

  const ChannelFields: seq<string> := ["channelName", "channelId", "channelUrl", "numberOfSubscribers"]

  /** `not isinstance(subscribers, int) or subscribers < 0`. */
  predicate InvalidSubscribers(v: Value) {
    !IsPyInt(v) || AsPyInt(v) < 0
  }

  /** What `validate_youtube_channel_info(info)` reports. */
  function ChannelInfoProblems(info: Object): seq<Problem> {
    Collect(ChannelFields, MissingCheck(info, ChannelInfo))
    + (if "numberOfSubscribers" in info && InvalidSubscribers(info["numberOfSubscribers"])
       then [BadSubscribers(info["numberOfSubscribers"])]
       else [])
  }

  method ValidateYouTubeChannelInfo(info: Object) returns (errors: seq<string>)
    ensures errors == Messages(ChannelInfoProblems(info))
  {
    errors := [];
    errors := AppendFlagged(errors, ChannelFields, MissingCheck(info, ChannelInfo));
    if "numberOfSubscribers" in info {
      var subscribers := info["numberOfSubscribers"];
      if !IsPyInt(subscribers) || AsPyInt(subscribers) < 0 {
        errors := errors + [Message(BadSubscribers(subscribers))];
        MessagesAppend(Collect(ChannelFields, MissingCheck(info, ChannelInfo)), [BadSubscribers(subscribers)]);
        return;
      }
    }
    assert Collect(ChannelFields, MissingCheck(info, ChannelInfo)) + [] == Collect(ChannelFields, MissingCheck(info, ChannelInfo));
  }

  /** The channel information passes exactly when the four fields are
      present and the subscriber count is an int (or bool) that is not
      negative; a field's problem is reported exactly when it is absent. */
  lemma ChannelInfoChecked(info: Object, f: string)
    ensures ChannelInfoProblems(info) == [] <==>
      (forall g :: g in ChannelFields ==> g in info)
      && "numberOfSubscribers" in info && !InvalidSubscribers(info["numberOfSubscribers"])
    ensures Missing(ChannelInfo, f) in ChannelInfoProblems(info) <==> f in ChannelFields && f !in info
  {
    MissingNoneIff(info, ChannelFields, ChannelInfo);
    MissingIff(info, ChannelFields, ChannelInfo, f);
    assert ChannelFields[3] == "numberOfSubscribers";
  }
}
