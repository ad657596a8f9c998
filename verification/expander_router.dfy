/**
 * The `$expand` support of the BMC mock's Redfish router. The query parameter
 * `$expand` (section 7.3 of the Redfish Specification, DMTF DSP0266) asks a
 * collection to return its `Members` in full instead of as `@odata.id` links.
 * `expansion_level` reads the requested depth; `process` passes the inner
 * router's response through untouched unless every member link can be
 * followed, and then replaces `Members` by the fetched objects, in order.
 *
 * The inner router, JSON decoding and JSON encoding are parameters (`Env`);
 * query strings are given as the key/value pairs that URL-form decoding yields.
 */
module ExpanderRouter {
  import opened Wrappers
  import opened Text

  /** A JSON value, as `serde_json::Value`. */
  datatype Json =
    | JNull
    | JBool(b: bool)
    | JNumber(n: int)
    | JString(s: string)
    | JArray(items: seq<Json>)
    | JObject(fields: map<string, Json>)

  type Bytes = seq<bv8>

  /** A GET request: its path and, if it has a query string, the decoded key/value pairs. */
  datatype Request = Request(path: string, query: Option<seq<(string, string)>>)

  /** A response: its status code and body (headers are not modelled). */
  datatype Response = Response(status: nat, body: Bytes)

  /** What the expander relies on: the inner router, and JSON decoding and encoding. */
  datatype Env = Env(inner: Request -> Response, decode: Bytes -> Option<Json>, encode: Json -> Bytes)

  const ExpandParam: string := "$expand"
  const DotLevelsPrefix: string := ".($levels="
  const StarLevelsPrefix: string := "*($levels="
  const MembersKey: string := "Members"
  const LowerMembersKey: string := "members"
  const OdataIdKey: string := "@odata.id"

  /** `StatusCode::is_success`: a 2xx status. */
  predicate IsSuccess(status: nat) {
    200 <= status <= 299
  }

  // ---- expansion_level ----

  /** The value of `key` once the pairs are collected into a map: the last pair with that key wins. */
  function QueryParam(pairs: seq<(string, string)>, key: string): (r: Option<string>)
    ensures r.None? <==> forall i :: 0 <= i < |pairs| ==> pairs[i].0 != key
    ensures r.Some? ==>
      exists i :: 0 <= i < |pairs| && pairs[i] == (key, r.value) && forall j :: i < j < |pairs| ==> pairs[j].0 != key
  {
    if pairs == [] then None
    else
      var n := |pairs| - 1;
      if pairs[n].0 == key then Some(pairs[n].1)
      else
        var r := QueryParam(pairs[..n], key);
        assert forall i :: 0 <= i < n ==> pairs[..n][i] == pairs[i];
        r
  }

  /** `split("=").last()`: the text after the last `=`, or all of `s` when it has none. */
  function AfterLastEquals(s: string): (r: string)
    ensures |r| <= |s| && r == s[|s| - |r|..]
    ensures forall i :: 0 <= i < |r| ==> r[i] != '='
    ensures |r| < |s| ==> s[|s| - |r| - 1] == '='
  {
    if s == [] then []
    else if s[|s| - 1] == '=' then []
    else AfterLastEquals(s[..|s| - 1]) + [s[|s| - 1]]
  }

  /** `replace(")", "")`: `s` without its closing parentheses. */
  function WithoutCloseParens(s: string): (r: string)
    ensures |r| <= |s|
    ensures forall i :: 0 <= i < |r| ==> r[i] != ')'
    ensures |s| == 1 ==> r == (if s[0] == ')' then [] else s)
  {
    if s == [] then []
    else WithoutCloseParens(s[..|s| - 1]) + (if s[|s| - 1] == ')' then [] else [s[|s| - 1]])
  }

  /** The level text an `$expand` value names: after the last `=` of a `$levels` form, or 1 for `*` and `.`. */
  function LevelText(val: string): (r: Option<string>)
    ensures r.Some? <==>
      StartsWith(val, DotLevelsPrefix) || StartsWith(val, StarLevelsPrefix) || val == "*" || val == "."
    ensures StartsWith(val, DotLevelsPrefix) || StartsWith(val, StarLevelsPrefix) ==>
      r == Some(WithoutCloseParens(AfterLastEquals(val)))
    ensures (val == "*" || val == ".") ==> r == Some("1")
  {
    if StartsWith(val, DotLevelsPrefix) || StartsWith(val, StarLevelsPrefix) then
      Some(WithoutCloseParens(AfterLastEquals(val)))
    else if val == "*" || val == "." then Some("1")
    else None
  }

  /** `expansion_level`: the `u8` depth requested by `$expand`, if the request names one. */
  function ExpansionLevel(req: Request): (r: Option<U8>)
    ensures req.query.None? ==> r == None
    ensures r.Some? ==>
      (req.query.Some? && QueryParam(req.query.value, ExpandParam).Some? &&
       LevelText(QueryParam(req.query.value, ExpandParam).value).Some?)
    ensures (req.query.Some? && QueryParam(req.query.value, ExpandParam).Some? &&
             LevelText(QueryParam(req.query.value, ExpandParam).value).Some?) ==>
      r == ParseU8(LevelText(QueryParam(req.query.value, ExpandParam).value).value)
  {
    match req.query
    case None => None
    case Some(pairs) =>
      match QueryParam(pairs, ExpandParam)
      case None => None
      case Some(val) =>
        match LevelText(val)
        case None => None
        case Some(text) => ParseU8(text)
  }

  /** The depth as a number, zero when none is named: the measure that nested expansion decreases. */
  function LevelMeasure(req: Request): nat {
    match ExpansionLevel(req)
    case None => 0
    case Some(n) => n
  }

  /** A request that carries exactly one `$expand` value. */
  function ExpandRequest(path: string, val: string): Request {
    Request(path, Some([(ExpandParam, val)]))
  }

  /**
   * Which nested request `process` builds to fetch a member one level less
   * deep: the one the source builds (`.($level=N)`), or the `$levels` form
   * that `expansion_level` reads.
   */
  datatype Nesting = AsWritten | Corrected

  /** The request `process` builds to expand a member one level less deep, as the source writes it: `.($level=N)`. It names no level. */
  function NestedRequestAsWritten(uri: string, n: U8): (r: Request)
    ensures ExpansionLevel(r) == None
  {
    var val := ".($level=" + Decimal(n) + ")";
    assert val[8] == '=' && DotLevelsPrefix[8] == 's';
    assert !StartsWith(val, DotLevelsPrefix);
    assert val[0] == '.' && StarLevelsPrefix[0] == '*';
    assert !StartsWith(val, StarLevelsPrefix);
    assert |val| > 1;
    ExpandRequest(uri, val)
  }

  /** The same request in the `$levels` form that `expansion_level` reads. */
  function NestedRequest(uri: string, n: U8): (r: Request)
    ensures n > 0 ==> LevelMeasure(r) == n
  {
    NestedLevelsRoundTrip(uri, n);
    ExpandRequest(uri, DotLevelsPrefix + Decimal(n) + ")")
  }

  /** The nested request of the chosen kind; either asks for at most `n` levels. */
  function Nested(nest: Nesting, uri: string, n: U8): (r: Request)
    ensures nest == AsWritten ==> LevelMeasure(r) == 0
    ensures nest == Corrected && n > 0 ==> LevelMeasure(r) == n
  {
    match nest
    case AsWritten => NestedRequestAsWritten(uri, n)
    case Corrected => NestedRequest(uri, n)
  }

  // ---- process ----

  /** A member the expander can follow: an object whose `@odata.id` is a string. */
  predicate HasOdataId(member: Json) {
    member.JObject? && OdataIdKey in member.fields && member.fields[OdataIdKey].JString?
  }

  /** The link a followable member carries. */
  function OdataId(member: Json): string
    requires HasOdataId(member)
  {
    member.fields[OdataIdKey].s
  }

  /** The two `filter_map`s: the `@odata.id` strings of the members that have one, in order. */
  function MemberIds(members: seq<Json>): (ids: seq<string>)
    ensures |ids| <= |members|
  {
    if members == [] then []
    else
      var n := |members| - 1;
      MemberIds(members[..n]) + (if HasOdataId(members[n]) then [OdataId(members[n])] else [])
  }

  /** `Members` if present, else `members`: the eager `.or` of the two removals. */
  function MembersValue(fields: map<string, Json>): (r: Option<Json>)
    ensures r.Some? <==> MembersKey in fields || LowerMembersKey in fields
    ensures MembersKey in fields ==> r == Some(fields[MembersKey])
    ensures MembersKey !in fields && LowerMembersKey in fields ==> r == Some(fields[LowerMembersKey])
  {
    if MembersKey in fields then Some(fields[MembersKey])
    else if LowerMembersKey in fields then Some(fields[LowerMembersKey])
    else None
  }

  /** The response object after expansion: both member keys removed, then `Members` set to the fetched list. */
  function ExpandedFields(fields: map<string, Json>, expanded: seq<Json>): (r: map<string, Json>)
    ensures MembersKey in r && r[MembersKey] == JArray(expanded) && LowerMembersKey !in r
    ensures forall k :: k != MembersKey && k != LowerMembersKey ==> (k in r <==> k in fields)
    ensures forall k :: k in r && k != MembersKey ==> r[k] == fields[k]
  {
    (fields - {MembersKey, LowerMembersKey})[MembersKey := JArray(expanded)]
  }

  /**
   * The response to `req`, as `process` computes it: the inner router's
   * response unless the level, the status, the body, every member link and
   * every member fetch allow expansion.
   */
  function ProcessSpec(env: Env, nest: Nesting, req: Request): Response
    decreases LevelMeasure(req), 2, 0
  {
    var response := env.inner(req);
    match ExpansionLevel(req)
    case None => response
    case Some(level) =>
      if level == 0 || !IsSuccess(response.status) then response
      else match env.decode(response.body)
        case Some(JObject(fields)) =>
          (match MembersValue(fields)
           case Some(JArray(members)) =>
             var ids := MemberIds(members);
             if |ids| != |members| then response
             else
               (match FetchAll(env, nest, ids, level)
                case None => response
                case Some(expanded) => Response(200, env.encode(JObject(ExpandedFields(fields, expanded)))))
           case _ => response)
        case _ => response
  }

  /** Fetching one member link: through `process` one level less deep, or straight from the inner router at level 1. */
  function FetchMember(env: Env, nest: Nesting, uri: string, level: U8): Option<Json>
    requires level > 0
    decreases level, 0, 0
  {
    var response :=
      if level > 1 then ProcessSpec(env, nest, Nested(nest, uri, level - 1))
      else env.inner(Request(uri, None));
    if !IsSuccess(response.status) then None
    else env.decode(response.body)
  }

  /** `try_collect`: all the values, in order, or None as soon as one is missing. */
  function Collect<T>(results: seq<Option<T>>): (r: Option<seq<T>>)
    ensures r.Some? <==> forall i :: 0 <= i < |results| ==> results[i].Some?
    ensures r.Some? ==> |r.value| == |results| && forall i :: 0 <= i < |results| ==> results[i] == Some(r.value[i])
  {
    if results == [] then Some([])
    else
      var n := |results| - 1;
      var front := Collect(results[..n]);
      assert forall i :: 0 <= i < n ==> results[..n][i] == results[i];
      if front.None? || results[n].None? then None
      else Some(front.value + [results[n].value])
  }

  /** `join_all` then `try_collect`: every member fetched, in order, or None if any fetch fails. */
  function FetchAll(env: Env, nest: Nesting, uris: seq<string>, level: U8): (r: Option<seq<Json>>)
    requires level > 0
    decreases level, 1, 0
  {
    Collect(seq(|uris|, i requires 0 <= i < |uris| => FetchMember(env, nest, uris[i], level)))
  }

  /** Fetching one member, as the future built for each link does. */
  method FetchOne(env: Env, nest: Nesting, uri: string, level: U8) returns (r: Option<Json>)
    requires level > 0
    ensures r == FetchMember(env, nest, uri, level)
    decreases level, 0, 0
  {
    var response: Response;
    if level > 1 {
      response := Process(env, nest, Nested(nest, uri, level - 1));
    } else {
      response := env.inner(Request(uri, None));
    }
    if !IsSuccess(response.status) {
      return None;
    }
    r := env.decode(response.body);
  }

  /** The member fetches, one result per link in order, then `try_collect`. */
  method FetchMembers(env: Env, nest: Nesting, uris: seq<string>, level: U8) returns (r: Option<seq<Json>>)
    requires level > 0
    ensures r == FetchAll(env, nest, uris, level)
    decreases level, 1, 0
  {
    var results: seq<Option<Json>> := [];
    var k := 0;
    while k < |uris|
      invariant 0 <= k <= |uris|
      invariant |results| == k
      invariant forall j :: 0 <= j < k ==> results[j] == FetchMember(env, nest, uris[j], level)
    {
      var one := FetchOne(env, nest, uris[k], level);
      results := results + [one];
      k := k + 1;
    }
    assert results == seq(|uris|, i requires 0 <= i < |uris| => FetchMember(env, nest, uris[i], level));
    r := Collect(results);
  }

  /** The two `filter_map`s over the members, as a loop. */
  method FollowableIds(members: seq<Json>) returns (ids: seq<string>)
    ensures ids == MemberIds(members)
  {
    ids := [];
    var i := 0;
    while i < |members|
      invariant 0 <= i <= |members|
      invariant ids == MemberIds(members[..i])
    {
      assert members[..i + 1][..i] == members[..i];
      var member := members[i];
      if member.JObject? && OdataIdKey in member.fields && member.fields[OdataIdKey].JString? {
        ids := ids + [member.fields[OdataIdKey].s];
      }
      i := i + 1;
    }
    assert members[..i] == members;
  }

  /** `process`: forward the request, then expand `Members` when every step allows it. */
  method Process(env: Env, nest: Nesting, req: Request) returns (resp: Response)
    ensures resp == ProcessSpec(env, nest, req)
    decreases LevelMeasure(req), 2, 0
  {
    var expandLevel := ExpansionLevel(req);
    var response := env.inner(req);
    if expandLevel.None? || expandLevel.value == 0 {
      return response;
    }
    var level: U8 := expandLevel.value;
    if !IsSuccess(response.status) {
      return response;
    }
    var decoded := env.decode(response.body);
    if !(decoded.Some? && decoded.value.JObject?) {
      return response;
    }
    var json := decoded.value.fields;
    ghost var original := json;
    var upper := if MembersKey in json then Some(json[MembersKey]) else None;
    json := json - {MembersKey};
    var lower := if LowerMembersKey in json then Some(json[LowerMembersKey]) else None;
    json := json - {LowerMembersKey};
    var found := if upper.Some? then upper else lower;
    assert found == MembersValue(original);
    if !(found.Some? && found.value.JArray?) {
      return response;
    }
    var members := found.value.items;
    var uris := FollowableIds(members);
    if |uris| != |members| {
      return response;
    }
    var expanded := FetchMembers(env, nest, uris, level);
    if expanded.None? {
      return response;
    }
    json := json[MembersKey := JArray(expanded.value)];
    assert json == ExpandedFields(original, expanded.value);
    resp := Response(200, env.encode(JObject(json)));
  }

  // ---- Lemmas: expansion_level ----

  lemma {:induction false} AfterLastEqualsOf(front: string, t: string)
    requires front != [] && front[|front| - 1] == '='
    requires forall i :: 0 <= i < |t| ==> t[i] != '='
    ensures AfterLastEquals(front + t) == t
  {
    if t == [] {
      assert front + t == front;
    } else {
      var n := |t| - 1;
      assert (front + t)[..|front + t| - 1] == front + t[..n];
      AfterLastEqualsOf(front, t[..n]);
      assert t[..n] + [t[n]] == t;
    }
  }

  lemma {:induction false} WithoutCloseParensKeeps(s: string)
    requires forall i :: 0 <= i < |s| ==> s[i] != ')'
    ensures WithoutCloseParens(s) == s
  {
    if s != [] {
      WithoutCloseParensKeeps(s[..|s| - 1]);
      assert s[..|s| - 1] + [s[|s| - 1]] == s;
    }
  }

  /** Removing `)` works piece by piece, so every other character is kept in order. */
  lemma {:induction false} WithoutCloseParensConcat(a: string, b: string)
    ensures WithoutCloseParens(a + b) == WithoutCloseParens(a) + WithoutCloseParens(b)
  {
    if b == [] {
      assert a + b == a;
    } else {
      var n := |b| - 1;
      assert (a + b)[..|a + b| - 1] == a + b[..n];
      WithoutCloseParensConcat(a, b[..n]);
    }
  }

  lemma {:induction false} WithoutTrailingParen(t: string)
    requires forall i :: 0 <= i < |t| ==> t[i] != ')'
    ensures WithoutCloseParens(t + ")") == t
  {
    assert (t + ")")[..|t + ")"| - 1] == t;
    WithoutCloseParensKeeps(t);
  }

  /** A `$levels` value names the text between its `=` and the closing parenthesis. */
  lemma LevelsFormText(prefix: string, t: string)
    requires prefix == DotLevelsPrefix || prefix == StarLevelsPrefix
    requires forall i :: 0 <= i < |t| ==> t[i] != '=' && t[i] != ')'
    ensures LevelText(prefix + t + ")") == Some(t)
  {
    var val := prefix + t + ")";
    assert val == prefix + (t + ")");
    assert val[..|prefix|] == prefix;
    assert StartsWith(val, prefix);
    AfterLastEqualsOf(prefix, t + ")");
    WithoutTrailingParen(t);
  }

  /** A `$levels=N` value names the level `N` it carries, for every `u8`. */
  lemma LevelsFormRoundTrip(prefix: string, n: U8)
    requires prefix == DotLevelsPrefix || prefix == StarLevelsPrefix
    ensures LevelText(prefix + Decimal(n) + ")") == Some(Decimal(n))
  {
    LevelsFormText(prefix, Decimal(n));
  }

  lemma NestedLevelsRoundTrip(uri: string, n: U8)
    ensures ExpansionLevel(ExpandRequest(uri, DotLevelsPrefix + Decimal(n) + ")")) == Some(n)
  {
    LevelsFormRoundTrip(DotLevelsPrefix, n);
    ParseDecimal(n);
  }

  /** `$expand=*` and `$expand=.` ask for one level. */
  lemma StarOrDotIsOne(path: string, val: string)
    requires val == "*" || val == "."
    ensures ExpansionLevel(ExpandRequest(path, val)) == Some(1)
  {
    assert !StartsWith(val, DotLevelsPrefix) && !StartsWith(val, StarLevelsPrefix);
    assert ParseU8("1") == Some(1) by {
      assert DigitsValue("1"[..0]) == 0;
    }
  }

  /** Any other `$expand` value names no level. */
  lemma OtherExpandFormsIgnored(path: string, val: string)
    requires !StartsWith(val, DotLevelsPrefix) && !StartsWith(val, StarLevelsPrefix)
    requires val != "*" && val != "."
    ensures ExpansionLevel(ExpandRequest(path, val)) == None
  {
  }

  /** Collecting the pairs into a map keeps the last value given for a key. */
  lemma {:induction false} QueryParamLastWins(front: seq<(string, string)>, key: string, val: string, back: seq<(string, string)>)
    requires forall j :: 0 <= j < |back| ==> back[j].0 != key
    ensures QueryParam(front + [(key, val)] + back, key) == Some(val)
  {
    var pairs := front + [(key, val)] + back;
    if back == [] {
      assert pairs[|pairs| - 1] == (key, val);
    } else {
      var n := |back| - 1;
      assert pairs[..|pairs| - 1] == front + [(key, val)] + back[..n];
      assert pairs[|pairs| - 1] == back[n];
      QueryParamLastWins(front, key, val, back[..n]);
    }
  }

  /** Hence the last `$expand` in the query decides the level. */
  lemma LastExpandWins(path: string, front: seq<(string, string)>, val: string, back: seq<(string, string)>)
    requires forall j :: 0 <= j < |back| ==> back[j].0 != ExpandParam
    ensures ExpansionLevel(Request(path, Some(front + [(ExpandParam, val)] + back)))
         == ExpansionLevel(ExpandRequest(path, val))
  {
    QueryParamLastWins(front, ExpandParam, val, back);
    QueryParamLastWins([], ExpandParam, val, []);
    assert [] + [(ExpandParam, val)] + [] == [(ExpandParam, val)];
  }

  /** Levels that do not fit in a `u8` are not a level at all. */
  lemma OutOfRangeLevelIgnored(prefix: string, path: string, n: nat)
    requires prefix == DotLevelsPrefix || prefix == StarLevelsPrefix
    requires n >= 256
    ensures ExpansionLevel(ExpandRequest(path, prefix + Decimal(n) + ")")) == None
  {
    LevelsFormText(prefix, Decimal(n));
  }

  /** A level made of something other than an optional `+` and digits is not a level. */
  lemma NonNumericLevelIgnored(prefix: string, path: string, t: string)
    requires prefix == DotLevelsPrefix || prefix == StarLevelsPrefix
    requires forall i :: 0 <= i < |t| ==> t[i] != '=' && t[i] != ')'
    requires !AllDigits(t) && t[0] != '+'
    ensures ExpansionLevel(ExpandRequest(path, prefix + t + ")")) == None
  {
    LevelsFormText(prefix, t);
  }

  /** Hence a nested request built as written is answered by the inner router unexpanded. */
  lemma NestedExpansionLostAsWritten(env: Env, nest: Nesting, uri: string, n: U8)
    ensures ProcessSpec(env, nest, NestedRequestAsWritten(uri, n)) == env.inner(NestedRequestAsWritten(uri, n))
  {
  }

  /**
   * As written, a member fetched at any level above 1 is the inner router's
   * unexpanded answer to the nested request; so when the inner router ignores
   * the `$expand` query on a member link, every level behaves like level 1.
   */
  lemma LevelsCollapseAsWritten(env: Env, uri: string, level: U8)
    requires level > 0
    requires level > 1 ==> env.inner(NestedRequestAsWritten(uri, level - 1)) == env.inner(Request(uri, None))
    ensures FetchMember(env, AsWritten, uri, level) == FetchMember(env, AsWritten, uri, 1)
  {
    if level > 1 {
      NestedExpansionLostAsWritten(env, AsWritten, uri, level - 1);
    }
  }

  /** With the `$levels` form, a member fetched above level 1 is processed again with exactly one level less. */
  lemma CorrectedNestsOneLevelLess(uri: string, level: U8)
    requires level > 1
    ensures ExpansionLevel(Nested(Corrected, uri, level - 1)) == Some(level - 1)
  {
    NestedLevelsRoundTrip(uri, level - 1);
  }

  // ---- Lemmas: process ----

  /** The length check accepts exactly the member lists in which every member has a string `@odata.id`. */
  lemma {:induction false} MemberIdsComplete(members: seq<Json>)
    ensures |MemberIds(members)| == |members| <==> forall i :: 0 <= i < |members| ==> HasOdataId(members[i])
    ensures |MemberIds(members)| == |members| ==>
      forall i :: 0 <= i < |members| ==> MemberIds(members)[i] == OdataId(members[i])
  {
    if members != [] {
      var n := |members| - 1;
      MemberIdsComplete(members[..n]);
      assert forall i :: 0 <= i < n ==> members[..n][i] == members[i];
      if !HasOdataId(members[n]) {
        assert |MemberIds(members[..n])| <= n;
      }
    }
  }

  /** No level, level 0, or an unsuccessful inner response: the response passes through untouched. */
  lemma PassThroughWithoutExpansion(env: Env, nest: Nesting, req: Request)
    requires ExpansionLevel(req) == None || ExpansionLevel(req) == Some(0) || !IsSuccess(env.inner(req).status)
    ensures ProcessSpec(env, nest, req) == env.inner(req)
  {
  }

  /** A body that is not a JSON object, or has no `Members`/`members` array, passes through untouched. */
  lemma PassThroughWithoutMembersArray(env: Env, nest: Nesting, req: Request)
    requires match env.decode(env.inner(req).body)
      case Some(JObject(fields)) => !(MembersValue(fields).Some? && MembersValue(fields).value.JArray?)
      case _ => true
    ensures ProcessSpec(env, nest, req) == env.inner(req)
  {
  }

  /** A member that is not an object with a string `@odata.id` keeps the original body. */
  lemma PassThroughOnUnfollowableMember(env: Env, nest: Nesting, req: Request, fields: map<string, Json>, members: seq<Json>, i: nat)
    requires env.decode(env.inner(req).body) == Some(JObject(fields))
    requires MembersValue(fields) == Some(JArray(members))
    requires i < |members| && !HasOdataId(members[i])
    ensures ProcessSpec(env, nest, req) == env.inner(req)
  {
    MemberIdsComplete(members);
  }

  /** A member fetch that fails keeps the original body. */
  lemma PassThroughOnFailedFetch(env: Env, nest: Nesting, req: Request, fields: map<string, Json>, members: seq<Json>, i: nat)
    requires ExpansionLevel(req).Some? && ExpansionLevel(req).value > 0
    requires env.decode(env.inner(req).body) == Some(JObject(fields))
    requires MembersValue(fields) == Some(JArray(members))
    requires forall j :: 0 <= j < |members| ==> HasOdataId(members[j])
    requires i < |members|
    requires FetchMember(env, nest, OdataId(members[i]), ExpansionLevel(req).value).None?
    ensures ProcessSpec(env, nest, req) == env.inner(req)
  {
    var level := ExpansionLevel(req).value;
    var ids := MemberIds(members);
    MemberIdsComplete(members);
    FetchAllFails(env, nest, ids, level, i);
  }

  lemma FetchAllFails(env: Env, nest: Nesting, uris: seq<string>, level: U8, i: nat)
    requires level > 0 && i < |uris|
    requires FetchMember(env, nest, uris[i], level).None?
    ensures FetchAll(env, nest, uris, level).None?
  {
    var results := seq(|uris|, j requires 0 <= j < |uris| => FetchMember(env, nest, uris[j], level));
    assert results[i].None?;
  }

  /**
   * When every step allows it, the result is a 200 response whose object is
   * the original one with `Members` (and no `members`) holding the fetched
   * members, one per link, in the order of the links.
   */
  lemma ExpandsWhenAllMembersFetched(env: Env, nest: Nesting, req: Request, fields: map<string, Json>, members: seq<Json>)
    requires ExpansionLevel(req).Some? && ExpansionLevel(req).value > 0
    requires IsSuccess(env.inner(req).status)
    requires env.decode(env.inner(req).body) == Some(JObject(fields))
    requires MembersValue(fields) == Some(JArray(members))
    requires forall j :: 0 <= j < |members| ==> HasOdataId(members[j])
    requires forall j :: 0 <= j < |members| ==>
      FetchMember(env, nest, OdataId(members[j]), ExpansionLevel(req).value).Some?
    ensures exists expanded: seq<Json> ::
      && |expanded| == |members|
      && (forall j :: 0 <= j < |members| ==>
            expanded[j] == FetchMember(env, nest, OdataId(members[j]), ExpansionLevel(req).value).value)
      && ProcessSpec(env, nest, req) == Response(200, env.encode(JObject(ExpandedFields(fields, expanded))))
  {
    var level := ExpansionLevel(req).value;
    var ids := MemberIds(members);
    MemberIdsComplete(members);
    assert forall j :: 0 <= j < |members| ==> ids[j] == OdataId(members[j]);
    FetchAllSucceeds(env, nest, ids, level);
    var expanded := FetchAll(env, nest, ids, level).value;
    ProcessSpecExpands(env, nest, req, fields, members, expanded);
    assert |expanded| == |members|;
    assert forall j :: 0 <= j < |members| ==>
      expanded[j] == FetchMember(env, nest, OdataId(members[j]), level).value;
  }

  lemma FetchAllSucceeds(env: Env, nest: Nesting, uris: seq<string>, level: U8)
    requires level > 0
    requires forall j :: 0 <= j < |uris| ==> FetchMember(env, nest, uris[j], level).Some?
    ensures FetchAll(env, nest, uris, level).Some?
    ensures |FetchAll(env, nest, uris, level).value| == |uris|
    ensures forall j :: 0 <= j < |uris| ==> FetchAll(env, nest, uris, level).value[j] == FetchMember(env, nest, uris[j], level).value
  {
    var results := seq(|uris|, j requires 0 <= j < |uris| => FetchMember(env, nest, uris[j], level));
    assert forall j :: 0 <= j < |uris| ==> results[j].Some?;
  }

  lemma ProcessSpecExpands(env: Env, nest: Nesting, req: Request, fields: map<string, Json>, members: seq<Json>, expanded: seq<Json>)
    requires ExpansionLevel(req).Some? && ExpansionLevel(req).value > 0
    requires IsSuccess(env.inner(req).status)
    requires env.decode(env.inner(req).body) == Some(JObject(fields))
    requires MembersValue(fields) == Some(JArray(members))
    requires |MemberIds(members)| == |members|
    requires FetchAll(env, nest, MemberIds(members), ExpansionLevel(req).value) == Some(expanded)
    ensures ProcessSpec(env, nest, req) == Response(200, env.encode(JObject(ExpandedFields(fields, expanded))))
  {
  }

  /** Whatever happens, the answer is the inner response or a 200 response in which only `Members` holds the list. */
  lemma ProcessOutcomes(env: Env, nest: Nesting, req: Request)
    ensures var r := ProcessSpec(env, nest, req);
      r == env.inner(req) ||
      (exists fields, expanded ::
        && env.decode(env.inner(req).body) == Some(JObject(fields))
        && r == Response(200, env.encode(JObject(ExpandedFields(fields, expanded)))))
  {
    var response := env.inner(req);
    var level := ExpansionLevel(req);
    if level.Some? && level.value > 0 && IsSuccess(response.status) {
      var decoded := env.decode(response.body);
      if decoded.Some? && decoded.value.JObject? {
        var fields := decoded.value.fields;
        var found := MembersValue(fields);
        if found.Some? && found.value.JArray? {
          var ids := MemberIds(found.value.items);
          if |ids| == |found.value.items| {
            var fetched := FetchAll(env, nest, ids, level.value);
            if fetched.Some? {
              assert ProcessSpec(env, nest, req) == Response(200, env.encode(JObject(ExpandedFields(fields, fetched.value))));
            }
          }
        }
      }
    }
  }
}
