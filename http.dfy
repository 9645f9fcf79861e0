/**
 * One raw request of the client (`#sendRawRequest`, src/Cloudnode.js and
 * browser/Cloudnode.js): the URL and the fetch options it builds, and how it turns the
 * fetched response into a resolved value or a thrown error. `fetch`, URL resolution,
 * `JSON.parse` and `JSON.stringify` are inputs.
 */
module Http {
  import opened Wrappers
  import opened Strings
  import opened ApiSchema
  import opened Json
  import Seqs

  /** The two builds of the client share this logic; the browser build sends no User-Agent. */
  datatype Build = ModuleBuild | BrowserBuild

  /** `#userAgent` of the module build. */
  const UserAgent := "cloudnode/2.0.0"

  /** The request parameters a raw response keeps: `{ operation, pathParams, queryParams, body }`. */
  datatype RequestInfo = RequestInfo(
    operation: Operation,
    pathParams: seq<(string, string)>,
    queryParams: seq<(string, string)>,
    body: JsValue)

  /** The parts of the URL the client writes: the path name and the search parameters. */
  datatype Url = Url(pathname: string, search: seq<(string, string)>)

  /** The options object handed to `fetch`. */
  datatype FetchInit = FetchInit(verb: HttpMethod, headers: map<string, string>, body: Option<string>, credentialsInclude: bool)

  /** `operation.path.replace(/^\/+/, "")` */
  function RelativePath(path: string): (r: string)
    ensures r == [] || r[0] != '/'
    ensures exists n | 0 <= n <= |path| :: path == Repeat('/', n) + r
  {
    var r := TrimLeading(path, '/');
    assert path == Repeat('/', |path| - |r|) + r;
    r
  }

  /** `/:key` for a path parameter. */
  function Placeholder(key: string): (r: string)
    ensures |r| == |key| + 2
  {
    "/:" + key
  }

  /** The path name after `replaceAll("/:" + key, "/" + value)` for each path parameter in order. */
  function SubstitutePath(pathname: string, params: seq<(string, string)>): string {
    if params == [] then pathname
    else
      var last := params[|params| - 1];
      ReplaceAll(SubstitutePath(pathname, params[..|params| - 1]), Placeholder(last.0), "/" + last.1)
  }

  /**
   * A placeholder that occurs once is replaced by `/value`, expanded as a string replacement
   * against the path before and after it; the rest of the path is kept. A value without `$`
   * goes in as it is.
   */
  lemma PlaceholderReplaced(a: string, key: string, value: string, b: string)
    requires !Contains(a + Placeholder(key)[..|key| + 1], Placeholder(key)) && !Contains(b, Placeholder(key))
    ensures SubstitutePath(a + Placeholder(key) + b, [(key, value)]) == a + Expand("/" + value, Placeholder(key), a, b) + b
    ensures '$' !in value ==> SubstitutePath(a + Placeholder(key) + b, [(key, value)]) == a + "/" + value + b
  {
    PlaceholderExpanded(a, key, value, b);
    if '$' !in value {
      assert forall j :: 0 <= j < |"/" + value| ==> ("/" + value)[j] == if j == 0 then '/' else value[j - 1];
      ExpandPlain("/" + value, Placeholder(key), a, b);
    }
  }

  /** The expansion step of `PlaceholderReplaced`: the one match is replaced by the expanded value. */
  lemma PlaceholderExpanded(a: string, key: string, value: string, b: string)
    requires !Contains(a + Placeholder(key)[..|key| + 1], Placeholder(key)) && !Contains(b, Placeholder(key))
    ensures SubstitutePath(a + Placeholder(key) + b, [(key, value)]) == a + Expand("/" + value, Placeholder(key), a, b) + b
  {
    var params := [(key, value)];
    assert params[..0] == [];
    var p := Placeholder(key);
    var s := a + p + b;
    ReplaceAllFirst(s, a, p, b, "/" + value);
    assert s[|a| + |p|..] == b;
    ReplaceAllAbsent(s, p, Substitution("/" + value, p), |a| + |p|);
    assert a[0..] == a;
  }

  /** The one `:` of `a` followed by the placeholder without its last character is the placeholder's own. */
  lemma OnlyColon(a: string, key: string)
    requires ':' !in a && ':' !in key
    ensures var t := a + Placeholder(key)[..|key| + 1];
      forall j :: 0 <= j < |t| && j != |a| + 1 ==> t[j] != ':'
  {
    var t := a + Placeholder(key)[..|key| + 1];
    forall j | 0 <= j < |t| && j != |a| + 1 ensures t[j] != ':' {
      if j < |a| {
        assert t[j] == a[j];
      } else if j > |a| + 1 {
        assert t[j] == key[j - |a| - 2];
      }
    }
  }

  /**
   * With no `:` before the placeholder and none in the name, the placeholder is found only
   * where it is written, and is replaced there.
   */
  lemma SinglePlaceholder(a: string, key: string, value: string, b: string)
    requires ':' !in a && ':' !in key && !Contains(b, Placeholder(key))
    ensures SubstitutePath(a + Placeholder(key) + b, [(key, value)]) == a + Expand("/" + value, Placeholder(key), a, b) + b
    ensures '$' !in value ==> SubstitutePath(a + Placeholder(key) + b, [(key, value)]) == a + "/" + value + b
  {
    var p := Placeholder(key);
    var t := a + p[..|key| + 1];
    if Contains(t, p) {
      var i :| 0 <= i <= |t| && OccursAt(t, p, i);
      assert t[i + 1] == p[1];
      OnlyColon(a, key);
      assert false;
    }
    PlaceholderReplaced(a, key, value, b);
  }

  /**
   * The URL the request goes to; `resolve(relative, base)` is the path name of `new URL(relative, base)`.
   * The path name is the string `replaceAll` gives; the pathname setter's own normalisation
   * (dot segments, backslashes) is not applied.
   */
  function RequestUrl(baseUrl: string, info: RequestInfo, resolve: (string, string) -> string): Url {
    Url(SubstitutePath(resolve(RelativePath(info.operation.path), baseUrl), info.pathParams), info.queryParams)
  }

  /** `body && !["GET", "HEAD"].includes(operation.method)` */
  predicate SendsBody(verb: HttpMethod, body: JsValue) {
    body.Truthy() && verb != GET && verb != HEAD
  }

  /** `this.#token` is truthy. */
  predicate HasToken(token: Option<string>) {
    token.Some? && token.value != ""
  }

  /** The options object the request is sent with. */
  function RequestInit(build: Build, token: Option<string>, info: RequestInfo, stringify: JsValue -> string): FetchInit {
    var op := info.operation;
    var sent := SendsBody(op.verb, info.body);
    var body := if !sent then None else if info.body.Str? then Some(info.body.s) else Some(stringify(info.body));
    var h0: map<string, string> := map[];
    var h1 := if !sent then h0 else h0["Content-Type" := if info.body.Str? then "text/plain" else "application/json"];
    var h2 := if build == ModuleBuild then h1["User-Agent" := UserAgent] else h1;
    var h3 := if HasToken(token) && op.token.Declared() then h2["Authorization" := "Bearer " + token.value] else h2;
    FetchInit(op.verb, h3, body, op.token.Declared())
  }

  /**
   * The URL and the options of `#sendRawRequest`: the path name rewritten one path
   * parameter at a time, the query parameters appended in order, then the headers
   * written one by one into an empty object.
   */
  method BuildRequest(build: Build, baseUrl: string, token: Option<string>, info: RequestInfo,
                      resolve: (string, string) -> string, stringify: JsValue -> string)
    returns (url: Url, init: FetchInit)
    ensures url == RequestUrl(baseUrl, info, resolve)
    ensures init == RequestInit(build, token, info, stringify)
  {
    var op := info.operation;
    var base := resolve(RelativePath(op.path), baseUrl);
    var pathname := base;
    for i := 0 to |info.pathParams|
      invariant pathname == SubstitutePath(base, info.pathParams[..i])
    {
      var (key, value) := info.pathParams[i];
      Seqs.TakePrefix(info.pathParams, i, i + 1);
      pathname := ReplaceAll(pathname, Placeholder(key), "/" + value);
    }
    Seqs.TakeAll(info.pathParams);
    var search: seq<(string, string)> := [];
    for i := 0 to |info.queryParams|
      invariant search == info.queryParams[..i]
    {
      Seqs.TakeNext(info.queryParams, i);
      search := search + [info.queryParams[i]];
    }
    Seqs.TakeAll(info.queryParams);
    url := Url(pathname, search);

    var headers: map<string, string> := map[];
    var body: Option<string> := None;
    if info.body.Truthy() && op.verb != GET && op.verb != HEAD {
      if !info.body.Str? {
        body := Some(stringify(info.body));
        headers := headers["Content-Type" := "application/json"];
      } else {
        body := Some(info.body.s);
        headers := headers["Content-Type" := "text/plain"];
      }
    }
    if build == ModuleBuild {
      headers := headers["User-Agent" := UserAgent];
    }
    if HasToken(token) && op.token.Declared() {
      headers := headers["Authorization" := "Bearer " + token.value];
    }
    init := FetchInit(op.verb, headers, body, op.token.Declared());
  }

  /** A body goes out only when it is truthy and the method is not GET or HEAD; a string verbatim as text, anything else as JSON. */
  lemma BodyEncoding(build: Build, token: Option<string>, info: RequestInfo, stringify: JsValue -> string)
    ensures var init := RequestInit(build, token, info, stringify);
      && (init.body.Some? <==> SendsBody(info.operation.verb, info.body))
      && ("Content-Type" in init.headers <==> SendsBody(info.operation.verb, info.body))
      && (SendsBody(info.operation.verb, info.body) && info.body.Str? ==>
            init.body == Some(info.body.s) && init.headers["Content-Type"] == "text/plain")
      && (SendsBody(info.operation.verb, info.body) && !info.body.Str? ==>
            init.body == Some(stringify(info.body)) && init.headers["Content-Type"] == "application/json")
  {
  }

  /**
   * `Authorization: Bearer <token>` (section 2.1 of RFC 6750) is sent exactly when the
   * client has a truthy token and the operation declares a token field, `null` included;
   * credentials are included exactly when the field is declared.
   */
  lemma AuthorizationRule(build: Build, token: Option<string>, info: RequestInfo, stringify: JsValue -> string)
    ensures var init := RequestInit(build, token, info, stringify);
      && ("Authorization" in init.headers <==> HasToken(token) && info.operation.token.Declared())
      && ("Authorization" in init.headers ==> init.headers["Authorization"] == "Bearer " + token.value)
      && (init.credentialsInclude <==> info.operation.token.Declared())
  {
  }

  /** The module build always names itself; the browser build sets at most Content-Type and Authorization. */
  lemma HeaderNames(build: Build, token: Option<string>, info: RequestInfo, stringify: JsValue -> string)
    ensures var init := RequestInit(build, token, info, stringify);
      && (build == ModuleBuild ==> "User-Agent" in init.headers && init.headers["User-Agent"] == UserAgent)
      && (build == BrowserBuild ==> init.headers.Keys <= {"Content-Type", "Authorization"})
      && init.verb == info.operation.verb
  {
  }

  /** What `fetch` resolves to: status, status text, header entries as the server sent them, body text. */
  datatype FetchResponse = FetchResponse(status: int, statusText: string, headerEntries: seq<(string, string)>,
                                         redirected: bool, url: string, text: string)
  {
    /** `response.ok`: the status is in the range 200 to 299. */
    predicate Ok() { 200 <= status <= 299 }
  }

  /** `RawResponse`: the response's fields with lower-cased header names, and the request. */
  datatype RawResponse = RawResponse(headers: map<string, string>, ok: bool, redirected: bool, status: int,
                                     statusText: string, url: string, request: RequestInfo)

  /** `Object.fromEntries(entries.map(([k, v]) => [k.toLowerCase(), v]))`: a later entry overwrites an earlier one. */
  function LowerCaseHeaders(entries: seq<(string, string)>): (r: map<string, string>) {
    if entries == [] then map[]
    else
      var last := entries[|entries| - 1];
      LowerCaseHeaders(entries[..|entries| - 1])[ToLower(last.0) := last.1]
  }

  /** Every header name is lower case, and every entry is found under its lower-cased name. */
  lemma {:induction false} LowerCaseHeadersKeys(entries: seq<(string, string)>)
    ensures forall k :: k in LowerCaseHeaders(entries) ==> ToLower(k) == k
    ensures forall i :: 0 <= i < |entries| ==> ToLower(entries[i].0) in LowerCaseHeaders(entries)
    ensures forall k :: k in LowerCaseHeaders(entries) ==> exists i :: 0 <= i < |entries| && ToLower(entries[i].0) == k
  {
    if entries != [] {
      var init := entries[..|entries| - 1];
      var last := entries[|entries| - 1];
      LowerCaseHeadersKeys(init);
      ToLowerIdempotent(last.0);
      forall i | 0 <= i < |entries| ensures ToLower(entries[i].0) in LowerCaseHeaders(entries) {
        if i < |init| {
          assert entries[i] == init[i];
        }
      }
      forall k | k in LowerCaseHeaders(entries) ensures exists i :: 0 <= i < |entries| && ToLower(entries[i].0) == k {
        if k != ToLower(last.0) {
          var i :| 0 <= i < |init| && ToLower(init[i].0) == k;
          assert entries[i] == init[i];
        } else {
          assert ToLower(entries[|entries| - 1].0) == k;
        }
      }
    }
  }

  /** The `RawResponse` constructor. */
  function NewRawResponse(response: FetchResponse, request: RequestInfo): RawResponse {
    RawResponse(LowerCaseHeaders(response.headerEntries), response.Ok(), response.redirected, response.status,
                response.statusText, response.url, request)
  }

  /** A header of the raw response by its lower-case name, `undefined` when absent. */
  function Header(response: RawResponse, name: string): Option<string> {
    if name in response.headers then Some(response.headers[name]) else None
  }

  /** The response envelope: the data's own properties copied onto it, and the raw response behind `_response`. */
  datatype ApiResponse = ApiResponse(fields: map<string, JsValue>, response: RawResponse)

  /** Assigning properties one after the other: a later one overwrites an earlier one. */
  function Assign(target: map<string, JsValue>, props: seq<(string, JsValue)>): (r: map<string, JsValue>) {
    if props == [] then target
    else
      var last := props[|props| - 1];
      Assign(target, props[..|props| - 1])[last.0 := last.1]
  }

  /** A copied key holds the value of its last occurrence; the keys are exactly the copied ones. */
  lemma {:induction false} AssignValues(props: seq<(string, JsValue)>, i: nat)
    requires i < |props|
    requires forall j :: i < j < |props| ==> props[j].0 != props[i].0
    ensures props[i].0 in Assign(map[], props) && Assign(map[], props)[props[i].0] == props[i].1
  {
    if i < |props| - 1 {
      var init := props[..|props| - 1];
      assert init[i] == props[i];
      forall j | i < j < |init| ensures init[j].0 != init[i].0 {
        assert init[j] == props[j];
      }
      AssignValues(init, i);
    }
  }

  lemma {:induction false} AssignKeys(props: seq<(string, JsValue)>)
    ensures forall k :: k in Assign(map[], props) <==> exists j :: 0 <= j < |props| && props[j].0 == k
  {
    if props != [] {
      var init := props[..|props| - 1];
      AssignKeys(init);
      forall k ensures k in Assign(map[], props) <==> exists j :: 0 <= j < |props| && props[j].0 == k {
        if k in Assign(map[], init) {
          var j :| 0 <= j < |init| && init[j].0 == k;
          assert props[j] == init[j];
        }
        if exists j :: 0 <= j < |props| && props[j].0 == k {
          var j :| 0 <= j < |props| && props[j].0 == k;
          if j < |init| {
            assert init[j] == props[j];
          }
        }
      }
    }
  }

  /** Some own property of the data is named `_response`. */
  predicate HasResponseKey(props: seq<(string, JsValue)>) {
    exists j :: 0 <= j < |props| && props[j].0 == "_response"
  }

  /**
   * `makeApiResponse`: `Object.assign(new ApiResponse(response), data)`. Writing a
   * `_response` property hits the getter-only accessor of the envelope, which makes
   * `Object.assign` throw a TypeError.
   */
  function MakeApiResponse(data: JsValue, response: RawResponse): (r: Option<ApiResponse>)
    ensures r.Some? <==> !HasResponseKey(OwnProperties(data))
    ensures r.Some? ==> r.value.response == response && r.value.fields == Assign(map[], OwnProperties(data))
  {
    var props := OwnProperties(data);
    if HasResponseKey(props) then None else Some(ApiResponse(Assign(map[], props), response))
  }

  /** The envelope holds every own property of the data, with its last value, and nothing else. */
  lemma MakeApiResponseFields(data: JsValue, response: RawResponse)
    requires !HasResponseKey(OwnProperties(data))
    ensures var fields := MakeApiResponse(data, response).value.fields;
      var props := OwnProperties(data);
      && (forall k :: k in fields <==> exists j :: 0 <= j < |props| && props[j].0 == k)
      && (forall i :: 0 <= i < |props| && (forall j :: i < j < |props| ==> props[j].0 != props[i].0) ==>
            fields[props[i].0] == props[i].1)
  {
    var props := OwnProperties(data);
    AssignKeys(props);
    forall i | 0 <= i < |props| && (forall j :: i < j < |props| ==> props[j].0 != props[i].0)
      ensures Assign(map[], props)[props[i].0] == props[i].1
    {
      AssignValues(props, i);
    }
  }

  /** Why a request rejects: the envelope of a non-ok response, or an error raised on the way. */
  datatype Error =
    | ApiError(res: ApiResponse)
    | NetworkError
    | SyntaxError
    | TypeError
    | RangeError

  /** How a raw request settles: resolved with an envelope, or with `undefined` for a 204; or rejected. */
  datatype RawOutcome = Resolved(value: Option<ApiResponse>) | Rejected(error: Error)

  /** `response.headers.get("Content-Type")?.startsWith("application/json")` */
  predicate IsJsonResponse(response: FetchResponse) {
    var headers := LowerCaseHeaders(response.headerEntries);
    "content-type" in headers && StartsWith(headers["content-type"], "application/json")
  }

  /**
   * The data of a response: JSON parsed and revived, or the text itself; `None` when `JSON.parse`
   * throws, because the text does not parse or because the reviver throws.
   */
  function ResponseData(response: FetchResponse, parse: string -> Option<JsValue>): Option<JsValue> {
    if IsJsonResponse(response) then
      match parse(response.text)
      case None => None
      case Some(v) => if ReviverThrows(v) then None else Some(Revive(v))
    else Some(Str(response.text))
  }

  /** What `JSON.parse` throws: a SyntaxError for text that does not parse, else the reviver's TypeError. */
  function ParseFailure(response: FetchResponse, parse: string -> Option<JsValue>): Error {
    if parse(response.text).None? then SyntaxError else TypeError
  }

  /** The tail of `#sendRawRequest`, from the fetched response to the settled result. */
  function Classify(response: FetchResponse, request: RequestInfo, parse: string -> Option<JsValue>): RawOutcome {
    if response.status == 204 then Resolved(None)
    else
      match ResponseData(response, parse)
      case None => Rejected(ParseFailure(response, parse))
      case Some(data) =>
        match MakeApiResponse(data, NewRawResponse(response, request))
        case None => Rejected(TypeError)
        case Some(res) => if response.Ok() then Resolved(Some(res)) else Rejected(ApiError(res))
  }

  /**
   * A 204 resolves with `undefined`; otherwise an ok response resolves with the envelope and
   * any other response rejects with that same envelope, which carries the status and the request.
   * A JSON body that does not parse is the SyntaxError. There are two TypeErrors: parsed data
   * holding an object with an own `toString` key, on which the reviver's date test throws, and
   * data with an own `_response` property, which `Object.assign` cannot write over the getter.
   */
  lemma ClassifyOutcome(response: FetchResponse, request: RequestInfo, parse: string -> Option<JsValue>)
    ensures response.status == 204 ==> Classify(response, request, parse) == Resolved(None)
    ensures response.status != 204 ==> match Classify(response, request, parse)
      case Resolved(v) => response.Ok() && v.Some? && v.value.response == NewRawResponse(response, request)
      case Rejected(ApiError(res)) => !response.Ok() && res.response == NewRawResponse(response, request)
      case Rejected(e) => e == SyntaxError || e == TypeError
    ensures response.status != 204 && ResponseData(response, parse).Some? &&
            !HasResponseKey(OwnProperties(ResponseData(response, parse).value)) ==>
      var res := MakeApiResponse(ResponseData(response, parse).value, NewRawResponse(response, request)).value;
      Classify(response, request, parse) == if response.Ok() then Resolved(Some(res)) else Rejected(ApiError(res))
    ensures response.status != 204 && IsJsonResponse(response) && parse(response.text).None? ==>
      Classify(response, request, parse) == Rejected(SyntaxError)
    ensures response.status != 204 && IsJsonResponse(response) && parse(response.text).Some? &&
            ReviverThrows(parse(response.text).value) ==>
      Classify(response, request, parse) == Rejected(TypeError)
    ensures response.status != 204 && ResponseData(response, parse).Some? &&
            HasResponseKey(OwnProperties(ResponseData(response, parse).value)) ==>
      Classify(response, request, parse) == Rejected(TypeError)
  {
  }

  /** A JSON body `{"toString":"x"}` is rejected with the reviver's TypeError, whatever the status other than 204. */
  lemma ToStringKeyRejects(response: FetchResponse, request: RequestInfo, parse: string -> Option<JsValue>)
    requires response.status != 204 && IsJsonResponse(response)
    requires parse(response.text) == Some(Obj([("toString", Str("x"))]))
    ensures Classify(response, request, parse) == Rejected(TypeError)
  {
    var v := Obj([("toString", Str("x"))]);
    assert v.props[0].0 == "toString";
    assert ReviverThrows(v);
  }

  /**
   * JSON data exists exactly when the reviver does not throw, and is then the parsed value with
   * exactly its date-shaped strings made dates; other data is the text.
   */
  lemma ResponseDataShape(response: FetchResponse, parse: string -> Option<JsValue>)
    requires IsJsonResponse(response) ==> parse(response.text).Some? && DateFree(parse(response.text).value)
    ensures IsJsonResponse(response) ==>
      (ResponseData(response, parse).Some? <==> !ReviverThrows(parse(response.text).value))
    ensures IsJsonResponse(response) && ResponseData(response, parse).Some? ==>
      var data := ResponseData(response, parse).value;
      Unrevive(data) == parse(response.text).value && Revived(data)
    ensures !IsJsonResponse(response) ==> ResponseData(response, parse) == Some(Str(response.text))
  {
    if IsJsonResponse(response) {
      ReviveExact(parse(response.text).value);
    }
  }
}
