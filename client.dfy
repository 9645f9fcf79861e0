/**
 * The client object (`class Cloudnode`, src/Cloudnode.js and browser/Cloudnode.js): its
 * options and how the constructors set them, the auto-retry loop around a raw request, and
 * the pagination helpers. The network, URL resolution, `JSON.parse`, `JSON.stringify` and
 * `Number(...)` are the fields of an `Env`.
 */
module Client {
  import opened Wrappers
  import opened Strings
  import opened ApiSchema
  import opened Json
  import opened Http
  import Seqs

  const DefaultBaseUrl := "https://api.cloudnode.pro/v5/"

  /** Options of a client; every field may be absent (`undefined`). */
  class Options {
    var baseUrl: Option<string>
    var autoRetry: Option<bool>
    var maxRetryDelay: Option<real>
    var maxRetries: Option<int>

    constructor (baseUrl: Option<string>, autoRetry: Option<bool>, maxRetryDelay: Option<real>, maxRetries: Option<int>)
      ensures this.baseUrl == baseUrl && this.autoRetry == autoRetry
      ensures this.maxRetryDelay == maxRetryDelay && this.maxRetries == maxRetries
    {
      this.baseUrl := baseUrl;
      this.autoRetry := autoRetry;
      this.maxRetryDelay := maxRetryDelay;
      this.maxRetries := maxRetries;
    }

    /** The static `#defaultOptions` object as the class creates it. */
    constructor Defaults()
      ensures baseUrl == Some(DefaultBaseUrl) && autoRetry == Some(true)
      ensures maxRetryDelay == Some(5.0) && maxRetries == Some(3)
    {
      baseUrl := Some(DefaultBaseUrl);
      autoRetry := Some(true);
      maxRetryDelay := Some(5.0);
      maxRetries := Some(3);
    }

    /** Every field is present. */
    predicate Complete()
      reads this
    {
      baseUrl.Some? && autoRetry.Some? && maxRetryDelay.Some? && maxRetries.Some?
    }

    function Current(): Settings
      reads this
      requires Complete()
    {
      Settings(baseUrl.value, autoRetry.value, maxRetryDelay.value, maxRetries.value)
    }
  }

  /** The values of a complete options object. */
  datatype Settings = Settings(baseUrl: string, autoRetry: bool, maxRetryDelay: real, maxRetries: int)

  /** What a raw request is sent with: the build, the base URL and the token of the client. */
  datatype Sender = Sender(build: Build, baseUrl: string, token: Option<string>)

  /**
   * The outside world of a request. `fetch(url, init, k)` is the response to the `k`-th
   * raw request of one `#sendRequest` call, `None` when `fetch` rejects; `toNumber` is
   * `Number(...)` on a header value, `None` for NaN.
   */
  datatype Env = Env(
    resolve: (string, string) -> string,
    stringify: JsValue -> string,
    parse: string -> Option<JsValue>,
    fetch: (Url, FetchInit, nat) -> Option<FetchResponse>,
    toNumber: string -> Option<real>)

  /** The outcome of the `k`-th raw request. */
  function RawAttempt(sender: Sender, info: RequestInfo, env: Env, k: nat): RawOutcome {
    var url := RequestUrl(sender.baseUrl, info, env.resolve);
    var init := RequestInit(sender.build, sender.token, info, env.stringify);
    match env.fetch(url, init, k)
    case None => Rejected(NetworkError)
    case Some(response) => Classify(response, info, env.parse)
  }

  /** The delay headers for a status other than 429, in priority order. */
  const RetryAfterHeaders: seq<string> := ["x-retry-after", "retry-after"]

  /** The delay headers for status 429, in priority order. */
  const RateLimitHeaders: seq<string> :=
    ["x-ratelimit-reset", "x-rate-limit-reset", "ratelimit-reset", "rate-limit-reset", "retry-after", "x-retry-after"]

  /** `headers[names[0]] ?? headers[names[1]] ?? ...`: the value of the first name present. */
  function FirstPresent(headers: map<string, string>, names: seq<string>): (r: Option<string>)
    ensures r.None? <==> forall j :: 0 <= j < |names| ==> names[j] !in headers
    ensures r.Some? ==> exists j :: 0 <= j < |names| && names[j] in headers && r.value == headers[names[j]] &&
                                    forall k :: 0 <= k < j ==> names[k] !in headers
  {
    if names == [] then None
    else if names[0] in headers then Some(headers[names[0]])
    else
      var r := FirstPresent(headers, names[1..]);
      assert forall j :: 1 <= j < |names| ==> names[j] == names[1..][j - 1];
      r
  }

  /** The header the retry delay is read from. */
  function DelayHeader(response: RawResponse): Option<string> {
    FirstPresent(response.headers, if response.status != 429 then RetryAfterHeaders else RateLimitHeaders)
  }

  /** `Number(header)`, where an absent header is `Number(undefined)`, that is NaN. */
  function RetryDelay(response: RawResponse, toNumber: string -> Option<real>): Option<real> {
    match DelayHeader(response)
    case None => None
    case Some(h) => toNumber(h)
  }

  /** What the retry handler does with a failed attempt. */
  datatype Decision = Reject | RetryAfter(delay: real)

  /** The rejection handler of attempt `i`. */
  function Decide(e: Error, i: nat, s: Settings, toNumber: string -> Option<real>): Decision {
    if s.autoRetry && i < s.maxRetries && e.ApiError? then
      match RetryDelay(e.res.response, toNumber)
      case None => Reject
      case Some(d) => if d > s.maxRetryDelay then Reject else RetryAfter(d)
    else Reject
  }

  /** How a `#sendRequest` call settles: the outcome, the number of raw requests, and the delays waited. */
  datatype Sent = Sent(outcome: RawOutcome, attempts: nat, delays: seq<real>)

  /** The outcomes of the successive raw requests of one call. */
  function Attempts(sender: Sender, info: RequestInfo, env: Env): nat -> RawOutcome {
    (k: nat) => RawAttempt(sender, info, env, k)
  }

  /** `#sendRequest` from attempt `i` on, given the outcome of every attempt. */
  function Send(attempt: nat -> RawOutcome, s: Settings, toNumber: string -> Option<real>, i: nat): Sent
    decreases if i < s.maxRetries then s.maxRetries - i else 0
  {
    match attempt(i)
    case Resolved(v) => Sent(Resolved(v), i + 1, [])
    case Rejected(e) =>
      match Decide(e, i, s, toNumber)
      case Reject => Sent(Rejected(e), i + 1, [])
      case RetryAfter(d) =>
        var rest := Send(attempt, s, toNumber, i + 1);
        Sent(rest.outcome, rest.attempts, [d] + rest.delays)
  }

  /**
   * At most `maxRetries + 1` raw requests; the call settles with the outcome of the last one,
   * untouched; every earlier one was rejected with an envelope and was followed by the delay
   * its headers gave, never above `maxRetryDelay`; without `autoRetry` there is exactly one.
   */
  lemma {:induction false} SendShape(attempt: nat -> RawOutcome, s: Settings, toNumber: string -> Option<real>, i: nat)
    ensures var r := Send(attempt, s, toNumber, i);
      && i + 1 <= r.attempts <= (if i < s.maxRetries then s.maxRetries else i) + 1
      && |r.delays| == r.attempts - 1 - i
      && r.outcome == attempt(r.attempts - 1)
      && (!s.autoRetry ==> r.attempts == i + 1)
    decreases if i < s.maxRetries then s.maxRetries - i else 0
  {
    match attempt(i)
    case Resolved(v) =>
    case Rejected(e) =>
      match Decide(e, i, s, toNumber)
      case Reject =>
      case RetryAfter(d) =>
        SendShape(attempt, s, toNumber, i + 1);
  }

  /** Every attempt before the last was rejected with an envelope, and its delay was waited. */
  lemma {:induction false} SendRetried(attempt: nat -> RawOutcome, s: Settings, toNumber: string -> Option<real>, i: nat, k: nat)
    requires i <= k < Send(attempt, s, toNumber, i).attempts - 1
    ensures attempt(k).Rejected? && attempt(k).error.ApiError?
    ensures k - i < |Send(attempt, s, toNumber, i).delays|
    ensures RetryDelay(attempt(k).error.res.response, toNumber) == Some(Send(attempt, s, toNumber, i).delays[k - i])
    ensures Send(attempt, s, toNumber, i).delays[k - i] <= s.maxRetryDelay
    decreases if i < s.maxRetries then s.maxRetries - i else 0
  {
    var rest := Send(attempt, s, toNumber, i + 1);
    SendShape(attempt, s, toNumber, i + 1);
    if k > i {
      SendRetried(attempt, s, toNumber, i + 1, k);
    }
  }

  /** Attempt `k` failed with an envelope whose delay header reads a number no greater than `maxRetryDelay`. */
  predicate Retryable(attempt: nat -> RawOutcome, s: Settings, toNumber: string -> Option<real>, k: nat) {
    && attempt(k).Rejected? && attempt(k).error.ApiError?
    && var d := RetryDelay(attempt(k).error.res.response, toNumber);
       d.Some? && d.value <= s.maxRetryDelay
  }

  /**
   * With `autoRetry` on and retries left, a retryable failure is retried: a further request is
   * made after exactly the delay its headers give, and the call settles as from that request on.
   */
  lemma RetryHappens(attempt: nat -> RawOutcome, s: Settings, toNumber: string -> Option<real>, i: nat)
    requires s.autoRetry && i < s.maxRetries && Retryable(attempt, s, toNumber, i)
    ensures var r := Send(attempt, s, toNumber, i);
      var rest := Send(attempt, s, toNumber, i + 1);
      && r.attempts > i + 1
      && r.attempts == rest.attempts && r.outcome == rest.outcome
      && r.delays == [RetryDelay(attempt(i).error.res.response, toNumber).value] + rest.delays
  {
    SendShape(attempt, s, toNumber, i + 1);
  }

  /** When every attempt up to the last allowed one is retryable, exactly `maxRetries + 1` requests are made. */
  lemma {:induction false} RetriesUntilExhausted(attempt: nat -> RawOutcome, s: Settings, toNumber: string -> Option<real>, i: nat)
    requires s.autoRetry && i <= s.maxRetries
    requires forall k: nat :: i <= k < s.maxRetries ==> Retryable(attempt, s, toNumber, k)
    ensures Send(attempt, s, toNumber, i).attempts == s.maxRetries + 1
    ensures Send(attempt, s, toNumber, i).outcome == attempt(s.maxRetries)
    decreases s.maxRetries - i
  {
    if i < s.maxRetries {
      RetryHappens(attempt, s, toNumber, i);
      RetriesUntilExhausted(attempt, s, toNumber, i + 1);
    }
  }

  /** The first attempt that resolves settles the call; a rejection that is not an envelope is passed on at once. */
  lemma SendSettlesEarly(attempt: nat -> RawOutcome, s: Settings, toNumber: string -> Option<real>, i: nat)
    requires attempt(i).Resolved? || !attempt(i).error.ApiError?
    ensures Send(attempt, s, toNumber, i) == Sent(attempt(i), i + 1, [])
  {
  }

  /** A non-numeric delay, or one above the cap, rejects with the envelope of that attempt. */
  lemma DelayRejects(attempt: nat -> RawOutcome, s: Settings, toNumber: string -> Option<real>, i: nat)
    requires attempt(i).Rejected? && attempt(i).error.ApiError?
    requires var d := RetryDelay(attempt(i).error.res.response, toNumber);
      d.None? || d.value > s.maxRetryDelay
    ensures Send(attempt, s, toNumber, i) == Sent(attempt(i), i + 1, [])
  {
  }

  /** For status 429 the rate-limit headers come first; `retry-after` is read only when none of them is there. */
  lemma RateLimitPriority(response: RawResponse)
    requires response.status == 429 && "x-ratelimit-reset" in response.headers
    ensures DelayHeader(response) == Some(response.headers["x-ratelimit-reset"])
  {
  }

  /** For any other status `x-retry-after` wins over `retry-after`, and rate-limit headers are ignored. */
  lemma RetryAfterPriority(response: RawResponse)
    requires response.status != 429
    ensures "x-retry-after" in response.headers ==> DelayHeader(response) == Some(response.headers["x-retry-after"])
    ensures "x-retry-after" !in response.headers && "retry-after" !in response.headers ==> DelayHeader(response) == None
  {
  }

  /** `page * limit > total || page < 1`: the bound of `getPage` as written. */
  predicate PageOutOfRange(page: int, limit: int, total: int) {
    page * limit > total || page < 1
  }

  /** The bound that lets a partial last page through: the page must start before `total`. */
  predicate PageStartsPastEnd(page: int, limit: int, total: int) {
    page < 1 || (page - 1) * limit >= total
  }

  /** Which of the two bounds a pagination function applies. */
  datatype Bound = AsWritten | Intended

  predicate OutOfRange(bound: Bound, page: int, limit: int, total: int) {
    match bound
    case AsWritten => PageOutOfRange(page, limit, total)
    case Intended => PageStartsPastEnd(page, limit, total)
  }

  /** A paginated envelope as the pagination helpers read it. */
  datatype Page = Page(items: seq<JsValue>, total: int, limit: int, page: int, request: RequestInfo)

  /** Some entry of the query has the key. */
  predicate HasKey(query: seq<(string, string)>, key: string) {
    exists j :: 0 <= j < |query| && query[j].0 == key
  }

  /** `query[key]` of an object with these entries. */
  function Lookup(query: seq<(string, string)>, key: string): Option<string> {
    if query == [] then None else if query[0].0 == key then Some(query[0].1) else Lookup(query[1..], key)
  }

  function ReplaceValue(query: seq<(string, string)>, key: string, value: string): (r: seq<(string, string)>)
    ensures |r| == |query|
    ensures forall j :: 0 <= j < |query| ==> r[j] == if query[j].0 == key then (key, value) else query[j]
  {
    if query == [] then []
    else [if query[0].0 == key then (key, value) else query[0]] + ReplaceValue(query[1..], key, value)
  }

  /** `query[key] = value` on a copy: an existing entry keeps its place, a new one goes last. */
  function SetEntry(query: seq<(string, string)>, key: string, value: string): seq<(string, string)> {
    if HasKey(query, key) then ReplaceValue(query, key, value) else query + [(key, value)]
  }

  /** The new entry is found under its key, and every other key reads as before. */
  lemma {:induction false} SetEntryLookup(query: seq<(string, string)>, key: string, value: string, other: string)
    requires other != key
    ensures Lookup(SetEntry(query, key, value), key) == Some(value)
    ensures Lookup(SetEntry(query, key, value), other) == Lookup(query, other)
  {
    if HasKey(query, key) {
      ReplaceLookup(query, key, value, other);
    } else {
      AppendLookup(query, key, value, other);
    }
  }

  lemma {:induction false} ReplaceLookup(query: seq<(string, string)>, key: string, value: string, other: string)
    requires other != key && HasKey(query, key)
    ensures Lookup(ReplaceValue(query, key, value), key) == Some(value)
    ensures Lookup(ReplaceValue(query, key, value), other) == Lookup(query, other)
  {
    var r := ReplaceValue(query, key, value);
    assert r[1..] == ReplaceValue(query[1..], key, value);
    if query[0].0 != key {
      var j :| 0 <= j < |query| && query[j].0 == key;
      assert query[1..][j - 1].0 == key;
      ReplaceLookup(query[1..], key, value, other);
    } else if !HasKey(query[1..], key) {
      ReplaceAbsent(query[1..], key, value);
    } else {
      ReplaceLookup(query[1..], key, value, other);
    }
  }

  lemma {:induction false} ReplaceAbsent(query: seq<(string, string)>, key: string, value: string)
    requires !HasKey(query, key)
    ensures ReplaceValue(query, key, value) == query
  {
    if query != [] {
      assert !HasKey(query[1..], key) by {
        forall j | 0 <= j < |query[1..]| ensures query[1..][j].0 != key {
          assert query[1..][j] == query[j + 1];
        }
      }
      ReplaceAbsent(query[1..], key, value);
    }
  }

  lemma {:induction false} AppendLookup(query: seq<(string, string)>, key: string, value: string, other: string)
    requires other != key && !HasKey(query, key)
    ensures Lookup(query + [(key, value)], key) == Some(value)
    ensures Lookup(query + [(key, value)], other) == Lookup(query, other)
  {
    if query != [] {
      assert (query + [(key, value)])[1..] == query[1..] + [(key, value)];
      assert !HasKey(query[1..], key) by {
        forall j | 0 <= j < |query[1..]| ensures query[1..][j].0 != key {
          assert query[1..][j] == query[j + 1];
        }
      }
      AppendLookup(query[1..], key, value, other);
    }
  }

  /** The request `getPage` re-sends: the same operation, path parameters and body, and the query with `page` set. */
  function PageRequest(request: RequestInfo, page: nat): (r: RequestInfo)
    ensures r.operation == request.operation && r.pathParams == request.pathParams && r.body == request.body
  {
    request.(queryParams := SetEntry(request.queryParams, "page", NatToString(page)))
  }

  /** `getPage(response, page)`: `None` for `null`, otherwise how the re-sent request settles. */
  function GetPageSpec(bound: Bound, sender: Sender, s: Settings, response: Page, page: int, env: Env): Option<Sent> {
    if OutOfRange(bound, page, response.limit, response.total) then None
    else Some(Send(Attempts(sender, PageRequest(response.request, page), env), s, env.toNumber, 0))
  }

  /** `null` exactly out of bounds; otherwise the query reads `page` as the new number and every other key as before. */
  lemma GetPageRequest(sender: Sender, s: Settings, response: Page, page: int, env: Env, key: string)
    requires key != "page"
    ensures GetPageSpec(AsWritten, sender, s, response, page, env).None? <==> page * response.limit > response.total || page < 1
    ensures page >= 1 ==>
      && Lookup(PageRequest(response.request, page).queryParams, "page") == Some(NatToString(page))
      && Lookup(PageRequest(response.request, page).queryParams, key) == Lookup(response.request.queryParams, key)
  {
    if page >= 1 {
      SetEntryLookup(response.request.queryParams, "page", NatToString(page), key);
    }
  }

  /** From a page in range, the previous page is `null` exactly when this is the first page. */
  lemma PreviousOfValidPage(sender: Sender, s: Settings, response: Page, env: Env)
    requires response.limit >= 0 && !PageOutOfRange(response.page, response.limit, response.total)
    ensures GetPageSpec(AsWritten, sender, s, response, response.page - 1, env).None? <==> response.page == 1
  {
    MulMonotone(response.page - 1, response.page, response.limit);
  }

  /** `Math.ceil(total / limit)` */
  function CeilDiv(total: int, limit: int): int
    requires limit > 0
  {
    if total % limit == 0 then total / limit else total / limit + 1
  }

  /** `CeilDiv` is the ceiling: the least count of `limit`-sized pages that covers `total`. */
  lemma CeilDivBounds(total: int, limit: int)
    requires limit > 0
    ensures (CeilDiv(total, limit) - 1) * limit < total <= CeilDiv(total, limit) * limit
  {
    var q := total / limit;
    assert total == q * limit + total % limit;
    assert (q + 1) * limit == q * limit + limit;
  }

  /** The ceiling is exact when `limit` divides `total`, and one past the full pages otherwise. */
  lemma CeilDivExact(total: int, limit: int)
    requires limit > 0
    ensures CeilDiv(total, limit) * limit == total <==> total % limit == 0
  {
    var q := total / limit;
    assert total == q * limit + total % limit;
    if total % limit != 0 {
      assert CeilDiv(total, limit) * limit == q * limit + limit;
    }
  }

  lemma MulMonotone(a: int, b: int, c: int)
    requires a <= b && c >= 0
    ensures a * c <= b * c
  {
    assert b * c - a * c == (b - a) * c;
  }

  /**
   * As written, the only page up to `ceil(total / limit)` that is out of bounds is the last
   * one, exactly when it is partial; with the intended bound none is.
   */
  lemma LastPartialPageDropped(page: int, limit: int, total: int)
    requires limit > 0 && 1 <= page <= CeilDiv(total, limit)
    ensures PageOutOfRange(page, limit, total) <==> page == CeilDiv(total, limit) && total % limit != 0
    ensures !PageStartsPastEnd(page, limit, total)
  {
    var n := CeilDiv(total, limit);
    CeilDivBounds(total, limit);
    MulMonotone(page - 1, n - 1, limit);
    if page < n {
      MulMonotone(page, n - 1, limit);
    } else {
      CeilDivExact(total, limit);
    }
  }

  /** With the intended bound a page is in range exactly when it is one of the `ceil(total / limit)` pages. */
  lemma IntendedBoundMatchesPageCount(page: int, limit: int, total: int)
    requires limit > 0
    ensures !PageStartsPastEnd(page, limit, total) <==> 1 <= page <= CeilDiv(total, limit)
  {
    var n := CeilDiv(total, limit);
    CeilDivBounds(total, limit);
    if 1 <= page <= n {
      MulMonotone(page - 1, n - 1, limit);
    } else if page > n {
      MulMonotone(n, page - 1, limit);
    }
  }

  /** The pages `getAllPages` lays out: its own page, and the outcome of `getPage` for every other. */
  datatype PageValue = NullPage | HeldPage | Settled(outcome: RawOutcome)

  /** Slot `k` of `getAllPages`: page `k + 1`. */
  function Slot(bound: Bound, sender: Sender, s: Settings, response: Page, env: Env, k: nat): PageValue {
    if k == response.page - 1 then HeldPage
    else
      match GetPageSpec(bound, sender, s, response, k + 1, env)
      case None => NullPage
      case Some(sent) => Settled(sent.outcome)
  }

  /** A slot other than the held one holds what `getPage` settles to. */
  lemma SlotOfPage(bound: Bound, sender: Sender, s: Settings, response: Page, env: Env, k: nat, p: Option<Sent>)
    requires k != response.page - 1 && p == GetPageSpec(bound, sender, s, response, k + 1, env)
    ensures Slot(bound, sender, s, response, env, k) == if p.None? then NullPage else Settled(p.value.outcome)
  {
  }

  function Slots(bound: Bound, sender: Sender, s: Settings, response: Page, env: Env): (r: seq<PageValue>)
    requires response.limit > 0
    ensures |r| == if CeilDiv(response.total, response.limit) < 0 then 0 else CeilDiv(response.total, response.limit)
    ensures forall k :: 0 <= k < |r| ==> r[k] == Slot(bound, sender, s, response, env, k)
  {
    var n := CeilDiv(response.total, response.limit);
    seq(if n < 0 then 0 else n, k requires 0 <= k => Slot(bound, sender, s, response, env, k))
  }

  predicate IsRejected(v: PageValue) {
    v.Settled? && v.outcome.Rejected?
  }

  /** `Promise.all`: the first rejection in page order, if any. */
  function FirstRejection(vs: seq<PageValue>): (r: Option<Error>)
    ensures r.None? <==> forall k :: 0 <= k < |vs| ==> !IsRejected(vs[k])
  {
    if vs == [] then None
    else
      var init := vs[..|vs| - 1];
      assert forall k :: 0 <= k < |init| ==> init[k] == vs[k];
      match FirstRejection(init)
      case Some(e) => Some(e)
      case None => if IsRejected(vs[|vs| - 1]) then Some(vs[|vs| - 1].outcome.error) else None
  }

  /** The rejection is the one of the first rejected page. */
  lemma {:induction false} FirstRejectionAt(vs: seq<PageValue>, k: nat)
    requires k < |vs| && IsRejected(vs[k]) && forall j :: 0 <= j < k ==> !IsRejected(vs[j])
    ensures FirstRejection(vs) == Some(vs[k].outcome.error)
  {
    var init := vs[..|vs| - 1];
    if k < |vs| - 1 {
      assert init[k] == vs[k];
      FirstRejectionAt(init, k);
    } else {
      assert forall j :: 0 <= j < |init| ==> init[j] == vs[j];
    }
  }

  /** The held page is never a rejection, so taking it out changes nothing. */
  lemma {:induction false} FirstRejectionSkipsHeld(a: seq<PageValue>, b: seq<PageValue>)
    ensures FirstRejection(a + [HeldPage] + b) == FirstRejection(a + b)
    decreases |b|
  {
    if b == [] {
      assert a + [HeldPage] + b == a + [HeldPage];
      assert a + b == a;
      Seqs.AppendSlices(a, [HeldPage]);
    } else {
      var init := b[..|b| - 1];
      var x := b[|b| - 1];
      assert b == init + [x];
      Seqs.AppendAssoc(a + [HeldPage], init, [x]);
      Seqs.AppendAssoc(a, init, [x]);
      Seqs.AppendSlices(a + [HeldPage] + init, [x]);
      Seqs.AppendSlices(a + init, [x]);
      FirstRejectionSkipsHeld(a, init);
    }
  }

  /** `p.items` of a page, `None` when the page is `undefined` (a 204) and reading it throws. */
  function PageItems(held: seq<JsValue>, v: PageValue): Option<seq<JsValue>> {
    match v
    case NullPage => Some([])
    case HeldPage => Some(held)
    case Settled(Resolved(None)) => None
    case Settled(Resolved(Some(res))) =>
      var items := if "items" in res.fields then res.fields["items"] else Undefined;
      Some(if items.Arr? then items.elems else [items])
    case Settled(Rejected(_)) => Some([])
  }

  /** `allPages.map(p => p.items).flat()` after dropping the `null` pages. */
  function CollectItems(held: seq<JsValue>, vs: seq<PageValue>): Option<seq<JsValue>> {
    if vs == [] then Some([])
    else
      match (CollectItems(held, vs[..|vs| - 1]), PageItems(held, vs[|vs| - 1]))
      case (Some(a), Some(b)) => Some(a + b)
      case _ => None
  }

  /** The merged result of `getAllPages`. */
  datatype AllPages = AllPages(items: seq<JsValue>, total: int, limit: int, page: int)

  datatype AllOutcome = AllResolved(pages: AllPages) | AllRejected(error: Error)

  /**
   * `pages.map(...)` then `filter(page => page !== true)`: the slots other than the held one, in
   * order. A held index past the last slot grows the JavaScript array with holes, and a negative
   * one is a plain property; `map` and `filter` skip both, so then every slot is requested.
   */
  function OtherPages(vs: seq<PageValue>, held: int): seq<PageValue> {
    if 0 <= held < |vs| then vs[..held] + vs[held + 1..] else vs
  }

  /** The pages `pages.map(...)` has requested after `k` slots: every slot before `k` but the held one. */
  function OtherPrefix(vs: seq<PageValue>, held: int, k: nat): (r: seq<PageValue>)
    requires k <= |vs|
    ensures |r| == if 0 <= held < k then k - 1 else k
  {
    if k <= held || held < 0 then vs[..k] else vs[..held] + vs[held + 1..k]
  }

  /** One more slot: the held one adds nothing, any other adds its page. */
  lemma OtherPrefixNext(vs: seq<PageValue>, held: int, k: nat)
    requires k < |vs|
    ensures OtherPrefix(vs, held, k + 1) == if k == held then OtherPrefix(vs, held, k) else OtherPrefix(vs, held, k) + [vs[k]]
  {
    if k < held || held < 0 {
      Seqs.TakeNext(vs, k);
    } else if k == held {
      assert vs[held + 1..held + 1] == [];
      assert vs[..held] + [] == vs[..held];
    } else {
      Seqs.SliceNext(vs, held + 1, k);
      Seqs.AppendAssoc(vs[..held], vs[held + 1..k], [vs[k]]);
    }
  }

  /** After every slot, the requested pages are all but the held one. */
  lemma OtherPrefixAll(vs: seq<PageValue>, held: int)
    ensures OtherPrefix(vs, held, |vs|) == OtherPages(vs, held)
  {
    Seqs.TakeAll(vs);
    if 0 <= held < |vs| {
      assert vs[held + 1..|vs|] == vs[held + 1..];
    }
  }

  /** Where `splice(held, 0, response)` inserts into a list of `len` pages: a negative start counts from the end. */
  function SpliceStart(held: int, len: nat): (r: nat)
    ensures r <= len
  {
    if held < 0 then (if len + held < 0 then 0 else len + held)
    else if held > len then len
    else held
  }

  /** The awaited pages with the held page spliced back in. */
  function MergedPages(vs: seq<PageValue>, held: int): seq<PageValue> {
    var others := OtherPages(vs, held);
    var at := SpliceStart(held, |others|);
    others[..at] + [HeldPage] + others[at..]
  }

  /**
   * `getAllPages(response)`, page by page. `new Array(n)` throws a RangeError for a negative
   * page count.
   */
  function GetAllPagesSpec(bound: Bound, sender: Sender, s: Settings, response: Page, env: Env): (r: AllOutcome)
    requires response.limit > 0
    ensures r.AllResolved? ==>
      r.pages.page == 1 && r.pages.total == response.total && r.pages.limit == response.limit
  {
    if CeilDiv(response.total, response.limit) < 0 then AllRejected(RangeError)
    else MergeAll(Slots(bound, sender, s, response, env), response)
  }

  /** From the slots on: await the other pages, splice the held page back in and collect the items. */
  function MergeAll(vs: seq<PageValue>, response: Page): (r: AllOutcome)
    ensures r.AllResolved? ==>
      r.pages.page == 1 && r.pages.total == response.total && r.pages.limit == response.limit
  {
    match FirstRejection(OtherPages(vs, response.page - 1))
    case Some(e) => AllRejected(e)
    case None =>
      match CollectItems(response.items, MergedPages(vs, response.page - 1))
      case None => AllRejected(TypeError)
      case Some(items) => AllResolved(AllPages(items, response.total, response.limit, 1))
  }

  /** The held page's items are placed at its own position: the items of the pages before it come first. */
  lemma {:induction false} CollectItemsSplit(held: seq<JsValue>, vs: seq<PageValue>, k: nat)
    requires k <= |vs| && CollectItems(held, vs).Some?
    ensures CollectItems(held, vs[..k]).Some? && CollectItems(held, vs[k..]).Some?
    ensures CollectItems(held, vs).value == CollectItems(held, vs[..k]).value + CollectItems(held, vs[k..]).value
    decreases |vs| - k
  {
    if k == |vs| {
      Seqs.TakeAll(vs);
      assert vs[k..] == [];
    } else {
      var init := vs[..|vs| - 1];
      assert init[..k] == vs[..k];
      CollectItemsSplit(held, init, k);
      assert vs[k..][..|vs[k..]| - 1] == init[k..];
      assert vs[k..][|vs[k..]| - 1] == vs[|vs| - 1];
      Seqs.AppendAssoc(CollectItems(held, init[..k]).value, CollectItems(held, init[k..]).value,
                       PageItems(held, vs[|vs| - 1]).value);
    }
  }

  /** Around the held slot: the items before it, then the held page's own items, then the items after it. */
  lemma HeldInPlace(held: seq<JsValue>, vs: seq<PageValue>, h: nat)
    requires h < |vs| && vs[h] == HeldPage && CollectItems(held, vs).Some?
    ensures CollectItems(held, vs[..h]).Some? && CollectItems(held, vs[h + 1..]).Some?
    ensures CollectItems(held, vs).value == CollectItems(held, vs[..h]).value + held + CollectItems(held, vs[h + 1..]).value
  {
    CollectItemsSplit(held, vs, h);
    var rest := vs[h..];
    CollectItemsSplit(held, rest, 1);
    assert rest[..1] == [HeldPage];
    assert rest[..1][..0] == [];
    assert rest[1..] == vs[h + 1..];
    assert CollectItems(held, rest[..1]).value == held;
    Seqs.AppendAssoc(CollectItems(held, vs[..h]).value, held, CollectItems(held, vs[h + 1..]).value);
  }

  /**
   * The merged items keep page order: the items of the awaited pages before the splice point,
   * the held page's own items, then the items of the rest.
   */
  lemma AllPagesOrder(bound: Bound, sender: Sender, s: Settings, response: Page, env: Env)
    requires 0 < response.limit && GetAllPagesSpec(bound, sender, s, response, env).AllResolved?
    ensures var others := OtherPages(Slots(bound, sender, s, response, env), response.page - 1);
      var at := SpliceStart(response.page - 1, |others|);
      && CollectItems(response.items, others[..at]).Some? && CollectItems(response.items, others[at..]).Some?
      && GetAllPagesSpec(bound, sender, s, response, env).pages.items ==
         CollectItems(response.items, others[..at]).value + response.items + CollectItems(response.items, others[at..]).value
  {
    var vs := Slots(bound, sender, s, response, env);
    assert CollectItems(response.items, MergedPages(vs, response.page - 1)).Some?;
    MergedInOrder(response.items, vs, response.page - 1);
  }

  /** The items of the merged pages: the awaited pages before the splice point, the held items, then the rest. */
  lemma MergedInOrder(items: seq<JsValue>, vs: seq<PageValue>, held: int)
    requires CollectItems(items, MergedPages(vs, held)).Some?
    ensures var others := OtherPages(vs, held);
      var at := SpliceStart(held, |others|);
      && CollectItems(items, others[..at]).Some? && CollectItems(items, others[at..]).Some?
      && CollectItems(items, MergedPages(vs, held)).value ==
         CollectItems(items, others[..at]).value + items + CollectItems(items, others[at..]).value
  {
    var others := OtherPages(vs, held);
    var at := SpliceStart(held, |others|);
    var merged := others[..at] + [HeldPage] + others[at..];
    HeldInPlace(items, merged, at);
    assert merged[..at] == others[..at];
    assert merged[at + 1..] == others[at..];
  }

  /** A held page in range is spliced back at its own index, so the merged pages are the slots in page order. */
  lemma HeldAtOwnIndex(bound: Bound, sender: Sender, s: Settings, response: Page, env: Env)
    requires 0 < response.limit && 1 <= response.page <= CeilDiv(response.total, response.limit)
    ensures MergedPages(Slots(bound, sender, s, response, env), response.page - 1) == Slots(bound, sender, s, response, env)
  {
    var vs := Slots(bound, sender, s, response, env);
    var h := response.page - 1;
    var others := vs[..h] + vs[h + 1..];
    Seqs.AppendSlices(vs[..h], vs[h + 1..]);
    assert SpliceStart(h, |others|) == h;
    Seqs.SplitAround(vs, h);
  }

  /** A held page past the last one is spliced in at the end, after every requested page. */
  lemma HeldPastLast(bound: Bound, sender: Sender, s: Settings, response: Page, env: Env)
    requires 0 < response.limit && 0 <= CeilDiv(response.total, response.limit) < response.page
    ensures MergedPages(Slots(bound, sender, s, response, env), response.page - 1) ==
      Slots(bound, sender, s, response, env) + [HeldPage]
  {
    var vs := Slots(bound, sender, s, response, env);
    assert vs[..|vs|] == vs && vs[|vs|..] == [];
  }

  /** An empty listing requests no page and returns the held page's own items. */
  lemma EmptyListing(bound: Bound, sender: Sender, s: Settings, response: Page, env: Env)
    requires 0 < response.limit && response.total == 0
    ensures GetAllPagesSpec(bound, sender, s, response, env) == AllResolved(AllPages(response.items, 0, response.limit, 1))
  {
    assert CeilDiv(response.total, response.limit) == 0;
    assert Slots(bound, sender, s, response, env) == [];
    MergeNothing(response);
  }

  /** With no slot, nothing is awaited and the held page's items are the result. */
  lemma MergeNothing(response: Page)
    ensures MergeAll([], response) == AllResolved(AllPages(response.items, response.total, response.limit, 1))
  {
    var held := response.page - 1;
    assert OtherPages([], held) == [];
    assert FirstRejection([]) == None;
    assert SpliceStart(held, 0) == 0;
    var merged := MergedPages([], held);
    assert merged == [HeldPage];
    assert merged[..0] == [] && merged[0] == HeldPage;
    assert CollectItems(response.items, merged) == Some([] + response.items);
  }

  /**
   * As written, when the last page is partial and is not the held one, it is never fetched:
   * its slot is `null` and it adds no items. With the intended bound no slot is `null`.
   */
  lemma PartialLastPageMissing(sender: Sender, s: Settings, response: Page, env: Env)
    requires 0 < response.limit
    ensures var n := CeilDiv(response.total, response.limit);
      forall k :: 0 <= k < n ==>
        (Slots(AsWritten, sender, s, response, env)[k] == NullPage <==>
           k == n - 1 && k != response.page - 1 && response.total % response.limit != 0)
    ensures forall k :: 0 <= k < CeilDiv(response.total, response.limit) ==>
      Slots(Intended, sender, s, response, env)[k] != NullPage
  {
    var n := CeilDiv(response.total, response.limit);
    forall k | 0 <= k < n
      ensures Slots(AsWritten, sender, s, response, env)[k] == NullPage <==>
        k == n - 1 && k != response.page - 1 && response.total % response.limit != 0
      ensures Slots(Intended, sender, s, response, env)[k] != NullPage
    {
      LastPartialPageDropped(k + 1, response.limit, response.total);
    }
  }

  /** A concrete case: 25 items, 10 per page, page 1 held; the third page of 5 items is lost. */
  lemma TwentyFiveItemsLoseFive(sender: Sender, s: Settings, response: Page, env: Env)
    requires response.total == 25 && response.limit == 10 && response.page == 1
    ensures |Slots(AsWritten, sender, s, response, env)| == 3
    ensures Slots(AsWritten, sender, s, response, env)[2] == NullPage
    ensures Slots(Intended, sender, s, response, env)[2] != NullPage
  {
    assert CeilDiv(25, 10) == 3;
    PartialLastPageMissing(sender, s, response, env);
  }

  /** A client: its build, its token and the options object it reads. */
  class Cloudnode {
    const build: Build
    const token: Option<string>
    const options: Options

    predicate Valid()
      reads this, options
    {
      options.Complete()
    }

    function AsSender(): Sender
      reads this, options
      requires Valid()
    {
      Sender(build, options.baseUrl.value, token)
    }

    /**
     * The module build's constructor. It writes the merged options into the static
     * defaults object `defaults` itself and keeps that object, so all module clients share one
     * options object.
     */
    constructor Module(token: Option<string>, options: Options?, defaults: Options)
      requires defaults.Complete()
      modifies defaults
      ensures this.build == ModuleBuild && this.token == token && this.options == defaults
      ensures Valid()
      ensures var given := if options == null then defaults else options;
        && defaults.baseUrl == old(given.baseUrl).OrElse(old(defaults.baseUrl))
        && defaults.autoRetry == old(given.autoRetry).OrElse(old(defaults.autoRetry))
        && defaults.maxRetryDelay == old(given.maxRetryDelay).OrElse(old(defaults.maxRetryDelay))
        && defaults.maxRetries == old(given.maxRetries).OrElse(old(defaults.maxRetries))
    {
      var given := if options == null then defaults else options;
      defaults.baseUrl := given.baseUrl.OrElse(defaults.baseUrl);
      defaults.autoRetry := given.autoRetry.OrElse(defaults.autoRetry);
      defaults.maxRetryDelay := given.maxRetryDelay.OrElse(defaults.maxRetryDelay);
      defaults.maxRetries := given.maxRetries.OrElse(defaults.maxRetries);
      this.build := ModuleBuild;
      this.token := token;
      this.options := defaults;
    }

    /**
     * The browser build's constructor. Each fallback reads the defaults object itself, so the
     * options argument has no effect and the defaults keep their values.
     */
    constructor Browser(token: Option<string>, options: Options?, defaults: Options)
      requires defaults.Complete()
      modifies defaults
      ensures this.build == BrowserBuild && this.token == token && this.options == defaults
      ensures Valid()
      ensures defaults.baseUrl == old(defaults.baseUrl) && defaults.autoRetry == old(defaults.autoRetry)
      ensures defaults.maxRetryDelay == old(defaults.maxRetryDelay) && defaults.maxRetries == old(defaults.maxRetries)
    {
      defaults.baseUrl := defaults.baseUrl.OrElse(defaults.baseUrl);
      defaults.autoRetry := defaults.autoRetry.OrElse(defaults.autoRetry);
      defaults.maxRetryDelay := defaults.maxRetryDelay.OrElse(defaults.maxRetryDelay);
      defaults.maxRetries := defaults.maxRetries.OrElse(defaults.maxRetries);
      this.build := BrowserBuild;
      this.token := token;
      this.options := defaults;
    }

    /** The evidently intended constructor: each given option over its default, in a fresh object of the client's own. */
    constructor Isolated(build: Build, token: Option<string>, options: Options?, defaults: Options)
      requires defaults.Complete()
      ensures this.build == build && this.token == token && fresh(this.options)
      ensures Valid()
      ensures var given := if options == null then defaults else options;
        this.options.Current() == Settings(given.baseUrl.GetOr(defaults.baseUrl.value), given.autoRetry.GetOr(defaults.autoRetry.value),
                                           given.maxRetryDelay.GetOr(defaults.maxRetryDelay.value), given.maxRetries.GetOr(defaults.maxRetries.value))
    {
      var given := if options == null then defaults else options;
      var merged := new Options(given.baseUrl.OrElse(defaults.baseUrl), given.autoRetry.OrElse(defaults.autoRetry),
                                given.maxRetryDelay.OrElse(defaults.maxRetryDelay), given.maxRetries.OrElse(defaults.maxRetries));
      this.build := build;
      this.token := token;
      this.options := merged;
    }

    /** The settings a `#sendRequest` call with these call options acts on: each call option over the client's. */
    function Effective(callOptions: Options?): Settings
      reads this, options, callOptions
      requires Valid()
    {
      var o := if callOptions == null then options else callOptions;
      Settings(o.baseUrl.OrElse(options.baseUrl).value, o.autoRetry.OrElse(options.autoRetry).value,
               o.maxRetryDelay.OrElse(options.maxRetryDelay).value, o.maxRetries.OrElse(options.maxRetries).value)
    }

    /**
     * `options ??= this.#options` and the four `??=` lines: absent call options are filled in
     * place from the client's. Filling the client's own complete options writes nothing.
     */
    method FillOptions(callOptions: Options?) returns (o: Options)
      requires Valid()
      modifies callOptions
      ensures o == (if callOptions == null then options else callOptions)
      ensures o.Complete() && o.Current() == old(Effective(callOptions))
      ensures Valid() && options.Current() == old(options.Current())
    {
      o := if callOptions == null then options else callOptions;
      if o.baseUrl.None? {
        o.baseUrl := options.baseUrl;
      }
      if o.autoRetry.None? {
        o.autoRetry := options.autoRetry;
      }
      if o.maxRetries.None? {
        o.maxRetries := options.maxRetries;
      }
      if o.maxRetryDelay.None? {
        o.maxRetryDelay := options.maxRetryDelay;
      }
    }

    /** `#sendRawRequest`: build the request, fetch it, classify the response. */
    method SendRawRequest(info: RequestInfo, env: Env, attempt: nat) returns (r: RawOutcome)
      requires Valid()
      ensures r == RawAttempt(AsSender(), info, env, attempt)
    {
      var url, init := BuildRequest(build, options.baseUrl.value, token, info, env.resolve, env.stringify);
      var response := env.fetch(url, init, attempt);
      if response.None? {
        return Rejected(NetworkError);
      }
      r := Classify(response.value, info, env.parse);
    }

    /**
     * `#sendRequest`: raw requests until one resolves or the rejection handler gives up,
     * waiting the chosen delay between them. The call options are filled after the first
     * failure; the URL is always built from the client's own base URL.
     */
    method SendRequest(info: RequestInfo, callOptions: Options?, env: Env) returns (sent: Sent)
      requires Valid()
      modifies callOptions
      ensures Valid() && options.Current() == old(options.Current())
      ensures sent == Send(Attempts(old(AsSender()), info, env), old(Effective(callOptions)), env.toNumber, 0)
    {
      ghost var attempt := Attempts(AsSender(), info, env);
      ghost var sender := AsSender();
      ghost var s := Effective(callOptions);
      var i: nat := 0;
      var delays: seq<real> := [];
      while true
        invariant Valid() && AsSender() == sender && Effective(callOptions) == s
        invariant |delays| == i
        invariant var rest := Send(attempt, s, env.toNumber, i);
          Send(attempt, s, env.toNumber, 0) == Sent(rest.outcome, rest.attempts, delays + rest.delays)
        decreases if i < s.maxRetries then s.maxRetries - i else 0
      {
        var r := SendRawRequest(info, env, i);
        assert attempt(i) == r;
        if r.Resolved? {
          assert delays + [] == delays;
          return Sent(r, i + 1, delays);
        }
        var o := FillOptions(callOptions);
        var d := Decide(r.error, i, o.Current(), env.toNumber);
        if d.Reject? {
          assert delays + [] == delays;
          return Sent(r, i + 1, delays);
        }
        Seqs.AppendAssoc(delays, [d.delay], Send(attempt, s, env.toNumber, i + 1).delays);
        delays := delays + [d.delay];
        i := i + 1;
      }
    }

    /** `getPage`: `null` out of bounds, otherwise the original request re-sent with the new page number. */
    method GetPage(response: Page, page: int, env: Env) returns (r: Option<Sent>)
      requires Valid()
      ensures r == GetPageSpec(AsWritten, AsSender(), options.Current(), response, page, env)
    {
      if page * response.limit > response.total || page < 1 {
        return None;
      }
      var query := response.request.queryParams;
      query := SetEntry(query, "page", NatToString(page));
      var sent := SendRequest(response.request.(queryParams := query), null, env);
      r := Some(sent);
    }

    /** `getNextPage` */
    method GetNextPage(response: Page, env: Env) returns (r: Option<Sent>)
      requires Valid()
      ensures r == GetPageSpec(AsWritten, AsSender(), options.Current(), response, response.page + 1, env)
    {
      r := GetPage(response, response.page + 1, env);
    }

    /** `getPreviousPage` */
    method GetPreviousPage(response: Page, env: Env) returns (r: Option<Sent>)
      requires Valid()
      ensures r == GetPageSpec(AsWritten, AsSender(), options.Current(), response, response.page - 1, env)
    {
      r := GetPage(response, response.page - 1, env);
    }

    /**
     * `getAllPages`: mark the held page in an array of `ceil(total / limit)` slots, request
     * every other page, await them all, splice the held page back in at its index, drop the
     * `null` pages and concatenate the items.
     */
    method GetAllPages(response: Page, env: Env) returns (r: AllOutcome)
      requires Valid()
      requires 0 < response.limit
      ensures r == GetAllPagesSpec(AsWritten, AsSender(), options.Current(), response, env)
    {
      var n := CeilDiv(response.total, response.limit);
      if n < 0 {
        return AllRejected(RangeError);
      }
      var held := response.page - 1;
      var marks := new bool[n](k => false);
      // Past the end the JavaScript array grows with holes, and a negative index is a plain
      // property; `map` and `filter` skip both, so neither marks a slot.
      if 0 <= held < n {
        marks[held] := true;
      }
      var newPages := RequestOtherPages(response, env, marks);
      ghost var vs := Slots(AsWritten, AsSender(), options.Current(), response, env);
      r := MergeRequested(newPages, response, vs);
    }

    /** `pages.map(...)` then `filter(page => page !== true)`: `getPage` for every slot but the held one, in order. */
    method RequestOtherPages(response: Page, env: Env, marks: array<bool>) returns (newPages: seq<PageValue>)
      requires Valid()
      requires 0 < response.limit && marks.Length == CeilDiv(response.total, response.limit)
      requires forall j :: 0 <= j < marks.Length ==> (marks[j] <==> j == response.page - 1)
      ensures newPages == OtherPages(Slots(AsWritten, AsSender(), options.Current(), response, env), response.page - 1)
    {
      ghost var vs := Slots(AsWritten, AsSender(), options.Current(), response, env);
      var held := response.page - 1;
      newPages := [];
      for k := 0 to marks.Length
        invariant newPages == OtherPrefix(vs, held, k)
      {
        OtherPrefixNext(vs, held, k);
        if !marks[k] {
          var p := GetPage(response, k + 1, env);
          SlotOfPage(AsWritten, AsSender(), options.Current(), response, env, k, p);
          newPages := newPages + [if p.None? then NullPage else Settled(p.value.outcome)];
        }
      }
      OtherPrefixAll(vs, held);
    }
  }

  /** The rest of `getAllPages` once the other pages are requested: await, splice and collect. */
  method MergeRequested(newPages: seq<PageValue>, response: Page, ghost vs: seq<PageValue>) returns (r: AllOutcome)
    requires newPages == OtherPages(vs, response.page - 1)
    ensures r == MergeAll(vs, response)
  {
    var failure := AwaitAll(newPages);
    if failure.Some? {
      return AllRejected(failure.value);
    }
    var at := SpliceStart(response.page - 1, |newPages|);
    var allPages := newPages[..at] + [HeldPage] + newPages[at..];
    var items := CollectPages(response.items, allPages);
    if items.None? {
      return AllRejected(TypeError);
    }
    r := AllResolved(AllPages(items.value, response.total, response.limit, 1));
  }

  /** `await Promise.all(...)`: the first rejected page, in page order. */
  method AwaitAll(pages: seq<PageValue>) returns (failure: Option<Error>)
    ensures failure == FirstRejection(pages)
  {
    for k := 0 to |pages|
      invariant forall j :: 0 <= j < k ==> !IsRejected(pages[j])
    {
      if IsRejected(pages[k]) {
        FirstRejectionAt(pages, k);
        return Some(pages[k].outcome.error);
      }
    }
    return None;
  }

  /** `filter(p => p !== null)`, `map(p => p.items)` and `flat()`, in one pass. */
  method CollectPages(held: seq<JsValue>, pages: seq<PageValue>) returns (items: Option<seq<JsValue>>)
    ensures items == CollectItems(held, pages)
  {
    var acc: seq<JsValue> := [];
    var thrown := false;
    for k := 0 to |pages|
      invariant thrown <==> CollectItems(held, pages[..k]).None?
      invariant !thrown ==> acc == CollectItems(held, pages[..k]).value
    {
      Seqs.TakeNext(pages, k);
      assert pages[..k + 1][..k] == pages[..k];
      var p := PageItems(held, pages[k]);
      if p.None? {
        thrown := true;
      } else if !thrown {
        acc := acc + p.value;
      }
    }
    Seqs.TakeAll(pages);
    items := if thrown then None else Some(acc);
  }

  /** Two module clients: the second one's options overwrite the first one's. */
  method ModuleClientsShareOptions() returns (firstRetries: int)
    ensures firstRetries == 7
  {
    var defaults := new Options.Defaults();
    var one := new Options(None, None, None, Some(1));
    var first := new Cloudnode.Module(Some("a"), one, defaults);
    var seven := new Options(None, None, None, Some(7));
    var second := new Cloudnode.Module(Some("b"), seven, defaults);
    firstRetries := first.options.maxRetries.value;
  }

  /** A browser client asked for one retry still retries three times. */
  method BrowserIgnoresOptions() returns (retries: int)
    ensures retries == 3
  {
    var defaults := new Options.Defaults();
    var one := new Options(None, None, None, Some(1));
    var client := new Cloudnode.Browser(None, one, defaults);
    retries := client.options.maxRetries.value;
  }

  /** With the intended constructor each client keeps its own options and the defaults stay as they are. */
  method IsolatedClientsKeepOptions() returns (firstRetries: int, secondRetries: int, browserRetries: int, defaultRetries: int)
    ensures firstRetries == 1 && secondRetries == 7 && browserRetries == 1 && defaultRetries == 3
  {
    var defaults := new Options.Defaults();
    var one := new Options(None, None, None, Some(1));
    var first := new Cloudnode.Isolated(ModuleBuild, Some("a"), one, defaults);
    var seven := new Options(None, None, None, Some(7));
    var second := new Cloudnode.Isolated(ModuleBuild, Some("b"), seven, defaults);
    var browser := new Cloudnode.Isolated(BrowserBuild, None, one, defaults);
    firstRetries := first.options.maxRetries.value;
    secondRetries := second.options.maxRetries.value;
    browserRetries := browser.options.maxRetries.value;
    defaultRetries := defaults.maxRetries.value;
  }
}
