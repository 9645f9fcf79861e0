# cloudnode-ts client and generator, modelled in Dafny

This project models the core of the Cloudnode API client library for TypeScript and JavaScript, and of the generator that produces it.

The client part covers `class Cloudnode` in its two builds: the module build (`src/Cloudnode.js`) and the browser build (`browser/Cloudnode.js`).
- The constructor, and how it merges options with the static `#defaultOptions` object.
- `#sendRawRequest`: the URL, the headers and the body it builds, and how it classifies the fetched response. This takes in the 204 shortcut, the JSON date reviver, the `RawResponse` constructor and `makeApiResponse`.
- The auto-retry loop of `#sendRequest`.
- `#compareVersions`.
- `getPage`, `getNextPage`, `getPreviousPage` and `getAllPages`.
- Three operation descriptors as sample data.

The two builds share one model. A `Build` value stands for the difference in headers. The two constructors are separate Dafny constructors.

The generator part covers:
- the schema post-processing of `gen/util.ts`: return type, return description, throws list, extra error returns and model type prefixing;
- the flattening of `gen/source.ts` into the records the client template is rendered from;
- the doc tree of `gen/DocSchema.ts` and `gen/docs.ts`;
- the markdown skeleton `generateMarkdownDocs` writes.

## Modules and form

- **`ApiSchema`** (`schema.dfy`): the schema, operation descriptor and configuration shapes. Models are a sequence of `{name, description, fields}`, because that is how the code iterates them.
- **`Http`** (`http.dfy`): one raw request.
  - `BuildRequest` is a method with the source's loops; it is proved equal to the specification functions `RequestUrl` and `RequestInit`.
  - `Classify` is the response path.
- **`Client`** (`client.dfy`): the client logic.
  - `Options` is a class. Its fields may be absent, and the constructors and `#sendRequest` write them in place.
  - `Cloudnode` is a class whose `options` field is a reference. This keeps the aliasing of the static defaults visible.
  - The network, URL resolution, `JSON.parse`, `JSON.stringify` and `Number(...)` are the fields of an `Env` value.
  - `fetch` is an oracle indexed by the attempt number.
  - `SendRequest`, `GetPage`, `GetAllPages` and their loops are methods. Each is proved equal to a specification function (`Send`, `GetPageSpec`, `GetAllPagesSpec`), and the lemmas are about those functions.
- **`Json`** (`json.dfy`): JavaScript values and the reviver.
- **`DatePattern`** (`date_pattern.dfy`): the date test of the reviver.
- **`Versions`** (`versions.dfy`): `#compareVersions`.
- **`Descriptors`** (`descriptors.dfy`): `newsletter.list`, `projects.delete` and `auth.register`.
- **`GenUtil`**, **`GenSource`**, **`DocSchema`** and **`GenDocs`**: the generator.
  - `addExtraReturns`, `replaceModelTypes`, `flatOperations`, the namespace loop, `generateDocSchema` and `generateMarkdownDocs` are methods over a `SchemaObject` class or over sequences.
  - They are proved against functions; the lemmas are about those functions.
- **`Sorting`** (`sorting.dfy`): a stable sort by key under an abstract comparison. It stands for `Array.prototype.sort` with `localeCompare`.
- **`Strings`**, **`Seqs`** and **`Wrappers`**: generic helpers.

### Pagination bound

The doc comment of `getAllPages` promises "all of the data in 1 page". The code uses the bound `page * limit > total` in `getPage`. Under that bound a partial last page is out of range, so `getAllPages` leaves it out.

The model follows the code: the `Cloudnode` methods use the bound as written. The specification functions take a `Bound` argument (`AsWritten` or `Intended`), so the lemmas can state both behaviours with one definition. The first row of the findings table below is this case.

### Date pattern

The date pattern of the reviver (`src/Cloudnode.js:95`) accepts only part of the date-time syntax of section 5.6 of RFC 3339:
- it accepts a `+hh:mm` offset or a run of letters as the zone;
- it rejects `-hh:mm` offsets and a lower-case `t`.

`DatePattern.RejectsMinusOffset` and `DatePattern.RejectsLowerCaseSeparator` state this. These strings stay strings.

## Model

| member | source | states |
|---|---|---|
| `Client.Options.constructor` | src/Cloudnode.js:25-30 | An options object holds exactly the four given fields, each possibly absent. |
| `Client.Options.Defaults` | src/Cloudnode.js:25-30 | The static defaults: base URL `https://api.cloudnode.pro/v5/`, `autoRetry` true, `maxRetryDelay` 5, `maxRetries` 3. The browser copy is at browser/Cloudnode.js:26-31. |
| `Client.Cloudnode.Module` | src/Cloudnode.js:44-52 | The module constructor writes each given option, or else the old default, into the static defaults object itself. The client keeps that same object, with the given token. |
| `Client.Cloudnode.Browser` | browser/Cloudnode.js:37-45 | The browser constructor's fallbacks read the defaults object itself. The defaults keep every value, whatever options are passed, and the client keeps the defaults object. |
| `Client.Cloudnode.Isolated` | src/Cloudnode.js:44-52 | The corrected constructor. Each given option wins over its default, in a fresh object of the client's own. |
| `Client.ModuleClientsShareOptions` | src/Cloudnode.js:45-51 | After a second module client is built with `maxRetries` 7, the first client, built with 1, reads 7. |
| `Client.BrowserIgnoresOptions` | browser/Cloudnode.js:39-42 | A browser client asked for `maxRetries` 1 has 3. |
| `Client.IsolatedClientsKeepOptions` | src/Cloudnode.js:44-52 | With the corrected constructor, two clients keep 1 and 7, a browser client keeps 1, and the defaults keep 3. |
| `Client.Cloudnode.FillOptions` | src/Cloudnode.js:123-127 | Absent call options are filled in place from the client's options, and the object that results is complete with the effective settings. No call options means the client's own object. The client's settings do not change. The browser copy is at browser/Cloudnode.js:115-119. |
| `Client.Cloudnode.SendRawRequest` | src/Cloudnode.js:62-107 | One raw request settles as the fetch oracle's response for that attempt, classified; a rejected fetch is a network error. The browser copy is at browser/Cloudnode.js:55-99. |
| `Client.Cloudnode.SendRequest` | src/Cloudnode.js:117-141 | The retry loop, with call options filled after a failure, settles exactly as `Send` over the attempt oracle and the effective settings. The client's options stay as they were. The browser copy is at browser/Cloudnode.js:109-133. |
| `Client.FirstPresent` | src/Cloudnode.js:130 | The `??` chain gives the value of the first listed header that is present, and nothing exactly when none is. |
| `Client.DelayHeader` | src/Cloudnode.js:130 | The header the retry delay is read from: the rate-limit headers for status 429, and the retry headers otherwise. `RateLimitPriority` and `RetryAfterPriority` state it. |
| `Client.Decide` | src/Cloudnode.js:128-135 | For one rejection: retry after the header's delay when autoRetry is on, retries are left, the error is an envelope and the delay is a number no greater than `maxRetryDelay`; otherwise reject. |
| `Client.Send` | src/Cloudnode.js:117-141 | The retry loop over the attempt oracle: from attempt `i`, the outcome, the number of requests and the delays waited. `SendShape`, `SendRetried`, `RetryHappens` and `RetriesUntilExhausted` state it. |
| `Client.RateLimitPriority` | src/Cloudnode.js:130 | For status 429, `x-ratelimit-reset` wins when present. |
| `Client.RetryAfterPriority` | src/Cloudnode.js:130 | For any other status, `x-retry-after` wins. With neither `x-retry-after` nor `retry-after` there is no delay (NaN), even if rate-limit headers are present. |
| `Client.SendShape` | src/Cloudnode.js:119-139 | A call makes at least one and at most `maxRetries + 1` raw requests. It settles with the untouched outcome of the last one, after one delay per earlier request. Without `autoRetry` it makes exactly one. |
| `Client.SendRetried` | src/Cloudnode.js:128-133 | Every raw request before the last was rejected with an envelope. The delay waited after it is the number read from its delay header, and it is no greater than `maxRetryDelay`. |
| `Client.RetryHappens` | src/Cloudnode.js:128-135 | With `autoRetry` on and retries left, an envelope whose delay header reads a number no greater than `maxRetryDelay` is retried: one more request is made after exactly that delay, and the call settles as from that request on. |
| `Client.RetriesUntilExhausted` | src/Cloudnode.js:119-139 | When every attempt before the last allowed one fails retryably, exactly `maxRetries + 1` requests are made and the call settles with the last one. |
| `Client.SendSettlesEarly` | src/Cloudnode.js:121-136 | A resolved attempt settles the call at once. So does a rejection that is not an envelope, which is passed on untouched. |
| `Client.DelayRejects` | src/Cloudnode.js:131-132 | A NaN delay, or one above `maxRetryDelay`, rejects with that attempt's own envelope and makes no further request. |
| `Client.ReplaceValue` | src/Cloudnode.js:182 | Writing an existing key changes only the entries under that key, in place. |
| `Client.SetEntryLookup` | src/Cloudnode.js:181-182 | The query copy reads the new `page` under `page`, and every other key as in the original. |
| `Client.ReplaceLookup` | src/Cloudnode.js:182 | Overwriting an existing key: the key reads the new value and the other keys are unchanged. |
| `Client.ReplaceAbsent` | src/Cloudnode.js:182 | Rewriting a key that is absent leaves the entries as they were. |
| `Client.AppendLookup` | src/Cloudnode.js:182 | A new key goes last, and every other key reads as before. |
| `Client.PageRequest` | src/Cloudnode.js:183 | The re-sent request keeps the operation, path parameters and body of the original. |
| `Client.GetPageRequest` | src/Cloudnode.js:178-184 | `getPage` gives `null` exactly when `page * limit > total` or `page < 1`. Otherwise its query reads `page` as the new number and every other key as the original did. The browser copy is at browser/Cloudnode.js:141-147. |
| `Client.Cloudnode.GetPage` | src/Cloudnode.js:178-184 | The method settles as the specification: `null` out of bounds, else the original request re-sent with the copied query and the client's own options. |
| `Client.Cloudnode.GetNextPage` | src/Cloudnode.js:191-193 | It is `getPage` at `page + 1`. The browser copy is at browser/Cloudnode.js:154-156. |
| `Client.Cloudnode.GetPreviousPage` | src/Cloudnode.js:200-202 | It is `getPage` at `page - 1`. The browser copy is at browser/Cloudnode.js:163-165. |
| `Client.PreviousOfValidPage` | src/Cloudnode.js:200-202 | From an in-range page, the previous page is `null` exactly on the first page. |
| `Client.CeilDivBounds` | src/Cloudnode.js:211 | `Math.ceil(total / limit)` is the least number of pages of `limit` items that covers `total`. |
| `Client.CeilDivExact` | src/Cloudnode.js:211 | The ceiling times `limit` is `total` exactly when `limit` divides `total`. |
| `Client.LastPartialPageDropped` | src/Cloudnode.js:179 | Among pages 1 to `ceil(total / limit)`, the bound as written rejects exactly the last page when it is partial. The intended bound rejects none. |
| `Client.IntendedBoundMatchesPageCount` | src/Cloudnode.js:179 | Under the intended bound, a page is in range exactly when it is one of the `ceil(total / limit)` pages. |
| `Client.Slots` | src/Cloudnode.js:211-213 | There is one slot per page, `ceil(total / limit)` in all: the held page at its own index, and the outcome of `getPage(k + 1)` for the others. |
| `Client.FirstRejection` | src/Cloudnode.js:214 | The `Promise.all` result has no rejection exactly when no page rejected. |
| `Client.FirstRejectionAt` | src/Cloudnode.js:214 | The rejection reported is that of the first rejected page, in page order. |
| `Client.FirstRejectionSkipsHeld` | src/Cloudnode.js:213-215 | Leaving the held page out of the awaited list, then splicing it back, does not change which rejection is reported. |
| `Client.GetAllPagesSpec` | src/Cloudnode.js:217-222 | A merged result always has `page` 1 and the original `total` and `limit`. |
| `Client.OtherPages` | src/Cloudnode.js:212-214 | The slots other than the held one, in order. A held index outside the slots marks none, so every slot is then requested. |
| `Client.SpliceStart` | src/Cloudnode.js:215 | Where `splice(held, 0, response)` inserts: a negative start counts from the end, and a start past the end is the end. |
| `Client.MergedPages` | src/Cloudnode.js:212-216 | The awaited pages with the held page spliced back in. `HeldAtOwnIndex` and `HeldPastLast` state the result. |
| `Client.CollectItemsSplit` | src/Cloudnode.js:216-218 | `flat()` over the pages splits at any index into the items before it and the items from it on. |
| `Client.HeldInPlace` | src/Cloudnode.js:215-218 | From the held slot: the items of the pages before it, then the held response's own items, then the items of the pages after it. |
| `Client.AllPagesOrder` | src/Cloudnode.js:210-223 | For any held page, the merged items are the items of the awaited pages before the splice point, then the held response's items, then the items of the rest. The browser copy is at browser/Cloudnode.js:173-186. |
| `Client.HeldAtOwnIndex` | src/Cloudnode.js:212-215 | A held page in range is spliced back at its own index, so the merged pages are the slots in page order. |
| `Client.HeldPastLast` | src/Cloudnode.js:212-215 | A held page past the last slot marks none; every page is requested, and the held page goes last. |
| `Client.EmptyListing` | src/Cloudnode.js:211-222 | With `total` 0 no page is requested, and the result is the held response's own items. |
| `Client.PartialLastPageMissing` | src/Cloudnode.js:179 | As written, the only `null` slot is the last page, exactly when it is partial and not the held page. Under the intended bound no slot is `null`. |
| `Client.TwentyFiveItemsLoseFive` | src/Cloudnode.js:210-216 | For 25 items, 10 per page and page 1 held, there are three slots and the third is `null` as written. Under the intended bound it is fetched. |
| `Client.Cloudnode.GetAllPages` | src/Cloudnode.js:210-223 | The method, with its marks array, request loop, splice and collection, settles as `GetAllPagesSpec` with the bound as written, for every held page number. A negative page count is a RangeError. |
| `Client.Cloudnode.RequestOtherPages` | src/Cloudnode.js:212-214 | The mapped and filtered promises are the slots with the held one taken out, in order. A held index outside the slots takes nothing out. |
| `Client.AwaitAll` | src/Cloudnode.js:214 | Awaiting the pages gives the first rejection in page order, or none. |
| `Client.CollectPages` | src/Cloudnode.js:216-218 | Filtering out `null`, mapping to `items` and flattening gives `CollectItems`. Reading `items` of an `undefined` (204) page is a TypeError. |
| `Http.RelativePath` | src/Cloudnode.js:63 | The path has no leading slash, and the original is that path behind a run of slashes. |
| `Http.Placeholder` | src/Cloudnode.js:65 | The placeholder is `/:` followed by the key. |
| `Strings.ExpandPlain` | src/Cloudnode.js:65 | A replacement string without `$` is inserted as it is. |
| `Strings.ExpandPatterns` | src/Cloudnode.js:65 | `replaceAll` with a string replacement turns `$$` into `$`, `$&` into the match, `` $` `` into the text before it and `$'` into the text after it, and keeps `$1` as it is, since a string pattern has no groups. |
| `Strings.Expand` | src/Cloudnode.js:65 | The replacement string of `replaceAll` expanded for one match, as section 22.1.3.19.1 (GetSubstitution) of ECMA-262 says for a pattern without captures. `ExpandPlain` and `ExpandPatterns` state it. |
| `Strings.ReplaceAll` | src/Cloudnode.js:65 | `replaceAll` with a string pattern: every leftmost non-overlapping match, scanned on the original string, is replaced by the expanded replacement. `ReplaceAllFirst` and `ReplaceAllAbsent` state it. |
| `Http.PlaceholderReplaced` | src/Cloudnode.js:64-65 | A placeholder that occurs once is replaced by `/value` expanded as a string replacement against the path before and after it, with the rest of the path kept. A value without `$` goes in as it is. |
| `Http.SubstitutePath` | src/Cloudnode.js:64-65 | The path string after `replaceAll("/:" + key, "/" + value)` for each path parameter in turn. `PlaceholderReplaced` and `SinglePlaceholder` state its result. |
| `Http.RequestUrl` | src/Cloudnode.js:63-67 | The path name is the resolved operation path with the path parameters substituted, and the query is the query parameters in order. `BuildRequest` is proved to produce it. |
| `Http.RequestInit` | src/Cloudnode.js:68-86 | The fetch options: the verb, the body and Content-Type when a body is sent, User-Agent in the module build, Authorization with a token, and credentials. `BodyEncoding`, `AuthorizationRule` and `HeaderNames` state its cases. |
| `Http.SinglePlaceholder` | src/Cloudnode.js:64-65 | When neither the prefix nor the key holds a `:`, the placeholder is found only where it is written, and is replaced there by the expanded `/value`; a value without `$` goes in as it is. |
| `Http.BuildRequest` | src/Cloudnode.js:63-86 | The URL loops and header writes produce exactly `RequestUrl` and `RequestInit`. The browser copy is at browser/Cloudnode.js:56-78. |
| `Http.BodyEncoding` | src/Cloudnode.js:72-81 | A body is sent exactly when it is truthy and the method is neither GET nor HEAD. A string goes verbatim as `text/plain`; anything else goes as `JSON.stringify` output with `application/json`. Content-Type is set exactly when a body is sent. |
| `Http.AuthorizationRule` | src/Cloudnode.js:83-86 | `Authorization: Bearer <token>` is set exactly when the token is truthy and the operation declares a token field, `null` included. Credentials are included exactly when the field is declared. |
| `Http.HeaderNames` | browser/Cloudnode.js:61-78 | The module build always sends `User-Agent: cloudnode/2.0.0`. The browser build sets no header other than Content-Type and Authorization. |
| `Http.LowerCaseHeadersKeys` | src/Cloudnode.js:683 | Every header name of a raw response is lower case. Every fetched header is found under its lower-cased name, and every name comes from some fetched header. The browser copy is at browser/Cloudnode.js:393. |
| `Http.LowerCaseHeaders` | src/Cloudnode.js:683 | `Object.fromEntries` of the lower-cased header entries, where a later entry overwrites an earlier one. `LowerCaseHeadersKeys` states its keys. |
| `Http.AssignValues` | src/Cloudnode.js:716 | `Object.assign` leaves each key with the value of its last occurrence. |
| `Http.AssignKeys` | src/Cloudnode.js:716 | After `Object.assign`, the keys are exactly the copied ones. |
| `Http.MakeApiResponse` | src/Cloudnode.js:715-717 | An envelope is made exactly when the data has no own `_response` property, which would hit the getter-only accessor. It holds the copied properties, and `_response` is exactly the raw response given. The browser copy is at browser/Cloudnode.js:425-427. |
| `Http.MakeApiResponseFields` | browser/Cloudnode.js:412-427 | The envelope holds every own property of the data, with its last value, and nothing else. |
| `Http.ClassifyOutcome` | src/Cloudnode.js:88-106 | A 204 resolves with `undefined`. Otherwise an ok response resolves with the envelope, and any other response rejects with that same envelope, which carries the raw response and the request. A JSON body that does not parse is the SyntaxError. A parsed body holding, at any depth, an object with an own `toString` key is the reviver's TypeError, and data with an own `_response` property is the envelope's TypeError. |
| `Http.IsJsonResponse` | src/Cloudnode.js:92 | The response's Content-Type header starts with `application/json`. |
| `Http.ResponseData` | src/Cloudnode.js:90-101 | The data of a response: the JSON text parsed and revived, `None` when `JSON.parse` throws (the text does not parse, or the reviver throws on an object with an own `toString` key), or the text itself. `ResponseDataShape` states it. |
| `Http.Classify` | src/Cloudnode.js:88-106 | How a fetched response settles: `undefined` for a 204, a SyntaxError or a TypeError, or the envelope, resolved when ok and rejected otherwise. `ClassifyOutcome` states each case. |
| `Http.ResponseDataShape` | src/Cloudnode.js:92-101 | JSON data exists exactly when the reviver does not throw on the parsed value, and then it is the parsed value with exactly its date-shaped strings turned into dates. Other data is the text. |
| `Http.ParseFailure` | src/Cloudnode.js:93-98 | What `JSON.parse` throws: a SyntaxError when the text does not parse, else the reviver's TypeError. `ClassifyOutcome` states both cases. |
| `Http.ToStringKeyRejects` | src/Cloudnode.js:93-98 | A JSON body `{"toString":"x"}` is rejected with the reviver's TypeError, for any status other than 204. |
| `Json.ReviveExact` | src/Cloudnode.js:93-98 | The reviver turns exactly the date-shaped strings into dates: the result reads back as the parsed value, and no date-shaped string is left. |
| `Json.ReviverThrows` | src/Cloudnode.js:95 | The reviver's `test(value)` throws exactly when the value holds, at any depth, an object with an own `toString` key. It has no ensures; `ClassifyOutcome` and `ResponseDataShape` state its effect. |
| `Json.Revive` | src/Cloudnode.js:93-98 | The reviver applied to every value of a parse it does not abort: a date-shaped string becomes a date, and arrays and objects are revived element by element. `ReviveExact` and `ReviveUnique` state it. |
| `Json.ReviveUnique` | src/Cloudnode.js:93-98 | Any value whose dates are date-shaped, and whose strings are not, is the revived form of its read-back. |
| `Json.OwnProperties` | src/Cloudnode.js:716 | `Object.assign` copies an object's entries, or an array's or string's indexed elements, and nothing from other values. |
| `DatePattern.DigitRunEnd` | src/Cloudnode.js:95 | The digit run starting at `i` ends at the first non-digit. |
| `DatePattern.DigitRunEndUnique` | src/Cloudnode.js:95 | Any end of a digit run is that first non-digit. |
| `DatePattern.FractionEnd` | src/Cloudnode.js:95 | The fraction ends between the seconds and the end of the text. |
| `DatePattern.IsDateTextMeansSyntax` | src/Cloudnode.js:95 | The left-to-right test accepts exactly the strings the regular expression denotes. |
| `DatePattern.IsDateText` | src/Cloudnode.js:95 | The date test, read left to right: the date and time prefix, an optional fraction, then the zone. |
| `DatePattern.FractionSplitUnique` | src/Cloudnode.js:95 | The greedy fraction is the only split of fraction and zone that matches. |
| `DatePattern.AcceptsZones` | src/Cloudnode.js:95 | A date-time with no zone, a letter zone or a `+hh:mm` offset is accepted. |
| `DatePattern.AcceptsFraction` | src/Cloudnode.js:95 | A fraction of one or more digits before the zone is accepted. |
| `DatePattern.RejectsMinusOffset` | src/Cloudnode.js:95 | `2024-01-15T10:30:00-05:00` is not turned into a date. |
| `DatePattern.RejectsLowerCaseSeparator` | src/Cloudnode.js:95 | A lower-case `t` separator is not accepted. |
| `DatePattern.RejectsEmptyFraction` | src/Cloudnode.js:95 | A `.` with no digits after it is not accepted. |
| `Versions.PartOrZero` | src/Cloudnode.js:150-151 | A missing or empty part reads as "0"; a present one is kept. |
| `Versions.CompareVersions` | src/Cloudnode.js:147-157 | The result is "incompatible" exactly when the majors differ, and "outdated" exactly when the majors agree and the minors differ. It is "compatible" exactly when both agree. |
| `Versions.CompareReflexive` | src/Cloudnode.js:147-157 | Every version is compatible with itself. |
| `Versions.CompareSymmetric` | src/Cloudnode.js:147-157 | Swapping the arguments gives the same result. |
| `Versions.CompatibleTransitive` | src/Cloudnode.js:147-157 | Compatibility is transitive. |
| `Versions.MajorMinorOfDotted` | src/Cloudnode.js:148-151 | `major.minor[.rest]` splits into its major and minor parts. |
| `Versions.MajorMinor` | src/Cloudnode.js:148-151 | The first two dotted parts of a version, each "0" when missing or empty. `MajorMinorOfDotted` and `PartOrZero` state it. |
| `Versions.PatchIgnored` | src/Cloudnode.js:147-157 | Versions that differ only after the minor part, or lack that part, are compatible. |
| `Versions.MissingMinorIsZero` | src/Cloudnode.js:150-151 | A version without a minor part is compatible with the same major with minor `0`. |
| `Versions.LeadingZeroMatters` | src/Cloudnode.js:152-153 | Parts compare as strings: "05.1" and "5.1" are incompatible. |
| `Versions.NewerMinorIsOutdated` | src/Cloudnode.js:34 | Against the client's API version 5.12.0, server 5.13.2 is outdated. |
| `Descriptors.NewsletterListRequest` | src/Cloudnode.js:234-236 | `newsletter.list` sends its two numbers as the query. It is a GET with no body, no Content-Type, no credentials and no Authorization. |
| `Descriptors.ProjectsDeleteRequest` | src/Cloudnode.js:643-645 | The path string that `replaceAll` gives for `projects.delete(id)` is `/projects` followed by `/id` expanded as a string replacement. For an id without `$`, it is `/projects/<id>`. This is the path before the URL's pathname setter normalises it, so an id that holds `.` or `..` segments or a backslash is not covered. It is a DELETE, sends the empty object as a JSON body, includes credentials, and sends Authorization exactly when the client has a token. |
| `Descriptors.ProjectPath` | src/Cloudnode.js:644 | The `:id` placeholder of `/projects/:id` becomes `/` and the id, expanded as a string replacement; an id without `$` goes in as it is. |
| `Descriptors.DollarAmpersandId` | src/Cloudnode.js:644 | `projects.delete("$&")` asks for `/projects//:id`, because `$&` stands for the matched placeholder. |
| `Descriptors.RegisterAuthorization` | browser/Cloudnode.js:353-355 | `auth.register` sends its fields as JSON in both builds. The module build declares `token: null`, so it sends the token whenever there is one. The browser build declares no token field, so it sends neither Authorization, credentials nor User-Agent. |
| `GenUtil.SuccessReturns` | gen/util.ts:12 | The filter keeps only 2xx returns. |
| `GenUtil.FailureReturns` | gen/util.ts:34 | The filter keeps only non-2xx returns. |
| `GenUtil.FiltersDistribute` | gen/util.ts:12 | Both filters keep declared order: filtering a concatenation filters each part. |
| `GenUtil.ReturnsPartition` | gen/util.ts:33-35 | The return-type responses and the throws responses together are exactly the declared responses, as a multiset. |
| `GenUtil.ReturnTypeNames` | gen/util.ts:12 | One type name per 2xx return, in order. |
| `GenUtil.ReturnTypeNameCases` | gen/util.ts:11-13 | A type ending in `[]` is wrapped in `<name>.PaginatedData<...>`. A model type gets the `<name>.` prefix, and any other type is kept. |
| `GenUtil.ReturnTypeName` | gen/util.ts:12 | The type name of one return: a list of a model becomes a qualified paginated type, a model is qualified, and anything else is kept. |
| `GenUtil.GetReturnType` | gen/util.ts:11-13 | `getReturnType`: the type names of the 2xx returns joined by a vertical bar with a space on each side. `SingleReturnType` and `NoSuccess` state its cases. |
| `GenUtil.SingleReturnType` | gen/util.ts:11-13 | With exactly one 2xx return, the return type is that return's own type name, whatever the failures are. |
| `GenUtil.NoSuccess` | gen/util.ts:12 | Without 2xx returns the return type has no parts. |
| `GenUtil.Descriptions` | gen/util.ts:22-24 | Only non-empty descriptions are joined. |
| `GenUtil.GetReturnDescription` | gen/util.ts:22-24 | `getReturnDescription`: the non-empty 2xx descriptions joined by spaces. |
| `GenUtil.DescriptionsIgnoreFailures` | gen/util.ts:23 | A failure, or a return without a description, adds nothing to the description at either end. |
| `GenUtil.ThrowTypeNames` | gen/util.ts:34 | One type per thrown return, in order. |
| `GenUtil.GetThrows` | gen/util.ts:33-35 | The throws list has exactly one entry per non-2xx return, in order. |
| `GenUtil.ThrowTypeOfIntersection` | gen/util.ts:34 | A type is prefixed exactly when its first space-separated word is a model name. |
| `GenUtil.ThrowTypeName` | gen/util.ts:34 | The type of one thrown return, qualified when its first space-separated word is a model name. |
| `GenUtil.ExtraReturns` | gen/util.ts:58-76 | Five extra returns when a token is declared, three otherwise. |
| `GenUtil.AddExtraReturnsToOperation` | gen/util.ts:58-78 | The declared returns stay an unchanged prefix: 401 and 403 are added only with a token, then 429, 500 and 503 always. Nothing else about the operation changes. |
| `GenUtil.ExtraReturnsKeepReturnType` | gen/util.ts:58-78 | The extra returns are all failures. They leave the return type and description as they were, and they extend the throws list at its end. |
| `GenUtil.ExtraFailures` | gen/util.ts:59-76 | A list of failures is its own failure filter. |
| `GenUtil.DescriptionsNoSuccess` | gen/util.ts:22-24 | Appending failures leaves the description as it was. |
| `GenUtil.ExtendEntry` | gen/util.ts:45-48 | An entry stays an operation or a namespace, and a namespace keeps its keys. |
| `GenUtil.ExtendNamed` | gen/util.ts:46-47 | Every operation of a namespace gets the extra returns, under its own key and in order. |
| `GenUtil.SchemaObject.constructor` | gen/util.ts:43 | The schema object holds the given models and operations. |
| `GenUtil.AddExtraReturns` | gen/util.ts:43-51 | Changes the schema object in place and returns that same object. Every top-level operation, and every operation one level inside a namespace, gets the extra returns. Keys, order and models are untouched. |
| `GenUtil.PrefixFields` | gen/util.ts:89-93 | One field out per field in, in order, each prefixed or not on its own. |
| `GenUtil.ReplacedModels` | gen/util.ts:86-96 | The number of models, and of each model's fields, is kept. Only field types change. |
| `GenUtil.PrefixFieldExactly` | gen/util.ts:91-92 | A field's type becomes `<name>.<type>` exactly when it equals some model's name. Its name and description never change. |
| `GenUtil.ReplaceModelTypesIdempotent` | gen/util.ts:86-96 | When no model name contains a dot, prefixing twice is the same as prefixing once. |
| `GenUtil.ReplaceModelTypes` | gen/util.ts:86-96 | The nested loops overwrite the schema's models in place with `ReplacedModels` and leave the operations alone. |
| `GenUtil.PrefixModelFields` | gen/util.ts:89-93 | The inner loop overwrites exactly the fields of one model whose type names a model, with the prefixed type, and changes no other model. |
| `GenSource.ToFlatParamShape` | gen/source.ts:48-51 | The declaration is `name?: type` when optional without a default, `name: type` when required, and `name: type = default` with a default. |
| `GenSource.ToFlatParam` | gen/source.ts:48-51 | `toFlatParam`: the parameter with its TypeScript declaration. `ToFlatParamShape` states the declaration's form. |
| `GenSource.ToFlatParamOptionalMark` | gen/source.ts:49 | The `?:` mark appears exactly when the parameter is neither required nor defaulted. |
| `GenSource.FlatParams` | gen/source.ts:54-56 | One flat parameter per entry, in entry order. |
| `GenSource.TsStrings` | gen/source.ts:60 | The declarations, in order. |
| `GenSource.Names` | gen/source.ts:65 | The parameter names, in order. |
| `GenSource.TemplateMembers` | gen/source.ts:63-64 | One ``name: `${name}` `` member per parameter, in order. |
| `GenSource.FlattenOperationParameters` | gen/source.ts:53-82 | `allParams` is path, then query, then body parameters, each in entry order, and `tsArgs` is their declarations joined by ", ". The name, method, path and description are copied. |
| `GenSource.FlattenOperation` | gen/source.ts:46-82 | The flat record of one operation: its return type, return description, parameter lists, argument string, parameter literals and throws. `FlattenOperationParameters` states them. |
| `GenSource.FlattenNoParameters` | gen/source.ts:59-66 | Without parameters, `tsArgs` is empty and the three object literals are `{}`. |
| `GenSource.FlattenOnePathParameter` | gen/source.ts:63 | One path parameter `id` gives ``{id: `${id}`}``. |
| `GenSource.FlatOperations` | gen/source.ts:43-85 | One flat record per input entry, in input order. |
| `GenSource.NamespaceEntries` | gen/source.ts:89 | The namespace list is no longer than the entries. |
| `GenSource.TopLevelOperations` | gen/source.ts:94 | The top-level list is no longer than the entries. |
| `GenSource.EntriesPartition` | gen/source.ts:88-94 | Every top-level entry lands in exactly one of the namespace list and the top-level list. |
| `GenSource.NamespaceEntriesAppend` | gen/source.ts:89 | The filter keeps entry order. |
| `GenSource.GenerateSource` | gen/source.ts:37-94 | Model types are prefixed in place first. Then namespaces and top-level operations are flattened apart, and together they account for every entry. |
| `GenSource.CollectNamespaces` | gen/source.ts:88-91 | One flat namespace per namespace entry, in order, each with its operations flattened. |
| `GenSource.FlattenNamespaces` | gen/source.ts:90 | One flat namespace per entry, keeping the name. |
| `GenSource.FlattenAll` | gen/source.ts:44-84 | One flat record per operation, in order. |
| `GenSource.FlattenNamespacesAppend` | gen/source.ts:88-91 | Pushing a namespace appends its flat form. |
| `DocSchema.TypeNameFor` | gen/DocSchema.ts:16-21 | Static entries are "Static method" when the type lower-cases to "function", else "Static property". Otherwise the name is the type itself when always shown, and absent when not. |
| `DocSchema.Entry.DisplayName` | gen/DocSchema.ts:23-25 | `displayName`: the type name (when non-empty), a colon and the name in backticks, or just the name in backticks. |
| `DocSchema.Entry.AnchorName` | gen/DocSchema.ts:27-29 | `anchorName`: the slug of the display name. `SlugShape` states its form. |
| `DocSchema.NewMethodShape` | gen/DocSchema.ts:80-88 | A method's type is "Function", and its name is the given name, then `(`, the parameter string and `)`. Its display name is "Static method: ..." when static and plain backticks otherwise. |
| `DocSchema.NewMethod` | gen/DocSchema.ts:80-88 | The `Method` constructor: the type "Function", the name with its parameter list, and the method's parameters, returns and throws. `NewMethodShape` states it. |
| `DocSchema.FunctionLowered` | gen/DocSchema.ts:20 | "Function" lower-cases to "function". |
| `DocSchema.ParamLabels` | gen/DocSchema.ts:91 | One label per parameter, in order. |
| `DocSchema.ParamsString` | gen/DocSchema.ts:90-92 | `paramsString`: the parameter labels joined by `, `. |
| `DocSchema.ParamLabelBracketed` | gen/DocSchema.ts:90-92 | A label is `[name]` exactly when the parameter is optional or defaulted, and the bare name otherwise. |
| `DocSchema.NewGroup` | gen/DocSchema.ts:103-107 | A group's type name is always its kind. Its display name is `Kind: `name``, and it holds the given properties. |
| `DocSchema.PropertyLines` | gen/DocSchema.ts:110 | One line per property, in order: line `i` is the link line of property `i`. |
| `DocSchema.PropertiesList` | gen/DocSchema.ts:109-111 | `propertiesList(indent)`: the property lines joined by newlines. |
| `DocSchema.PropertyLineShape` | gen/DocSchema.ts:109-111 | Each line is `indent` spaces, then `- [`, ending with the anchor and `)`. |
| `DocSchema.KeepAllowed` | gen/DocSchema.ts:28 | Removing characters never makes the text longer. |
| `DocSchema.KeepAllowedKept` | gen/DocSchema.ts:28 | Only a-z, digits and whitespace survive the first replacement. |
| `DocSchema.DropWhitespace` | gen/DocSchema.ts:28 | The rest after a whitespace run is a suffix that starts with a non-space. |
| `DocSchema.DashRunsShape` | gen/DocSchema.ts:28 | Each whitespace run becomes one dash, so the result has only slug characters and never two dashes in a row. |
| `DocSchema.SlugShape` | gen/DocSchema.ts:27-29 | Every anchor consists of a-z, digits and `-`, with no two dashes in a row. |
| `DocSchema.Slug` | gen/DocSchema.ts:28 | The anchor of a text: lower-cased, reduced to a-z, digits and whitespace, then each whitespace run replaced by one dash. |
| `DocSchema.SlugOfPlainWord` | gen/DocSchema.ts:27-29 | A text of lower-case letters and digits is its own anchor. |
| `DocSchema.PlainWordFixed` | gen/DocSchema.ts:28 | Each step of the anchor leaves such a text unchanged. |
| `GenDocs.GlobalGroups` | gen/docs.ts:14-38 | There are four global groups. |
| `GenDocs.FieldProperties` | gen/docs.ts:52 | One property per model field, with the field's name, type and description. |
| `GenDocs.ModelGroups` | gen/docs.ts:51-52 | One interface per model, in model order. |
| `GenDocs.EntryOperations` | gen/docs.ts:58-62 | A top-level operation keeps its key. A namespace's operations come out as `ns.sub`, in order. |
| `GenDocs.Qualified` | gen/docs.ts:61-62 | Each sub-operation is named `ns.sub`. |
| `GenDocs.AllOperationsCount` | gen/docs.ts:57-63 | One operation per top-level operation, and one per namespaced operation. |
| `GenDocs.AllOperationsOfEntries` | gen/docs.ts:57-63 | Each entry's operations sit exactly where the entry stands. |
| `GenDocs.AllOperationsAppend` | gen/docs.ts:58 | Flattening a concatenation flattens each part. |
| `GenDocs.DocParameters` | gen/docs.ts:68-70 | One doc parameter per schema parameter, in order. |
| `GenDocs.ThrowDocs` | gen/docs.ts:67 | One throws line per thrown type. |
| `GenDocs.OperationMethodShape` | gen/docs.ts:65-73 | The parameters are path, then query, then body. The name is `instanceName.name(params)`, with one throws line per non-2xx return. |
| `GenDocs.OperationMethods` | gen/docs.ts:65-73 | One method per operation, in order. |
| `GenDocs.FixedMethods` | gen/docs.ts:76-109 | There are six fixed methods. |
| `GenDocs.FixedMethodNames` | gen/docs.ts:76-109 | The fixed methods, in order: `new Name([token], [options])`, then `getPage<T>(response, page)`, `getNextPage<T>(response)`, `getPreviousPage<T>(response)`, `getAllPages<T>(response)` and `checkCompatibility()`. |
| `GenDocs.ConstructorName` | gen/docs.ts:77-80 | The constructor is documented as `new Name([token], [options])`. |
| `GenDocs.GetPageName` | gen/docs.ts:81-87 | `getPage` is documented as `instance.getPage<T>(response, page)`. |
| `GenDocs.GetNextPageName` | gen/docs.ts:88-93 | `getNextPage` is documented as `instance.getNextPage<T>(response)`. |
| `GenDocs.GetPreviousPageName` | gen/docs.ts:94-99 | `getPreviousPage` is documented as `instance.getPreviousPage<T>(response)`. |
| `GenDocs.GetAllPagesName` | gen/docs.ts:100-105 | `getAllPages` is documented as `instance.getAllPages<T>(response)`. |
| `GenDocs.CheckCompatibilityName` | gen/docs.ts:106-109 | `checkCompatibility` is documented as `instance.checkCompatibility()`. |
| `GenDocs.ResponseOnlyLabel` | gen/docs.ts:89 | A lone required `response` parameter reads `response`. |
| `GenDocs.GenerateDocSchema` | gen/docs.ts:46-116 | Model types are prefixed in place. The doc tree is exactly two groups: the main class, with the fixed methods then the sorted operation methods, and the main namespace, with the sorted model interfaces and global groups. |
| `GenDocs.BuildDocTree` | gen/docs.ts:48-115 | The pushes, the sorts and the `unshift` give those two groups. |
| `GenDocs.CollectModelGroups` | gen/docs.ts:51-52 | The model loop pushes one interface per model, in order. |
| `GenDocs.ModelGroupsAppend` | gen/docs.ts:52 | Pushing a model appends its interface. |
| `GenDocs.CollectOperations` | gen/docs.ts:57-63 | The operation loop collects exactly the flattened operations, one per operation. |
| `GenDocs.CollectEntry` | gen/docs.ts:59-62 | One entry contributes itself, or each sub-operation as `ns.sub`. |
| `GenDocs.QualifiedAppend` | gen/docs.ts:61-62 | Pushing a sub-operation appends its qualified form. |
| `GenDocs.AllOperationsStep` | gen/docs.ts:58-63 | One loop step appends that entry's operations. |
| `GenDocs.DocTreeShape` | gen/docs.ts:74-111 | The first six class entries are the fixed methods. The rest, one per operation, are a permutation of the operation methods. The main namespace is a permutation of the model interfaces and the four global groups. Under a total order both lists are sorted by display name. |
| `GenDocs.MainClass` | gen/docs.ts:49-110 | The main class: the six fixed methods, then the operation methods sorted by display name. |
| `GenDocs.MainNamespace` | gen/docs.ts:50-56 | The main namespace: the model interfaces and the four global groups, sorted by display name (line 111). |
| `GenDocs.SortedAfter` | gen/docs.ts:110 | `unshift` keeps the fixed methods in front, and the sorted rest is a permutation. |
| `Sorting.Insert` | gen/docs.ts:75 | Insertion adds exactly the one element. |
| `Sorting.SortBy` | gen/docs.ts:75 | The sort is a permutation of its input. |
| `Sorting.InsertSorted` | gen/docs.ts:75 | Inserting into a sorted list keeps it sorted. |
| `Sorting.SortBySorted` | gen/docs.ts:111 | Under a total order the result is sorted by display name. |
| `Sorting.TiedWith` | gen/docs.ts:75 | The entries whose key ties with a given key, in order. Every one of them does tie. |
| `Sorting.InsertTied` | gen/docs.ts:75 | Insertion puts the new element in front of every element it ties with. |
| `Sorting.SortByStable` | gen/docs.ts:111 | The sort is stable: the elements that tie with any key come out in their input order. |
| `GenDocs.TocPieces` | gen/docs.ts:200-204 | Three pieces per group. |
| `GenDocs.PropertyPieces` | gen/docs.ts:215-220 | Four pieces per property. |
| `GenDocs.TocPiecesAppend` | gen/docs.ts:200-204 | One more group adds a link line, a property list and a blank line. |
| `GenDocs.PropertyPiecesAppend` | gen/docs.ts:215-220 | One more property adds its anchor, its heading, its content and a blank line. |
| `GenDocs.GroupsPiecesAppend` | gen/docs.ts:210-222 | One more group adds its section. |
| `GenDocs.TocStep` | gen/docs.ts:201-203 | The pieces of one step of the table-of-contents loop, in the order the loop appends them. |
| `GenDocs.PropertyStep` | gen/docs.ts:216-219 | The pieces of one step of the property loop, in the order the loop appends them. |
| `GenDocs.GroupsStep` | gen/docs.ts:210-222 | The pieces of one step of the section loop. |
| `GenDocs.Append` | gen/docs.ts:197-221 | Each `+=` keeps the output equal to the concatenation of the pieces appended so far. |
| `GenDocs.GenerateMarkdownDocs` | gen/docs.ts:196-225 | The string loop produces exactly `Markdown`: the title, then the optional table of contents, then each group's section. |
| `GenDocs.Markdown` | gen/docs.ts:196-225 | The document: the concatenation of the pieces the generator appends, in order. `MarkdownStart`, `MarkdownHasTableOfContents` and `MarkdownHasSections` state what it contains. |
| `GenDocs.TableOfContents` | gen/docs.ts:199-204 | For each group: its link line, its property list indented by 3, then a blank line. |
| `GenDocs.AppendGroupSection` | gen/docs.ts:211-221 | A group's anchor, heading, description and blank line, then each property's pieces, then a blank line. |
| `GenDocs.MarkdownStart` | gen/docs.ts:197 | The document starts with `# Documentation`. Without a table of contents, the sections follow it directly. |
| `GenDocs.MarkdownHasTableOfContents` | gen/docs.ts:198-209 | With a table of contents, each group's link line and property list are in the document. |
| `GenDocs.TocPiecesMembers` | gen/docs.ts:200-203 | Every group contributes its link line and property list. |
| `GenDocs.PropertyPiecesMembers` | gen/docs.ts:215-219 | Every property contributes its anchor, heading and content. |
| `GenDocs.GroupsPiecesMembers` | gen/docs.ts:210-221 | Every group contributes its section's pieces. |
| `GenDocs.MarkdownHasSections` | gen/docs.ts:210-222 | Every group's anchor and `##` heading are in the document. So are the anchor, the `###` heading and the content of each of its properties. |

## Left out

- `fetch` and all network I/O: the response to each attempt is an oracle `Env.fetch`, and a rejected fetch is `NetworkError`.
- `checkCompatibility` (src/Cloudnode.js:162-170): it only fetches and calls `#compareVersions`, which is modelled. The browser build has no method of that name.
- URL resolution: the path name of `new URL(relative, base)` is the parameter `Env.resolve`. Percent-encoding of path and query values by the URL object is not modelled. The query is kept as the list of appended entries. `RawResponse.url` is kept as the response's URL text.
- `JSON.parse` and `JSON.stringify`: these are parameters. `new Date(text)` is a `Date` tag that keeps its text. The reviver's date test converts every value to a string. Only a string can match the date pattern. An object with an own `toString` key makes the conversion throw a TypeError (`Json.ReviverThrows`); every other value converts without throwing.
- `Number(...)` on a header value: this is a parameter to an optional real, with `None` for NaN. Floating-point rounding of the delay, and `setTimeout` timing, are not modelled; a delay is the number recorded before the next attempt.
- `Promise.all` concurrency in `getAllPages`: the pages are requested one after another. The first rejection is taken in page order, whereas the source reports whichever settles first.
- Header names that occur twice in a response: the last entry wins. The `Headers` object of the source would combine them.
- Key order of objects: property order is insertion order, so JavaScript's placing of integer-like keys first is not modelled.
- `Client.Cloudnode.GetAllPages`: requires `limit > 0`. With a zero or negative `limit` the source divides by zero or by a negative page size, which the model does not follow. Every held page number and every integer `total` is modelled.
- `Http.SubstitutePath`: the substituted path is not re-encoded, as noted for URL resolution above. The `$` patterns of the replacement are modelled.
- `Http.RequestUrl`, `Descriptors.ProjectsDeleteRequest`: the normalisation done by the URL's pathname setter is not modelled. The setter re-parses the path after each path parameter: it removes `.` and `..` segments, including their `%2e` forms, and turns `\` into `/`. The model's path name is the string that `replaceAll` gives. So for an id such as `..` or `../newsletter/x`, the source requests a different path (`/v5/` and `/v5/newsletter/x` under base `https://api.cloudnode.pro/v5/`) from the one the model states.
- `DocSchema.TypeNameFor`, `DocSchema.SlugShape`: `toLowerCase` is modelled on ASCII letters only (`Strings.ToLower`). The full Unicode case mapping of JavaScript is not modelled. For example, the Kelvin sign U+212A lower-cases to `k` in the source, so its anchor keeps a `k` where the model drops the character.
- `Json.OwnProperties`: a string's indexed properties are taken per Unicode scalar value. JavaScript indexes UTF-16 code units, so a character outside the Basic Multilingual Plane gives two properties in the source and one in the model.
- `Client.Cloudnode.SendRequest`: fills the call options' `baseUrl` like the source, but the URL is always built from the client's own base URL, as in the source. Percent-encoding is left out, as above.
- A `__proto__` key in response data: it is copied as an ordinary property.
- `linkType` (gen/docs.ts:124-187) and the `content`/`inlineContent` texts of the entries (gen/DocSchema.ts:44-50, 64-70, 94-96, 113-119): these are the parameter `content` of the markdown functions.
- `localeCompare`: this is an abstract comparison `before`. The sort is an insertion sort. Its result is proved a permutation and, under a total order, sorted by display name. It is also proved stable: entries whose display names tie keep their input order, which is what `Array.prototype.sort` must do since ES2019.
- The mutable doc entries of gen/DocSchema.ts are modelled as values. They are never written after construction, except through `push`, `sort` and `unshift` on the lists, which the model builds as sequences.
- Mustache rendering and file reads and writes (gen/source.ts:96-100), `generateReadme` and `child_process` (gen/docs.ts:233-249), gen/index.ts, gen/readme.ts and gen/browser.ts: these are I/O and template work.
- gen/readme.ts calls `generateMarkdownDocs` with a different argument list; gen/readme.ts is not part of this model.
- scripts/tag.js and scripts/util/asyncExec.js: these are a release tool.
- src/Cloudnode.d.ts, src/Cloudnode.ts, gen/Schema.ts and gen/Config.ts: these are declarations. Their shapes shaped the datatypes.
- `Schema.Type` (gen/Schema.ts:7) also allows `string[]`: the model's field, parameter and return types (`typ`) are strings only. The generator calls string methods on a type (`endsWith` at gen/util.ts:12, `toLowerCase` at gen/DocSchema.ts:20), which would throw on the array form, so the schemas it accepts use the string form.
- The per-endpoint wrappers other than `newsletter.list`, `projects.delete` and `auth.register`: they are literal descriptor tables. Long descriptions in the three modelled descriptors are shortened; the request logic never reads them.

## Findings

| source | as written | input that shows it | evidently intended | confidence | as-written member | corrected member |
|---|---|---|---|---|---|---|
| src/Cloudnode.js:179 | `getPage` is out of bounds when `page * limit > total`, so a partial last page counts as out of bounds. browser/Cloudnode.js:142 has the same test. | `total` 25, `limit` 10, held page 1: page 3 gives `null`, and `getAllPages` returns 20 of the 25 items. | A page is out of bounds only when it starts past the end, `(page - 1) * limit >= total`, so `getAllPages` returns all the data. | not executed | `Client.TwentyFiveItemsLoseFive` | `Client.IntendedBoundMatchesPageCount` |
| src/Cloudnode.js:45-51 | The constructor writes the merged options into the static `#defaultOptions` object and keeps that object, so every client shares one options object. | Two clients built with `maxRetries` 1 and then 7: the first client now retries 7 times. | Each client has its own merged copy, and the defaults never change. | not executed | `Client.ModuleClientsShareOptions` | `Client.IsolatedClientsKeepOptions` |
| browser/Cloudnode.js:39-42 | Each fallback reads `fullOptions.x ?? defaults.x`, which is the defaults object on both sides, so the `options` argument is ignored. | A browser client built with `maxRetries` 1 still retries 3 times. | Each fallback reads `options.x ?? defaults.x`. | not executed | `Client.BrowserIgnoresOptions` | `Client.IsolatedClientsKeepOptions` |
