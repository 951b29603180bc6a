# sasaxios in Dafny

sasaxios is a small wrapper around `fetch` with an axios-like surface. A client
is made by `create(defaults)`. A call spreads the defaults and the caller's
options into one set of options. It then:

- builds the target URL from a base URL and query parameters;
- folds the options through the request interceptors;
- defaults the `content-type` header;
- turns the options into a native `RequestInit` and calls `fetch`;
- classifies the answer by the `ok` status (200 to 299);
- runs the response and request interceptor chains.

A JSON-, text- or blob-reading of the body becomes the response's `data`.
Interceptors are kept in a registry with `use`, `eject` and `clear`.

## Modules

One module per component:

- **Platform**: the JavaScript values the library handles. This covers undefined and null, own properties and spreading, `??`, truthiness, thrown values, the fetch records, and `indexOf` and `toUpperCase` on strings.
- **Interceptor**: the registry of src/interceptor.ts and src/interceptor.js, which are the same code. It is a class with the handler array and the id counter. `eject` is proved against an independent filter definition.
- **Types**: the option and response records of src/type.ts, the spread merge, the native method and the shortcut options. These are shared by both pipelines.
- **Url** (src/url.ts) and **UrlJs** (src/url.js): base insertion and query joining. URL resolution and form serialisation are uninterpreted parameters (`UrlPrimitives`).
- **ResponseParse**: the content-type dispatch of src/nativeResponse.ts, which uses a substring match for JSON. It also covers src/nativeResponse.js and src/response.ts, which use exact equality.
- **RequestBody**: `makeRequestBody(data, contentType)` of src/requestBody.ts.
- **RequestTs**: src/request.ts. These are option merging, JSON detection, body choice and the native config. `setContentTypeHeader` writes into an options object in place, so it is a method of an `OptionsObject` class.
- **Chains**: the `try`/`catch` part of `request`, which the two pipelines share word for word. It is written as loop methods proved equal to recursive specifications.
- **SasaxiosTs**: the pipeline of src/sasaxios.ts. It writes `content-type` into header objects that the caller's options and the instance defaults can share. So header objects live in an explicit store of references, and the `Client` class changes that store in `Request`.
- **SasaxiosJs**: the earlier pipeline of src/sasaxios.js. It writes nothing in place. It uses the `baseUrl` key, hands the headers through as they are, and chooses the body by content-type.
- **IndexTs**: the early client of src/index.ts. It merges `RequestInit`s and throws on a non-ok status.

### Where the model departs from the source text

- `fetch`, the interceptor handlers and the imported helpers are parameters (pure functions).
- A handler returns the new state of the object it was given, together with its completion (a value or a throw).
- A rejected handler can assign the error's `message`, or throw.
- `isJSONContent(null)` throws a TypeError in JavaScript, because `typeof null === 'object'`. The model keeps that error path instead of excluding null data.
- src/sasaxios.ts imports `makeFullUrl(url, { baseURL, params })`, `isJSONContent` and a one-argument `makeRequestBody`. The pipeline takes them as the `Imports` parameter, and `SasaxiosTs.Current` instantiates them. src/requestBody.ts:4 does export a `makeRequestBody(data, contentType?)` that accepts the one-argument call. Called that way it returns the data unchanged (src/requestBody.ts:5, SasaxiosTs.RequestBodyTsPassesThrough). `Current` uses the one-argument `makeRequestBody` of src/request.ts instead, because test/sasaxios.test.ts:455-458 expects a JSON-like object to be sent as a JSON string. For the URL that is `makeFullUrl` of src/url.js, called with the `{ baseURL, params }` object src/sasaxios.ts builds. That function reads only a `baseUrl` key, so with these imports the base is never inserted (SasaxiosTs.CurrentIgnoresBaseURL). JSON detection and the one-argument body choice come from src/request.ts.

## Model

| member | source | states |
|---|---|---|
| Platform.IndexOf | src/url.ts:18 | `url.indexOf('?')` is -1 exactly when the character is absent, and otherwise the index of its first occurrence |
| Platform.ToUpperCase | src/sasaxios.ts:68 | upper-casing keeps the length and maps each character (ASCII letters) |
| Interceptor.Ids | src/interceptor.ts:8-12 | the ids of the registrations, position by position |
| Interceptor.StoredRejected | src/interceptor.ts:15 | `rejected \|\| null` stores a handler exactly when one was given |
| Interceptor.FilterMembers | src/interceptor.ts:19-24 | the reference removal keeps exactly the registrations with another id |
| Interceptor.WithoutAbsent | src/interceptor.ts:21 | ejecting an id that is not registered leaves the array unchanged |
| Interceptor.WithoutIsFilter | src/interceptor.ts:19-24 | about Interceptor.Without: under the registry invariant, `findIndex` + `splice` equals removing every registration that carries the id |
| Interceptor.FilterOrdered | src/interceptor.ts:14-24 | removal keeps the ids strictly increasing and below the counter |
| Interceptor.WithoutLength | src/interceptor.ts:19-24 | eject shortens the array by one exactly when the id is registered |
| Interceptor.FilterAbsent | src/interceptor.ts:21 | the reference removal of an absent id is the identity |
| Interceptor.SpliceIsWithout | src/interceptor.ts:20-22 | splicing out the first match found by `findIndex` is removal of the first match |
| Interceptor.FindIndex | src/interceptor.ts:20 | the loop returns -1 exactly when the id is absent, and otherwise the first matching index |
| Interceptor.InterceptorManager.constructor | src/interceptor.ts:6-12 | a new manager has no handlers and counter 0 |
| Interceptor.InterceptorManager.Use | src/interceptor.ts:14-17 | returns the old counter and increments it; appends `{id, fulfilled, rejected \|\| null}` at the end; the new id exceeds every registered id; the invariant is kept |
| Interceptor.InterceptorManager.Eject | src/interceptor.ts:19-24 | the array becomes the first-match removal, which equals the reference filter; its length drops by one exactly when the id was present; the counter is unchanged |
| Interceptor.InterceptorManager.Clear | src/interceptor.ts:26-28 | the array is emptied and the counter is untouched, so ids are never reused |
| Interceptor.EjectFirstAndThird | test/sasaxios.test.ts:216-232 | after registering three and ejecting the first and third, only id 1 remains; ejecting it leaves length 0 |
| Interceptor.IndependentManagers | src/interceptor.js:24-29 | two factory calls give independent managers: ids 0, 1 on one, and an empty array and counter 0 on the other; after `clear`, the next id is 2 |
| ResponseParse.ParseIncludes | src/nativeResponse.ts:4-10 | about ResponseParse.ReaderIncludes: exactly one reader consumes the body, the one the substring dispatch picks |
| ResponseParse.ParseExact | src/nativeResponse.js:4-13 | about ResponseParse.ReaderExact: exactly one reader consumes the body, the one the exact dispatch picks |
| ResponseParse.IncludesCases | src/nativeResponse.ts:5-9 | text iff a `text/` prefix; json iff not text and containing `application/json`; blob otherwise, including a missing header |
| ResponseParse.ExactCases | src/response.ts:7-11 | text iff a `text/` prefix; json iff exactly `application/json`; blob otherwise |
| ResponseParse.ExactVersusIncludes | src/nativeResponse.js:10-12 | the two dispatches differ exactly on non-text types that contain but are not `application/json`, where exact gives blob and substring gives json |
| ResponseParse.CharsetJson | test/sasaxios.test.ts:122-128 | `application/json;charset=utf-8`, as the test sends it, is json for the substring dispatch and blob for the exact one |
| ResponseParse.HtmlIsText | test/sasaxios.test.ts:138-144 | `text/html` is read as text by every copy |
| ResponseParse.OctetStreamIsBlob | test/sasaxios.test.ts:154-162 | `application/octet-stream` and a missing content-type are read as blobs |
| Types.SpreadOverrides | src/sasaxios.ts:44 | `{...defaults, ...custom}` is a top-level override: custom headers replace default headers wholesale, an own undefined overrides, and `{}` on either side is neutral |
| Types.Spread | src/sasaxios.ts:44 | specification of `{ ...a, ...b }`: for every key, an own key of the right side wins, even one holding undefined, and otherwise the left side's property is kept; further properties in Types.SpreadOverrides |
| Types.WithMessage | test/sasaxios.test.ts:272-281 | assigning `message` changes only an Error object's message and keeps its name and cause |
| Types.NativeMethod | src/sasaxios.ts:68 | the dispatched method is the upper-cased method when truthy, otherwise `GET`; it is never empty and has no lower-case letter |
| Types.ShortcutOptions | src/sasaxios.ts:12-34 | a shortcut sets `method` to its verb, sets `data` for post/put/patch only, and changes no other key |
| Types.ShortcutMethod | test/sasaxios.test.ts:320-355 | whatever the defaults and the caller's options say, a shortcut's merged options dispatch its upper-cased verb; a body verb without data overrides default data with undefined |
| Url.MakeUrl | src/url.ts:4-9 | the identity for a falsy base; the resolution against a truthy base; a TypeError when resolution fails |
| Url.AppendQueryString | src/url.ts:14-23 | the input is always a prefix; unchanged iff params are falsy; otherwise the next character is `&` if the URL has a `?` and `?` if not, followed by the serialisation (even when empty) |
| Url.AppendShape | src/url.ts:18-22 | with params, the result is URL, separator and serialised pairs |
| Url.QueryStart | src/url.ts:18-22 | with params, the result has a query, and its first `?` is the URL's own or the one just added |
| UrlJs.MakeFullUrl | src/url.js:4-8 | with options, the base-inserted and query-joined URL of their `baseUrl` and `params`; without options, the URL unchanged |
| UrlJs.Compose | src/url.js:6-7 | specification of `appendQueryString(insertBaseURL(url, baseUrl), params)`: it fails exactly when base insertion fails, and then with the URL TypeError; a result always extends the base-inserted URL; further properties in UrlJs.ExtendsInsertedUrl |
| UrlJs.ExtendsInsertedUrl | src/url.js:6-7 | the result fails exactly when base insertion fails, always extends the base-inserted URL, and equals it for falsy params |
| UrlJs.TestedBase | test/unit/url.test.ts:8-9 | no options leave `/users` as it is; a base alone is resolved against |
| UrlJs.TestedNewQuery | test/unit/url.test.ts:10-12 | a query is introduced with `?` |
| UrlJs.TestedExistingQuery | test/unit/url.test.ts:13-15 | an existing query is kept and the new pairs follow `&` |
| UrlJs.OnlyBaseUrlKey | src/url.js:5 | only the `baseUrl` key is read, so options without it leave the URL relative |
| RequestBody.MakeRequestBody | src/requestBody.ts:4-10 | data unchanged iff the content-type is falsy; its string iff a `text/` type with data present; a TypeError for a `text/` type with undefined or null data; JSON otherwise |
| RequestBody.TextBeforeJson | src/requestBody.ts:6-9 | the `text/` test precedes JSON encoding |
| RequestBody.AgreesWithReader | src/requestBody.ts:4-10 | a body is sent as text exactly for the types the exact response dispatch reads as text, and as JSON for `application/json` |
| RequestTs.MergeOptions | src/request.ts:6-20 | each scalar field is `custom ?? default ?? fallback` (`'get'`, `false`, or undefined); headers merge key-wise with custom keys winning; there is no `baseUrl` key |
| RequestTs.ExplicitFalsyWins | src/request.ts:8-18 | an explicit `false`, `0` or `''` in custom wins; a custom null gives way |
| RequestTs.MergeEmpty | test/unit/request.test.ts:8-17 | `mergeOptions({}, {})` is the minimal option set |
| RequestTs.MergeWithEmpty | test/unit/request.test.ts:19-53 | merging complete options with `{}` on either side gives them back |
| RequestTs.IsJsonContent | src/request.ts:51-53 | true iff an object with neither `append` nor `text` functions; a TypeError exactly for null |
| RequestTs.JsonLikeIsPlainObject | src/request.ts:51-53 | JSON-like data is truthy; non-objects are never JSON-like |
| RequestTs.MakeRequestBody | src/request.ts:58-65 | undefined for falsy data; JSON exactly for JSON-like data; the data itself otherwise; never a string conversion |
| RequestTs.BodySamples | test/unit/request.test.ts:149-165 | undefined and null give no body, a string is sent as it is, an object as JSON |
| RequestTs.MakeNativeRequestConfig | src/request.ts:39-49 | upper-cased method or `GET`; the body of `makeRequestBody`; headers passed through; `include` iff truthy `withCredentials`, else `same-origin`; the caller's signal when truthy, else a timeout signal iff a truthy timeout |
| RequestTs.NativeConfigSamples | test/unit/request.test.ts:119-147 | no method gives `GET`, object data a JSON body, and the credential flag maps to `include` or `same-origin` |
| RequestTs.ContentTypeSetContract | src/request.ts:25-34 | afterwards headers exist; a truthy content-type is kept; otherwise it becomes `application/json` or `text/plain` by the data; other headers and fields are unchanged; the only error is JSON detection's on null data |
| RequestTs.ContentTypeSet | src/request.ts:25-34 | specification of `setContentTypeHeader`: afterwards a headers object exists; when nothing is thrown its content-type is truthy; the only throw is JSON detection's TypeError on null data; no field but `headers` changes; the full contract is RequestTs.ContentTypeSetContract |
| RequestTs.ContentTypeSamples | test/unit/request.test.ts:84-116 | a set content-type is kept, object data gets `application/json`, a string gets `text/plain` |
| RequestTs.OptionsObject.SetContentTypeHeader | src/request.ts:25-34 | the options object is updated in place to the state the contract above describes |
| Chains.NonOkError | src/sasaxios.ts:87 | the error of a non-ok status carries the status text as message and the response as cause |
| Chains.RejectedChain | src/sasaxios.ts:88-93 | about Chains.RunRejected: the rejected loop computes the recursive chain: each non-null handler in order, stopping at the first throw |
| Chains.ResponseFulfilledChain | src/sasaxios.ts:106-112 | about Chains.RunResponseFulfilled: the fulfilled loop computes the recursive chain on the response object |
| Chains.SettleLoop | src/sasaxios.ts:81-121 | the `try`/`catch` as written equals the settle specification |
| Chains.Settle | src/sasaxios.ts:81-121 | specification of the `try`/`catch`: it resolves only on an ok status, and a transport rejection goes only through the request-rejected chain; Chains.SettleLoop implements it and Chains.NonOkRunsBothChains and its neighbours state the rest |
| Chains.NonOkRunsBothChains | src/sasaxios.ts:86-94 | a non-ok status runs the response-rejected chain, then the request-rejected chain on its result |
| Chains.TransportRejectionSkipsResponseChain | src/sasaxios.ts:113-120 | about Chains.Attempt and Chains.Settle: a transport rejection runs only the request-rejected chain; the response handlers do not matter |
| Chains.OkOnly | src/sasaxios.ts:86 | a call resolves only on an ok status |
| Chains.NoInterceptors | test/sasaxios.test.ts:33-68 | without interceptors a call resolves exactly on an ok status, with the parsed response and the caller's options, and otherwise rejects with the reason or the status error |
| Chains.NonThrowingKeepsError | src/sasaxios.ts:93 | when no handler throws, the same error object is rethrown |
| Chains.ReturnValuesIgnored | src/sasaxios.ts:90 | rejected handlers with the same effects give the same outcome, whatever they return |
| Chains.SkipsNullRejected | src/sasaxios.ts:89 | a registration without a rejected handler is skipped |
| Chains.FulfilledInOrder | src/sasaxios.ts:106-110 | the response-fulfilled chain runs in array order and a throw stops the rest |
| Chains.OverrideMessage | test/sasaxios.test.ts:272-293 | a handler that sets `message = 'override'` and rethrows makes the call fail with that message |
| Chains.RejectWithOverride | test/sasaxios.test.ts:194-211 | a request-rejected handler that throws `'override'` makes every call that fails from `fetch` on reject with it; failures before the `try` (the URL, JSON detection, the body) never reach it (SasaxiosTs.FailuresBeforeFetchSkipRejected) |
| Chains.AssignedData | test/sasaxios.test.ts:239-260 | a response handler that assigns `data` makes the call resolve with that data |
| SasaxiosTs.Alloc | src/sasaxios.ts:56 | a new header object gets the next free reference and changes no other object |
| SasaxiosTs.Write | src/sasaxios.ts:60-62 | an in-place header write changes exactly that object |
| SasaxiosTs.RequestFulfilledInOrder | src/sasaxios.ts:48-52 | about SasaxiosTs.RunRequestFulfilled: the request fold of `a + b` is that of `a`, then that of `b` on its result; a throw stops the rest |
| SasaxiosTs.RequestFulfilledSkipsNull | src/sasaxios.ts:49 | registrations without a fulfilled handler are skipped |
| SasaxiosTs.DefaultContentTypeContract | src/sasaxios.ts:55-64 | after defaulting, the options hold a header object whose content-type is not undefined; an undefined one becomes `application/json` or `text/plain` by the data; any other value, `''` included, is kept; only that object changes; it throws exactly when JSON detection throws and the content-type had to be chosen |
| SasaxiosTs.DefaultContentType | src/sasaxios.ts:55-64 | specification of the defaulting: on success, the options hold a header object whose content-type is not undefined; a throw is always JSON detection's; the full contract is SasaxiosTs.DefaultContentTypeContract |
| SasaxiosTs.NativeConfig | src/sasaxios.ts:66-79 | specification of the `RequestInit` literal: a body failure propagates; otherwise it has the native method, the imported body, `include` exactly for a truthy `withCredentials` and `omit` otherwise, headers, and no signal; the headers are the stored object (SasaxiosTs.DispatchedHeadersAreStored) |
| SasaxiosTs.DispatchedHeadersAreStored | src/sasaxios.ts:67-79 | after defaulting, the literal's leading `content-type` is always overridden by the spread, so exactly the stored headers are dispatched; method, credentials (`include`/`omit`) and body as imported |
| SasaxiosTs.UrlFixedBeforeInterceptors | src/sasaxios.ts:45-52 | the dispatched URL is built from the merged options before any interceptor, and a URL failure ends the call first |
| SasaxiosTs.FoldIgnoresRejected | src/sasaxios.ts:48-52 | the request fold reads only fulfilled handlers |
| SasaxiosTs.FailuresBeforeFetchSkipRejected | src/sasaxios.ts:44-81 | failures before `fetch` reject the call directly; request-rejected handlers do not see them |
| SasaxiosTs.InterceptorSetsMethod | test/sasaxios.test.ts:169-178 | `get` with an interceptor setting `post` dispatches `POST` |
| SasaxiosTs.ShortcutDispatchesVerb | test/sasaxios.test.ts:320-355 | without request interceptors a shortcut dispatches its upper-cased verb |
| SasaxiosTs.ContentTypeSent | test/sasaxios.test.ts:72-92 | the dispatched content-type is the caller's, when set, and otherwise the default chosen by the data; it is written into the caller's header object |
| SasaxiosTs.DefaultsWriteThrough | src/sasaxios.ts:44-63 | a call with no headers of its own writes the chosen content-type into the instance defaults' object, and a later call with other data sends it |
| SasaxiosTs.PlainCall | test/sasaxios.test.ts:33-68 | without interceptors a call resolves iff ok, with the substring-parsed body and `config` set to the caller's options |
| SasaxiosTs.CurrentIgnoresBaseURL | src/url.js:4-8 | with src/url.js's `makeFullUrl` as the URL import, the `baseURL` that src/sasaxios.ts:45 passes is ignored: only the query string is added, and building the URL cannot fail |
| SasaxiosTs.RequestBodyTsPassesThrough | src/requestBody.ts:4-5 | the exported `makeRequestBody` called with the data alone returns it unchanged; for a JSON-like object this differs from the JSON string `Current` sends |
| SasaxiosTs.JsonBodyWithCurrentImports | test/sasaxios.test.ts:72-82 | with the shown helpers, JSON-like data under an undefined content-type goes as JSON with `application/json` |
| SasaxiosTs.RequestSpec | src/sasaxios.ts:43-122 | specification of `request`: a call that never reaches `fetch` rejects; a call resolves only after a dispatch that answered ok; from the dispatch on, the result is the `try`/`catch` chain with substring parsing; SasaxiosTs.Client.Request implements it |
| SasaxiosTs.Heap.NewHeaders | src/sasaxios.ts:56 | allocation of a new `{}` header object |
| SasaxiosTs.Client.constructor | src/sasaxios.ts:36-38 | each instance gets two new, empty managers |
| SasaxiosTs.Client.Request | src/sasaxios.ts:43-122 | the pipeline as written leaves the header store, the dispatched request and the result that the request specification gives |
| SasaxiosTs.Client.Shortcut | src/sasaxios.ts:12-34 | a shortcut is `request` on the shortcut options |
| SasaxiosJs.RequestFulfilledInOrder | src/sasaxios.js:42-46 | about SasaxiosJs.RunRequestFulfilled: the fold of `a + b` is that of `a`, then `b`; a throw stops the rest |
| SasaxiosJs.FoldIgnoresRejected | src/sasaxios.js:42-46 | the request fold reads only fulfilled handlers |
| SasaxiosJs.NativeConfigContract | src/sasaxios.js:48-53 | about SasaxiosJs.NativeConfig and SasaxiosJs.BodyContentType: headers go out untouched; the body is the data for a falsy content-type, its string for `text/`, JSON otherwise; it throws exactly for `text/` with nullish data; method upper-cased; `include` iff truthy `withCredentials`, else `omit` |
| SasaxiosJs.UrlFromBaseUrlKey | src/sasaxios.js:39-40 | about SasaxiosJs.FullUrl: the URL comes from the merged `baseUrl` and `params` before the interceptors, and a URL failure ends the call first |
| SasaxiosJs.BaseURLKeyIgnored | src/sasaxios.js:40 | without request interceptors, the `baseURL` key changes nothing that is dispatched |
| SasaxiosJs.FailuresBeforeFetchSkipRejected | src/sasaxios.js:39-54 | failures before `fetch` reject the call directly; request-rejected handlers do not see them |
| SasaxiosJs.NoDefaultContentType | src/sasaxios.js:50-51 | no content-type is defaulted: a call without headers dispatches undefined headers and the raw data |
| SasaxiosJs.HeadersPassThrough | src/sasaxios.js:50-51 | the dispatched headers are those the folded options carry, and the body follows their content-type |
| SasaxiosJs.InterceptorSetsMethod | src/sasaxios.js:42-49 | `get` with an interceptor setting `post` dispatches `POST` |
| SasaxiosJs.ShortcutDispatchesVerb | src/sasaxios.js:9-31 | without request interceptors a shortcut dispatches its upper-cased verb |
| SasaxiosJs.PlainCall | src/sasaxios.js:56-81 | without interceptors a call resolves iff ok, with the exactly-parsed body and `config` set to the caller's options |
| SasaxiosJs.RequestSpec | src/sasaxios.js:38-92 | specification of `request`: a call that never reaches `fetch` rejects; a call resolves only after a dispatch that answered ok; from the dispatch on, the result is the `try`/`catch` chain with exact parsing; no signal is passed and credentials are `include` or `omit`; SasaxiosJs.Instance.Request implements it |
| SasaxiosJs.Instance.constructor | src/sasaxios.js:33-34 | each instance gets two new, empty managers |
| SasaxiosJs.Instance.Request | src/sasaxios.js:38-92 | the pipeline as written gives the dispatched request and the result of the request specification |
| SasaxiosJs.Instance.Shortcut | src/sasaxios.js:9-31 | a shortcut is `request` on the shortcut options |
| IndexTs.Merge | src/index.ts:6 | the dispatched init has the keys of both; per-call keys win; the defaults fill the rest |
| IndexTs.Request | src/index.ts:5-11 | the merged init goes to `fetch`; a rejection propagates; an ok response is returned unchanged; a non-ok one throws `Error(statusText)` with the response as cause |
| IndexTs.MethodNamesAgree | src/index.ts:15-35 | the shortcuts' upper-case verbs are the upper-casing of the pipeline verbs |
| IndexTs.Shortcut | src/index.ts:15-35 | specification of the shortcuts: the dispatched `method` is the verb; every other key comes from the init or the defaults; the call resolves exactly on an ok answer; further properties in IndexTs.ShortcutForcesMethod |
| IndexTs.ShortcutForcesMethod | test/index.test.ts:18-52 | a shortcut dispatches its verb over any `method` in the init or the defaults, and every other key as `request` would |
| IndexTs.DefaultInstance | src/index.ts:1 | `create()` has empty defaults, so exactly the call's init is dispatched |
| IndexTs.StatusBoundaries | src/index.ts:7-10 | statuses 200 and 299 resolve with the response; 199 and 300 reject with the status text |

## Left out

- Transport: `fetch` is a parameter from URL and `RequestInit` to a transport outcome. Node-fetch and the mock server are not part of this model.
- Asynchrony: calls to handlers are strictly sequential, so promises and scheduling are not modelled.
- Live handler arrays: changing a manager's live `handlers` array while a chain iterates it is not modelled. A call reads the arrays once.
- Timers: `createTimeoutAbortController` and src/timeoutAbortController.ts are timer and AbortController machinery. Only the choice of signal (the caller's, a timeout one, or none) is modelled.
- Foreign primitives: `new URL` resolution (section 4.4 of the WHATWG URL Standard), `URLSearchParams` serialisation (section 5.2 of that standard), `JSON.stringify`, and non-string `toString()`. These stay uninterpreted, as does the effect of the `text`, `json` and `blob` readers. A JSON parse failure in `response.json()` is not modelled.
- Strings: `toUpperCase` is modelled on ASCII letters only, and numbers are integers.
- Headers: a `Headers` instance passed as `headers` is not modelled. Header records are case-sensitive string maps, as the library indexes them with `'content-type'`.
- Handler mutations:
  - A handler changes only the object it is given.
  - A rejected handler can only assign an Error's `message` or throw.
  - A response handler's in-place changes to header objects reachable from the response's `config` are not modelled.
- Option aliasing: in SasaxiosTs only header objects have identity. An interceptor that changes an options object in place and then returns a different one is not modelled, since the fold carries the returned value.
- RequestTs.OptionsObject.SetContentTypeHeader: the header record is part of the options value. So the write reaches this options object only, not other objects that share the same `headers` record. Shared header objects are modelled only in SasaxiosTs.
- SasaxiosTs.RunRequestFulfilled and SasaxiosJs.RunRequestFulfilled: a request interceptor always returns an options object or throws. A handler that returns a non-object such as `undefined` is not modelled. The source would then throw a TypeError when it next reads `options.headers` or `options.method`.
- Params filtering: none of this code filters null, undefined, `{}` or `[]` params, so no such filtering is claimed.
- URL tests and the `baseURL` key: the URL tests pass `baseURL`, while src/url.js reads `baseUrl`. UrlJs.TestedBase and its neighbours state the shapes for `baseUrl`. UrlJs.OnlyBaseUrlKey states what the `baseURL` spelling actually does.
- SasaxiosTs.Client.Request: the imported helpers are the `Imports` parameter. A `makeFullUrl` that reads the `baseURL` key is not part of this model. SasaxiosTs.Current plugs in src/url.js's `makeFullUrl`, which drops that base, together with src/request.ts's `isJSONContent` and `makeRequestBody`. So the pipeline's base-URL behaviour that the tests expect is stated only for an abstract `makeFullUrl` (SasaxiosTs.UrlFixedBeforeInterceptors).
- Type declarations: src/type.ts holds declarations only. It shapes the records of Types.
