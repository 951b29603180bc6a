/** `create(defaultRequestOption)` of src/sasaxios.ts: an instance with its own
    request and response interceptor managers, the `request` pipeline and the
    shortcut methods.

    Header records are objects that several options objects can share: the
    instance defaults, the caller's options and whatever interceptors return.
    The pipeline writes `content-type` into such an object in place, so header
    objects live in a heap of references here, and an options object holds a
    reference. */
module SasaxiosTs {
  import opened Platform
  import opened Types
  import opened Interceptor
  import opened ResponseParse
  import opened Chains
  import UrlJs
  import Url
  import RequestTs
  import RequestBody

  /** A reference to a header object. */
  type Ref = nat

  /** The header objects: their contents, and the next free reference. */
  datatype Store = Store(objects: map<Ref, HeaderMap>, next: Ref)

  /** Every allocated reference lies below the next free one. */
  ghost predicate StoreValid(s: Store) {
    forall r :: r in s.objects ==> r < s.next
  }

  /** The contents of a header object (a dangling reference reads as `{}`). */
  function Lookup(s: Store, r: Ref): HeaderMap {
    if r in s.objects then s.objects[r] else map[]
  }

  /** A new object literal. */
  function Alloc(s: Store, h: HeaderMap): (r: (Store, Ref))
    ensures r.1 == s.next && r.0.next == s.next + 1
    ensures StoreValid(s) ==> StoreValid(r.0) && r.1 !in s.objects
    ensures Lookup(r.0, r.1) == h
    ensures forall q :: q != r.1 ==> Lookup(r.0, q) == Lookup(s, q)
  {
    (Store(s.objects[s.next := h], s.next + 1), s.next)
  }

  /** A write to the object at a reference. */
  function Write(s: Store, r: Ref, h: HeaderMap): (t: Store)
    ensures Lookup(t, r) == h && t.next == s.next
    ensures forall q :: q != r ==> Lookup(t, q) == Lookup(s, q)
    ensures StoreValid(s) && r < s.next ==> StoreValid(t)
  {
    s.(objects := s.objects[r := h])
  }

  /** A request options object of this pipeline. */
  type Config = Options<Ref>

  /** The helpers src/sasaxios.ts imports: `makeFullUrl(url, { baseURL, params })`,
      `isJSONContent(data)` and a one-argument `makeRequestBody(data)`. They
      are parameters, and `Current` instantiates them. */
  datatype Imports = Imports(
    makeFullUrl: (string, Js<string>, Js<Value>) -> Completion<string>,
    isJsonContent: Js<Value> -> Completion<bool>,
    makeRequestBody: Js<Value> -> Completion<Body>)

  /** The imports read with the definitions of src/url.js and src/request.ts.
      The URL helper is `makeFullUrl` of src/url.js called with the object
      `{ baseURL, params }` that src/sasaxios.ts builds; that function reads
      only a `baseUrl` key, so the base is dropped. The body helper is the
      one-argument one of src/request.ts, which sends JSON-like data as JSON;
      the exported one of src/requestBody.ts would pass it through
      (`RequestBodyTsPassesThrough`). */
  function Current(p: Url.UrlPrimitives): Imports {
    Imports(
      (url, base, params) => UrlJs.MakeFullUrl(url, Is(UrlJs.FullUrlOptions(Absent, Own(params))), p),
      RequestTs.IsJsonContent,
      data => Normal(RequestTs.MakeRequestBody(data)))
  }

  /** With these imports the merged `baseURL` is never inserted: the URL only
      gets the query string, and building it never fails. */
  lemma CurrentIgnoresBaseURL(p: Url.UrlPrimitives, url: string, base: Js<string>, params: Js<Value>)
    ensures Current(p).makeFullUrl(url, base, params) == Normal(Url.AppendQueryString(url, params, p.serialize))
    ensures !Truthy(params) ==> Current(p).makeFullUrl(url, base, params) == Normal(url)
  {
  }

  /** The exported `makeRequestBody(data, contentType?)` of src/requestBody.ts,
      called with the data alone, returns it unchanged; a JSON-like object is
      then not turned into JSON, as the body `Current` sends it is. */
  lemma RequestBodyTsPassesThrough(p: Url.UrlPrimitives, data: Js<Value>)
    ensures RequestBody.MakeRequestBody(data, Undefined) == Normal(Data(data))
    ensures RequestTs.IsJsonContent(data) == Normal(true) ==>
      Current(p).makeRequestBody(data) == Normal(JsonOf(data)) != RequestBody.MakeRequestBody(data, Undefined)
  {
  }

  /** A request-fulfilled interceptor: given the options and the header
      objects, it may change header objects and then returns the options the
      loop continues with, or throws. */
  type RequestStep = (Config, Store) -> (Store, Completion<Config>)

  type RequestHandlers = seq<Handler<RequestStep, RejectedHandler>>
  type ResponseHandlers = seq<Handler<ResponseStep<Config>, RejectedHandler>>

  /** `for (...) if (interceptor.fulfilled) options = await interceptor.fulfilled(options)`. */
  function RunRequestFulfilled(hs: RequestHandlers, o: Config, s: Store): (Store, Completion<Config>)
    decreases |hs|
  {
    if hs == [] then (s, Normal(o))
    else if hs[0].fulfilled.None? then RunRequestFulfilled(hs[1..], o, s)
    else
      var (s', c) := hs[0].fulfilled.value(o, s);
      if c.Abrupt? then (s', c) else RunRequestFulfilled(hs[1..], c.value, s')
  }

  /** The fold runs in array order: that of `a + b` is that of `a`, then that of
      `b` on what `a` left; a throw stops the rest. */
  lemma {:induction false} RequestFulfilledInOrder(a: RequestHandlers, b: RequestHandlers, o: Config, s: Store)
    ensures RunRequestFulfilled(a + b, o, s) ==
      var (s', c) := RunRequestFulfilled(a, o, s);
      if c.Abrupt? then (s', c) else RunRequestFulfilled(b, c.value, s')
    decreases |a|
  {
    if a == [] {
      assert a + b == b;
    } else {
      assert (a + b)[1..] == a[1..] + b;
      assert (a + b)[0] == a[0];
      if a[0].fulfilled.None? {
        RequestFulfilledInOrder(a[1..], b, o, s);
      } else {
        var (s', c) := a[0].fulfilled.value(o, s);
        if c.Normal? {
          RequestFulfilledInOrder(a[1..], b, c.value, s');
        }
      }
    }
  }

  /** Registrations without a fulfilled handler are skipped: the fold only ever
      sees the options unchanged through them. */
  lemma {:induction false} RequestFulfilledSkipsNull(hs: RequestHandlers, o: Config, s: Store)
    requires forall i :: 0 <= i < |hs| ==> hs[i].fulfilled.None?
    ensures RunRequestFulfilled(hs, o, s) == (s, Normal(o))
    decreases |hs|
  {
    if hs != [] {
      RequestFulfilledSkipsNull(hs[1..], o, s);
    }
  }

  /** The options' headers, if an object, are one of the store's. */
  ghost predicate RefersInto(o: Config, s: Store) {
    Get(o.headers).Is? ==> Get(o.headers).value in s.objects
  }

  /** Lines "Set default content-type": add a headers object if there is none,
      then, if its `content-type` is undefined, write `application/json` for
      JSON-like data and `text/plain` otherwise, into that object. */
  function DefaultContentType(o: Config, s: Store, isJson: Js<Value> -> Completion<bool>): (r: (Store, Completion<Config>))
    ensures r.1.Normal? ==> Get(r.1.value.headers).Is? && ContentTypeEntry(Lookup(r.0, Get(r.1.value.headers).value)) != Undefined
    ensures r.1.Abrupt? ==> isJson(Get(o.data)) == Abrupt(r.1.thrown)
  {
    var (s1, o1) := if Get(o.headers).Is? then (s, o) else var (s', r) := Alloc(s, map[]); (s', o.(headers := Own(Is(r))));
    var ref := Get(o1.headers).value;
    var h := Lookup(s1, ref);
    if ContentTypeEntry(h) != Undefined then (s1, Normal(o1))
    else match isJson(Get(o1.data))
      case Abrupt(t) => (s1, Abrupt(t))
      case Normal(json) => (Write(s1, ref, h["content-type" := Is(if json then "application/json" else "text/plain")]), Normal(o1))
  }

  /** The defaulting contract. Afterwards the options hold a headers object
      whose `content-type` is not undefined (unless JSON detection threw):
      `application/json` or `text/plain` by the data when it was undefined,
      and any other value, `''` and null included, kept as it was. Only that
      object changes (it is a new `{}` when there was none), its other
      headers stay, and no other options field changes. */
  lemma DefaultContentTypeContract(o: Config, s: Store, isJson: Js<Value> -> Completion<bool>)
    requires StoreValid(s) && RefersInto(o, s)
    ensures var (s', c) := DefaultContentType(o, s, isJson);
      && StoreValid(s')
      && (c.Normal? ==> Get(c.value.headers).Is? && c.value.(headers := o.headers) == o)
      && (c.Normal? ==> ContentTypeEntry(Lookup(s', Get(c.value.headers).value)) != Undefined)
      && (Get(o.headers).Is? && c.Normal? ==> c.value == o)
      && (Get(o.headers).Is? && ContentTypeEntry(Lookup(s, Get(o.headers).value)) != Undefined ==> s' == s && c == Normal(o))
      && (c.Abrupt? ==> isJson(Get(o.data)).Abrupt? && c.thrown == isJson(Get(o.data)).thrown)
      && (!(Get(o.headers).Is? && ContentTypeEntry(Lookup(s, Get(o.headers).value)) != Undefined) && isJson(Get(o.data)).Abrupt? ==>
            c == Abrupt(isJson(Get(o.data)).thrown))
      && (c.Normal? && !(Get(o.headers).Is? && ContentTypeEntry(Lookup(s, Get(o.headers).value)) != Undefined) ==>
            ContentTypeEntry(Lookup(s', Get(c.value.headers).value)) ==
              Is(if isJson(Get(o.data)) == Normal(true) then "application/json" else "text/plain"))
      && (c.Normal? ==> forall k :: k != "content-type" && Get(o.headers).Is? ==>
            (k in Lookup(s', Get(c.value.headers).value) <==> k in Lookup(s, Get(o.headers).value))
            && (k in Lookup(s, Get(o.headers).value) ==> Lookup(s', Get(c.value.headers).value)[k] == Lookup(s, Get(o.headers).value)[k]))
      && (c.Normal? ==> forall q :: q != Get(c.value.headers).value ==> Lookup(s', q) == Lookup(s, q))
  {
  }

  /** The `RequestInit` literal: the upper-cased method, the imported body
      choice, a header record `{ 'content-type': ..., ...options.headers }`
      and the credentials mode, `include` or `omit`. */
  function NativeConfig(o: Config, s: Store, imp: Imports): (r: Completion<NativeInit>)
    ensures imp.makeRequestBody(Get(o.data)).Abrupt? ==> r == Abrupt(imp.makeRequestBody(Get(o.data)).thrown)
    ensures r.Normal? ==> r.value.httpMethod == NativeMethod(Get(o.httpMethod)) && r.value.body == imp.makeRequestBody(Get(o.data)).value
    ensures r.Normal? ==> (r.value.credentials == Include <==> TruthyBool(Get(o.withCredentials))) && r.value.credentials != SameOrigin
    ensures r.Normal? ==> r.value.signal == NoSignal && r.value.headers.Is?
  {
    match imp.makeRequestBody(Get(o.data))
    case Abrupt(t) => Abrupt(t)
    case Normal(body) =>
      var stored := if Get(o.headers).Is? then Lookup(s, Get(o.headers).value) else map[];
      var ct := ContentTypeEntry(stored);
      var first: Completion<Js<string>> :=
        if TruthyString(ct) then Normal(ct)
        else match imp.isJsonContent(Get(o.data))
          case Abrupt(t) => Abrupt(t)
          case Normal(json) => Normal(if json then Is("application/json") else ct);
      match first
      case Abrupt(t) => Abrupt(t)
      case Normal(v) =>
        Normal(NativeInit(NativeMethod(Get(o.httpMethod)), body, Is(map["content-type" := v] + stored),
                          if TruthyBool(Get(o.withCredentials)) then Include else Omit, NoSignal))
  }

  /** After defaulting, the leading `'content-type'` entry of the literal is
      always overridden by the spread: the dispatched headers are exactly the
      options' header object. The method is upper-cased (`GET` by default),
      credentials are `include` exactly for a truthy `withCredentials` and
      `omit` otherwise, and no signal is passed. The literal can still throw:
      for a falsy, non-undefined content-type and null data, when
      `isJSONContent` is evaluated. */
  lemma DispatchedHeadersAreStored(o: Config, s: Store, imp: Imports)
    requires Get(o.headers).Is? && ContentTypeEntry(Lookup(s, Get(o.headers).value)) != Undefined
    ensures var c := NativeConfig(o, s, imp);
      && (c.Normal? <==>
            (imp.makeRequestBody(Get(o.data)).Normal? &&
             (TruthyString(ContentTypeEntry(Lookup(s, Get(o.headers).value))) || imp.isJsonContent(Get(o.data)).Normal?)))
      && (c.Normal? ==> c.value.headers == Is(Lookup(s, Get(o.headers).value)))
      && (c.Normal? ==> c.value.httpMethod == NativeMethod(Get(o.httpMethod)) && c.value.body == imp.makeRequestBody(Get(o.data)).value)
      && (c.Normal? ==> (c.value.credentials == Include <==> TruthyBool(Get(o.withCredentials))) && c.value.credentials != SameOrigin)
      && (c.Normal? ==> c.value.signal == NoSignal)
  {
    var stored := Lookup(s, Get(o.headers).value);
    forall v: Js<string> ensures map["content-type" := v] + stored == stored {
      assert "content-type" in stored;
    }
  }

  /** What one call does: the header objects afterwards, what was handed to
      `fetch` if it was reached, and how the returned promise settles. */
  datatype Call = Call(store: Store, dispatched: Option<(string, NativeInit)>, result: Completion<Response<Config>>)

  /** `request(url, customOptions)`. Everything before the `try` (URL,
      request-fulfilled interceptors, defaulting, the native config) throws
      straight to the caller; from `fetch` on, the chains of Chains apply. */
  function RequestSpec(defaults: Config, url: string, custom: Config, store: Store,
                       requestHs: RequestHandlers, responseHs: ResponseHandlers, imp: Imports,
                       fetch: (string, NativeInit) -> TransportOutcome): (c: Call)
    ensures c.dispatched.None? ==> c.result.Abrupt?
    ensures c.result.Normal? ==> c.dispatched.Some? && fetch(c.dispatched.value.0, c.dispatched.value.1).Responded?
                                 && fetch(c.dispatched.value.0, c.dispatched.value.1).response.Ok()
    ensures c.dispatched.Some? ==> c.result == Settle(fetch(c.dispatched.value.0, c.dispatched.value.1), custom, requestHs, responseHs, ParseIncludes)
    ensures c.dispatched.Some? ==> c.dispatched.value.1.signal == NoSignal && c.dispatched.value.1.credentials != SameOrigin
  {
    var options := Spread(defaults, custom);
    match imp.makeFullUrl(url, Get(options.baseURL), Get(options.params))
    case Abrupt(t) => Call(store, None, Abrupt(t))
    case Normal(fullUrl) =>
      var (s1, c1) := RunRequestFulfilled(requestHs, options, store);
      if c1.Abrupt? then Call(s1, None, Abrupt(c1.thrown))
      else
        var (s2, c2) := DefaultContentType(c1.value, s1, imp.isJsonContent);
        if c2.Abrupt? then Call(s2, None, Abrupt(c2.thrown))
        else match NativeConfig(c2.value, s2, imp)
          case Abrupt(t) => Call(s2, None, Abrupt(t))
          case Normal(init) => Call(s2, Some((fullUrl, init)), Settle(fetch(fullUrl, init), custom, requestHs, responseHs, ParseIncludes))
  }

  /** The target URL is fixed from the merged options before any interceptor
      runs: whatever the request interceptors do, `fetch` gets the URL built
      from the merged `baseURL` and `params`, and a URL that cannot be built
      fails the call before anything else happens. */
  lemma UrlFixedBeforeInterceptors(defaults: Config, url: string, custom: Config, store: Store,
                                   requestHs: RequestHandlers, responseHs: ResponseHandlers, imp: Imports,
                                   fetch: (string, NativeInit) -> TransportOutcome)
    ensures var o := Spread(defaults, custom);
      var c := RequestSpec(defaults, url, custom, store, requestHs, responseHs, imp, fetch);
      && (c.dispatched.Some? ==> imp.makeFullUrl(url, Get(o.baseURL), Get(o.params)) == Normal(c.dispatched.value.0))
      && (imp.makeFullUrl(url, Get(o.baseURL), Get(o.params)).Abrupt? ==>
            c == Call(store, None, Abrupt(imp.makeFullUrl(url, Get(o.baseURL), Get(o.params)).thrown)))
  {
  }

  /** The fold only consults fulfilled handlers. */
  lemma {:induction false} FoldIgnoresRejected(hs: RequestHandlers, gs: RequestHandlers, o: Config, s: Store)
    requires SameFulfilled(hs, gs)
    ensures RunRequestFulfilled(hs, o, s) == RunRequestFulfilled(gs, o, s)
    decreases |hs|
  {
    if hs != [] {
      assert SameFulfilled(hs[1..], gs[1..]) by {
        forall i | 0 <= i < |hs| - 1 ensures hs[1..][i] == hs[i + 1] && gs[1..][i] == gs[i + 1] {}
      }
      FoldIgnoresRejected(hs[1..], gs[1..], o, s);
      if hs[0].fulfilled.Some? {
        var (s', c) := hs[0].fulfilled.value(o, s);
        if c.Normal? {
          FoldIgnoresRejected(hs[1..], gs[1..], c.value, s');
        }
      }
    }
  }

  /** Everything that fails before `fetch` (the URL, a throwing request
      interceptor, JSON detection of null data, the body) escapes the
      `try`: no rejected interceptor sees it, so changing the request-rejected
      handlers changes nothing about such a call. */
  lemma FailuresBeforeFetchSkipRejected(defaults: Config, url: string, custom: Config, store: Store,
                                        requestHs: RequestHandlers, otherHs: RequestHandlers, responseHs: ResponseHandlers,
                                        imp: Imports, fetch: (string, NativeInit) -> TransportOutcome)
    requires SameFulfilled(requestHs, otherHs)
    ensures var c := RequestSpec(defaults, url, custom, store, requestHs, responseHs, imp, fetch);
      && c.dispatched == RequestSpec(defaults, url, custom, store, otherHs, responseHs, imp, fetch).dispatched
      && (c.dispatched.None? ==> c.result.Abrupt? && c == RequestSpec(defaults, url, custom, store, otherHs, responseHs, imp, fetch))
  {
    FoldIgnoresRejected(requestHs, otherHs, Spread(defaults, custom), store);
  }

  /** The request interceptor of the tests: `config => { config.method = m; return config }`. */
  function SetMethod(m: string): RequestStep {
    (o: Config, s: Store) => (s, Normal(o.(httpMethod := Own(Is(m)))))
  }

  /** A request interceptor can change the method after the shortcut set it:
      `get` with an interceptor setting `post` dispatches `POST`. */
  lemma InterceptorSetsMethod(defaults: Config, url: string, custom: Config, store: Store,
                              responseHs: ResponseHandlers, imp: Imports, fetch: (string, NativeInit) -> TransportOutcome)
    ensures var c := RequestSpec(defaults, url, ShortcutOptions(GetVerb, Undefined, custom), store,
                                 [Handler(0, Some(SetMethod("post")), None)], responseHs, imp, fetch);
      c.dispatched.Some? ==> c.dispatched.value.1.httpMethod == "POST"
  {
    var hs := [Handler(0, Some(SetMethod("post")), None)];
    var o := Spread(defaults, ShortcutOptions(GetVerb, Undefined, custom));
    assert RunRequestFulfilled(hs, o, store) == (store, Normal(o.(httpMethod := Own(Is("post"))))) by {
      assert hs[1..] == [];
    }
    assert ToUpperCase("post") == "POST";
  }

  /** Without request interceptors, a shortcut dispatches its verb upper-cased,
      whatever method the caller's options or the defaults named. */
  lemma ShortcutDispatchesVerb(verb: Verb, data: Js<Value>, defaults: Config, url: string, custom: Config, store: Store,
                               responseHs: ResponseHandlers, imp: Imports, fetch: (string, NativeInit) -> TransportOutcome)
    ensures var c := RequestSpec(defaults, url, ShortcutOptions(verb, data, custom), store, [], responseHs, imp, fetch);
      c.dispatched.Some? ==> c.dispatched.value.1.httpMethod == ToUpperCase(VerbName(verb))
  {
    ShortcutMethod(verb, data, custom, defaults);
    var o := Spread(defaults, ShortcutOptions(verb, data, custom));
    var c := RequestSpec(defaults, url, ShortcutOptions(verb, data, custom), store, [], responseHs, imp, fetch);
    if c.dispatched.Some? {
      var (s2, c2) := DefaultContentType(o, store, imp.isJsonContent);
      assert c2.value.httpMethod == o.httpMethod;
    }
  }

  /** The content-type tests: for a call whose own headers object holds an
      undefined `content-type`, the dispatched content-type follows the data
      (`application/json` for JSON-like data, `text/plain` otherwise) and is
      written into the caller's object; a content-type the caller set, even
      `''`, is sent as it is. */
  lemma ContentTypeSent(defaults: Config, url: string, custom: Config, store: Store, ref: Ref,
                        responseHs: ResponseHandlers, imp: Imports, fetch: (string, NativeInit) -> TransportOutcome)
    requires StoreValid(store) && ref in store.objects
    requires custom.headers == Own(Is(ref))
    requires imp.isJsonContent(Get(Spread(defaults, custom).data)).Normal?
    requires imp.makeFullUrl(url, Get(Spread(defaults, custom).baseURL), Get(Spread(defaults, custom).params)).Normal?
    ensures var c := RequestSpec(defaults, url, custom, store, [], responseHs, imp, fetch);
      var before := ContentTypeEntry(Lookup(store, ref));
      var sent := if before != Undefined then before
        else Is(if imp.isJsonContent(Get(Spread(defaults, custom).data)).value then "application/json" else "text/plain");
      && (c.dispatched.Some? ==> ContentTypeEntry(c.dispatched.value.1.headers.value) == sent)
      && ContentTypeEntry(Lookup(c.store, ref)) == sent
  {
    var o := Spread(defaults, custom);
    DefaultContentTypeContract(o, store, imp.isJsonContent);
    var (s2, c2) := DefaultContentType(o, store, imp.isJsonContent);
    DispatchedHeadersAreStored(c2.value, s2, imp);
  }

  /** The in-place write reaches the instance defaults: when the call has no
      headers of its own and the default headers object has no content-type,
      the pipeline writes the content-type chosen for this call's data into
      the defaults' object, and a later call with different data sends that
      same content-type. */
  lemma DefaultsWriteThrough(defaults: Config, url: string, first: Config, second: Config, store: Store, ref: Ref,
                             responseHs: ResponseHandlers, imp: Imports, fetch: (string, NativeInit) -> TransportOutcome)
    requires StoreValid(store) && ref in store.objects && "content-type" !in Lookup(store, ref)
    requires defaults.headers == Own(Is(ref)) && first.headers.Absent? && second.headers.Absent?
    requires imp.isJsonContent(Get(Spread(defaults, first).data)) == Normal(true)
    requires imp.makeFullUrl(url, Get(Spread(defaults, first).baseURL), Get(Spread(defaults, first).params)).Normal?
    ensures var c1 := RequestSpec(defaults, url, first, store, [], responseHs, imp, fetch);
      && ContentTypeEntry(Lookup(c1.store, ref)) == Is("application/json")
      && var c2 := RequestSpec(defaults, url, second, c1.store, [], responseHs, imp, fetch);
         c2.dispatched.Some? ==> ContentTypeEntry(c2.dispatched.value.1.headers.value) == Is("application/json")
  {
    var o1 := Spread(defaults, first);
    DefaultContentTypeContract(o1, store, imp.isJsonContent);
    var c1 := RequestSpec(defaults, url, first, store, [], responseHs, imp, fetch);
    var (s1, d1) := DefaultContentType(o1, store, imp.isJsonContent);
    assert c1.store == s1;
    var o2 := Spread(defaults, second);
    DefaultContentTypeContract(o2, s1, imp.isJsonContent);
    var (s2, d2) := DefaultContentType(o2, s1, imp.isJsonContent);
    if d2.Normal? {
      DispatchedHeadersAreStored(d2.value, s2, imp);
    }
  }

  /** Without interceptors a dispatched call resolves exactly when the status
      is ok, and then with the parsed body and, as `config`, the call's own
      options (not the merged ones); otherwise it rejects with the transport's
      reason or `Error(statusText)`. */
  lemma PlainCall(defaults: Config, url: string, custom: Config, store: Store, imp: Imports,
                  fetch: (string, NativeInit) -> TransportOutcome)
    ensures var c := RequestSpec(defaults, url, custom, store, [], [], imp, fetch);
      c.dispatched.Some? ==>
        var outcome := fetch(c.dispatched.value.0, c.dispatched.value.1);
        && (c.result.Normal? <==> outcome.Responded? && outcome.response.Ok())
        && (c.result.Normal? ==>
              (c.result.value.config == custom
               && c.result.value.data == ParseIncludes(outcome.response)
               && c.result.value.status == outcome.response.status))
        && (outcome.Responded? && !outcome.response.Ok() ==> c.result == Abrupt(NonOkError(outcome.response)))
  {
    var c := RequestSpec(defaults, url, custom, store, [], [], imp, fetch);
    if c.dispatched.Some? {
      NoInterceptors<Config, RequestStep>(fetch(c.dispatched.value.0, c.dispatched.value.1), custom, ParseIncludes);
    }
  }

  /** With the definitions of src/request.ts for the imports, JSON-like data
      sent with an undefined content-type goes as a JSON body under
      `application/json`. */
  lemma JsonBodyWithCurrentImports(p: Url.UrlPrimitives, defaults: Config, url: string, custom: Config, store: Store,
                                   ref: Ref, responseHs: ResponseHandlers, fetch: (string, NativeInit) -> TransportOutcome)
    requires StoreValid(store) && ref in store.objects && ContentTypeEntry(Lookup(store, ref)) == Undefined
    requires custom.headers == Own(Is(ref))
    requires var d := Get(Spread(defaults, custom).data); d.Is? && d.value.Obj? && !d.value.hasAppend && !d.value.hasText
    ensures var c := RequestSpec(defaults, url, custom, store, [], responseHs, Current(p), fetch);
      c.dispatched.Some? ==>
        && c.dispatched.value.1.body == JsonOf(Get(Spread(defaults, custom).data))
        && ContentTypeEntry(c.dispatched.value.1.headers.value) == Is("application/json")
  {
    var o := Spread(defaults, custom);
    if Current(p).makeFullUrl(url, Get(o.baseURL), Get(o.params)).Normal? {
      ContentTypeSent(defaults, url, custom, store, ref, responseHs, Current(p), fetch);
    }
  }

  /** The header objects of a program. */
  class Heap {
    var store: Store

    constructor ()
      ensures store == Store(map[], 0)
    {
      store := Store(map[], 0);
    }

    /** A new header object literal. */
    method NewHeaders(h: HeaderMap) returns (r: Ref)
      modifies this
      ensures (store, r) == Alloc(old(store), h)
    {
      r := store.next;
      store := Store(store.objects[r := h], store.next + 1);
    }
  }

  /** The object `create(defaultRequestOption)` returns. */
  class Client {
    const defaults: Config
    const imports: Imports
    const heap: Heap
    const requestInterceptors: InterceptorManager<RequestStep, RejectedHandler>
    const responseInterceptors: InterceptorManager<ResponseStep<Config>, RejectedHandler>

    /** `create(defaultRequestOption)`: two new, empty managers. */
    constructor (defaults: Config, imports: Imports, heap: Heap)
      ensures this.defaults == defaults && this.imports == imports && this.heap == heap
      ensures fresh(requestInterceptors) && fresh(responseInterceptors)
      ensures requestInterceptors.Valid() && requestInterceptors.handlers == [] && requestInterceptors.nextId == 0
      ensures responseInterceptors.Valid() && responseInterceptors.handlers == [] && responseInterceptors.nextId == 0
    {
      this.defaults := defaults;
      this.imports := imports;
      this.heap := heap;
      requestInterceptors := new InterceptorManager();
      responseInterceptors := new InterceptorManager();
    }

    /** `request(url, customOptions)`, step by step. */
    method Request(url: string, custom: Config, fetch: (string, NativeInit) -> TransportOutcome)
      returns (dispatched: Option<(string, NativeInit)>, result: Completion<Response<Config>>)
      modifies heap
      ensures Call(heap.store, dispatched, result) ==
        RequestSpec(defaults, url, custom, old(heap.store), requestInterceptors.handlers, responseInterceptors.handlers, imports, fetch)
    {
      dispatched := None;
      var requestHs := requestInterceptors.handlers;
      var options := Spread(defaults, custom);
      var fullUrl := imports.makeFullUrl(url, Get(options.baseURL), Get(options.params));
      if fullUrl.Abrupt? {
        result := Abrupt(fullUrl.thrown);
        return;
      }

      // Request-fulfilled interceptors, in order.
      ghost var start := heap.store;
      var i := 0;
      while i < |requestHs|
        invariant 0 <= i <= |requestHs|
        invariant RunRequestFulfilled(requestHs[i..], options, heap.store) == RunRequestFulfilled(requestHs, Spread(defaults, custom), start)
      {
        assert requestHs[i..][1..] == requestHs[i + 1..];
        if requestHs[i].fulfilled.Some? {
          var (s', c) := requestHs[i].fulfilled.value(options, heap.store);
          heap.store := s';
          if c.Abrupt? {
            result := Abrupt(c.thrown);
            return;
          }
          options := c.value;
        }
        i := i + 1;
      }
      ghost var afterFold := heap.store;
      ghost var folded := options;

      // Default content-type, written into the headers object.
      if !Get(options.headers).Is? {
        var r := heap.NewHeaders(map[]);
        options := options.(headers := Own(Is(r)));
      }
      var ref := Get(options.headers).value;
      var h := Lookup(heap.store, ref);
      if ContentTypeEntry(h) == Undefined {
        var json := imports.isJsonContent(Get(options.data));
        if json.Abrupt? {
          result := Abrupt(json.thrown);
          return;
        }
        heap.store := Write(heap.store, ref, h["content-type" := Is(if json.value then "application/json" else "text/plain")]);
      }
      assert DefaultContentType(folded, afterFold, imports.isJsonContent) == (heap.store, Normal(options));

      var init := NativeConfig(options, heap.store, imports);
      if init.Abrupt? {
        result := Abrupt(init.thrown);
        return;
      }
      dispatched := Some((fullUrl.value, init.value));
      result := SettleLoop(fetch(fullUrl.value, init.value), custom, requestHs, responseInterceptors.handlers, ParseIncludes);
    }

    /** The shortcut methods: `request(url, { ...customOptions, [data,] method })`. */
    method Shortcut(verb: Verb, url: string, data: Js<Value>, custom: Config, fetch: (string, NativeInit) -> TransportOutcome)
      returns (dispatched: Option<(string, NativeInit)>, result: Completion<Response<Config>>)
      modifies heap
      ensures Call(heap.store, dispatched, result) ==
        RequestSpec(defaults, url, ShortcutOptions(verb, data, custom), old(heap.store),
                    requestInterceptors.handlers, responseInterceptors.handlers, imports, fetch)
    {
      dispatched, result := Request(url, ShortcutOptions(verb, data, custom), fetch);
    }
  }
}
