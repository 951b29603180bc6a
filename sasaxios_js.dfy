/** `create(defaultRequestOption)` of src/sasaxios.js, the compiled build of
    an earlier revision of the pipeline. It builds the URL with the `baseUrl`
    key, sets no default content-type, hands `options.headers` to `fetch` as
    they are, chooses the body with the two-argument `makeRequestBody` and
    parses responses with the exact-match dispatch of src/nativeResponse.js.
    Nothing is written in place, so options are plain values here. */
module SasaxiosJs {
  import opened Platform
  import opened Types
  import opened Interceptor
  import opened ResponseParse
  import opened Chains
  import opened UrlJs
  import opened RequestBody
  import Url

  /** A request options object of this pipeline. */
  type Config = Options<HeaderMap>

  /** A request-fulfilled interceptor: the options the loop continues with, or a throw. */
  type RequestStep = Config -> Completion<Config>

  type RequestHandlers = seq<Handler<RequestStep, RejectedHandler>>
  type ResponseHandlers = seq<Handler<ResponseStep<Config>, RejectedHandler>>

  /** `for (...) if (interceptor.fulfilled) options = await interceptor.fulfilled(options)`. */
  function RunRequestFulfilled(hs: RequestHandlers, o: Config): Completion<Config>
    decreases |hs|
  {
    if hs == [] then Normal(o)
    else if hs[0].fulfilled.None? then RunRequestFulfilled(hs[1..], o)
    else match hs[0].fulfilled.value(o)
      case Abrupt(t) => Abrupt(t)
      case Normal(o') => RunRequestFulfilled(hs[1..], o')
  }

  /** The fold runs in array order, and a throw stops the rest. */
  lemma {:induction false} RequestFulfilledInOrder(a: RequestHandlers, b: RequestHandlers, o: Config)
    ensures RunRequestFulfilled(a + b, o) ==
      match RunRequestFulfilled(a, o)
      case Abrupt(t) => Abrupt(t)
      case Normal(o') => RunRequestFulfilled(b, o')
    decreases |a|
  {
    if a == [] {
      assert a + b == b;
    } else {
      assert (a + b)[1..] == a[1..] + b;
      RequestFulfilledInOrder(a[1..], b, o);
      if a[0].fulfilled.Some? && a[0].fulfilled.value(o).Normal? {
        RequestFulfilledInOrder(a[1..], b, a[0].fulfilled.value(o).value);
      }
    }
  }

  /** The fold only consults fulfilled handlers. */
  lemma {:induction false} FoldIgnoresRejected(hs: RequestHandlers, gs: RequestHandlers, o: Config)
    requires SameFulfilled(hs, gs)
    ensures RunRequestFulfilled(hs, o) == RunRequestFulfilled(gs, o)
    decreases |hs|
  {
    if hs != [] {
      assert SameFulfilled(hs[1..], gs[1..]) by {
        forall i | 0 <= i < |hs| - 1 ensures hs[1..][i] == hs[i + 1] && gs[1..][i] == gs[i + 1] {}
      }
      FoldIgnoresRejected(hs[1..], gs[1..], o);
      if hs[0].fulfilled.Some? && hs[0].fulfilled.value(o).Normal? {
        FoldIgnoresRejected(hs[1..], gs[1..], hs[0].fulfilled.value(o).value);
      }
    }
  }

  /** `makeFullUrl(url, { baseUrl: options.baseUrl, params: options.params })`. */
  function FullUrl(url: string, o: Config, p: Url.UrlPrimitives): Completion<string> {
    MakeFullUrl(url, Is(FullUrlOptions(Own(Get(o.baseUrl)), Own(Get(o.params)))), p)
  }

  /** `options.headers?.['content-type'] || ''`. */
  function BodyContentType(o: Config): Js<string> {
    var ct := if Get(o.headers).Is? then ContentTypeEntry(Get(o.headers).value) else Undefined;
    if TruthyString(ct) then ct else Is("")
  }

  /** The `RequestInit` literal. */
  function NativeConfig(o: Config): Completion<NativeInit> {
    match MakeRequestBody(Get(o.data), BodyContentType(o))
    case Abrupt(t) => Abrupt(t)
    case Normal(body) =>
      Normal(NativeInit(NativeMethod(Get(o.httpMethod)), body, Get(o.headers),
                        if TruthyBool(Get(o.withCredentials)) then Include else Omit, NoSignal))
  }

  /** The literal hands the options' headers to `fetch` untouched (undefined
      stays undefined: no default content-type); it throws exactly when the
      content-type starts with `text/` and the data is undefined or null; the
      body is the data itself without a content-type, its string for `text/`
      and its JSON otherwise; the method is upper-cased (`GET` by default) and
      credentials are `include` exactly for a truthy `withCredentials`. */
  lemma NativeConfigContract(o: Config)
    ensures var c := NativeConfig(o);
      var ct := if Get(o.headers).Is? then ContentTypeEntry(Get(o.headers).value) else Undefined;
      && (c.Abrupt? <==> TruthyString(ct) && StartsWith(ct.value, "text/") && !Get(o.data).Is?)
      && (c.Normal? ==> c.value.headers == Get(o.headers) && c.value.httpMethod == NativeMethod(Get(o.httpMethod)))
      && (c.Normal? ==> (c.value.credentials == Include <==> TruthyBool(Get(o.withCredentials))) && c.value.credentials != SameOrigin)
      && (!TruthyString(ct) ==> c == Normal(NativeInit(NativeMethod(Get(o.httpMethod)), Data(Get(o.data)), Get(o.headers),
                                                    c.value.credentials, NoSignal)))
      && (TruthyString(ct) && !StartsWith(ct.value, "text/") ==> c.Normal? && c.value.body == JsonOf(Get(o.data)))
      && (TruthyString(ct) && StartsWith(ct.value, "text/") && Get(o.data).Is? ==> c.Normal? && c.value.body == StringOf(Get(o.data).value))
  {
  }

  /** What one call does: what was handed to `fetch` if it was reached, and
      how the returned promise settles. */
  datatype Call = Call(dispatched: Option<(string, NativeInit)>, result: Completion<Response<Config>>)

  /** `request(url, customOptions)`. The URL, the request-fulfilled
      interceptors and the native config throw straight to the caller; from
      `fetch` on, the chains of Chains apply. */
  function RequestSpec(defaults: Config, url: string, custom: Config, requestHs: RequestHandlers,
                       responseHs: ResponseHandlers, p: Url.UrlPrimitives,
                       fetch: (string, NativeInit) -> TransportOutcome): (c: Call)
    ensures c.dispatched.None? ==> c.result.Abrupt?
    ensures c.result.Normal? ==> c.dispatched.Some? && fetch(c.dispatched.value.0, c.dispatched.value.1).Responded?
                                 && fetch(c.dispatched.value.0, c.dispatched.value.1).response.Ok()
    ensures c.dispatched.Some? ==> c.result == Settle(fetch(c.dispatched.value.0, c.dispatched.value.1), custom, requestHs, responseHs, ParseExact)
    ensures c.dispatched.Some? ==> c.dispatched.value.1.signal == NoSignal && c.dispatched.value.1.credentials != SameOrigin
  {
    var options := Spread(defaults, custom);
    match FullUrl(url, options, p)
    case Abrupt(t) => Call(None, Abrupt(t))
    case Normal(fullUrl) =>
      match RunRequestFulfilled(requestHs, options)
      case Abrupt(t) => Call(None, Abrupt(t))
      case Normal(o) =>
        match NativeConfig(o)
        case Abrupt(t) => Call(None, Abrupt(t))
        case Normal(init) => Call(Some((fullUrl, init)), Settle(fetch(fullUrl, init), custom, requestHs, responseHs, ParseExact))
  }

  /** The URL comes from the merged options before any interceptor runs,
      from their `baseUrl` and `params` keys only. */
  lemma UrlFromBaseUrlKey(defaults: Config, url: string, custom: Config, requestHs: RequestHandlers,
                          responseHs: ResponseHandlers, p: Url.UrlPrimitives,
                          fetch: (string, NativeInit) -> TransportOutcome)
    ensures var o := Spread(defaults, custom);
      var c := RequestSpec(defaults, url, custom, requestHs, responseHs, p, fetch);
      && (c.dispatched.Some? ==> Compose(url, Get(o.baseUrl), Get(o.params), p) == Normal(c.dispatched.value.0))
      && (Compose(url, Get(o.baseUrl), Get(o.params), p).Abrupt? ==>
            c == Call(None, Abrupt(Compose(url, Get(o.baseUrl), Get(o.params), p).thrown)))
  {
  }

  /** The `baseURL` key (the one the tests set) is read by nothing here: without
      request interceptors, setting it anywhere changes nothing that is
      dispatched, and in particular a relative URL stays relative. */
  lemma BaseURLKeyIgnored(defaults: Config, url: string, custom: Config, responseHs: ResponseHandlers,
                          p: Url.UrlPrimitives, fetch: (string, NativeInit) -> TransportOutcome, other: Prop<string>, base: Prop<string>)
    ensures RequestSpec(defaults.(baseURL := other), url, custom.(baseURL := base), [], responseHs, p, fetch).dispatched ==
            RequestSpec(defaults, url, custom, [], responseHs, p, fetch).dispatched
  {
  }

  /** Everything that fails before `fetch` escapes the `try`: changing the
      request-rejected handlers changes nothing about such a call. */
  lemma FailuresBeforeFetchSkipRejected(defaults: Config, url: string, custom: Config, requestHs: RequestHandlers,
                                        otherHs: RequestHandlers, responseHs: ResponseHandlers, p: Url.UrlPrimitives,
                                        fetch: (string, NativeInit) -> TransportOutcome)
    requires SameFulfilled(requestHs, otherHs)
    ensures var c := RequestSpec(defaults, url, custom, requestHs, responseHs, p, fetch);
      && c.dispatched == RequestSpec(defaults, url, custom, otherHs, responseHs, p, fetch).dispatched
      && (c.dispatched.None? ==> c.result.Abrupt? && c == RequestSpec(defaults, url, custom, otherHs, responseHs, p, fetch))
  {
    FoldIgnoresRejected(requestHs, otherHs, Spread(defaults, custom));
  }

  /** Without request interceptors nothing is added to the caller's headers:
      a call with no headers anywhere dispatches `headers: undefined` and the
      data itself as the body, JSON-like or not. */
  lemma NoDefaultContentType(defaults: Config, url: string, custom: Config, responseHs: ResponseHandlers,
                             p: Url.UrlPrimitives, fetch: (string, NativeInit) -> TransportOutcome)
    requires defaults.headers.Absent? && custom.headers.Absent?
    ensures var c := RequestSpec(defaults, url, custom, [], responseHs, p, fetch);
      c.dispatched.Some? ==>
        c.dispatched.value.1.headers == Undefined && c.dispatched.value.1.body == Data(Get(Spread(defaults, custom).data))
  {
  }

  /** The headers a call dispatches are exactly those its options carry after
      the interceptors, and the body follows their content-type. */
  lemma HeadersPassThrough(defaults: Config, url: string, custom: Config, requestHs: RequestHandlers,
                           responseHs: ResponseHandlers, p: Url.UrlPrimitives, fetch: (string, NativeInit) -> TransportOutcome)
    ensures var c := RequestSpec(defaults, url, custom, requestHs, responseHs, p, fetch);
      c.dispatched.Some? ==>
        var o := RunRequestFulfilled(requestHs, Spread(defaults, custom)).value;
        && c.dispatched.value.1.headers == Get(o.headers)
        && c.dispatched.value.1.body == MakeRequestBody(Get(o.data), BodyContentType(o)).value
  {
  }

  /** The request interceptor of the tests: `config => { config.method = m; return config }`. */
  function SetMethod(m: string): RequestStep {
    (o: Config) => Normal(o.(httpMethod := Own(Is(m))))
  }

  /** `get` with an interceptor setting `post` dispatches `POST`. */
  lemma InterceptorSetsMethod(defaults: Config, url: string, custom: Config, responseHs: ResponseHandlers,
                              p: Url.UrlPrimitives, fetch: (string, NativeInit) -> TransportOutcome)
    ensures var c := RequestSpec(defaults, url, ShortcutOptions(GetVerb, Undefined, custom),
                                 [Handler(0, Some(SetMethod("post")), None)], responseHs, p, fetch);
      c.dispatched.Some? ==> c.dispatched.value.1.httpMethod == "POST"
  {
    var hs := [Handler(0, Some(SetMethod("post")), None)];
    var o := Spread(defaults, ShortcutOptions(GetVerb, Undefined, custom));
    assert RunRequestFulfilled(hs, o) == Normal(o.(httpMethod := Own(Is("post")))) by {
      assert hs[1..] == [];
    }
    assert ToUpperCase("post") == "POST";
  }

  /** Without request interceptors, a shortcut dispatches its verb upper-cased. */
  lemma ShortcutDispatchesVerb(verb: Verb, data: Js<Value>, defaults: Config, url: string, custom: Config,
                               responseHs: ResponseHandlers, p: Url.UrlPrimitives,
                               fetch: (string, NativeInit) -> TransportOutcome)
    ensures var c := RequestSpec(defaults, url, ShortcutOptions(verb, data, custom), [], responseHs, p, fetch);
      c.dispatched.Some? ==> c.dispatched.value.1.httpMethod == ToUpperCase(VerbName(verb))
  {
    ShortcutMethod(verb, data, custom, defaults);
  }

  /** Without interceptors a dispatched call resolves exactly when the status
      is ok, with the body read by the exact-match dispatch and the call's own
      options as `config`; a non-ok status rejects with `Error(statusText)`. */
  lemma PlainCall(defaults: Config, url: string, custom: Config, p: Url.UrlPrimitives,
                  fetch: (string, NativeInit) -> TransportOutcome)
    ensures var c := RequestSpec(defaults, url, custom, [], [], p, fetch);
      c.dispatched.Some? ==>
        var outcome := fetch(c.dispatched.value.0, c.dispatched.value.1);
        && (c.result.Normal? <==> outcome.Responded? && outcome.response.Ok())
        && (c.result.Normal? ==>
              (c.result.value.config == custom
               && c.result.value.data == ParseExact(outcome.response)
               && c.result.value.status == outcome.response.status))
        && (outcome.Responded? && !outcome.response.Ok() ==> c.result == Abrupt(NonOkError(outcome.response)))
  {
    var c := RequestSpec(defaults, url, custom, [], [], p, fetch);
    if c.dispatched.Some? {
      NoInterceptors<Config, RequestStep>(fetch(c.dispatched.value.0, c.dispatched.value.1), custom, ParseExact);
    }
  }

  /** The object `create(defaultRequestOption)` returns. */
  class Instance {
    const defaults: Config
    const primitives: Url.UrlPrimitives
    const requestInterceptors: InterceptorManager<RequestStep, RejectedHandler>
    const responseInterceptors: InterceptorManager<ResponseStep<Config>, RejectedHandler>

    /** `create(defaultRequestOption)`: two new, empty managers. */
    constructor (defaults: Config, primitives: Url.UrlPrimitives)
      ensures this.defaults == defaults && this.primitives == primitives
      ensures fresh(requestInterceptors) && fresh(responseInterceptors)
      ensures requestInterceptors.Valid() && requestInterceptors.handlers == [] && requestInterceptors.nextId == 0
      ensures responseInterceptors.Valid() && responseInterceptors.handlers == [] && responseInterceptors.nextId == 0
    {
      this.defaults := defaults;
      this.primitives := primitives;
      requestInterceptors := new InterceptorManager();
      responseInterceptors := new InterceptorManager();
    }

    /** `request(url, customOptions)`, step by step. */
    method Request(url: string, custom: Config, fetch: (string, NativeInit) -> TransportOutcome)
      returns (dispatched: Option<(string, NativeInit)>, result: Completion<Response<Config>>)
      ensures Call(dispatched, result) ==
        RequestSpec(defaults, url, custom, requestInterceptors.handlers, responseInterceptors.handlers, primitives, fetch)
    {
      dispatched := None;
      var requestHs := requestInterceptors.handlers;
      var options := Spread(defaults, custom);
      var fullUrl := FullUrl(url, options, primitives);
      if fullUrl.Abrupt? {
        result := Abrupt(fullUrl.thrown);
        return;
      }

      // Request-fulfilled interceptors, in order.
      var i := 0;
      while i < |requestHs|
        invariant 0 <= i <= |requestHs|
        invariant RunRequestFulfilled(requestHs[i..], options) == RunRequestFulfilled(requestHs, Spread(defaults, custom))
      {
        assert requestHs[i..][1..] == requestHs[i + 1..];
        if requestHs[i].fulfilled.Some? {
          var c := requestHs[i].fulfilled.value(options);
          if c.Abrupt? {
            result := Abrupt(c.thrown);
            return;
          }
          options := c.value;
        }
        i := i + 1;
      }

      var init := NativeConfig(options);
      if init.Abrupt? {
        result := Abrupt(init.thrown);
        return;
      }
      dispatched := Some((fullUrl.value, init.value));
      result := SettleLoop(fetch(fullUrl.value, init.value), custom, requestHs, responseInterceptors.handlers, ParseExact);
    }

    /** The shortcut methods: `request(url, { ...customOptions, [data,] method })`. */
    method Shortcut(verb: Verb, url: string, data: Js<Value>, custom: Config, fetch: (string, NativeInit) -> TransportOutcome)
      returns (dispatched: Option<(string, NativeInit)>, result: Completion<Response<Config>>)
      ensures Call(dispatched, result) ==
        RequestSpec(defaults, url, ShortcutOptions(verb, data, custom), requestInterceptors.handlers,
                    responseInterceptors.handlers, primitives, fetch)
    {
      dispatched, result := Request(url, ShortcutOptions(verb, data, custom), fetch);
    }
  }
}
