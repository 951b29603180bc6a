/** The request helpers of src/request.ts: option merging, content-type
    defaulting, duck-typed JSON detection, the body choice and the native
    fetch configuration. Header records are values here. */
module RequestTs {
  import opened Platform
  import opened Types

  /** `c ?? d ?? fallback` for one field, stated by cases: the custom value when
      it is neither null nor undefined (so `false`, `0` and `''` win), else the
      default's under the same test, else the fallback. */
  ghost predicate Merged<T>(r: Prop<T>, c: Prop<T>, d: Prop<T>, fallback: Js<T>) {
    r == Own(if Get(c).Is? then Get(c) else if Get(d).Is? then Get(d) else fallback)
  }

  /** `c ?? d ?? fallback`. */
  function Pick<T>(c: Prop<T>, d: Prop<T>, fallback: Js<T>): Js<T> {
    Coalesce(Coalesce(Get(c), Get(d)), fallback)
  }

  /** The keys a spread of a `headers` value contributes: none for undefined or null. */
  function SpreadHeaders(h: Js<HeaderMap>): HeaderMap {
    if h.Is? then h.value else map[]
  }

  /** `mergeOptions(defaultOptions, customOptions)` (the `baseUrl` key is not
      one of its keys). */
  function MergeOptions(d: Options<HeaderMap>, c: Options<HeaderMap>): (r: Options<HeaderMap>)
    ensures Merged(r.httpMethod, c.httpMethod, d.httpMethod, Is("get"))
    ensures Merged(r.baseURL, c.baseURL, d.baseURL, Undefined)
    ensures Merged(r.params, c.params, d.params, Undefined)
    ensures Merged(r.data, c.data, d.data, Undefined)
    ensures Merged(r.withCredentials, c.withCredentials, d.withCredentials, Is(false))
    ensures Merged(r.signal, c.signal, d.signal, Undefined)
    ensures Merged(r.timeout, c.timeout, d.timeout, Undefined)
    ensures r.baseUrl == Absent
    ensures r.headers.Own? && r.headers.slot.Is?
    ensures forall k :: k in r.headers.slot.value <==> k in SpreadHeaders(Get(c.headers)) || k in SpreadHeaders(Get(d.headers))
    ensures forall k :: k in r.headers.slot.value ==>
      r.headers.slot.value[k] == if k in SpreadHeaders(Get(c.headers)) then SpreadHeaders(Get(c.headers))[k] else SpreadHeaders(Get(d.headers))[k]
  {
    Options(
      Own(Pick(c.httpMethod, d.httpMethod, Is("get"))),
      Own(Pick(c.baseURL, d.baseURL, Undefined)),
      Absent,
      Own(Is(SpreadHeaders(Get(d.headers)) + SpreadHeaders(Get(c.headers)))),
      Own(Pick(c.params, d.params, Undefined)),
      Own(Pick(c.data, d.data, Undefined)),
      Own(Pick(c.withCredentials, d.withCredentials, Is(false))),
      Own(Pick(c.signal, d.signal, Undefined)),
      Own(Pick(c.timeout, d.timeout, Undefined)))
  }

  /** Only null and undefined give way: an explicit `false`, `0` or `''` in the
      custom options beats the default, and a custom null does not. */
  lemma ExplicitFalsyWins(d: Options<HeaderMap>, c: Options<HeaderMap>)
    ensures c.withCredentials == Own(Is(false)) ==> Get(MergeOptions(d, c).withCredentials) == Is(false)
    ensures c.data == Own(Is(Num(0))) ==> Get(MergeOptions(d, c).data) == Is(Num(0))
    ensures c.baseURL == Own(Is("")) ==> Get(MergeOptions(d, c).baseURL) == Is("")
    ensures c.data == Own(Null) && Get(d.data).Is? ==> Get(MergeOptions(d, c).data) == Get(d.data)
    ensures c.data == Own(Null) && !Get(d.data).Is? ==> Get(MergeOptions(d, c).data) == Undefined
  {
  }

  /** Two options objects Jest's `toEqual` cannot tell apart: every key reads
      the same, an undefined-valued key counting as missing. */
  ghost predicate Observed(a: Options<HeaderMap>, b: Options<HeaderMap>) {
    && Get(a.httpMethod) == Get(b.httpMethod)
    && Get(a.baseURL) == Get(b.baseURL)
    && Get(a.baseUrl) == Get(b.baseUrl)
    && Get(a.headers) == Get(b.headers)
    && Get(a.params) == Get(b.params)
    && Get(a.data) == Get(b.data)
    && Get(a.withCredentials) == Get(b.withCredentials)
    && Get(a.signal) == Get(b.signal)
    && Get(a.timeout) == Get(b.timeout)
  }

  /** The minimal option set of `mergeOptions({}, {})`: method `get`, empty
      headers, credentials off, nothing else. */
  lemma MergeEmpty()
    ensures Observed(MergeOptions(Empty(), Empty()),
      Empty<HeaderMap>().(httpMethod := Own(Is("get")), headers := Own(Is(map[])), withCredentials := Own(Is(false))))
  {
  }

  /** Options already in merged form: a method, a credentials flag and a header
      record, no null anywhere and no `baseUrl`. */
  ghost predicate Complete(o: Options<HeaderMap>) {
    && Get(o.httpMethod).Is? && Get(o.withCredentials).Is? && Get(o.headers).Is?
    && Get(o.baseURL) != Null && Get(o.params) != Null && Get(o.data) != Null
    && Get(o.signal) != Null && Get(o.timeout) != Null && Get(o.baseUrl) == Undefined
  }

  /** Merging complete options with `{}`, on either side, gives them back. */
  lemma MergeWithEmpty(o: Options<HeaderMap>)
    requires Complete(o)
    ensures Observed(MergeOptions(o, Empty()), o)
    ensures Observed(MergeOptions(Empty(), o), o)
  {
    assert Get(o.headers).value + map[] == Get(o.headers).value;
    assert map[] + Get(o.headers).value == Get(o.headers).value;
  }

  /** `isJSONContent(data)`: `typeof data === 'object'` and neither `append`
      nor `text` is a function. Reading `append` of null throws. */
  function IsJsonContent(data: Js<Value>): (r: Completion<bool>)
    ensures r.Abrupt? <==> data == Null
    ensures r == Normal(true) <==> data.Is? && data.value.Obj? && !data.value.hasAppend && !data.value.hasText
  {
    match data
    case Null => Abrupt(TypeError("Cannot read properties of null (reading 'append')"))
    case Undefined => Normal(false)
    case Is(Obj(_, hasAppend, hasText)) => Normal(!hasAppend && !hasText)
    case Is(_) => Normal(false)
  }

  /** JSON-like data is an object without `append` (FormData, URLSearchParams)
      and without `text` (Blob, Response); strings, numbers, booleans and
      undefined never are. */
  lemma JsonLikeIsPlainObject(data: Js<Value>)
    ensures IsJsonContent(data) == Normal(true) ==> Truthy(data)
    ensures data.Is? && !data.value.Obj? ==> IsJsonContent(data) == Normal(false)
  {
  }

  /** `makeRequestBody(data)`: undefined for falsy data (null included, so it
      never throws), JSON text for JSON-like data, the data itself otherwise. */
  function MakeRequestBody(data: Js<Value>): (b: Body)
    ensures !Truthy(data) ==> b == Data(Undefined)
    ensures b.JsonOf? <==> IsJsonContent(data) == Normal(true)
    ensures b.JsonOf? ==> b.v == data
    ensures Truthy(data) && IsJsonContent(data) != Normal(true) ==> b == Data(data)
    ensures !b.StringOf?
  {
    if !Truthy(data) then Data(Undefined)
    else if IsJsonContent(data) == Normal(true) then JsonOf(data)
    else Data(data)
  }

  /** The body tests: undefined and null give no body, a string is sent as it
      is, an object as JSON. */
  lemma BodySamples(obj: Value)
    requires obj.Obj? && !obj.hasAppend && !obj.hasText
    ensures MakeRequestBody(Undefined) == Data(Undefined) && MakeRequestBody(Null) == Data(Undefined)
    ensures MakeRequestBody(Is(Str("foo"))) == Data(Is(Str("foo")))
    ensures MakeRequestBody(Is(obj)) == JsonOf(Is(obj))
  {
  }

  /** `makeNativeRequestConfig(options)`. The signal is the caller's when truthy;
      otherwise that of a controller armed with `timeout` when it is truthy;
      otherwise none. */
  function MakeNativeRequestConfig(o: Options<HeaderMap>): (r: NativeInit)
    ensures r.httpMethod == NativeMethod(Get(o.httpMethod))
    ensures r.body == MakeRequestBody(Get(o.data))
    ensures r.headers == Get(o.headers)
    ensures r.credentials == Include <==> TruthyBool(Get(o.withCredentials))
    ensures r.credentials != Omit
    ensures r.signal.CallerSignal? <==> Truthy(Get(o.signal))
    ensures r.signal.CallerSignal? ==> r.signal.v == Get(o.signal).value
    ensures r.signal.TimeoutSignal? <==> !Truthy(Get(o.signal)) && Truthy(Get(o.timeout))
    ensures r.signal.TimeoutSignal? ==> r.signal.ms == Get(o.timeout).value
  {
    var signal :=
      if Truthy(Get(o.signal)) then CallerSignal(Get(o.signal).value)
      else if Truthy(Get(o.timeout)) then TimeoutSignal(Get(o.timeout).value)
      else NoSignal;
    NativeInit(
      NativeMethod(Get(o.httpMethod)),
      MakeRequestBody(Get(o.data)),
      Get(o.headers),
      if TruthyBool(Get(o.withCredentials)) then Include else SameOrigin,
      signal)
  }

  /** The native-config tests: no method gives `GET`, object data a JSON body,
      and the credentials flag `include` or `same-origin`. */
  lemma NativeConfigSamples(obj: Value)
    requires obj.Obj? && !obj.hasAppend && !obj.hasText
    ensures MakeNativeRequestConfig(Empty()).httpMethod == "GET"
    ensures MakeNativeRequestConfig(Empty<HeaderMap>().(data := Own(Is(obj)))).body == JsonOf(Is(obj))
    ensures MakeNativeRequestConfig(Empty<HeaderMap>().(withCredentials := Own(Is(true)))).credentials == Include
    ensures MakeNativeRequestConfig(Empty<HeaderMap>().(withCredentials := Own(Is(false)))).credentials == SameOrigin
  {
  }

  /** What `setContentTypeHeader(options)` leaves in `options`, and the error it
      throws, if any. Missing headers are first replaced by `{}`; a truthy
      content-type is then kept; otherwise it becomes `application/json` for
      JSON-like data and `text/plain` for other data. Null data makes
      `isJSONContent` throw after the headers object was added. */
  function ContentTypeSet(o: Options<HeaderMap>): (r: (Options<HeaderMap>, Option<Thrown>))
    ensures Get(r.0.headers).Is?
    ensures r.1.None? ==> TruthyString(ContentTypeEntry(Get(r.0.headers).value))
    ensures r.1.Some? ==> Get(o.data) == Null && r.1.value == IsJsonContent(Null).thrown
    ensures r.0.(headers := o.headers) == o
  {
    var withHeaders := if Get(o.headers).Is? then o else o.(headers := Own(Is(map[])));
    var h := Get(withHeaders.headers).value;
    if TruthyString(ContentTypeEntry(h)) then (withHeaders, None)
    else match IsJsonContent(Get(o.data))
      case Abrupt(t) => (withHeaders, Some(t))
      case Normal(json) =>
        (withHeaders.(headers := Own(Is(h["content-type" := Is(if json then "application/json" else "text/plain")]))), None)
  }

  /** The contract of `setContentTypeHeader`: afterwards a header record
      exists and, unless it threw, its content-type is truthy: the old one
      when that was truthy, else chosen by `isJSONContent`; every other header
      and every other field is untouched. It throws only for null data
      without a truthy content-type. */
  lemma ContentTypeSetContract(o: Options<HeaderMap>)
    ensures var (r, thrown) := ContentTypeSet(o);
      && Get(r.headers).Is?
      && r.(headers := o.headers) == o
      && (thrown.Some? <==> Get(o.data) == Null && !(Get(o.headers).Is? && TruthyString(ContentTypeEntry(Get(o.headers).value))))
      && (thrown.None? ==> TruthyString(ContentTypeEntry(Get(r.headers).value)))
      && (Get(o.headers).Is? && TruthyString(ContentTypeEntry(Get(o.headers).value)) ==> r == o && thrown.None?)
      && (thrown.None? && !(Get(o.headers).Is? && TruthyString(ContentTypeEntry(Get(o.headers).value))) ==>
            ContentTypeEntry(Get(r.headers).value) ==
              Is(if IsJsonContent(Get(o.data)) == Normal(true) then "application/json" else "text/plain"))
      && (forall k :: k != "content-type" ==>
            (k in Get(r.headers).value <==> k in SpreadHeaders(Get(o.headers)))
            && (k in Get(r.headers).value ==> Get(r.headers).value[k] == SpreadHeaders(Get(o.headers))[k]))
  {
  }

  /** The defaulting tests: a set content-type is kept, object data gets
      `application/json` and string data `text/plain`. */
  lemma ContentTypeSamples(obj: Value)
    requires obj.Obj? && !obj.hasAppend && !obj.hasText
    ensures var o := Empty<HeaderMap>().(headers := Own(Is(map["content-type" := Is("text/html")])));
      ContentTypeSet(o) == (o, None)
    ensures ContentTypeSet(Empty<HeaderMap>().(data := Own(Is(obj)))).0.headers == Own(Is(map["content-type" := Is("application/json")]))
    ensures ContentTypeSet(Empty<HeaderMap>().(data := Own(Is(Str("foo"))))).0.headers == Own(Is(map["content-type" := Is("text/plain")]))
  {
  }

  /** An options object that `setContentTypeHeader` updates in place. */
  class OptionsObject {
    var options: Options<HeaderMap>

    constructor (options: Options<HeaderMap>)
      ensures this.options == options
    {
      this.options := options;
    }

    /** `setContentTypeHeader(this)`; the result is the thrown error, if any. */
    method SetContentTypeHeader() returns (thrown: Option<Thrown>)
      modifies this
      ensures (options, thrown) == ContentTypeSet(old(options))
    {
      thrown := None;
      if !Get(options.headers).Is? {
        options := options.(headers := Own(Is(map[])));
      }
      var h := Get(options.headers).value;
      if TruthyString(ContentTypeEntry(h)) {
        return;
      }
      var json := IsJsonContent(Get(options.data));
      if json.Abrupt? {
        thrown := Some(json.thrown);
        return;
      }
      if json.value {
        options := options.(headers := Own(Is(h["content-type" := Is("application/json")])));
      } else {
        options := options.(headers := Own(Is(h["content-type" := Is("text/plain")])));
      }
    }
  }
}
