/** The records the request pipelines pass around (src/type.ts): request
    options, the library's response, the shapes of the interceptor handlers,
    and the shortcut methods shared by src/sasaxios.ts and src/sasaxios.js. */
module Types {
  import opened Platform
  import opened ResponseParse

  /** A request options object (`SasaxiosRequest`). Every field is an own
      property or not; `baseUrl` is the key the older pipeline reads, `signal`
      and `timeout` the keys src/request.ts reads. H is what a `headers`
      property holds: a header record, or a reference to a shared one. */
  datatype Options<H> = Options(
    httpMethod: Prop<string>,
    baseURL: Prop<string>,
    baseUrl: Prop<string>,
    headers: Prop<H>,
    params: Prop<Value>,
    data: Prop<Value>,
    withCredentials: Prop<bool>,
    signal: Prop<Value>,
    timeout: Prop<Value>)

  /** The object literal `{}`. */
  function Empty<H>(): Options<H> {
    Options(Absent, Absent, Absent, Absent, Absent, Absent, Absent, Absent, Absent)
  }

  /** The spread rule for one key: an own key of the right side wins, even one
      holding undefined; otherwise the left side's property is kept. */
  ghost predicate SpreadKey<T>(r: Prop<T>, a: Prop<T>, b: Prop<T>) {
    (b.Own? ==> r == b) && (b.Absent? ==> r == a)
  }

  /** `{ ...a, ...b }`, key by key. */
  function Spread<H>(a: Options<H>, b: Options<H>): (r: Options<H>)
    ensures SpreadKey(r.httpMethod, a.httpMethod, b.httpMethod) && SpreadKey(r.baseURL, a.baseURL, b.baseURL)
    ensures SpreadKey(r.baseUrl, a.baseUrl, b.baseUrl) && SpreadKey(r.headers, a.headers, b.headers)
    ensures SpreadKey(r.params, a.params, b.params) && SpreadKey(r.data, a.data, b.data)
    ensures SpreadKey(r.withCredentials, a.withCredentials, b.withCredentials)
    ensures SpreadKey(r.signal, a.signal, b.signal) && SpreadKey(r.timeout, a.timeout, b.timeout)
  {
    Options(
      Override(a.httpMethod, b.httpMethod),
      Override(a.baseURL, b.baseURL),
      Override(a.baseUrl, b.baseUrl),
      Override(a.headers, b.headers),
      Override(a.params, b.params),
      Override(a.data, b.data),
      Override(a.withCredentials, b.withCredentials),
      Override(a.signal, b.signal),
      Override(a.timeout, b.timeout))
  }

  /** Spreading is a top-level override: every own key of the right side wins,
      even one holding undefined, and a right-side `headers` replaces the left
      one wholesale; keys the right side lacks come from the left. `{}` is a
      unit on either side. */
  lemma SpreadOverrides<H>(a: Options<H>, b: Options<H>)
    ensures b.headers.Own? ==> Spread(a, b).headers == b.headers
    ensures b.headers.Absent? ==> Spread(a, b).headers == a.headers
    ensures b.data == Own(Undefined) ==> Get(Spread(a, b).data) == Undefined
    ensures b.httpMethod.Own? ==> Get(Spread(a, b).httpMethod) == Get(b.httpMethod)
    ensures Spread(a, Empty()) == a && Spread(Empty(), b) == b
  {
  }

  /** The response object a pipeline resolves with (`SasaxiosResponse`); O is
      the type of `config`. */
  datatype Response<O> = Response(data: Payload, status: int, statusText: string, headers: map<string, string>, config: O)

  /** What a rejected handler does with the error it is given: it may assign a
      new `message` (effective only on an Error object), and it then returns a
      value or throws. */
  datatype Reaction = Reaction(setMessage: Option<string>, result: Completion<Js<Value>>)

  /** A rejected interceptor. */
  type RejectedHandler = Thrown -> Reaction

  /** A response-fulfilled interceptor: the state it leaves the response object
      in, or what it throws. Its return value is discarded by the pipelines,
      so it does not appear. */
  type ResponseStep<!O> = Response<O> -> Completion<Response<O>>

  /** `e.message = m` on the thrown value, if it is an Error object. */
  function WithMessage(e: Thrown, m: Option<string>): (r: Thrown)
    ensures r.ErrorObject? <==> e.ErrorObject?
    ensures r.ErrorObject? ==> r.name == e.name && r.cause == e.cause
    ensures r.ErrorObject? && m.Some? ==> r.message == m.value
    ensures m.None? || e.Other? ==> r == e
  {
    if m.Some? && e.ErrorObject? then e.(message := m.value) else e
  }

  /** `option.method?.toUpperCase() || 'GET'`. */
  function NativeMethod(m: Js<string>): (r: string)
    ensures r != []
    ensures forall i :: 0 <= i < |r| ==> !('a' <= r[i] <= 'z')
    ensures TruthyString(m) ==> r == ToUpperCase(m.value)
    ensures !TruthyString(m) ==> r == "GET"
  {
    if m.Is? && ToUpperCase(m.value) != "" then ToUpperCase(m.value) else "GET"
  }

  /** The shortcut methods of an instance. */
  datatype Verb = GetVerb | PostVerb | PutVerb | PatchVerb | DeleteVerb | HeadVerb | OptionsVerb

  /** The method name a shortcut writes, in the lower case of `SasaxiosRequest`. */
  function VerbName(v: Verb): string {
    match v
    case GetVerb => "get"
    case PostVerb => "post"
    case PutVerb => "put"
    case PatchVerb => "patch"
    case DeleteVerb => "delete"
    case HeadVerb => "head"
    case OptionsVerb => "options"
  }

  /** The shortcuts that take a positional `data` argument. */
  predicate TakesData(v: Verb) {
    v == PostVerb || v == PutVerb || v == PatchVerb
  }

  /** The options a shortcut hands to `request`: `{ ...customOptions, method }`,
      with `data` between them for post, put and patch. `data` is the
      positional argument, undefined when omitted; the other verbs ignore it. */
  function ShortcutOptions<H>(v: Verb, data: Js<Value>, custom: Options<H>): (r: Options<H>)
    ensures r.httpMethod == Own(Is(VerbName(v)))
    ensures TakesData(v) ==> r.data == Own(data)
    ensures !TakesData(v) ==> r.data == custom.data
    ensures r.(httpMethod := custom.httpMethod, data := custom.data) == custom
  {
    var withData := if TakesData(v) then custom.(data := Own(data)) else custom;
    withData.(httpMethod := Own(Is(VerbName(v))))
  }

  /** Whatever the caller's options and the instance defaults say, the merged
      options of a shortcut carry its method, which the native config
      upper-cases; a body verb called without data overrides any default data
      with undefined. */
  lemma ShortcutMethod<H>(v: Verb, data: Js<Value>, custom: Options<H>, defaults: Options<H>)
    ensures NativeMethod(Get(Spread(defaults, ShortcutOptions(v, data, custom)).httpMethod)) == ToUpperCase(VerbName(v))
    ensures TakesData(v) && data == Undefined ==> Get(Spread(defaults, ShortcutOptions(v, data, custom)).data) == Undefined
  {
    assert VerbName(v) != "";
  }
}
