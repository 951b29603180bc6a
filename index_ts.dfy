/** `create(defaultRequestInit)` of src/index.ts, the early client: `request`
    passes a merged `RequestInit` straight to `fetch` and throws on a non-ok
    status; the shortcuts force the method. A `RequestInit` is a record of own
    keys here, and spreading is right-biased key union. */
module IndexTs {
  import opened Platform
  import opened Types
  import opened Chains

  /** A `RequestInit` object: its own keys and what they hold. */
  type Init = map<string, Js<Value>>

  /** `{ ...defaultRequestInit, ...init }`. */
  function Merge(defaults: Init, init: Init): (m: Init)
    ensures forall k :: k in m <==> k in defaults || k in init
    ensures forall k :: k in init ==> m[k] == init[k]
    ensures forall k :: k in defaults && k !in init ==> m[k] == defaults[k]
  {
    defaults + init
  }

  /** What one call does: the `RequestInit` handed to `fetch`, and how the
      returned promise settles. */
  datatype Call = Call(dispatched: Init, result: Completion<NativeResponse>)

  /** `request(input, init)`: the merged init goes to `fetch`; a transport
      rejection propagates, an ok response is returned as it is, with no
      decoding, and any other throws `Error(statusText)` with the response as
      its `cause`. */
  function Request(defaults: Init, input: string, init: Init, fetch: (string, Init) -> TransportOutcome): (r: Call)
    ensures r.dispatched == Merge(defaults, init)
    ensures fetch(input, r.dispatched).Rejected? ==> r.result == Abrupt(fetch(input, r.dispatched).reason)
    ensures r.result.Normal? <==> fetch(input, r.dispatched).Responded? && fetch(input, r.dispatched).response.Ok()
    ensures r.result.Normal? ==> r.result.value == fetch(input, r.dispatched).response
    ensures fetch(input, r.dispatched).Responded? && !fetch(input, r.dispatched).response.Ok() ==>
      r.result.Abrupt? && r.result.thrown.ErrorObject? && r.result.thrown.name == "Error"
      && r.result.thrown.message == fetch(input, r.dispatched).response.statusText
      && r.result.thrown.cause == Some(fetch(input, r.dispatched).response)
  {
    var m := Merge(defaults, init);
    match fetch(input, m)
    case Rejected(reason) => Call(m, Abrupt(reason))
    case Responded(response) =>
      if !response.Ok() then Call(m, Abrupt(NonOkError(response))) else Call(m, Normal(response))
  }

  /** The method a shortcut of this client writes, already upper case. */
  function MethodName(v: Verb): string {
    match v
    case GetVerb => "GET"
    case PostVerb => "POST"
    case PutVerb => "PUT"
    case PatchVerb => "PATCH"
    case DeleteVerb => "DELETE"
    case HeadVerb => "HEAD"
    case OptionsVerb => "OPTIONS"
  }

  /** These are the names the later pipelines dispatch for the same shortcut. */
  lemma MethodNamesAgree(v: Verb)
    ensures MethodName(v) == ToUpperCase(VerbName(v))
  {
    match v
    case GetVerb => assert ToUpperCase("get") == "GET";
    case PostVerb => assert ToUpperCase("post") == "POST";
    case PutVerb => assert ToUpperCase("put") == "PUT";
    case PatchVerb => assert ToUpperCase("patch") == "PATCH";
    case DeleteVerb => assert ToUpperCase("delete") == "DELETE";
    case HeadVerb => assert ToUpperCase("head") == "HEAD";
    case OptionsVerb => assert ToUpperCase("options") == "OPTIONS";
  }

  /** `get(input, init)` and the others: `request(input, { ...init, method })`. */
  function Shortcut(v: Verb, defaults: Init, input: string, init: Init, fetch: (string, Init) -> TransportOutcome): (r: Call)
    ensures "method" in r.dispatched && r.dispatched["method"] == Is(Str(MethodName(v)))
    ensures forall k :: k != "method" ==> (k in r.dispatched <==> k in defaults || k in init)
    ensures r.result.Normal? <==> fetch(input, r.dispatched).Responded? && fetch(input, r.dispatched).response.Ok()
  {
    Request(defaults, input, init["method" := Is(Str(MethodName(v)))], fetch)
  }

  /** The shortcut's method wins over a method in the call's init and in the
      defaults; every other key is dispatched as the plain `request` would. */
  lemma ShortcutForcesMethod(v: Verb, defaults: Init, input: string, init: Init, fetch: (string, Init) -> TransportOutcome)
    ensures var c := Shortcut(v, defaults, input, init, fetch);
      && "method" in c.dispatched && c.dispatched["method"] == Is(Str(MethodName(v)))
      && (forall k :: k != "method" ==>
            (k in c.dispatched <==> k in Merge(defaults, init))
            && (k in c.dispatched ==> c.dispatched[k] == Merge(defaults, init)[k]))
  {
  }

  /** The default export is `create()`: with no defaults, exactly the call's
      init is dispatched. */
  lemma DefaultInstance(input: string, init: Init, fetch: (string, Init) -> TransportOutcome)
    ensures Request(map[], input, init, fetch).dispatched == init
  {
    assert Merge(map[], init) == init;
  }

  /** The status boundaries of `ok`: 200 through 299 resolve, 199 and 300
      reject with the status text. */
  lemma StatusBoundaries(defaults: Init, input: string, init: Init, fetch: (string, Init) -> TransportOutcome,
                         headers: map<string, string>, body: string)
    ensures var r := NativeResponse(200, "OK", headers, body);
      (forall i :: fetch(input, i) == Responded(r)) ==> Request(defaults, input, init, fetch).result == Normal(r)
    ensures var r := NativeResponse(299, "", headers, body);
      (forall i :: fetch(input, i) == Responded(r)) ==> Request(defaults, input, init, fetch).result == Normal(r)
    ensures var r := NativeResponse(199, "Early", headers, body);
      (forall i :: fetch(input, i) == Responded(r)) ==> Request(defaults, input, init, fetch).result == Abrupt(ErrorObject("Error", "Early", Some(r)))
    ensures var r := NativeResponse(300, "Multiple Choices", headers, body);
      (forall i :: fetch(input, i) == Responded(r)) ==>
        Request(defaults, input, init, fetch).result == Abrupt(ErrorObject("Error", "Multiple Choices", Some(r)))
  {
  }
}
