/** The JavaScript runtime and the fetch platform, as far as the library sees them:
    values and object properties, thrown values, the records that go to and come
    back from `fetch`, and the few string operations the library calls. */
module Platform {

  datatype Option<+T> = None | Some(value: T)

  /** A JavaScript value that is neither undefined nor null. An object carries an
      identity and whether `append` and `text` are functions on it, which is all
      that the library's duck typing looks at. Numbers are integers here. */
  datatype Value =
    | Bool(b: bool)
    | Num(n: int)
    | Str(s: string)
    | Obj(id: nat, hasAppend: bool, hasText: bool)

  /** A JavaScript slot typed T: undefined, null, or a T. */
  datatype Js<+T> = Undefined | Null | Is(value: T)

  /** A property of an object: not an own key, or an own key holding a value
      that may itself be undefined. Spreading copies exactly the own keys. */
  datatype Prop<+T> = Absent | Own(slot: Js<T>)

  /** Reading a property: a missing key reads as undefined. */
  function Get<T>(p: Prop<T>): Js<T> {
    if p.Absent? then Undefined else p.slot
  }

  /** `a ?? b`: b exactly when a is null or undefined. */
  function Coalesce<T>(a: Js<T>, b: Js<T>): Js<T> {
    if a.Is? then a else b
  }

  /** One key of `{...a, ...b}`: b's own key wins, whatever it holds. */
  function Override<T>(a: Prop<T>, b: Prop<T>): Prop<T> {
    if b.Own? then b else a
  }

  /** JavaScript truthiness of an arbitrary value. */
  predicate Truthy(v: Js<Value>) {
    match v
    case Undefined => false
    case Null => false
    case Is(Bool(b)) => b
    case Is(Num(n)) => n != 0
    case Is(Str(s)) => s != ""
    case Is(Obj(_, _, _)) => true
  }

  /** Truthiness of a string-typed slot. */
  predicate TruthyString(v: Js<string>) {
    v.Is? && v.value != ""
  }

  /** Truthiness of a boolean-typed slot. */
  predicate TruthyBool(v: Js<bool>) {
    v.Is? && v.value
  }

  /** A header record: header name to (possibly undefined) value. Names are
      plain, case-sensitive object keys, as in the library. */
  type HeaderMap = map<string, Js<string>>

  /** `headers['content-type']`. */
  function ContentTypeEntry(h: HeaderMap): Js<string> {
    if "content-type" in h then h["content-type"] else Undefined
  }

  /** The response object `fetch` resolves to. Its header names are the
      lower-case names `Headers.get` matches against. */
  datatype NativeResponse = NativeResponse(status: int, statusText: string, headers: map<string, string>, body: string)
  {
    /** The `ok` attribute: the status is an ok status, 200 to 299
        (section 2.2.3 of the WHATWG Fetch Standard). */
    predicate Ok() {
      200 <= status <= 299
    }

    /** `headers.get('content-type')`, null when the header is missing. */
    function ContentType(): Option<string> {
      if "content-type" in headers then Some(headers["content-type"]) else None
    }
  }

  /** A thrown value: an Error object (name, message and `cause`) or any other value. */
  datatype Thrown =
    | ErrorObject(name: string, message: string, cause: Option<NativeResponse>)
    | Other(v: Js<Value>)

  /** How an expression finishes: with a value or by throwing. */
  datatype Completion<+T> = Normal(value: T) | Abrupt(thrown: Thrown)

  /** A TypeError raised by the runtime (its message is engine-specific). */
  function TypeError(message: string): Thrown {
    ErrorObject("TypeError", message, None)
  }

  /** What is handed to `fetch` as the body: a value as it is, the text
      `JSON.stringify(v)`, or the text `v.toString()`. */
  datatype Body = Data(v: Js<Value>) | JsonOf(v: Js<Value>) | StringOf(of: Value)

  /** The `credentials` mode of a fetch request. */
  datatype Credentials = Include | Omit | SameOrigin

  /** The `signal` of a fetch request: none, the caller's, or that of an abort
      controller armed with the timeout. */
  datatype Signal = NoSignal | CallerSignal(v: Value) | TimeoutSignal(ms: Value)

  /** The `RequestInit` the pipeline builds for `fetch`. */
  datatype NativeInit = NativeInit(httpMethod: string, body: Body, headers: Js<HeaderMap>, credentials: Credentials, signal: Signal)

  /** What the transport does with one request: it rejects, or resolves to a response. */
  datatype TransportOutcome = Rejected(reason: Thrown) | Responded(response: NativeResponse)

  /** `s.startsWith(prefix)`. */
  predicate StartsWith(s: string, prefix: string) {
    prefix <= s
  }

  /** `s.includes(p)`: p occurs somewhere in s. */
  predicate Includes(s: string, p: string)
    decreases |s|
  {
    p <= s || (|s| > 0 && Includes(s[1..], p))
  }

  /** `s.indexOf(c)` for a one-character needle: the first position of c, or -1. */
  function IndexOf(s: string, c: char): (r: int)
    ensures -1 <= r < |s|
    ensures r == -1 <==> c !in s
    ensures r >= 0 ==> s[r] == c && c !in s[..r]
  {
    if s == [] then -1
    else if s[0] == c then 0
    else
      var k := IndexOf(s[1..], c);
      assert s == [s[0]] + s[1..];
      if k == -1 then -1
      else
        assert s[..k + 1] == [s[0]] + s[1..][..k];
        k + 1
  }

  /** A position holding c with no c before it is the one `indexOf` finds. */
  lemma IndexOfUnique(s: string, c: char, k: int)
    requires 0 <= k < |s| && s[k] == c && c !in s[..k]
    ensures IndexOf(s, c) == k
  {
  }

  /** The first occurrence of a character in a concatenation lies in the left
      part exactly when the left part contains it. */
  lemma IndexOfConcat(a: string, b: string, c: char)
    ensures IndexOf(a + b, c) == if c in a then IndexOf(a, c) else if c in b then |a| + IndexOf(b, c) else -1
  {
    if c in a {
      var k := IndexOf(a, c);
      assert (a + b)[..k] == a[..k];
      IndexOfUnique(a + b, c, k);
    } else if c in b {
      var k := IndexOf(b, c);
      assert (a + b)[..|a| + k] == a + b[..k];
      IndexOfUnique(a + b, c, |a| + k);
    } else {
      assert c !in a + b;
    }
  }

  /** Upper-casing of one character, on the ASCII letters. */
  function UpperChar(c: char): char {
    if 'a' <= c <= 'z' then (c as int - 32) as char else c
  }

  /** `s.toUpperCase()`, restricted to ASCII letters. */
  function ToUpperCase(s: string): (r: string)
    ensures |r| == |s|
    ensures forall i :: 0 <= i < |s| ==> r[i] == UpperChar(s[i])
  {
    seq(|s|, i requires 0 <= i < |s| => UpperChar(s[i]))
  }
}
