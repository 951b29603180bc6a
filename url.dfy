/** URL composition of src/url.ts: base-URL resolution and query-string
    joining. The two foreign primitives, the URL parser and the query
    serialiser, are parameters. */
module Url {
  import opened Platform

  /** `new URL(url, base).toString()`, the basic URL parser of section 4.4 of
      the WHATWG URL Standard followed by serialisation (None when parsing
      fails, where the constructor throws a TypeError), and
      `new URLSearchParams(params).toString()`, the
      application/x-www-form-urlencoded serialiser of section 5.2 of that
      standard. */
  datatype UrlPrimitives = UrlPrimitives(resolve: (string, string) -> Option<string>, serialize: Value -> string)

  /** The TypeError `new URL` throws on an unparsable input. */
  function InvalidUrl(): Thrown {
    TypeError("Invalid URL")
  }

  /** `makeUrl(url, baseUrl?)`: the URL itself unless a truthy base is given, in
      which case the URL is resolved against it. */
  function MakeUrl(url: string, baseUrl: Js<string>, p: UrlPrimitives): (r: Completion<string>)
    ensures !TruthyString(baseUrl) ==> r == Normal(url)
    ensures TruthyString(baseUrl) && p.resolve(url, baseUrl.value).Some? ==> r == Normal(p.resolve(url, baseUrl.value).value)
    ensures TruthyString(baseUrl) && p.resolve(url, baseUrl.value).None? ==> r == Abrupt(InvalidUrl())
  {
    if TruthyString(baseUrl) then
      match p.resolve(url, baseUrl.value)
      case Some(u) => Normal(u)
      case None => Abrupt(InvalidUrl())
    else Normal(url)
  }

  /** `appendQueryString(url, params?)`: the URL itself for falsy params;
      otherwise the URL, a separator, and the serialised params. The
      separator is `?` when the URL has none yet and `&` when it has one. */
  function AppendQueryString(url: string, params: Js<Value>, serialize: Value -> string): (r: string)
    ensures url <= r
    ensures r == url <==> !Truthy(params)
    ensures Truthy(params) ==> r[|url|] == (if '?' in url then '&' else '?')
    ensures Truthy(params) ==> r[|url| + 1..] == serialize(params.value)
  {
    if !Truthy(params) then url
    else if IndexOf(url, '?') == -1 then url + "?" + serialize(params.value)
    else url + "&" + serialize(params.value)
  }

  /** With params, the result is the URL, the separator and the serialisation. */
  lemma AppendShape(url: string, params: Js<Value>, serialize: Value -> string)
    requires Truthy(params)
    ensures AppendQueryString(url, params, serialize) == url + (if '?' in url then "&" else "?") + serialize(params.value)
  {
  }

  /** With params, the result always has a query, and it starts where the URL's
      own query started, or right after the URL when it had none: an existing
      query is kept and the new pairs come after it. This holds even when the
      serialisation is empty. */
  lemma QueryStart(url: string, params: Js<Value>, serialize: Value -> string)
    requires Truthy(params)
    ensures '?' in AppendQueryString(url, params, serialize)
    ensures IndexOf(AppendQueryString(url, params, serialize), '?') ==
      if '?' in url then IndexOf(url, '?') else |url|
  {
    var r := AppendQueryString(url, params, serialize);
    var tail := r[|url|..];
    assert r == url + tail;
    assert tail[0] == '?' || tail[0] == '&';
    IndexOfConcat(url, tail, '?');
    if '?' !in url {
      assert tail[0] == '?';
      assert IndexOf(tail, '?') == 0;
    }
  }
}
