/** URL composition of src/url.js: `makeFullUrl` destructures `baseUrl` and
    `params` from its options and chains `insertBaseURL` and
    `appendQueryString`. Those two private helpers are the same code as
    `makeUrl` and `appendQueryString` of src/url.ts, so they are Url.MakeUrl and
    Url.AppendQueryString here. */
module UrlJs {
  import opened Platform
  import opened Url

  /** The options `makeFullUrl` destructures; other keys are not read. */
  datatype FullUrlOptions = FullUrlOptions(baseUrl: Prop<string>, params: Prop<Value>)

  /** `makeFullUrl(url, options)`: missing options read as `{}`. */
  function MakeFullUrl(url: string, options: Js<FullUrlOptions>, p: UrlPrimitives): (r: Completion<string>)
    ensures options.Is? ==> r == Compose(url, Get(options.value.baseUrl), Get(options.value.params), p)
    ensures !options.Is? ==> r == Normal(url)
  {
    var o := if options.Is? then options.value else FullUrlOptions(Absent, Absent);
    Compose(url, Get(o.baseUrl), Get(o.params), p)
  }

  /** `appendQueryString(insertBaseURL(url, baseUrl), params)`. */
  function Compose(url: string, baseUrl: Js<string>, params: Js<Value>, p: UrlPrimitives): (r: Completion<string>)
    ensures r.Normal? <==> MakeUrl(url, baseUrl, p).Normal?
    ensures r.Normal? ==> MakeUrl(url, baseUrl, p).value <= r.value
    ensures r.Abrupt? ==> r.thrown == InvalidUrl()
  {
    match MakeUrl(url, baseUrl, p)
    case Normal(u) => Normal(AppendQueryString(u, params, p.serialize))
    case Abrupt(t) => Abrupt(t)
  }

  /** The result always extends the base-inserted URL: it fails exactly when
      base insertion fails, is that URL for falsy params, and otherwise adds a
      `?` query or, after an existing one, `&` and the new pairs. */
  lemma ExtendsInsertedUrl(url: string, baseUrl: Js<string>, params: Js<Value>, p: UrlPrimitives)
    ensures Compose(url, baseUrl, params, p).Normal? <==> MakeUrl(url, baseUrl, p).Normal?
    ensures MakeUrl(url, baseUrl, p).Normal? ==> MakeUrl(url, baseUrl, p).value <= Compose(url, baseUrl, params, p).value
    ensures !Truthy(params) ==> Compose(url, baseUrl, params, p) == MakeUrl(url, baseUrl, p)
    ensures !TruthyString(baseUrl) && !Truthy(params) ==> Compose(url, baseUrl, params, p) == Normal(url)
  {
  }

  /** The URL tests' first two shapes: no options leave the URL as it is, and a
      base alone is resolved against (for a resolver that does what the URL
      Standard does on this input). */
  lemma TestedBase(p: UrlPrimitives)
    requires p.resolve("/users", "http://localhost:3000") == Some("http://localhost:3000/users")
    ensures MakeFullUrl("/users", Undefined, p) == Normal("/users")
    ensures Compose("/users", Is("http://localhost:3000"), Undefined, p) == Normal("http://localhost:3000/users")
  {
  }

  /** The URL tests' query shape for a URL without a query: `?` and the pairs. */
  lemma TestedNewQuery(p: UrlPrimitives, params: Value, plain: string)
    requires plain == "http://localhost:3000/users"
    requires p.resolve("/users", "http://localhost:3000") == Some(plain)
    requires p.serialize(params) == "foo=bar" && Truthy(Is(params))
    ensures Compose("/users", Is("http://localhost:3000"), Is(params), p) == Normal(plain + "?foo=bar")
  {
    assert '?' !in plain;
    AppendShape(plain, Is(params), p.serialize);
    assert plain + "?" + "foo=bar" == plain + "?foo=bar";
  }

  /** The URL tests' query shape for a URL that has one: `&` and the pairs after it. */
  lemma TestedExistingQuery(p: UrlPrimitives, params: Value, query: string)
    requires query == "http://localhost:3000/users" + "?hoge=fuga"
    requires p.resolve("/users?hoge=fuga", "http://localhost:3000") == Some(query)
    requires p.serialize(params) == "foo=bar" && Truthy(Is(params))
    ensures Compose("/users?hoge=fuga", Is("http://localhost:3000"), Is(params), p) == Normal(query + "&foo=bar")
  {
    assert query[27] == '?';
    assert '?' in query;
    AppendShape(query, Is(params), p.serialize);
    assert query + "&" + "foo=bar" == query + "&foo=bar";
  }

  /** Only the lower-case `baseUrl` key is destructured: options that carry a
      base under any other key (the tests' `baseURL`) leave the URL relative. */
  lemma OnlyBaseUrlKey(url: string, params: Prop<Value>, p: UrlPrimitives)
    ensures MakeFullUrl(url, Is(FullUrlOptions(Absent, params)), p) == Normal(AppendQueryString(url, Get(params), p.serialize))
  {
  }
}
