/** `makeRequestBody(data, contentType?)` of src/requestBody.ts: the encoding of
    a request body chosen by the content-type. */
module RequestBody {
  import opened Platform
  import opened ResponseParse

  /** No (or an empty) content-type passes the data through; a `text/` one
      takes `data.toString()`, which throws a TypeError on undefined and null;
      any other takes `JSON.stringify(data)`. */
  function MakeRequestBody(data: Js<Value>, contentType: Js<string>): (r: Completion<Body>)
    ensures r == Normal(Data(data)) <==> !TruthyString(contentType)
    ensures r.Abrupt? <==> TruthyString(contentType) && StartsWith(contentType.value, "text/") && !data.Is?
    ensures (r.Normal? && r.value.StringOf?) <==>
      TruthyString(contentType) && StartsWith(contentType.value, "text/") && data.Is?
    ensures r.Normal? && r.value.StringOf? ==> r.value.of == data.value
    ensures r == Normal(JsonOf(data)) <==> TruthyString(contentType) && !StartsWith(contentType.value, "text/")
  {
    if !TruthyString(contentType) then Normal(Data(data))
    else if StartsWith(contentType.value, "text/") then
      if data.Is? then Normal(StringOf(data.value)) else Abrupt(TypeError("Cannot read properties of " + (if data.Null? then "null" else "undefined")))
    else Normal(JsonOf(data))
  }

  /** The `text/` test comes first: a content-type such as `text/json` gives
      text, not JSON. */
  lemma TextBeforeJson(data: Value, contentType: string)
    requires StartsWith(contentType, "text/")
    ensures MakeRequestBody(Is(data), Is(contentType)) == Normal(StringOf(data))
  {
  }

  /** The body is encoded the way the exact-match response dispatch of
      src/nativeResponse.js would read it back under the same content-type:
      as text exactly for the types read as text, as JSON for
      `application/json`, and passed through when there is no content-type. */
  lemma AgreesWithReader(data: Value, contentType: string)
    ensures contentType != "" ==>
      (MakeRequestBody(Is(data), Is(contentType)).value.StringOf? <==> ReaderExact(Some(contentType)) == Text)
    ensures contentType == "application/json" ==>
      MakeRequestBody(Is(data), Is(contentType)) == Normal(JsonOf(Is(data))) && ReaderExact(Some(contentType)) == Json
    ensures contentType == "" ==> MakeRequestBody(Is(data), Is(contentType)) == Normal(Data(Is(data)))
  {
    if contentType == "application/json" {
      assert !StartsWith(contentType, "text/") by { assert contentType[0] != "text/"[0]; }
    }
  }
}
