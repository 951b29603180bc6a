/** `parseResponseStream`: the choice of the one body reader, blob, text or
    json, from the response's content-type header. Three copies exist:
    src/nativeResponse.ts recognises JSON by substring, src/nativeResponse.js
    and src/response.ts by exact equality. */
module ResponseParse {
  import opened Platform

  /** The body readers of a fetch response. */
  datatype Reader = Blob | Text | Json

  /** The `data` of a library response: the body as one reader delivers it, or
      whatever value a response interceptor assigned in its place. */
  datatype Payload = Read(reader: Reader, body: string) | Assigned(v: Js<Value>)

  /** The dispatch of src/nativeResponse.ts. */
  function ReaderIncludes(contentType: Option<string>): Reader {
    if contentType.None? then Blob
    else if StartsWith(contentType.value, "text/") then Text
    else if Includes(contentType.value, "application/json") then Json
    else Blob
  }

  /** The dispatch of src/nativeResponse.js and src/response.ts. */
  function ReaderExact(contentType: Option<string>): Reader {
    if contentType.None? then Blob
    else if StartsWith(contentType.value, "text/") then Text
    else if contentType.value == "application/json" then Json
    else Blob
  }

  /** `await parseResponseStream(response)`: exactly one reader consumes the body. */
  function ParseIncludes(response: NativeResponse): (p: Payload)
    ensures p.Read? && p.body == response.body
    ensures p.reader == ReaderIncludes(response.ContentType())
  {
    Read(ReaderIncludes(response.ContentType()), response.body)
  }

  /** The same for the exact-match copies. */
  function ParseExact(response: NativeResponse): (p: Payload)
    ensures p.Read? && p.body == response.body
    ensures p.reader == ReaderExact(response.ContentType())
  {
    Read(ReaderExact(response.ContentType()), response.body)
  }

  /** The three outcomes of the substring dispatch, each as an equivalence:
      text for a `text/` prefix (tested before JSON), json for any other value
      containing `application/json`, blob for a missing header and the rest. */
  lemma IncludesCases(ct: Option<string>)
    ensures ReaderIncludes(ct) == Text <==> ct.Some? && StartsWith(ct.value, "text/")
    ensures ReaderIncludes(ct) == Json <==>
      ct.Some? && !StartsWith(ct.value, "text/") && Includes(ct.value, "application/json")
    ensures ReaderIncludes(ct) == Blob <==>
      ct.None? || (!StartsWith(ct.value, "text/") && !Includes(ct.value, "application/json"))
  {
  }

  /** The three outcomes of the exact dispatch. */
  lemma ExactCases(ct: Option<string>)
    ensures ReaderExact(ct) == Text <==> ct.Some? && StartsWith(ct.value, "text/")
    ensures ReaderExact(ct) == Json <==> ct == Some("application/json")
    ensures ReaderExact(ct) == Blob <==>
      ct.None? || (!StartsWith(ct.value, "text/") && ct.value != "application/json")
  {
    NotText("application/json");
  }

  /** A string that starts with `a` does not start with `text/`. */
  lemma NotText(s: string)
    requires |s| > 0 && s[0] == 'a'
    ensures !StartsWith(s, "text/")
  {
    assert "text/"[0] == 't';
  }

  /** A string contains itself. */
  lemma IncludesSelf(s: string)
    ensures Includes(s, s)
  {
  }

  /** A string contains nothing that holds a character it lacks. */
  lemma {:induction false} NotIncludes(s: string, p: string, c: char)
    requires c in p && c !in s
    ensures !Includes(s, p)
    decreases |s|
  {
    if |s| > 0 {
      NotIncludes(s[1..], p, c);
    }
  }

  /** The two dispatches disagree exactly on a non-text content-type that
      contains `application/json` without being it, such as
      `application/json;charset=utf-8`: the substring copy reads json, the
      exact copies read a blob. Everywhere else the copies agree. */
  lemma ExactVersusIncludes(ct: Option<string>)
    ensures ReaderExact(ct) != ReaderIncludes(ct) <==>
      ct.Some? && !StartsWith(ct.value, "text/") && ct.value != "application/json"
      && Includes(ct.value, "application/json")
    ensures ReaderExact(ct) != ReaderIncludes(ct) ==> ReaderExact(ct) == Blob && ReaderIncludes(ct) == Json
    ensures ReaderExact(ct) == Json ==> ReaderIncludes(ct) == Json
  {
    if ct == Some("application/json") {
      IncludesSelf("application/json");
    }
  }

  /** JSON with a charset suffix, as the tests send it: json for the substring
      dispatch, a blob for the exact ones. */
  lemma CharsetJson()
    ensures ReaderIncludes(Some("application/json;charset=utf-8")) == Json
    ensures ReaderExact(Some("application/json;charset=utf-8")) == Blob
  {
    var ct := "application/json;charset=utf-8";
    NotText(ct);
    assert "application/json" <= ct;
    assert ct != "application/json" by { assert |ct| != |"application/json"|; }
  }

  /** A `text/` content-type is read as text by every copy. */
  lemma HtmlIsText()
    ensures ReaderIncludes(Some("text/html")) == Text && ReaderExact(Some("text/html")) == Text
  {
    assert "text/" <= "text/html";
  }

  /** A binary content-type is read as a blob by every copy, as is a missing one. */
  lemma OctetStreamIsBlob()
    ensures ReaderIncludes(Some("application/octet-stream")) == Blob
    ensures ReaderExact(Some("application/octet-stream")) == Blob
    ensures ReaderIncludes(None) == Blob && ReaderExact(None) == Blob
  {
    var ct := "application/octet-stream";
    NotText(ct);
    assert 'j' in "application/json" by { assert "application/json"[12] == 'j'; }
    NotIncludes(ct, "application/json", 'j');
    assert ct != "application/json" by { assert |ct| != |"application/json"|; }
  }
}
