/**
 An exchange attribute that reads and writes one request header, and the
 builder that recognises the `%{i,NAME}` token naming it.
 */
module RequestHeaderAttribute {
  import opened Wrappers

  /** The request headers of an exchange: each header name to its values, in order. */
  type HeaderMap = map<string, seq<string>>

  /** The attribute bound to the request header `requestHeader`. */
  datatype RequestHeaderAttribute = RequestHeaderAttribute(requestHeader: string)

  /** The name the builder reports for itself. */
  const BuilderName: string := "Request header"

  const TokenPrefix: string := "%{i,"
  const TokenSuffix: string := "}"

  predicate StartsWith(s: string, prefix: string) {
    |prefix| <= |s| && s[..|prefix|] == prefix
  }

  predicate EndsWith(s: string, suffix: string) {
    |suffix| <= |s| && s[|s| - |suffix|..] == suffix
  }

  /** The token that names the attribute for header `name`. */
  function Token(name: string): string {
    TokenPrefix + name + TokenSuffix
  }

  /** Prefix and suffix cannot overlap: a token with both is at least five characters long. */
  lemma AcceptedTokenLength(token: string)
    requires StartsWith(token, TokenPrefix) && EndsWith(token, TokenSuffix)
    ensures |token| >= |TokenPrefix| + |TokenSuffix|
  {
    assert token[3] == token[..|TokenPrefix|][3] == ',';
    assert token[|token| - 1] == token[|token| - |TokenSuffix|..][0] == '}';
  }

  /**
   The builder: a token with the prefix and the suffix names the header between
   them; any other token builds nothing.
   */
  function Build(token: string): (r: Option<RequestHeaderAttribute>)
    ensures r.Some? <==> StartsWith(token, TokenPrefix) && EndsWith(token, TokenSuffix)
    ensures r.Some? ==> |token| >= 5 && token == Token(r.value.requestHeader)
  {
    if StartsWith(token, TokenPrefix) && EndsWith(token, TokenSuffix) then
      AcceptedTokenLength(token);
      var name := token[|TokenPrefix|..|token| - |TokenSuffix|];
      assert token == token[..|TokenPrefix|] + name + token[|token| - |TokenSuffix|..];
      Some(RequestHeaderAttribute(name))
    else
      None
  }

  /** Rendering a header name as a token and building it gives back that header. */
  lemma BuildToken(name: string)
    ensures Build(Token(name)) == Some(RequestHeaderAttribute(name))
  {
  }

  /** The builder accepts exactly the rendered tokens. */
  lemma BuildAcceptsExactlyTokens(token: string)
    ensures Build(token).Some? <==> exists name :: token == Token(name)
  {
  }

  /** The shortest accepted token names the empty header. */
  lemma BuildEmptyName()
    ensures Build("%{i,}") == Some(RequestHeaderAttribute(""))
  {
  }

  /** Reading gives the first value stored under the header, or nothing when there is none. */
  function ReadAttribute(a: RequestHeaderAttribute, headers: HeaderMap): (r: Option<string>)
    ensures r.None? <==> a.requestHeader !in headers || |headers[a.requestHeader]| == 0
    ensures r.Some? ==> |headers[a.requestHeader]| > 0 && r.value == headers[a.requestHeader][0]
  {
    if a.requestHeader in headers && |headers[a.requestHeader]| > 0 then
      Some(headers[a.requestHeader][0])
    else
      None
  }

  /** Writing replaces every value of the header by the one new value. */
  function WriteAttribute(a: RequestHeaderAttribute, headers: HeaderMap, newValue: string): (r: HeaderMap)
    ensures r.Keys == headers.Keys + {a.requestHeader}
    ensures r[a.requestHeader] == [newValue]
    ensures forall h :: h in headers && h != a.requestHeader ==> r[h] == headers[h]
  {
    headers[a.requestHeader := [newValue]]
  }

  /** A read after a write returns the written value. */
  lemma ReadAfterWrite(a: RequestHeaderAttribute, headers: HeaderMap, v: string)
    ensures ReadAttribute(a, WriteAttribute(a, headers, v)) == Some(v)
  {
  }

  /** A write through one header is invisible through any other header. */
  lemma WriteLeavesOtherHeaders(a: RequestHeaderAttribute, b: RequestHeaderAttribute, headers: HeaderMap, v: string)
    requires a.requestHeader != b.requestHeader
    ensures ReadAttribute(b, WriteAttribute(a, headers, v)) == ReadAttribute(b, headers)
  {
  }

  /** Of two writes to the same header only the second is observable. */
  lemma SecondWriteWins(a: RequestHeaderAttribute, headers: HeaderMap, v: string, w: string)
    ensures WriteAttribute(a, WriteAttribute(a, headers, v), w) == WriteAttribute(a, headers, w)
  {
  }
}
