/**
 * The token the `OnMessageReceived` event hands to the JWT bearer handler: the `access_token`
 * cookie, else an `Authorization` header written `Bearer <token>`, else a custom `access_token`
 * header. Header names are matched ignoring case, as the ASP.NET Core header
 * dictionary does; cookie names are matched exactly.
 */
module BearerTokens {
  import opened Wrappers
  import opened Text

  const CookieName := "access_token"
  const AuthorizationHeader := "Authorization"
  const TokenHeader := "access_token"
  const Scheme := "Bearer "

  datatype Request = Request(cookies: map<string, string>, headers: seq<(string, string)>)

  /** The values sent under header `name`, in order. */
  function HeaderValues(headers: seq<(string, string)>, name: string): (r: seq<string>)
    ensures |r| <= |headers|
    ensures r == [] <==> forall i :: 0 <= i < |headers| ==> Lower(headers[i].0) != Lower(name)
  {
    if headers == [] then []
    else
      var rest := HeaderValues(headers[1..], name);
      assert forall i :: 1 <= i < |headers| ==> headers[i] == headers[1..][i - 1];
      (if Lower(headers[0].0) == Lower(name) then [headers[0].1] else []) + rest
  }

  /** `Headers.TryGetValue(name, out v)` followed by `v.ToString()`: several values are joined with commas. */
  function Header(headers: seq<(string, string)>, name: string): (r: Option<string>)
    ensures r.None? <==> forall i :: 0 <= i < |headers| ==> Lower(headers[i].0) != Lower(name)
  {
    var vs := HeaderValues(headers, name);
    if vs == [] then None else Some(Join(",", vs))
  }

  /** The token `OnMessageReceived` hands to the handler, or none. */
  function ExtractToken(req: Request): (r: Option<string>)
    ensures CookieName in req.cookies ==> r == Some(req.cookies[CookieName])
    ensures r.None? <==>
      CookieName !in req.cookies
      && (Header(req.headers, AuthorizationHeader).None? || !StartsWith(Header(req.headers, AuthorizationHeader).value, Scheme))
      && Header(req.headers, TokenHeader).None?
    ensures r.Some? && CookieName !in req.cookies ==>
      r.value == [] || (!IsWhiteSpace(r.value[0]) && !IsWhiteSpace(r.value[|r.value| - 1]))
  {
    if CookieName in req.cookies then Some(req.cookies[CookieName])
    else
      var auth := Header(req.headers, AuthorizationHeader);
      if auth.Some? && StartsWith(auth.value, Scheme) then Some(Trim(auth.value[|Scheme|..]))
      else
        var custom := Header(req.headers, TokenHeader);
        if custom.Some? then Some(Trim(RemoveAll(custom.value, Scheme))) else None
  }

  /** A string with no white space at either end. */
  predicate Bare(t: string)
  {
    t != [] && !IsWhiteSpace(t[0]) && !IsWhiteSpace(t[|t| - 1])
  }

  lemma TrimKeepsBare(t: string)
    requires Bare(t)
    ensures Trim(t) == t
  {
    assert TrimStart(t) == t;
    assert TrimEnd(t) == t;
  }

  lemma {:induction false} LowerIdempotent(s: string)
    ensures Lower(Lower(s)) == Lower(s)
  {
  }

  /** Names that agree once lower-cased select the same headers. */
  lemma {:induction false} SameLowerSameValues(headers: seq<(string, string)>, a: string, b: string)
    requires Lower(a) == Lower(b)
    ensures HeaderValues(headers, a) == HeaderValues(headers, b)
  {
    if headers != [] {
      SameLowerSameValues(headers[1..], a, b);
    }
  }

  /** Asking for a header under any casing of its name gives the same answer. */
  lemma HeaderNameIgnoresCase(headers: seq<(string, string)>, name: string)
    ensures Header(headers, Lower(name)) == Header(headers, name)
    ensures Header(headers, Upper(name)) == Header(headers, name)
  {
    LowerIdempotent(name);
    SameLowerSameValues(headers, Lower(name), name);
    assert Lower(Upper(name)) == Lower(name);
    SameLowerSameValues(headers, Upper(name), name);
  }

  /** A request with one header answers for that name alone. */
  lemma OneHeader(name: string, value: string, asked: string)
    ensures Header([(name, value)], asked) == if Lower(name) == Lower(asked) then Some(value) else None
  {
    var headers := [(name, value)];
    assert headers[1..] == [];
  }

  /** The two header names the handler reads are different names, in any casing. */
  lemma HeaderNamesDiffer()
    ensures Lower(TokenHeader) != Lower(AuthorizationHeader)
  {
    assert |Lower(TokenHeader)| != |Lower(AuthorizationHeader)|;
  }

  /** A token sent as `Authorization: Bearer <token>` and nowhere else is the one extracted. */
  lemma AuthorizationRoundTrip(token: string, cookies: map<string, string>)
    requires Bare(token)
    requires CookieName !in cookies
    ensures ExtractToken(Request(cookies, [(AuthorizationHeader, Scheme + token)])) == Some(token)
  {
    OneHeader(AuthorizationHeader, Scheme + token, AuthorizationHeader);
    StartsWithAppend(Scheme, token);
    assert (Scheme + token)[|Scheme|..] == token;
    TrimKeepsBare(token);
  }

  /** A token sent in the custom `access_token` header, with or without the scheme in front, is extracted unchanged. */
  lemma CustomHeaderRoundTrip(token: string, cookies: map<string, string>)
    requires Bare(token) && !Contains(token, Scheme)
    requires CookieName !in cookies
    ensures ExtractToken(Request(cookies, [(TokenHeader, token)])) == Some(token)
    ensures ExtractToken(Request(cookies, [(TokenHeader, Scheme + token)])) == Some(token)
  {
    HeaderNamesDiffer();
    OneHeader(TokenHeader, token, AuthorizationHeader);
    OneHeader(TokenHeader, token, TokenHeader);
    OneHeader(TokenHeader, Scheme + token, AuthorizationHeader);
    OneHeader(TokenHeader, Scheme + token, TokenHeader);
    RemoveAllPrefix(Scheme, token);
    TrimKeepsBare(token);
  }

  /** The cookie wins over any header. */
  lemma CookieTakesPriority(req: Request, token: string)
    requires CookieName in req.cookies && req.cookies[CookieName] == token
    ensures ExtractToken(req) == Some(token)
    ensures forall h :: ExtractToken(Request(req.cookies, req.headers + h)) == Some(token)
  {
  }

  /** The scheme compared as section 2.1 of RFC 7235 requires, ignoring case. */
  predicate HasScheme(value: string)
  {
    |Scheme| <= |value| && Lower(value[..|Scheme|]) == Lower(Scheme)
  }

  /** `OnMessageReceived` with the scheme of the `Authorization` header matched ignoring case. */
  function ExtractTokenAnyCase(req: Request): (r: Option<string>)
    ensures CookieName in req.cookies ==> r == Some(req.cookies[CookieName])
    ensures r.None? <==>
      CookieName !in req.cookies
      && (Header(req.headers, AuthorizationHeader).None? || !HasScheme(Header(req.headers, AuthorizationHeader).value))
      && Header(req.headers, TokenHeader).None?
  {
    if CookieName in req.cookies then Some(req.cookies[CookieName])
    else
      var auth := Header(req.headers, AuthorizationHeader);
      if auth.Some? && HasScheme(auth.value) then Some(Trim(auth.value[|Scheme|..]))
      else
        var custom := Header(req.headers, TokenHeader);
        if custom.Some? then Some(Trim(RemoveAll(custom.value, Scheme))) else None
  }

  /** Every header the case-sensitive comparison accepts, the corrected one accepts, with the same token. */
  lemma AnyCaseExtendsExactCase(req: Request)
    ensures ExtractToken(req).Some? ==> ExtractTokenAnyCase(req).Some?
    ensures (Header(req.headers, AuthorizationHeader).None? || StartsWith(Header(req.headers, AuthorizationHeader).value, Scheme)
             || !HasScheme(Header(req.headers, AuthorizationHeader).value))
            ==> ExtractTokenAnyCase(req) == ExtractToken(req)
  {
  }

  /** A request with two headers of different names answers for each name with its own value. */
  lemma TwoHeaders(n1: string, v1: string, n2: string, v2: string)
    requires Lower(n1) != Lower(n2)
    ensures Header([(n1, v1), (n2, v2)], n1) == Some(v1)
    ensures Header([(n1, v1), (n2, v2)], n2) == Some(v2)
  {
    var headers := [(n1, v1), (n2, v2)];
    var tail := [(n2, v2)];
    assert headers[1..] == tail && tail[1..] == [];
    assert HeaderValues(tail, n1) == [];
    assert HeaderValues(tail, n2) == [v2];
    assert HeaderValues(headers, n1) == [v1];
    assert HeaderValues(headers, n2) == [v2];
  }

  /** The request of the finding: `Authorization: bearer abc` next to a custom `access_token: xyz`. */
  function MixedRequest(): Request
  {
    Request(map[], [(AuthorizationHeader, "bearer abc"), (TokenHeader, "xyz")])
  }

  /** `Authorization: Bearer <token>` wins over a custom `access_token` header sent beside it. */
  lemma AuthorizationBeatsCustomHeader(token: string, other: string)
    requires Bare(token)
    ensures ExtractToken(Request(map[], [(AuthorizationHeader, Scheme + token), (TokenHeader, other)])) == Some(token)
  {
    HeaderNamesDiffer();
    TwoHeaders(AuthorizationHeader, Scheme + token, TokenHeader, other);
    StartsWithAppend(Scheme, token);
    assert (Scheme + token)[|Scheme|..] == token;
    TrimKeepsBare(token);
  }

  /**
   * As written, `Authorization: bearer abc` is passed over and the custom header beside it wins:
   * the token is `xyz`, where `Bearer abc` would have given `abc`.
   */
  lemma LowercaseSchemeIgnored()
    ensures ExtractToken(MixedRequest()) == Some("xyz")
  {
    HeaderNamesDiffer();
    TwoHeaders(AuthorizationHeader, "bearer abc", TokenHeader, "xyz");
    assert !StartsWith("bearer abc", Scheme) by {
      assert "bearer abc"[0] != Scheme[0];
    }
    NoScheme("xyz");
    TrimKeepsBare("xyz");
  }

  /** A string shorter than the scheme holds no occurrence of it. */
  lemma NoScheme(t: string)
    requires |t| < |Scheme|
    ensures RemoveAll(t, Scheme) == t
  {
  }

  /** The scheme of `bearer abc` matches once case is ignored. */
  lemma LowercaseSchemeMatches()
    ensures HasScheme("bearer abc")
  {
    var value := "bearer abc";
    assert value[..|Scheme|] == "bearer ";
    assert Lower("bearer ") == Lower(Scheme);
  }

  /** With the scheme matched ignoring case, the same request gives the token `abc`. */
  lemma LowercaseSchemeAccepted()
    ensures ExtractTokenAnyCase(MixedRequest()) == Some("abc")
  {
    HeaderNamesDiffer();
    TwoHeaders(AuthorizationHeader, "bearer abc", TokenHeader, "xyz");
    LowercaseSchemeMatches();
    assert "bearer abc"[|Scheme|..] == "abc";
    TrimKeepsBare("abc");
  }

}
