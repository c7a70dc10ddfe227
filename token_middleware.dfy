/**
 * The token middleware: a request that carries no token-style
 * `Authorization` header but has an `access_token` cookie is given the
 * header `Token <cookie>` before it reaches the rest of the stack.
 */
module TokenMiddleware {
  import opened Wrappers

  /** `request.META` and `request.COOKIES`. */
  type Headers = map<string, string>

  const AuthorizationKey := "HTTP_AUTHORIZATION"
  const TokenCookie := "access_token"
  /** The keyword searched for in the header and written in front of the cookie. */
  const TokenKeyword := "Token"

  /** `t` occurs in `s` starting at index `i`. */
  ghost predicate OccursAt(t: string, s: string, i: int)
  {
    0 <= i && i + |t| <= |s| && s[i..i + |t|] == t
  }

  /** Python's `t in s` on strings: `t` occurs somewhere in `s`. */
  function IsInfix(t: string, s: string): (b: bool)
    ensures b <==> exists i :: OccursAt(t, s, i)
    decreases |s|
  {
    if |s| < |t| then false
    else if s[..|t|] == t then
      assert OccursAt(t, s, 0);
      true
    else
      var rest := IsInfix(t, s[1..]);
      ShiftOccurrence(t, s);
      rest
  }

  /** An occurrence in `s` not at its start is an occurrence in `s[1..]`, and back. */
  lemma ShiftOccurrence(t: string, s: string)
    requires |s| >= |t| && s[..|t|] != t
    ensures (exists i :: OccursAt(t, s, i)) <==> (exists j :: OccursAt(t, s[1..], j))
  {
    if exists i :: OccursAt(t, s, i) {
      var i :| OccursAt(t, s, i);
      assert i != 0;
      assert s[1..][i - 1..i - 1 + |t|] == s[i..i + |t|];
      assert OccursAt(t, s[1..], i - 1);
    }
    if exists j :: OccursAt(t, s[1..], j) {
      var j :| OccursAt(t, s[1..], j);
      assert s[1..][j..j + |t|] == s[j + 1..j + 1 + |t|];
      assert OccursAt(t, s, j + 1);
    }
  }

  /** `request.COOKIES.get(key)` / `request.META.get(key)`. */
  function Get(h: Headers, key: string): Option<string>
  {
    if key in h then Some(h[key]) else None
  }

  /** The request already carries a header with the keyword in it. */
  predicate HasTokenHeader(meta: Headers)
  {
    match Get(meta, AuthorizationKey)
    case Some(header) => IsInfix(TokenKeyword, header)
    case None => false
  }

  /** The header value written from a cookie. */
  function TokenHeader(token: string): string
  {
    TokenKeyword + " " + token
  }

  /** `request.META` as the downstream handler sees it. */
  function RewriteMeta(meta: Headers, cookies: Headers): Headers
  {
    if HasTokenHeader(meta) then meta
    else match Get(cookies, TokenCookie)
      case Some(token) => if token != "" then meta[AuthorizationKey := TokenHeader(token)] else meta
      case None => meta
  }

  /** A token-style header is passed on untouched, whatever the cookies hold. */
  lemma TokenHeaderWins(meta: Headers, cookies: Headers)
    requires AuthorizationKey in meta && IsInfix(TokenKeyword, meta[AuthorizationKey])
    ensures RewriteMeta(meta, cookies) == meta
  {
  }

  /**
   * Without a token-style header, a non-empty cookie becomes the header,
   * replacing any other `Authorization` header; an absent or empty cookie
   * leaves the request as it came.
   */
  lemma CookieBecomesHeader(meta: Headers, cookies: Headers)
    requires !HasTokenHeader(meta)
    ensures TokenCookie in cookies && cookies[TokenCookie] != "" ==>
      RewriteMeta(meta, cookies) == meta[AuthorizationKey := "Token " + cookies[TokenCookie]]
    ensures TokenCookie !in cookies || cookies[TokenCookie] == "" ==> RewriteMeta(meta, cookies) == meta
  {
    if TokenCookie in cookies {
      assert TokenHeader(cookies[TokenCookie]) == "Token " + cookies[TokenCookie];
    }
  }

  /** Only the `Authorization` entry can change. */
  lemma RewriteTouchesOnlyAuthorization(meta: Headers, cookies: Headers)
    ensures var m := RewriteMeta(meta, cookies);
      forall k :: k != AuthorizationKey ==> (k in m <==> k in meta) && (k in meta ==> m[k] == meta[k])
  {
  }

  /** A written header itself counts as a token-style header. */
  lemma TokenHeaderHasKeyword(token: string)
    ensures IsInfix(TokenKeyword, TokenHeader(token))
  {
    assert OccursAt(TokenKeyword, TokenHeader(token), 0);
  }

  /** After the middleware, the request has a token-style header exactly when it had one or a non-empty cookie. */
  lemma RewriteAuthenticates(meta: Headers, cookies: Headers)
    ensures HasTokenHeader(RewriteMeta(meta, cookies)) <==>
      HasTokenHeader(meta) || (TokenCookie in cookies && cookies[TokenCookie] != "")
  {
    if !HasTokenHeader(meta) && TokenCookie in cookies && cookies[TokenCookie] != "" {
      TokenHeaderHasKeyword(cookies[TokenCookie]);
    }
  }

  /** Passing a request through the middleware twice is the same as once. */
  lemma RewriteIdempotent(meta: Headers, cookies: Headers)
    ensures RewriteMeta(RewriteMeta(meta, cookies), cookies) == RewriteMeta(meta, cookies)
  {
    RewriteAuthenticates(meta, cookies);
  }

  /** What the rest of the stack answers. */
  datatype Response = Response(status: int, content: string)

  /** A request object: the middleware writes into its `META`. */
  class Request {
    var meta: Headers
    const cookies: Headers

    constructor(meta: Headers, cookies: Headers)
      ensures this.meta == meta && this.cookies == cookies
    {
      this.meta := meta;
      this.cookies := cookies;
    }
  }

  /** `get_response`: records the `META` of every request it is handed and answers with a fixed response. */
  class Handler {
    var received: seq<Headers>
    const reply: Response

    constructor(reply: Response)
      ensures this.reply == reply && received == []
    {
      this.reply := reply;
      received := [];
    }

    method Handle(request: Request) returns (response: Response)
      modifies this
      ensures received == old(received) + [request.meta]
      ensures response == reply
    {
      received := received + [request.meta];
      response := reply;
    }
  }

  class Middleware {
    const getResponse: Handler

    constructor(getResponse: Handler)
      ensures this.getResponse == getResponse
    {
      this.getResponse := getResponse;
    }

    /**
     * `TokenMiddleware.__call__`: rewrites the request in place, hands it
     * to the rest of the stack exactly once and returns its response as is.
     */
    method Call(request: Request) returns (response: Response)
      modifies request, getResponse
      ensures request.meta == RewriteMeta(old(request.meta), request.cookies)
      ensures getResponse.received == old(getResponse.received) + [request.meta]
      ensures response == getResponse.reply
    {
      var token := Get(request.cookies, TokenCookie);
      var authHeader := Get(request.meta, AuthorizationKey);
      if authHeader.Some? && IsInfix(TokenKeyword, authHeader.value) {
        response := getResponse.Handle(request);
        return;
      }
      if token.Some? && token.value != "" {
        request.meta := request.meta[AuthorizationKey := TokenHeader(token.value)];
      }
      response := getResponse.Handle(request);
    }
  }
}
