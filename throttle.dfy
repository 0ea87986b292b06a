/**
 * The key the rate limiter counts a request under: the caller's access token when there is
 * one (the request's token, then the session's, then the Authorization header's), otherwise
 * the address the request was forwarded for or came from.
 */
module Throttle {
  import opened Wrappers
  import opened PyStr
  import opened OrderedDict
  import opened PyValue
  import TokenSession

  /**
   * What the limiter reads from a request: the token the API layer attached (none when the
   * request has no `token_info`), the headers in order, and the remote address.
   */
  datatype Request = Request(tokenInfo: Option<Value>, headers: seq<(string, string)>, remoteAddr: Value)

  /** `request.headers.get(name)`: the first header of that name, compared without regard to case. */
  function Header(headers: seq<(string, string)>, name: string): (r: Option<string>)
    ensures r.Some? <==> exists i :: 0 <= i < |headers| && Lower(headers[i].0) == Lower(name)
    ensures r.Some? ==> exists i :: 0 <= i < |headers| && Lower(headers[i].0) == Lower(name) && headers[i].1 == r.value
    decreases |headers|
  {
    if |headers| == 0 then None
    else if Lower(headers[0].0) == Lower(name) then Some(headers[0].1)
    else
      var r := Header(headers[1..], name);
      assert forall i :: 0 <= i < |headers| - 1 ==> headers[1..][i] == headers[i + 1];
      r
  }

  /** `_, token = value.split()`: the second of exactly two words; any other count raises ValueError. */
  function BearerToken(value: string): Result<string, string> {
    var words := Words(value);
    if |words| == 2 then Ok(words[1]) else Err("ValueError")
  }

  /** `get_limiter_key` for a request and the session behind it, or the exception it raises. */
  function LimiterKey(request: Request, session: TokenSession.Entries): Result<Value, string> {
    if request.tokenInfo.Some? then
      match request.tokenInfo.value
      case Object(d) => if "access_token" in Keys(d) then Ok(Get(d, "access_token").value) else Err("KeyError")
      case _ => Err("TypeError")
    else
      var token := session.accessToken.GetOr(Null);
      if Truthy(token) then Ok(token)
      else
        var auth := Header(request.headers, "Authorization").GetOr("");
        if |auth| > 0 && BearerToken(auth).Err? then Err(BearerToken(auth).error)
        else if |auth| > 0 && |BearerToken(auth).value| > 0 then Ok(Str(BearerToken(auth).value))
        else
          var forwarded := Header(request.headers, "x-forwarded-for");
          if forwarded.Some? && |forwarded.value| > 0 then Ok(Str(forwarded.value))
          else Ok(request.remoteAddr)
  }

  /** A header value splits into a token exactly when it has two words; the token is a word. */
  lemma BearerTokenMeaning(value: string)
    ensures BearerToken(value).Ok? <==> |Words(value)| == 2
    ensures BearerToken(value).Ok? ==> |BearerToken(value).value| > 0 && NoSpace(BearerToken(value).value)
  {
    WordsNonEmpty(value);
    WordsAreRuns(value);
  }

  /** `Bearer <token>` gives the token. */
  lemma BearerExample(token: string)
    requires |token| > 0 && NoSpace(token)
    ensures BearerToken("Bearer " + token) == Ok(token)
  {
    assert "Bearer " + token == "Bearer" + ([' '] + token);
    WordsCons("Bearer", [' '] + token);
    assert ([' '] + token)[1..] == token;
    WordsCons(token, []);
    assert token + [] == token;
  }

  /**
   * The order in which the key is chosen: the request's token decides whenever the request
   * has one, whatever the session and headers hold; otherwise a truthy session token does;
   * otherwise a non-empty Authorization header decides alone, giving its token or raising
   * ValueError, and is never passed over for the forwarded address; and only then the
   * forwarded-for header, else the remote address, is the key.
   */
  lemma LimiterKeyOrder(request: Request, session: TokenSession.Entries)
    ensures request.tokenInfo.Some? ==>
      LimiterKey(request, session) == LimiterKey(Request(request.tokenInfo, [], Null), TokenSession.NoEntries)
    ensures request.tokenInfo.None? && Truthy(session.accessToken.GetOr(Null)) ==>
      LimiterKey(request, session) == Ok(session.accessToken.value)
    ensures request.tokenInfo.None? && !Truthy(session.accessToken.GetOr(Null)) &&
            |Header(request.headers, "Authorization").GetOr("")| > 0 ==>
      var auth := Header(request.headers, "Authorization").value;
      (LimiterKey(request, session).Ok? <==> |Words(auth)| == 2) &&
      (LimiterKey(request, session).Ok? ==> LimiterKey(request, session) == Ok(Str(Words(auth)[1])))
    ensures request.tokenInfo.None? && !Truthy(session.accessToken.GetOr(Null)) &&
            |Header(request.headers, "Authorization").GetOr("")| == 0 ==>
      LimiterKey(request, session) ==
        if Header(request.headers, "x-forwarded-for").GetOr("") != "" then Ok(Str(Header(request.headers, "x-forwarded-for").value))
        else Ok(request.remoteAddr)
  {
    var auth := Header(request.headers, "Authorization").GetOr("");
    BearerTokenMeaning(auth);
  }

  /** The header name the limiter asks for, in lower case. */
  lemma AuthorizationLower()
    ensures Lower("Authorization") == "authorization" && Lower("authorization") == "authorization"
  {
    var upper, lower := "Authorization", "authorization";
    assert forall i :: 0 <= i < |lower| ==> Lower(upper)[i] == lower[i];
    assert forall i :: 0 <= i < |lower| ==> Lower(lower)[i] == lower[i];
  }

  /**
   * A client sending only `authorization: Bearer <token>` is counted under its token:
   * header names are matched whatever their case.
   */
  lemma HeaderNameIgnoresCase(token: string, addr: Value)
    requires |token| > 0 && NoSpace(token)
    ensures LimiterKey(Request(None, [("authorization", "Bearer " + token)], addr), TokenSession.NoEntries) == Ok(Str(token))
  {
    var headers := [("authorization", "Bearer " + token)];
    AuthorizationLower();
    assert Header(headers, "Authorization") == Some("Bearer " + token);
    BearerExample(token);
  }
}
