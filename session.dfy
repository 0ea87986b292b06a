/**
 * The server-side session that remembers the OAuth token of the user behind a browser:
 * storing a token's details and reading them back while they have not expired. The session
 * is an object the handlers update in place. The clock and the ISO-8601 text of instants
 * (`isoformat` and `dateutil.parser.parse`) are parameters.
 */
module TokenSession {
  import opened Wrappers
  import opened OrderedDict
  import opened PyValue

  /** An instant, in seconds. */
  type Instant = int

  /**
   * The session entries the token code reads and writes (`user`, `access_token`,
   * `token_expiry` and `uid`); an absent entry is none.
   */
  datatype Entries = Entries(user: Option<Value>, accessToken: Option<Value>, tokenExpiry: Option<Value>, uid: Option<Value>)

  const NoEntries := Entries(None, None, None, None)

  /** The token details `get_token_info` hands out. */
  function Info(accessToken: Value, user: Value, expiry: Value): Dict {
    [("access_token", accessToken), ("user", user), ("token_expiry", expiry)]
  }

  /**
   * `get_token_info` reading the user from `user`: the stored details while the stored
   * expiry lies after `now`, no details without an expiry or after it. An expiry that is not
   * text raises TypeError, text that is not an instant ValueError.
   */
  function TokenInfoFrom(session: Entries, now: Instant, parse: string -> Option<Instant>, user: Option<Value>): Result<Dict, string> {
    var expiry := session.tokenExpiry.GetOr(Null);
    if !Truthy(expiry) then Ok([])
    else if !expiry.Str? then Err("TypeError")
    else
      match parse(expiry.s)
      case None => Err("ValueError")
      case Some(t) =>
        if t > now then Ok(Info(session.accessToken.GetOr(Null), user.GetOr(Null), expiry))
        else Ok([])
  }

  /** `get_token_info` as written: the user is read from the session's `uid`, which nothing stores. */
  function TokenInfoAsWritten(session: Entries, now: Instant, parse: string -> Option<Instant>): Result<Dict, string> {
    TokenInfoFrom(session, now, parse, session.uid)
  }

  /** `get_token_info` reading the user from `user`, where `set_token_info` stores it. */
  function TokenInfo(session: Entries, now: Instant, parse: string -> Option<Instant>): Result<Dict, string> {
    TokenInfoFrom(session, now, parse, session.user)
  }

  /** The session already holds this token's user and access token. */
  predicate Holds(session: Entries, tokenInfo: Dict) {
    session.user.GetOr(Null) == GetOr(tokenInfo, "uid", Null) &&
    "access_token" in Keys(tokenInfo) && session.accessToken.GetOr(Null) == Get(tokenInfo, "access_token").value
  }

  /**
   * The session after `set_token_info(tokenInfo)` at `now`, with the exception raised, if
   * any. A token the session holds changes nothing; otherwise the user (default ''), the
   * access token and the expiry `expires_in` minutes (default 1) from now are stored in
   * that order, and a missing access token or an `expires_in` that is no integer stops the
   * writing where it is.
   */
  function AfterSet(session: Entries, tokenInfo: Dict, now: Instant, iso: Instant -> string): (Entries, Result<(), string>) {
    if session.user.GetOr(Null) == GetOr(tokenInfo, "uid", Null) && "access_token" !in Keys(tokenInfo) then (session, Err("KeyError"))
    else if Holds(session, tokenInfo) then (session, Ok(()))
    else
      var withUser := session.(user := Some(GetOr(tokenInfo, "uid", Str(""))));
      if "access_token" !in Keys(tokenInfo) then (withUser, Err("KeyError"))
      else
        var withToken := withUser.(accessToken := Some(Get(tokenInfo, "access_token").value));
        match IntOf(GetOr(tokenInfo, "expires_in", Int(1)))
        case Err(e) => (withToken, Err(e))
        case Ok(minutes) => (withToken.(tokenExpiry := Some(Str(iso(now + 60 * minutes)))), Ok(()))
  }

  /** A user's session (`flask_session`), through the entries the token code uses. */
  class Session {
    var user: Option<Value>
    var accessToken: Option<Value>
    var tokenExpiry: Option<Value>
    var uid: Option<Value>

    function Contents(): Entries
      reads this
    {
      Entries(user, accessToken, tokenExpiry, uid)
    }

    /** A new session is empty. */
    constructor()
      ensures Contents() == NoEntries
    {
      user, accessToken, tokenExpiry, uid := None, None, None, None;
    }

    /** `set_token_info` */
    method SetTokenInfo(tokenInfo: Dict, now: Instant, iso: Instant -> string) returns (r: Result<(), string>)
      modifies this
      ensures (Contents(), r) == AfterSet(old(Contents()), tokenInfo, now, iso)
    {
      if user.GetOr(Null) == GetOr(tokenInfo, "uid", Null) {
        if "access_token" !in Keys(tokenInfo) {
          return Err("KeyError");
        }
        if accessToken.GetOr(Null) == Get(tokenInfo, "access_token").value {
          return Ok(());
        }
      }
      user := Some(GetOr(tokenInfo, "uid", Str("")));
      if "access_token" !in Keys(tokenInfo) {
        return Err("KeyError");
      }
      accessToken := Some(Get(tokenInfo, "access_token").value);
      var minutes := IntOf(GetOr(tokenInfo, "expires_in", Int(1)));
      if minutes.Err? {
        return Err(minutes.error);
      }
      tokenExpiry := Some(Str(iso(now + 60 * minutes.value)));
      return Ok(());
    }

    /** `get_token_info`, reading the user from `uid` as written. */
    method GetTokenInfo(now: Instant, parse: string -> Option<Instant>) returns (r: Result<Dict, string>)
      ensures r == TokenInfoAsWritten(Contents(), now, parse)
    {
      var expiry := tokenExpiry.GetOr(Null);
      if !Truthy(expiry) {
        return Ok([]);
      }
      if !expiry.Str? {
        return Err("TypeError");
      }
      var t := parse(expiry.s);
      if t.None? {
        return Err("ValueError");
      }
      if t.value > now {
        return Ok(Info(accessToken.GetOr(Null), uid.GetOr(Null), expiry));
      }
      return Ok([]);
    }
  }

  /** A fresh session hands out no token details. */
  lemma EmptySessionHasNoToken(now: Instant, parse: string -> Option<Instant>)
    ensures TokenInfo(NoEntries, now, parse) == Ok([])
    ensures TokenInfoAsWritten(NoEntries, now, parse) == Ok([])
  {
  }

  /**
   * Storing a token the session does not hold, then reading the session before the token
   * expires, gives back its access token, its user and its expiry; from the expiry on, it
   * gives nothing.
   */
  lemma SetThenGet(session: Entries, tokenInfo: Dict, now: Instant, minutes: int, later: Instant,
                   iso: Instant -> string, parse: string -> Option<Instant>)
    requires forall t :: parse(iso(t)) == Some(t) && |iso(t)| > 0
    requires !Holds(session, tokenInfo) && "access_token" in Keys(tokenInfo)
    requires IntOf(GetOr(tokenInfo, "expires_in", Int(1))) == Ok(minutes)
    ensures AfterSet(session, tokenInfo, now, iso).1 == Ok(())
    ensures later < now + 60 * minutes ==>
      TokenInfo(AfterSet(session, tokenInfo, now, iso).0, later, parse) ==
        Ok(Info(Get(tokenInfo, "access_token").value, GetOr(tokenInfo, "uid", Str("")), Str(iso(now + 60 * minutes))))
    ensures later >= now + 60 * minutes ==> TokenInfo(AfterSet(session, tokenInfo, now, iso).0, later, parse) == Ok([])
  {
    var expiry := now + 60 * minutes;
    StoredEntries(session, tokenInfo, now, minutes, iso);
    assert parse(iso(expiry)) == Some(expiry) && |iso(expiry)| > 0;
  }

  /**
   * Read as written, the same session names as its user whatever it kept under `uid`
   * before: a session that never had one names no user at all, whoever logged in.
   */
  lemma SetThenGetAsWritten(session: Entries, tokenInfo: Dict, now: Instant, minutes: int, later: Instant,
                            iso: Instant -> string, parse: string -> Option<Instant>)
    requires forall t :: parse(iso(t)) == Some(t) && |iso(t)| > 0
    requires !Holds(session, tokenInfo) && "access_token" in Keys(tokenInfo)
    requires IntOf(GetOr(tokenInfo, "expires_in", Int(1))) == Ok(minutes)
    requires later < now + 60 * minutes
    ensures TokenInfoAsWritten(AfterSet(session, tokenInfo, now, iso).0, later, parse) ==
      Ok(Info(Get(tokenInfo, "access_token").value, session.uid.GetOr(Null), Str(iso(now + 60 * minutes))))
    ensures session.uid.None? ==> TokenInfoAsWritten(AfterSet(session, tokenInfo, now, iso).0, later, parse).value[1] == ("user", Null)
  {
    var expiry := now + 60 * minutes;
    StoredEntries(session, tokenInfo, now, minutes, iso);
    assert parse(iso(expiry)) == Some(expiry) && |iso(expiry)| > 0;
  }

  /** What storing a token the session does not hold writes. */
  lemma StoredEntries(session: Entries, tokenInfo: Dict, now: Instant, minutes: int, iso: Instant -> string)
    requires !Holds(session, tokenInfo) && "access_token" in Keys(tokenInfo)
    requires IntOf(GetOr(tokenInfo, "expires_in", Int(1))) == Ok(minutes)
    ensures AfterSet(session, tokenInfo, now, iso) ==
      (Entries(Some(GetOr(tokenInfo, "uid", Str(""))), Some(Get(tokenInfo, "access_token").value),
               Some(Str(iso(now + 60 * minutes))), session.uid), Ok(()))
  {
  }

  /**
   * A token with a uid is stored once: storing it again, at any later time, changes
   * nothing, so its expiry is not extended.
   */
  lemma SetTwiceIsOnce(session: Entries, tokenInfo: Dict, now: Instant, later: Instant, iso: Instant -> string)
    requires "uid" in Keys(tokenInfo)
    requires AfterSet(session, tokenInfo, now, iso).1.Ok?
    ensures AfterSet(AfterSet(session, tokenInfo, now, iso).0, tokenInfo, later, iso) == (AfterSet(session, tokenInfo, now, iso).0, Ok(()))
  {
  }

  /**
   * A token without a uid is never held once stored: the session stores '' where the token
   * has no uid, so every later call stores it again and moves the expiry.
   */
  lemma SetWithoutUidRewrites(session: Entries, tokenInfo: Dict, now: Instant, later: Instant, iso: Instant -> string)
    requires "uid" !in Keys(tokenInfo) && !Holds(session, tokenInfo)
    requires AfterSet(session, tokenInfo, now, iso).1.Ok?
    ensures !Holds(AfterSet(session, tokenInfo, now, iso).0, tokenInfo)
    ensures AfterSet(AfterSet(session, tokenInfo, now, iso).0, tokenInfo, later, iso).1.Ok?
    ensures AfterSet(AfterSet(session, tokenInfo, now, iso).0, tokenInfo, later, iso).0.tokenExpiry ==
      Some(Str(iso(later + 60 * IntOf(GetOr(tokenInfo, "expires_in", Int(1))).value)))
  {
  }
}
