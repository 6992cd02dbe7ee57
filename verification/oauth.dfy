/**
 * The access-token cache of `ZoomOAuth`. A token is obtained with the
 * provider's account-credentials grant (a variant of the client-credentials
 * grant of section 4.4 of RFC 6749) and reused while the clock is before its
 * expiry, which is the issue time plus the `expires_in` seconds of the reply
 * (section 5.1 of RFC 6749). Times are whole seconds counted from
 * 0001-01-01 00:00, the origin of Python's `datetime`, and are passed in by
 * the caller; the token endpoint is a function from the credentials to its
 * reply.
 */
module OAuth {
  import opened Wrappers

  /** The stored client configuration the grant is built from. */
  datatype Credentials = Credentials(accountId: string, clientId: string, clientSecret: string)

  /** The members of the endpoint's JSON reply; an absent key is `None`. */
  datatype TokenFields = TokenFields(accessToken: Option<string>, expiresIn: Option<int>)

  /** What the token endpoint answers. */
  datatype TokenReply =
    | Issued(fields: TokenFields)   // a success status with a JSON object
    | Refused(status: int)          // an error status: `raise_for_status` raises an HTTPError
    | NoReply                       // the request failed in transport, or the body is not JSON

  /** Why no token was returned. */
  datatype TokenError =
    | ConfigMissing            // ValueError: no client configuration is stored
    | BadCredentials           // ValueError with the sanitized message, for status 400
    | HttpFailure(status: int) // the HTTPError of any other status, re-raised
    | OtherFailure             // a transport or decoding error, or a missing key in the reply

  /**
   * 10000-01-01 00:00 in seconds: a `datetime` lies before it (`datetime.max`
   * is the last microsecond of 9999-12-31), and an addition that leaves the
   * range 0001-01-01 .. 9999-12-31 raises `OverflowError`.
   */
  const DatetimeEnd: int := 315537897600

  /** A clock reading `datetime` can represent. */
  predicate InRange(t: int)
  {
    0 <= t < DatetimeEnd
  }

  /** The cache: the last token obtained and when it expires (`None` before the first). */
  datatype TokenState = TokenState(accessToken: Option<string>, tokenExpiry: Option<int>)

  /** A new `ZoomOAuth` has nothing cached. */
  const Empty := TokenState(None, None)

  /** The cached token may be reused at `now`: it is non-empty, has an expiry, and `now` is before it. */
  predicate Reusable(s: TokenState, now: int)
  {
    s.accessToken.Some? && s.accessToken.value != "" && s.tokenExpiry.Some? && now < s.tokenExpiry.value
  }

  /** One call: the cache afterwards and the token or error returned. */
  datatype Step = Step(state: TokenState, outcome: Result<string, TokenError>)

  /**
   * `get_access_token` at clock `now`, with the stored configuration `config`,
   * the token endpoint `endpoint`, and `issued` the clock read once a token
   * has been received. The token is stored before the expiry is computed, so
   * a reply without `expires_in`, or one whose expiry lies past the end of the
   * `datetime` range, replaces the token but not the expiry.
   */
  function Acquire(s: TokenState, now: int, config: Option<Credentials>,
                   endpoint: Credentials -> TokenReply, issued: int): (r: Step)
    ensures r.outcome.Success? ==> r.state.accessToken == Some(r.outcome.value) && r.state.tokenExpiry.Some?
    ensures r.outcome.Failure? ==> r.state.tokenExpiry == s.tokenExpiry
    ensures r.state.tokenExpiry != s.tokenExpiry ==> InRange(r.state.tokenExpiry.value)
  {
    if Reusable(s, now) then Step(s, Success(s.accessToken.value))
    else match config
      case None => Step(s, Failure(ConfigMissing))
      case Some(credentials) =>
        match endpoint(credentials)
        case Refused(status) => Step(s, Failure(if status == 400 then BadCredentials else HttpFailure(status)))
        case NoReply => Step(s, Failure(OtherFailure))
        case Issued(fields) =>
          match fields.accessToken
          case None => Step(s, Failure(OtherFailure))
          case Some(token) =>
            match fields.expiresIn
            case None => Step(TokenState(Some(token), s.tokenExpiry), Failure(OtherFailure))
            case Some(seconds) =>
              if InRange(issued + seconds) then Step(TokenState(Some(token), Some(issued + seconds)), Success(token))
              else Step(TokenState(Some(token), s.tokenExpiry), Failure(OtherFailure))
  }

  /**
   * A reusable cached token is returned as it is, the cache is left alone, and
   * neither the configuration nor the endpoint is consulted: two calls that
   * differ only in those agree.
   */
  lemma CacheHit(s: TokenState, now: int,
                 config: Option<Credentials>, endpoint: Credentials -> TokenReply, issued: int,
                 config': Option<Credentials>, endpoint': Credentials -> TokenReply, issued': int)
    requires Reusable(s, now)
    ensures Acquire(s, now, config, endpoint, issued) == Step(s, Success(s.accessToken.value))
    ensures Acquire(s, now, config, endpoint, issued) == Acquire(s, now, config', endpoint', issued')
  {
  }

  /**
   * On a miss: without configuration the "not found" error; a granted token is
   * stored with expiry `issued + expires_in` and returned, unless that expiry
   * is out of the `datetime` range, when the token is stored, the expiry kept
   * and the overflow raised; status 400 gives the credentials error and any
   * other error status is passed on. A failed request, an unreadable body or a
   * reply without `access_token` fails with the cache untouched; a reply with a
   * token but no `expires_in` stores the token, keeps the expiry and fails.
   */
  lemma CacheMiss(s: TokenState, now: int, config: Option<Credentials>,
                  endpoint: Credentials -> TokenReply, issued: int)
    requires !Reusable(s, now)
    ensures config.None? ==> Acquire(s, now, config, endpoint, issued) == Step(s, Failure(ConfigMissing))
    ensures config.Some? && endpoint(config.value) == Refused(400) ==>
      Acquire(s, now, config, endpoint, issued) == Step(s, Failure(BadCredentials))
    ensures forall status :: config.Some? && endpoint(config.value) == Refused(status) && status != 400 ==>
      Acquire(s, now, config, endpoint, issued) == Step(s, Failure(HttpFailure(status)))
    ensures forall token, seconds ::
      (config.Some? && endpoint(config.value) == Issued(TokenFields(Some(token), Some(seconds))) && InRange(issued + seconds)) ==>
      Acquire(s, now, config, endpoint, issued) == Step(TokenState(Some(token), Some(issued + seconds)), Success(token))
    ensures forall token, seconds ::
      (config.Some? && endpoint(config.value) == Issued(TokenFields(Some(token), Some(seconds))) && !InRange(issued + seconds)) ==>
      Acquire(s, now, config, endpoint, issued) == Step(TokenState(Some(token), s.tokenExpiry), Failure(OtherFailure))
    ensures (config.Some? && (|| endpoint(config.value).NoReply?
                              || (endpoint(config.value).Issued? && endpoint(config.value).fields.accessToken.None?))) ==>
      Acquire(s, now, config, endpoint, issued) == Step(s, Failure(OtherFailure))
    ensures forall token ::
      (config.Some? && endpoint(config.value) == Issued(TokenFields(Some(token), None))) ==>
      Acquire(s, now, config, endpoint, issued) == Step(TokenState(Some(token), s.tokenExpiry), Failure(OtherFailure))
  {
  }

  /**
   * A returned token is the one cached afterwards; a failure never moves the
   * expiry, and only a reply that carries a token but no usable `expires_in`
   * (absent, or out of the `datetime` range) changes the cache at all.
   */
  lemma OutcomeAndCache(s: TokenState, now: int, config: Option<Credentials>,
                        endpoint: Credentials -> TokenReply, issued: int)
    ensures var r := Acquire(s, now, config, endpoint, issued);
      && (r.outcome.Success? ==> r.state.accessToken == Some(r.outcome.value))
      && (r.outcome.Failure? ==> r.state.tokenExpiry == s.tokenExpiry)
      && (r.outcome.Failure? && r.state != s ==>
            && r.outcome.error == OtherFailure
            && config.Some? && endpoint(config.value).Issued?
            && endpoint(config.value).fields.accessToken.Some?
            && (|| endpoint(config.value).fields.expiresIn.None?
                || !InRange(issued + endpoint(config.value).fields.expiresIn.value)))
  {
  }

  /**
   * Two calls, one exchange: after a token with a positive lifetime is granted
   * at `issued`, a later call at any `now` before `issued + expires_in` returns
   * the same token whatever the endpoint would answer, and leaves the cache as
   * it was.
   */
  lemma {:induction false} SecondCallReuses(s: TokenState, t0: int, config: Option<Credentials>,
                                            endpoint: Credentials -> TokenReply, issued: int,
                                            now: int, endpoint': Credentials -> TokenReply, issued': int)
    requires var r := Acquire(s, t0, config, endpoint, issued);
      r.outcome.Success? && r.outcome.value != ""
    requires var r := Acquire(s, t0, config, endpoint, issued);
      now < r.state.tokenExpiry.value
    ensures var r := Acquire(s, t0, config, endpoint, issued);
      Acquire(r.state, now, config, endpoint', issued') == Step(r.state, r.outcome)
  {
    var r := Acquire(s, t0, config, endpoint, issued);
    assert Reusable(r.state, now);
  }

  /**
   * A fresh cache never hits: the first call's result and cache are exactly
   * those of the exchange with the endpoint, whatever the clock reads.
   */
  lemma FirstCallExchanges(now: int, config: Option<Credentials>, endpoint: Credentials -> TokenReply, issued: int,
                           now': int)
    ensures Acquire(Empty, now, config, endpoint, issued) == Acquire(Empty, now', config, endpoint, issued)
    ensures config.None? ==> Acquire(Empty, now, config, endpoint, issued) == Step(Empty, Failure(ConfigMissing))
    ensures forall status :: config.Some? && endpoint(config.value) == Refused(status) ==>
      Acquire(Empty, now, config, endpoint, issued)
        == Step(Empty, Failure(if status == 400 then BadCredentials else HttpFailure(status)))
    ensures config.Some? && endpoint(config.value).NoReply? ==>
      Acquire(Empty, now, config, endpoint, issued) == Step(Empty, Failure(OtherFailure))
    ensures forall token, seconds ::
      (config.Some? && endpoint(config.value) == Issued(TokenFields(Some(token), Some(seconds))) && InRange(issued + seconds)) ==>
      Acquire(Empty, now, config, endpoint, issued) == Step(TokenState(Some(token), Some(issued + seconds)), Success(token))
  {
  }

  /** The token cache of one client object. */
  class ZoomOAuth {
    var accessToken: Option<string>
    var tokenExpiry: Option<int>

    constructor ()
      ensures accessToken == None && tokenExpiry == None
    {
      accessToken := None;
      tokenExpiry := None;
    }

    function State(): TokenState
      reads this
    {
      TokenState(accessToken, tokenExpiry)
    }

    /** `get_access_token`: the object's fields become the new cache of `Acquire`. */
    method GetAccessToken(now: int, config: Option<Credentials>,
                          endpoint: Credentials -> TokenReply, issued: int)
      returns (r: Result<string, TokenError>)
      modifies this
      ensures Step(State(), r) == Acquire(old(State()), now, config, endpoint, issued)
    {
      if accessToken.Some? && accessToken.value != "" && tokenExpiry.Some? && now < tokenExpiry.value {
        return Success(accessToken.value);
      }
      if config.None? {
        return Failure(ConfigMissing);
      }
      var reply := endpoint(config.value);
      match reply {
        case Refused(status) =>
          if status == 400 {
            return Failure(BadCredentials);
          }
          return Failure(HttpFailure(status));
        case NoReply =>
          return Failure(OtherFailure);
        case Issued(fields) =>
          if fields.accessToken.None? {
            return Failure(OtherFailure);
          }
          accessToken := fields.accessToken;
          if fields.expiresIn.None? || !InRange(issued + fields.expiresIn.value) {
            return Failure(OtherFailure);
          }
          tokenExpiry := Some(issued + fields.expiresIn.value);
          return Success(accessToken.value);
      }
    }
  }
}
