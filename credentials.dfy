/** The TTLock access-token cache (`get_ttlock_access_token`): an OAuth 2.0
    resource-owner password grant (section 4.3 of RFC 6749) whose token is
    kept until nine tenths of its announced lifetime have passed. */
module Credentials {
  import opened Json

  /** The token handed out in simulation mode. */
  const SimulatedToken := "token_simulado_123"

  /** The lifetime assumed when the token response has no `expires_in`. */
  const DefaultExpiresIn := 3600.0

  /** The global `token_cache` dict: the token and the instant (in seconds)
      until which it is reused. */
  datatype Cache = Cache(accessToken: Option<string>, expiresAt: Option<real>)

  const EmptyCache := Cache(None, None)

  /** What the POST to the token endpoint produced: a `RequestException`
      (connection failure, timeout, an HTTP error status, a body that is not
      JSON), a JSON body that is not an object (so `.get` raises
      AttributeError), or an object with the two fields the code reads. */
  datatype Fetch =
    | FetchError
    | FetchNotObject
    | FetchBody(accessToken: Option<string>, expiresIn: Option<Value>)

  /** One call: what it returns, the cache afterwards, and whether it sent a
      request to the token endpoint. */
  datatype TokenStep = TokenStep(answer: Outcome<Option<string>>, cache: Cache, requested: bool)

  /** The cache-hit test of the call: a truthy token whose expiry lies
      strictly in the future. */
  predicate IsFresh(c: Cache, now: real)
    // only a stored, non-empty token can be fresh
    ensures IsFresh(c, now) ==> c.accessToken.Some? && c.accessToken.value != ""
    // no expiry, or an expiry at or before now, means stale
    ensures c.expiresAt.None? || c.expiresAt.value <= now ==> !IsFresh(c, now)
  {
    Truthy(c.accessToken) && c.expiresAt.Some? && now < c.expiresAt.value
  }

  /** Freshness only runs out: a cache fresh at `now` was fresh at every
      earlier reading, and is stale at every reading from its expiry on. */
  lemma FreshUntilExpiry(c: Cache, earlier: real, now: real, later: real)
    requires earlier <= now && IsFresh(c, now)
    ensures IsFresh(c, earlier)
    ensures c.expiresAt.value <= later ==> !IsFresh(c, later)
  {
  }

  /** The lifetime the cache keeps a token for, `expires_in * 0.9`, with
      `expires_in` defaulting to 3600; None where the product raises. */
  function CacheSeconds(expiresIn: Option<Value>): (r: Option<real>)
    ensures expiresIn.None? ==> r == Some(3240.0)
    ensures expiresIn.Some? && expiresIn.value.Number? ==> r == Some(expiresIn.value.n * 9.0 / 10.0)
    ensures expiresIn.Some? && (expiresIn.value.Null? || expiresIn.value.Str? || expiresIn.value.Composite?) ==> r.None?
  {
    TimesNineTenths(expiresIn.GetOr(Number(DefaultExpiresIn)))
  }

  /** `get_ttlock_access_token`, with the simulation flag, the clock reading
      and the token endpoint's reply as inputs. The reply is looked at only
      when `requested` is true. */
  function GetToken(simulation: bool, cache: Cache, now: real, fetch: Fetch): (r: TokenStep)
    // simulation mode: a constant token, no request, no cache update
    ensures simulation ==> r == TokenStep(Returned(Some(SimulatedToken)), cache, false)
    // a request goes out exactly when the cached token cannot be reused
    ensures r.requested <==> !simulation && !IsFresh(cache, now)
    // a fresh cached token is returned as it is
    ensures !simulation && IsFresh(cache, now) ==> r.answer == Returned(cache.accessToken) && r.cache == cache
    // a reply with a truthy token and a usable lifetime replaces the cache and is returned
    ensures r.requested && fetch.FetchBody? && Truthy(fetch.accessToken) && CacheSeconds(fetch.expiresIn).Some? ==>
              r.answer == Returned(fetch.accessToken)
              && r.cache == Cache(fetch.accessToken, Some(now + CacheSeconds(fetch.expiresIn).value))
    // every other reply leaves the cache as it was and yields None or an escaping exception
    ensures r.requested && !(fetch.FetchBody? && Truthy(fetch.accessToken) && CacheSeconds(fetch.expiresIn).Some?) ==>
              r.cache == cache && (r.answer == Returned(None) || r.answer == Raised)
    ensures r.answer == Raised <==>
              r.requested && (fetch.FetchNotObject? ||
                              (fetch.FetchBody? && Truthy(fetch.accessToken) && CacheSeconds(fetch.expiresIn).None?))
    // a token that is handed out is never the empty string
    ensures r.answer.Returned? && r.answer.value.Some? ==> r.answer.value.value != ""
  {
    if simulation then
      TokenStep(Returned(Some(SimulatedToken)), cache, false)
    else if IsFresh(cache, now) then
      TokenStep(Returned(cache.accessToken), cache, false)
    else
      match fetch
      case FetchError => TokenStep(Returned(None), cache, true)
      case FetchNotObject => TokenStep(Raised, cache, true)
      case FetchBody(token, expiresIn) =>
        if !Truthy(token) then
          TokenStep(Returned(None), cache, true)
        else
          match CacheSeconds(expiresIn)
          case None => TokenStep(Raised, cache, true)
          case Some(seconds) => TokenStep(Returned(token), Cache(token, Some(now + seconds)), true)
  }

  /** The `cache_status` reported by the `/` and `/health` routes. */
  function CacheStatus(c: Cache): (r: string)
    ensures r == "cached" <==> Truthy(c.accessToken)
    ensures r != "cached" ==> r == "empty"
  {
    if Truthy(c.accessToken) then "cached" else "empty"
  }

  /** A token stored by a call is reused by every later call made before
      its expiry, without a request; from then on the routes report
      `cached`. */
  lemma StoredTokenIsReused(cache: Cache, now: real, fetch: Fetch, later: real, fetch': Fetch)
    requires GetToken(false, cache, now, fetch).cache != cache
    requires now <= later < now + CacheSeconds(fetch.expiresIn).value
    ensures CacheStatus(GetToken(false, cache, now, fetch).cache) == "cached"
    ensures var first := GetToken(false, cache, now, fetch);
            var second := GetToken(false, first.cache, later, fetch');
            !second.requested && second.answer == first.answer && second.cache == first.cache
  {
  }

  /** Credential expiring at t: a call one second before t reuses the
      token, a call one second after t sends exactly one request. */
  lemma ExpiryBoundary(token: string, t: real, fetch: Fetch)
    requires token != ""
    ensures var c := Cache(Some(token), Some(t));
            !GetToken(false, c, t - 1.0, fetch).requested
            && GetToken(false, c, t - 1.0, fetch).answer == Returned(Some(token))
            && GetToken(false, c, t + 1.0, fetch).requested
            && GetToken(false, c, t, fetch).requested
  {
  }
}
