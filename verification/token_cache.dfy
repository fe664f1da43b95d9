/** The one-slot cache of the identity provider's access token.  The shared
    key-value store is a cache entry (a token and the time it expires at); the
    clock and the identity provider's answer are inputs. */
module TokenCache {
  import opened Common

  /** How long, in clock units, a fetched token is kept. */
  const TokenValidity := 120

  /** What one token request to the identity provider answered: its HTTP
      status and the `access_token` field of its body, if present. */
  datatype FetchOutcome = FetchOutcome(status: int, accessToken: Option<string>)

  /** The stored token and the time at which the store evicts it.  The empty
      token stands both for "no entry" and for a stored empty value: the
      handler treats both as a miss. */
  datatype CacheEntry = CacheEntry(token: string, expiresAt: int)

  /** The store answers with a non-empty token. */
  predicate IsHit(c: CacheEntry, now: int)
  {
    c.token != "" && now < c.expiresAt
  }

  /** One token acquisition: what it returned, the entry afterwards, and
      whether it asked the identity provider. */
  datatype TokenStep = TokenStep(result: Result<string, Error>, cache: CacheEntry, fetched: bool)

  function AcquireToken(c: CacheEntry, now: int, fetch: FetchOutcome): (s: TokenStep)
    // a returned token is the one now cached, and it is unexpired now
    ensures s.result.Ok? ==> s.cache.token == s.result.value && now < s.cache.expiresAt
    // a failed acquisition asked the provider and left the entry as it was
    ensures s.result.Err? ==> s.fetched && s.cache == c
    // the provider is asked exactly when the store misses
    ensures s.fetched <==> !IsHit(c, now)
  {
    if IsHit(c, now) then TokenStep(Ok(c.token), c, false)
    else if fetch.status != HttpOk then TokenStep(Err(AuthFailure), c, true)
    else
      match fetch.accessToken
      case None => TokenStep(Err(MissingAccessToken), c, true)
      case Some(t) => TokenStep(Ok(t), CacheEntry(t, now + TokenValidity), true)
  }

  /** A non-empty unexpired token is returned as stored, with no request. */
  lemma CacheHitSkipsFetch(c: CacheEntry, now: int, fetch: FetchOutcome)
    requires c.token != "" && now < c.expiresAt
    ensures AcquireToken(c, now, fetch) == TokenStep(Ok(c.token), c, false)
  {
  }

  /** On a miss answered with 200, the fetched token is stored for
      TokenValidity units and returned. */
  lemma MissStoresToken(c: CacheEntry, now: int, t: string)
    requires !IsHit(c, now)
    ensures AcquireToken(c, now, FetchOutcome(200, Some(t)))
              == TokenStep(Ok(t), CacheEntry(t, now + 120), true)
  {
  }

  /** On a miss answered with any other status the acquisition fails and the
      entry is untouched. */
  lemma MissRejected(c: CacheEntry, now: int, fetch: FetchOutcome)
    requires !IsHit(c, now) && fetch.status != 200
    ensures AcquireToken(c, now, fetch) == TokenStep(Err(AuthFailure), c, true)
  {
  }

  /** After a successful acquisition of a non-empty token, any later call
      before the entry expires returns that same token without a request. */
  lemma ReuseBeforeExpiry(c: CacheEntry, now: int, fetch: FetchOutcome, later: int, fetch': FetchOutcome)
    requires AcquireToken(c, now, fetch).result.Ok?
    requires AcquireToken(c, now, fetch).result.value != ""
    requires later < AcquireToken(c, now, fetch).cache.expiresAt
    ensures var first := AcquireToken(c, now, fetch);
            AcquireToken(first.cache, later, fetch') == TokenStep(first.result, first.cache, false)
  {
  }

  /** The shared store holding the token, updated in place. */
  class OidcTokenCache {
    var token: string
    var expiresAt: int

    function Entry(): CacheEntry
      reads this
    {
      CacheEntry(token, expiresAt)
    }

    /** Returns the cached token, or asks the identity provider (whose answer
        is `fetch`) and caches its token; `fetched` says whether it asked. */
    method GetOidcToken(now: int, fetch: FetchOutcome) returns (r: Result<string, Error>, fetched: bool)
      modifies this
      ensures TokenStep(r, Entry(), fetched) == AcquireToken(old(Entry()), now, fetch)
      ensures !fetched ==> r == Ok(old(token)) && unchanged(this)
      ensures r.Err? ==> unchanged(this)
    {
      if token != "" && now < expiresAt {
        return Ok(token), false;
      }
      fetched := true;
      if fetch.status != HttpOk {
        r := Err(AuthFailure);
        return;
      }
      match fetch.accessToken
      case None =>
        r := Err(MissingAccessToken);
      case Some(t) =>
        token, expiresAt := t, now + TokenValidity;
        r := Ok(t);
    }
  }
}
