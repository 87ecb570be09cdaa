/**
 * The provider token cache: a process-wide token and its expiry time. A cached
 * token is reused while it is non-empty and its expiry lies strictly after `now`;
 * otherwise a new token is requested and both fields are overwritten. The
 * provider's answer and the clock are parameters.
 */
module PesapalAuth {
  import opened Wrappers

  /** What the provider's token endpoint answers. */
  datatype AuthResponse = TokenIssued(token: string, expiresIn: int) | AuthFailed

  /** "Failed to fetch Pesapal token". */
  datatype AuthError = FetchTokenFailed

  /** The two module-level variables; both start out `null`. */
  datatype CacheState = CacheState(cachedToken: Option<string>, tokenExpiry: Option<int>)

  const EmptyCache := CacheState(None, None)

  /** One call's observable effect: the value returned (or the error thrown), whether a
      request went to the provider, and the cache afterwards. */
  datatype FetchOutcome = FetchOutcome(result: Result<string, AuthError>, requested: bool, next: CacheState)

  /** The reuse test: a truthy token whose expiry is strictly in the future. */
  predicate IsFresh(s: CacheState, now: int)
  {
    && s.cachedToken.Some? && s.cachedToken.value != ""
    && s.tokenExpiry.Some? && s.tokenExpiry.value > now
  }

  /** The specification of one call to the token helper. The clock is read twice: `now`
      for the freshness test, and `nowAfter` once the provider has answered, which is
      the reading the new expiry is computed from. `response` is what the provider
      would answer if asked. */
  function Fetch(s: CacheState, now: int, nowAfter: int, response: AuthResponse): (o: FetchOutcome)
    ensures o.requested <==> !IsFresh(s, now)
    ensures !o.requested || o.result.Err? ==> o.next == s
    ensures o.result.Ok? ==> o.next.cachedToken == Some(o.result.value) && o.next.tokenExpiry.Some?
  {
    if IsFresh(s, now) then FetchOutcome(Ok(s.cachedToken.value), false, s)
    else match response
      case AuthFailed => FetchOutcome(Err(FetchTokenFailed), true, s)
      case TokenIssued(token, expiresIn) =>
        FetchOutcome(Ok(token), true, CacheState(Some(token), Some(nowAfter + expiresIn * 1000)))
  }

  /** A fresh cached token is returned as it is, and nothing is requested or changed. */
  lemma CacheHit(s: CacheState, now: int, nowAfter: int, response: AuthResponse)
    requires IsFresh(s, now)
    ensures Fetch(s, now, nowAfter, response) == FetchOutcome(Ok(s.cachedToken.value), false, s)
  {
  }

  /** Without a fresh token a request is made; on success the cache holds the new token,
      its expiry is the second clock reading plus `expires_in * 1000`, and the new token
      is what is returned. */
  lemma RefreshStores(s: CacheState, now: int, nowAfter: int, token: string, expiresIn: int)
    requires !IsFresh(s, now)
    ensures var o := Fetch(s, now, nowAfter, TokenIssued(token, expiresIn));
      && o.requested
      && o.next == CacheState(Some(token), Some(nowAfter + expiresIn * 1000))
      && o.result == Ok(o.next.cachedToken.value)
  {
  }

  /** The expiry test is strict: a token expiring exactly at `now` is refreshed. */
  lemma ExpiryIsStrict(s: CacheState, now: int, nowAfter: int, response: AuthResponse)
    requires s.tokenExpiry == Some(now)
    ensures Fetch(s, now, nowAfter, response).requested
  {
  }

  /** Once the expiry is reached, every call refreshes. */
  lemma RefreshAfterExpiry(s: CacheState, now: int, nowAfter: int, response: AuthResponse)
    requires s.tokenExpiry.Some? && s.tokenExpiry.value <= now
    ensures Fetch(s, now, nowAfter, response).requested
  {
  }

  /** A failed request leaves both cache fields as they were. */
  lemma FailureKeepsCache(s: CacheState, now: int, nowAfter: int)
    requires !IsFresh(s, now)
    ensures Fetch(s, now, nowAfter, AuthFailed) == FetchOutcome(Err(FetchTokenFailed), true, s)
  {
  }

  /** After a call that yields a non-empty token, any later call whose clock reading is
      before the stored expiry makes no request and returns the same token. */
  lemma ReuseWithinLifetime(s: CacheState, now: int, nowAfter: int, first: AuthResponse,
                            later: int, laterAfter: int, second: AuthResponse)
    requires Fetch(s, now, nowAfter, first).result.Ok?
    requires Fetch(s, now, nowAfter, first).result.value != ""
    requires later < Fetch(s, now, nowAfter, first).next.tokenExpiry.value
    ensures var o1 := Fetch(s, now, nowAfter, first);
      var o2 := Fetch(o1.next, later, laterAfter, second);
      && !o2.requested
      && o2.result == o1.result
      && o2.next == o1.next
  {
  }

  /** Two calls whose freshness tests read the same clock value, the first succeeding
      with a positive lifetime and a non-empty token, make at most one request between
      them and return the same token. */
  lemma SecondCallReuses(s: CacheState, now: int, nowAfter: int, first: AuthResponse,
                         laterAfter: int, second: AuthResponse)
    requires now <= nowAfter
    requires first.TokenIssued? ==> first.expiresIn > 0 && first.token != ""
    requires Fetch(s, now, nowAfter, first).result.Ok?
    ensures var o1 := Fetch(s, now, nowAfter, first);
      var o2 := Fetch(o1.next, now, laterAfter, second);
      && !o2.requested
      && o2.result == o1.result
      && o2.next == o1.next
  {
    var o1 := Fetch(s, now, nowAfter, first);
    assert o1.result.value != "" && now < o1.next.tokenExpiry.value;
    ReuseWithinLifetime(s, now, nowAfter, first, now, laterAfter, second);
  }

  /** An empty token is falsy, so it is stored but never reused. */
  lemma EmptyTokenNotReused(s: CacheState, now: int, nowAfter: int, expiresIn: int,
                            later: int, laterAfter: int, response: AuthResponse)
    requires !IsFresh(s, now)
    ensures Fetch(Fetch(s, now, nowAfter, TokenIssued("", expiresIn)).next, later, laterAfter, response).requested
  {
  }

  /** The cache itself: two fields overwritten on refresh. */
  class TokenCache {
    var cachedToken: Option<string>
    var tokenExpiry: Option<int>

    function State(): CacheState
      reads this
    {
      CacheState(cachedToken, tokenExpiry)
    }

    constructor ()
      ensures State() == EmptyCache
    {
      cachedToken := None;
      tokenExpiry := None;
    }

    /** Returns the bearer token, refreshing the cache when it holds no fresh one. */
    method GetToken(now: int, nowAfter: int, response: AuthResponse)
      returns (token: Result<string, AuthError>, requested: bool)
      modifies this
      ensures var o := Fetch(old(State()), now, nowAfter, response);
        token == o.result && requested == o.requested && State() == o.next
    {
      if cachedToken.Some? && cachedToken.value != "" && tokenExpiry.Some? && tokenExpiry.value > now {
        return Ok(cachedToken.value), false;
      }
      requested := true;
      match response {
        case AuthFailed =>
          token := Err(FetchTokenFailed);
        case TokenIssued(t, expiresIn) =>
          cachedToken := Some(t);
          tokenExpiry := Some(nowAfter + expiresIn * 1000);
          token := Ok(cachedToken.value);
      }
    }
  }
}
