/** The bearer-token cache of `PiwikAnalytics._get_auth_token`: a state record
    stepped by a function of the current time and the outcome of the
    client-credentials exchange (which is I/O, so it is an input here). */
module TokenCache {
  import opened Wrappers

  /** Lifetime used when the token response has no `expires_in` field. */
  const DefaultExpiresIn: int := 3600

  /** `self.token` and `self.token_expiry`; both start as `None`. */
  datatype Cache = Cache(token: Option<string>, expiry: Option<int>)

  const Empty: Cache := Cache(None, None)

  /** What the token endpoint did. `Rejected` is any request-level failure
      (transport error, error status, undecodable body); `MissingAccessToken`
      is a decoded body without `access_token`. */
  datatype Exchange =
    | Rejected
    | MissingAccessToken
    | Granted(accessToken: string, expiresIn: Option<int>)

  /** `Rejected` surfaces as the wrapped "Authentication failed" error; the
      missing key escapes unwrapped, as a different error. */
  datatype AuthError = AuthenticationFailed | MalformedTokenResponse

  /** One call: the new cache, the token or the error, and whether the
      exchange was performed. */
  datatype Step = Step(cache: Cache, result: Result<string, AuthError>, exchanged: bool)

  /** The reuse test, with Python truthiness: an empty token or an expiry of
      0 counts as absent. */
  predicate Fresh(c: Cache, now: int) {
    && c.token.Some? && c.token.value != ""
    && c.expiry.Some? && c.expiry.value != 0
    && now < c.expiry.value
  }

  function ExpiresIn(x: Exchange): int
    requires x.Granted?
  {
    x.expiresIn.GetOr(DefaultExpiresIn)
  }

  /** `_get_auth_token` with `now` sampled once, before the exchange. */
  function GetAuthToken(c: Cache, now: int, x: Exchange): (s: Step)
    ensures s.exchanged <==> !Fresh(c, now)
    ensures !s.exchanged ==> s.cache == c && s.result == Success(c.token.value)
    ensures s.result.Failure? ==> s.cache == c
    ensures s.result.Success? ==> s.cache.token == Some(s.result.value)
    ensures s.exchanged && s.result.Success? ==>
      x.Granted? && s.result.value == x.accessToken && s.cache.expiry == Some(now + ExpiresIn(x))
    ensures s.exchanged && s.result.Failure? <==> !Fresh(c, now) && !x.Granted?
    ensures s.exchanged && x.Rejected? ==> s.result == Failure(AuthenticationFailed)
    ensures s.exchanged && x.MissingAccessToken? ==> s.result == Failure(MalformedTokenResponse)
  {
    if Fresh(c, now) then
      Step(c, Success(c.token.value), false)
    else
      match x
      case Rejected => Step(c, Failure(AuthenticationFailed), true)
      case MissingAccessToken => Step(c, Failure(MalformedTokenResponse), true)
      case Granted(token, _) => Step(Cache(Some(token), Some(now + ExpiresIn(x))), Success(token), true)
  }

  /** The cache invariant: token and expiry are set together. */
  predicate Consistent(c: Cache) {
    c.token.Some? <==> c.expiry.Some?
  }

  lemma EmptyIsConsistent()
    ensures Consistent(Empty)
  {
  }

  /** Every step keeps token and expiry paired. */
  lemma StepPreservesConsistency(c: Cache, now: int, x: Exchange)
    requires Consistent(c)
    ensures Consistent(GetAuthToken(c, now, x).cache)
  {
  }

  /** After a successful exchange of a non-empty token with a positive
      lifetime, every call strictly before the new expiry reuses it. */
  lemma RefreshedTokenIsReused(c: Cache, now: int, x: Exchange, later: int, y: Exchange)
    requires !Fresh(c, now) && x.Granted? && x.accessToken != ""
    requires ExpiresIn(x) > 0 && now + ExpiresIn(x) != 0
    requires now <= later < now + ExpiresIn(x)
    ensures var s := GetAuthToken(c, now, x);
      GetAuthToken(s.cache, later, y) == Step(s.cache, Success(x.accessToken), false)
  {
  }

  /** A sequence of calls, each with its own clock reading and exchange
      outcome, threading the cache; returns the final cache and how many
      exchanges were performed. Only an exchange can change the cache. */
  function Replay(c: Cache, calls: seq<(int, Exchange)>): (r: (Cache, nat))
    ensures r.1 == 0 ==> r.0 == c
    decreases |calls|
  {
    if |calls| == 0 then (c, 0)
    else
      var s := GetAuthToken(c, calls[0].0, calls[0].1);
      var rest := Replay(s.cache, calls[1..]);
      (rest.0, rest.1 + (if s.exchanged then 1 else 0))
  }

  /** While every clock reading is inside the cached token's window, no call
      exchanges and the cache does not change. */
  lemma {:induction false} ReplayWithinWindow(c: Cache, calls: seq<(int, Exchange)>)
    requires forall i :: 0 <= i < |calls| ==> Fresh(c, calls[i].0)
    ensures Replay(c, calls) == (c, 0)
    decreases |calls|
  {
    if |calls| > 0 {
      ReplayWithinWindow(c, calls[1..]);
    }
  }

  /** Token caching: a first call that finds no usable token exchanges once;
      any number of further calls inside the new token's lifetime add no
      exchange. */
  lemma ExactlyOneExchange(c: Cache, now: int, x: Exchange, calls: seq<(int, Exchange)>)
    requires !Fresh(c, now) && x.Granted? && x.accessToken != ""
    requires now + ExpiresIn(x) != 0
    requires forall i :: 0 <= i < |calls| ==> calls[i].0 < now + ExpiresIn(x)
    ensures Replay(c, [(now, x)] + calls).1 == 1
  {
    var s := GetAuthToken(c, now, x);
    ReplayWithinWindow(s.cache, calls);
    assert ([(now, x)] + calls)[1..] == calls;
  }

  /** A call at or after expiry always performs a new exchange. */
  lemma ExpiredTokenIsExchanged(c: Cache, now: int, x: Exchange)
    requires c.expiry.Some? && now >= c.expiry.value
    ensures GetAuthToken(c, now, x).exchanged
  {
  }
}
