/**
 * The process-wide cache of one CRM access token (lib/zohoAuth.js).
 *
 * The module state is three variables: the cached token, the instant (in
 * milliseconds) until which it may be served, and the pending refresh, if
 * any. Awaiting a refresh is split into two events: `Get` starts or joins a
 * refresh, and a later `Settle` delivers that refresh's one outcome to every
 * caller that started or joined it.
 *
 * The transitions are first stated as functions on `CacheState`; the class
 * `TokenCache` holds the same state in fields and its methods are proved to
 * perform exactly these transitions. Lemmas about runs of events (single
 * flight, at most one refresh outstanding) are stated on the functions.
 */
module ZohoAuth {
  import opened Wrappers
  import opened Crm

  /** Safety margin taken off the advertised lifetime: five minutes. */
  const SKEW_MS: int := 5 * 60 * 1000

  /** Lifetime assumed when the reply carries no usable `expires_in`. */
  const DEFAULT_EXPIRES_IN_SEC: int := 3600

  /** `cachedToken`, `expiryMs`, and whether `refreshPromise` is set. */
  datatype CacheState = CacheState(cachedToken: Option<string>, expiryMs: int, refreshing: bool)

  /** The state at module load: no token, expiry 0, nothing in flight. */
  function Initial(): CacheState {
    CacheState(None, 0, false)
  }

  /** The cache answers a request made at `now` without a refresh. */
  predicate Serves(s: CacheState, now: int) {
    Truthy(s.cachedToken) && now < s.expiryMs
  }

  /** What a caller of `getZohoAccessToken` gets. */
  datatype GetResult =
    | Cached(token: string)   // the cached token, at once
    | Joined                  // the pending refresh's outcome, once it settles
    | Started                 // a new refresh's outcome, once it settles

  datatype RefreshError =
    | NetworkError(message: string)   // the POST itself failed
    | ParseError(text: string)        // the body was not JSON, or was JSON `null`, on which reading `access_token` throws
    | NoAccessToken(body: string)     // JSON without a truthy `access_token`

  /** The one outcome a refresh delivers to all of its callers. */
  datatype RefreshOutcome = Refreshed(token: string) | Failed(error: RefreshError)

  function Max(a: int, b: int): int {
    if a < b then b else a
  }

  /**
   * The expiry stored after a successful refresh that completes at `now`:
   * `expires_in || 3600` seconds, less the skew, never before `now`.
   */
  function ExpiryAfterRefresh(now: int, expiresIn: Option<int>): (e: int)
    ensures e >= now
    ensures expiresIn.None? || expiresIn == Some(0) ==> e == now + 3_300_000
    ensures expiresIn.Some? && expiresIn.value * 1000 > SKEW_MS ==> e == now + expiresIn.value * 1000 - SKEW_MS
    ensures expiresIn.Some? && expiresIn.value != 0 && expiresIn.value * 1000 <= SKEW_MS ==> e == now
  {
    var seconds := if expiresIn.Some? && expiresIn.value != 0 then expiresIn.value else DEFAULT_EXPIRES_IN_SEC;
    now + Max(0, seconds * 1000 - SKEW_MS)
  }

  /** The answer to `getZohoAccessToken` called at `now` in state `s`. */
  function GetAnswer(s: CacheState, now: int): (r: GetResult)
    ensures r.Cached? <==> Serves(s, now)
    ensures r.Cached? ==> Some(r.token) == s.cachedToken && r.token != ""
    ensures r.Started? <==> !Serves(s, now) && !s.refreshing
    ensures r.Joined? <==> !Serves(s, now) && s.refreshing
  {
    if Serves(s, now) then Cached(s.cachedToken.value)
    else if !s.refreshing then Started
    else Joined
  }

  /** The state after `getZohoAccessToken` called at `now` in state `s`. */
  function AfterGet(s: CacheState, now: int): (t: CacheState)
    ensures t.cachedToken == s.cachedToken && t.expiryMs == s.expiryMs
    ensures t.refreshing <==> s.refreshing || !Serves(s, now)
    ensures Serves(s, now) ==> t == s
  {
    if Serves(s, now) || s.refreshing then s
    else s.(refreshing := true)
  }

  /** The outcome of a refresh, decided by its reply alone. */
  function SettleOutcome(reply: TokenReply): (o: RefreshOutcome)
    ensures o.Refreshed? <==> reply.TokenJson? && Truthy(reply.accessToken)
    ensures o.Refreshed? ==> Some(o.token) == reply.accessToken
  {
    match reply
    case TokenUnavailable(message) => Failed(NetworkError(message))
    case TokenNotJson(text) => Failed(ParseError(text))
    case TokenJson(accessToken, _, text) =>
      if Truthy(accessToken) then Refreshed(accessToken.value) else Failed(NoAccessToken(text))
  }

  /**
   * The state after the pending refresh settles at `now` with `reply`: the
   * pending slot is always cleared; only a success touches the cache.
   */
  function AfterSettle(s: CacheState, now: int, reply: TokenReply): (t: CacheState)
    ensures !t.refreshing
    ensures SettleOutcome(reply).Failed? ==> t.cachedToken == s.cachedToken && t.expiryMs == s.expiryMs
    ensures SettleOutcome(reply).Refreshed? ==>
      t.cachedToken == Some(SettleOutcome(reply).token) && t.expiryMs >= now
    ensures SettleOutcome(reply).Refreshed? ==> t.expiryMs == ExpiryAfterRefresh(now, reply.expiresIn)
  {
    match SettleOutcome(reply)
    case Refreshed(token) =>
      CacheState(Some(token), ExpiryAfterRefresh(now, reply.expiresIn), false)
    case Failed(_) =>
      s.(refreshing := false)
  }

  /** The state after `invalidateZohoToken`. */
  function AfterInvalidate(s: CacheState): (t: CacheState)
    ensures t.cachedToken == None && t.expiryMs == 0
    ensures t.refreshing == s.refreshing
    ensures forall now :: !Serves(t, now)
  {
    s.(cachedToken := None, expiryMs := 0)
  }

  /**
   * The cache itself: the three module variables as fields, and the three
   * operations as methods that perform the transitions above.
   */
  class TokenCache {
    var cachedToken: Option<string>
    var expiryMs: int
    /** Whether `refreshPromise` is set. */
    var refreshInFlight: bool

    function State(): CacheState
      reads this
    {
      CacheState(cachedToken, expiryMs, refreshInFlight)
    }

    constructor ()
      ensures State() == Initial()
    {
      cachedToken := None;
      expiryMs := 0;
      refreshInFlight := false;
    }

    /** `getZohoAccessToken`: serve from the cache, else start or join a refresh. */
    method GetAccessToken(now: int) returns (r: GetResult)
      modifies this
      ensures r == GetAnswer(old(State()), now)
      ensures State() == AfterGet(old(State()), now)
    {
      if Truthy(cachedToken) && now < expiryMs {
        return Cached(cachedToken.value);
      }
      if !refreshInFlight {
        refreshInFlight := true;
        return Started;
      }
      return Joined;
    }

    /**
     * The pending refresh (`doRefresh` and its `finally`) settles at `now`
     * with `reply`; the outcome goes to every caller that started or joined it.
     */
    method CompleteRefresh(now: int, reply: TokenReply) returns (o: RefreshOutcome)
      requires refreshInFlight
      modifies this
      ensures o == SettleOutcome(reply)
      ensures State() == AfterSettle(old(State()), now, reply)
    {
      match reply {
        case TokenUnavailable(message) =>
          o := Failed(NetworkError(message));
        case TokenNotJson(text) =>
          o := Failed(ParseError(text));
        case TokenJson(accessToken, expiresIn, text) =>
          if !Truthy(accessToken) {
            o := Failed(NoAccessToken(text));
          } else {
            cachedToken := accessToken;
            var seconds := if expiresIn.Some? && expiresIn.value != 0 then expiresIn.value else DEFAULT_EXPIRES_IN_SEC;
            expiryMs := now + Max(0, seconds * 1000 - SKEW_MS);
            o := Refreshed(accessToken.value);
          }
      }
      refreshInFlight := false;
    }

    /** `invalidateZohoToken`: forget the token; a pending refresh is left alone. */
    method Invalidate()
      modifies this
      ensures State() == AfterInvalidate(old(State()))
    {
      cachedToken := None;
      expiryMs := 0;
    }
  }

  // ---------------------------------------------------------------------
  // Runs of events

  /** One observable event on the cache. */
  datatype Event =
    | GetAt(now: int)
    | SettleAt(now: int, reply: TokenReply)
    | Invalidation

  /** A refresh can only settle when one is pending. */
  predicate Enabled(s: CacheState, e: Event) {
    e.SettleAt? ==> s.refreshing
  }

  function Next(s: CacheState, e: Event): CacheState {
    match e
    case GetAt(now) => AfterGet(s, now)
    case SettleAt(now, reply) => AfterSettle(s, now, reply)
    case Invalidation => AfterInvalidate(s)
  }

  /** Every event of `es` is enabled when it happens. */
  predicate Feasible(s: CacheState, es: seq<Event>)
    decreases |es|
  {
    |es| == 0 || (Enabled(s, es[0]) && Feasible(Next(s, es[0]), es[1..]))
  }

  function Run(s: CacheState, es: seq<Event>): CacheState
    decreases |es|
  {
    if |es| == 0 then s else Run(Next(s, es[0]), es[1..])
  }

  /** How many events of `es` start a refresh. */
  function Starts(s: CacheState, es: seq<Event>): nat
    decreases |es|
  {
    if |es| == 0 then 0
    else
      (if es[0].GetAt? && GetAnswer(s, es[0].now).Started? then 1 else 0)
      + Starts(Next(s, es[0]), es[1..])
  }

  /** How many events of `es` settle a refresh. */
  function Settlements(es: seq<Event>): nat
    decreases |es|
  {
    if |es| == 0 then 0
    else (if es[0].SettleAt? then 1 else 0) + Settlements(es[1..])
  }

  function Pending(s: CacheState): nat {
    if s.refreshing then 1 else 0
  }

  /**
   * Conservation of refreshes: every refresh started in a run either settled
   * in it or is the one still pending at its end.
   */
  lemma {:induction false} RefreshesBalance(s: CacheState, es: seq<Event>)
    requires Feasible(s, es)
    ensures Pending(s) + Starts(s, es) == Settlements(es) + Pending(Run(s, es))
    decreases |es|
  {
    if |es| > 0 {
      RefreshesBalance(Next(s, es[0]), es[1..]);
    }
  }

  /**
   * Single flight: over any feasible run from the initial state, at most one
   * refresh is outstanding at its end, so the refreshes started exceed the
   * ones settled by at most one.
   */
  lemma AtMostOneRefreshOutstanding(es: seq<Event>)
    requires Feasible(Initial(), es)
    ensures Starts(Initial(), es) <= Settlements(es) + 1
    ensures Run(Initial(), es).refreshing <==> Starts(Initial(), es) == Settlements(es) + 1
  {
    RefreshesBalance(Initial(), es);
  }

  /** The answers to consecutive `getZohoAccessToken` calls made at `nows`. */
  function Answers(s: CacheState, nows: seq<int>): (rs: seq<GetResult>)
    ensures |rs| == |nows|
    decreases |nows|
  {
    if |nows| == 0 then []
    else [GetAnswer(s, nows[0])] + Answers(AfterGet(s, nows[0]), nows[1..])
  }

  /** While a refresh is pending and the cache cannot serve, every caller joins it. */
  lemma {:induction false} AllJoinPending(s: CacheState, nows: seq<int>)
    requires s.refreshing
    requires forall i :: 0 <= i < |nows| ==> !Serves(s, nows[i])
    ensures forall i :: 0 <= i < |nows| ==> Answers(s, nows)[i] == Joined
    decreases |nows|
  {
    if |nows| > 0 {
      assert AfterGet(s, nows[0]) == s;
      AllJoinPending(s, nows[1..]);
      forall i | 1 <= i < |nows|
        ensures Answers(s, nows)[i] == Joined
      {
        assert Answers(s, nows)[i] == Answers(s, nows[1..])[i - 1];
      }
    }
  }

  /**
   * A burst of callers that the cache cannot serve, with no refresh pending:
   * the first starts the one refresh and every later one joins it.
   */
  lemma {:induction false} SingleFlightBurst(s: CacheState, nows: seq<int>)
    requires !s.refreshing && |nows| > 0
    requires forall i :: 0 <= i < |nows| ==> !Serves(s, nows[i])
    ensures Answers(s, nows)[0] == Started
    ensures forall i :: 1 <= i < |nows| ==> Answers(s, nows)[i] == Joined
  {
    var s1 := AfterGet(s, nows[0]);
    assert s1 == s.(refreshing := true);
    assert forall i :: 0 <= i < |nows| - 1 ==> !Serves(s1, nows[1..][i]);
    AllJoinPending(s1, nows[1..]);
    forall i | 1 <= i < |nows|
      ensures Answers(s, nows)[i] == Joined
    {
      assert Answers(s, nows)[i] == Answers(s1, nows[1..])[i - 1];
    }
  }

  /** While the cache serves, every caller gets the cached token (and, by `AfterGet`, the state stays as it was). */
  lemma {:induction false} AllServedFromCache(s: CacheState, nows: seq<int>)
    requires forall i :: 0 <= i < |nows| ==> Serves(s, nows[i])
    ensures forall i :: 0 <= i < |nows| ==> Answers(s, nows)[i] == Cached(s.cachedToken.value)
    decreases |nows|
  {
    if |nows| > 0 {
      assert Serves(s, nows[0]);
      AllServedFromCache(s, nows[1..]);
      forall i | 1 <= i < |nows|
        ensures Answers(s, nows)[i] == Cached(s.cachedToken.value)
      {
        assert Answers(s, nows)[i] == Answers(s, nows[1..])[i - 1];
      }
    }
  }

  /** A failed refresh clears the pending slot, so the next uncached caller starts a new one. */
  lemma RetryAfterFailure(s: CacheState, now: int, reply: TokenReply, later: int)
    requires SettleOutcome(reply).Failed?
    requires !Serves(s, later)
    ensures GetAnswer(AfterSettle(s, now, reply), later) == Started
  {
  }

  /** A success caches a token that serves until its expiry and not at or after it. */
  lemma RefreshedTokenServes(s: CacheState, now: int, reply: TokenReply, later: int)
    requires SettleOutcome(reply).Refreshed?
    ensures Serves(AfterSettle(s, now, reply), later) <==> later < AfterSettle(s, now, reply).expiryMs
    ensures GetAnswer(AfterSettle(s, now, reply), later) == Cached(SettleOutcome(reply).token)
            <==> later < AfterSettle(s, now, reply).expiryMs
  {
  }

  /** A lifetime no longer than the skew yields a token that is never served. */
  lemma ShortLifetimeNeverServed(s: CacheState, now: int, reply: TokenReply, later: int)
    requires reply.TokenJson? && Truthy(reply.accessToken)
    requires reply.expiresIn.Some? && reply.expiresIn.value != 0 && reply.expiresIn.value * 1000 <= SKEW_MS
    requires later >= now
    ensures !Serves(AfterSettle(s, now, reply), later)
  {
  }

  /** Invalidating twice is the same as invalidating once. */
  lemma InvalidateIdempotent(s: CacheState)
    ensures AfterInvalidate(AfterInvalidate(s)) == AfterInvalidate(s)
  {
  }
}
