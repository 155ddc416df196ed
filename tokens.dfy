/**
 * The OAuth token pair as a value, the two transitions that change it
 * (authorization-code callback and refresh), and what holds over any
 * sequence of handled requests.
 */
module Tokens {
  import opened Js
  import opened WebApi

  datatype TokenPair = TokenPair(access: JsStr, refresh: JsStr)

  /** Both tokens start as empty strings. */
  const Initial := TokenPair(Str(""), Str(""))

  /** The aggregate route treats the server as logged in when the access token is truthy. */
  predicate IsAuthorized(p: TokenPair) {
    Truthy(p.access)
  }

  /**
   * `/spotify/callback`: the tokens are assigned only after the awaited
   * exchange succeeds, and then both unconditionally, even a missing field.
   */
  function AfterCallback(p: TokenPair, r: Upstream<TokenGrant>): (q: TokenPair)
    ensures r.Err? ==> q == p
    ensures r.Ok? ==> q.access == r.value.accessToken && q.refresh == r.value.refreshToken
    ensures IsAuthorized(q) <==> if r.Ok? then Truthy(r.value.accessToken) else IsAuthorized(p)
  {
    match r
    case Err(_) => p
    case Ok(g) => TokenPair(g.accessToken, g.refreshToken)
  }

  /**
   * `/refresh_token`: nothing happens without a truthy refresh token or when
   * the exchange fails; on success the access token is replaced and the
   * refresh token only by a truthy one from the response.
   */
  function AfterRefresh(p: TokenPair, r: Upstream<TokenGrant>): (q: TokenPair)
    ensures !Truthy(p.refresh) ==> q == p
    ensures r.Err? ==> q == p
    ensures Truthy(p.refresh) && r.Ok? ==> q.access == r.value.accessToken
    ensures Truthy(p.refresh) && r.Ok? && Truthy(r.value.refreshToken) ==> q.refresh == r.value.refreshToken
    ensures r.Ok? && !Truthy(r.value.refreshToken) ==> q.refresh == p.refresh
    ensures Truthy(p.refresh) ==> Truthy(q.refresh)
  {
    if !Truthy(p.refresh) then p
    else
      match r
      case Err(_) => p
      case Ok(g) => TokenPair(g.accessToken, if Truthy(g.refreshToken) then g.refreshToken else p.refresh)
  }

  /** A handled request, as far as the token pair is concerned. */
  datatype Event =
    | CallbackEvent(result: Upstream<TokenGrant>)
    | RefreshEvent(result: Upstream<TokenGrant>)
    | OtherRoute

  function Apply(p: TokenPair, e: Event): (q: TokenPair) {
    match e
    case CallbackEvent(r) => AfterCallback(p, r)
    case RefreshEvent(r) => AfterRefresh(p, r)
    case OtherRoute => p
  }

  /** The token pair after handling `evs` one at a time, starting from `p`. */
  function Run(p: TokenPair, evs: seq<Event>): (q: TokenPair)
    decreases |evs|
  {
    if evs == [] then p else Run(Apply(p, evs[0]), evs[1..])
  }

  lemma {:induction false} RunAppend(p: TokenPair, a: seq<Event>, b: seq<Event>)
    ensures Run(p, a + b) == Run(Run(p, a), b)
    decreases |a|
  {
    if a == [] {
      assert a + b == b;
    } else {
      assert (a + b)[0] == a[0];
      assert (a + b)[1..] == a[1..] + b;
      RunAppend(Apply(p, a[0]), a[1..], b);
    }
  }

  /** Once set, a refresh token is never cleared by refreshes or other routes; only a callback can drop it. */
  lemma {:induction false} RefreshTokenRetained(p: TokenPair, evs: seq<Event>)
    requires Truthy(p.refresh)
    requires forall i :: 0 <= i < |evs| ==> !evs[i].CallbackEvent?
    ensures Truthy(Run(p, evs).refresh)
    decreases |evs|
  {
    if evs != [] {
      RefreshTokenRetained(Apply(p, evs[0]), evs[1..]);
    }
  }

  /** Every successful exchange in `e` carries a truthy access token. */
  predicate IssuesAccess(e: Event) {
    e.OtherRoute? || e.result.Err? || Truthy(e.result.value.accessToken)
  }

  /**
   * Nothing logs the server out by itself: authorization persists for as long
   * as every successful exchange hands back an access token.
   */
  lemma {:induction false} StaysAuthorized(p: TokenPair, evs: seq<Event>)
    requires IsAuthorized(p)
    requires forall i :: 0 <= i < |evs| ==> IssuesAccess(evs[i])
    ensures IsAuthorized(Run(p, evs))
    decreases |evs|
  {
    if evs != [] {
      assert IssuesAccess(evs[0]);
      StaysAuthorized(Apply(p, evs[0]), evs[1..]);
    }
  }

  /** A successful callback fixes both tokens, whatever happened before. */
  lemma LatestCallbackWins(p: TokenPair, evs: seq<Event>, g: TokenGrant)
    ensures Run(p, evs + [CallbackEvent(Ok(g))]) == TokenPair(g.accessToken, g.refreshToken)
  {
    RunAppend(p, evs, [CallbackEvent(Ok(g))]);
  }

  /**
   * Logging in and then refreshing against an answer without a new refresh
   * token keeps the first refresh token and takes the new access token.
   */
  lemma LoginThenRefresh(a1: string, r1: string, a2: JsStr)
    requires r1 != ""
    ensures Run(Initial, [CallbackEvent(Ok(TokenGrant(Str(a1), Str(r1)))), RefreshEvent(Ok(TokenGrant(a2, Undefined)))])
         == TokenPair(a2, Str(r1))
  {
    var evs := [CallbackEvent(Ok(TokenGrant(Str(a1), Str(r1)))), RefreshEvent(Ok(TokenGrant(a2, Undefined)))];
    var logged := TokenPair(Str(a1), Str(r1));
    assert Apply(Initial, evs[0]) == logged;
    assert Apply(logged, evs[1]) == TokenPair(a2, Str(r1));
    assert evs[1..][1..] == [];
    assert Run(TokenPair(a2, Str(r1)), evs[1..][1..]) == TokenPair(a2, Str(r1));
  }
}
