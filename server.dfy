/**
 * The server's module-level token state and its route handlers. Each handler
 * runs to completion before the next one starts. Each takes the results of
 * the upstream calls it awaits as parameters and returns the response it
 * writes together with the outbound calls it issued, in order.
 */
module Server {
  import opened Wrappers
  import opened Js
  import opened WebApi
  import opened Reshape
  import opened Http
  import opened Tokens

  /** The three calls of the aggregate route, in the order it awaits them. */
  function OverviewCalls(bearer: JsStr): (calls: seq<Call>) {
    [ApiRequest(MeFollowing, bearer), ApiRequest(MeTopTracks, bearer), ApiRequest(MeCurrentlyPlaying, bearer)]
  }

  class TokenStore {
    var accessToken: JsStr
    var refreshToken: JsStr

    function Pair(): (p: TokenPair)
      reads this
    {
      TokenPair(accessToken, refreshToken)
    }

    /** Process start: both tokens empty, not authorized. */
    constructor ()
      ensures Pair() == Initial && !IsAuthorized(Pair())
    {
      accessToken := Str("");
      refreshToken := Str("");
    }

    /** GET /spotify/callback?code=: exchange the code, then store both tokens. */
    method Callback(code: JsStr, r: Upstream<TokenGrant>) returns (resp: Response, calls: seq<Call>)
      modifies this
      ensures Pair() == AfterCallback(old(Pair()), r)
      ensures calls == [TokenRequest(AuthorizationCode(code))]
      ensures r.Err? ==> resp == ServerError("Failed to get tokens", UpstreamDetails(r.details))
      ensures r.Ok? ==> resp == Response(200, TextBody("Authorization successful. You can now use the API endpoints."))
    {
      calls := [TokenRequest(AuthorizationCode(code))];
      match r {
        case Err(details) =>
          resp := ServerError("Failed to get tokens", UpstreamDetails(details));
        case Ok(g) =>
          accessToken := g.accessToken;
          refreshToken := g.refreshToken;
          resp := Response(200, TextBody("Authorization successful. You can now use the API endpoints."));
      }
    }

    /** GET /refresh_token: trade the stored refresh token for a new access token. */
    method Refresh(r: Upstream<TokenGrant>) returns (resp: Response, calls: seq<Call>)
      modifies this
      ensures Pair() == AfterRefresh(old(Pair()), r)
      ensures !Truthy(old(refreshToken)) ==> calls == [] && resp == BadRequest("No refresh token available")
      ensures Truthy(old(refreshToken)) ==> calls == [TokenRequest(RefreshGrant(old(refreshToken)))]
      ensures Truthy(old(refreshToken)) && r.Err? ==>
        resp == ServerError("Failed to refresh token", UpstreamDetails(r.details))
      ensures Truthy(old(refreshToken)) && r.Ok? ==> resp == Json(MessageBody("Token refreshed successfully"))
    {
      if !Truthy(refreshToken) {
        return BadRequest("No refresh token available"), [];
      }
      calls := [TokenRequest(RefreshGrant(refreshToken))];
      match r {
        case Err(details) =>
          resp := ServerError("Failed to refresh token", UpstreamDetails(details));
        case Ok(g) =>
          accessToken := g.accessToken;
          if Truthy(g.refreshToken) {
            refreshToken := g.refreshToken;
          }
          resp := Json(MessageBody("Token refreshed successfully"));
      }
    }

    /** GET /me/following: the followed artists' names; no login check. */
    method FollowedArtists(r: Upstream<seq<Artist>>) returns (resp: Response, calls: seq<Call>)
      ensures calls == [ApiRequest(MeFollowing, accessToken)]
      ensures r.Err? ==> resp == ServerError("Failed to fetch followed artists", UpstreamDetails(r.details))
      ensures r.Ok? ==> resp.status == 200 && resp.body.FollowedArtistsBody?
      ensures r.Ok? ==> |resp.body.followedArtists| == |r.value|
      ensures r.Ok? ==> forall i :: 0 <= i < |r.value| ==> resp.body.followedArtists[i] == r.value[i].name
    {
      calls := [ApiRequest(MeFollowing, accessToken)];
      match r {
        case Err(details) =>
          resp := ServerError("Failed to fetch followed artists", UpstreamDetails(details));
        case Ok(artists) =>
          resp := Json(FollowedArtistsBody(ArtistNames(artists)));
      }
    }

    /** PUT /pause. */
    method Pause(r: Upstream<()>) returns (resp: Response, calls: seq<Call>)
      ensures calls == [ApiRequest(MePlayerPause, accessToken)]
      ensures r.Err? ==> resp == ServerError("Failed to pause playback", UpstreamDetails(r.details))
      ensures r.Ok? ==> resp == Json(MessageBody("Playback paused."))
    {
      calls := [ApiRequest(MePlayerPause, accessToken)];
      if r.Err? {
        resp := ServerError("Failed to pause playback", UpstreamDetails(r.details));
      } else {
        resp := Json(MessageBody("Playback paused."));
      }
    }

    /** GET /top-tracks/:artist_id: at most ten `{name, uri}`, in upstream order. */
    method ArtistTopTracks(artistId: string, r: Upstream<seq<Track>>) returns (resp: Response, calls: seq<Call>)
      ensures calls == [ApiRequest(ArtistsTopTracks(artistId), accessToken)]
      ensures r.Err? ==> resp == ServerError("Failed to fetch top tracks", UpstreamDetails(r.details))
      ensures r.Ok? ==> resp.status == 200 && resp.body.TopTracksBody?
      ensures r.Ok? ==> |resp.body.topTracks| == if |r.value| < TopTracksLimit then |r.value| else TopTracksLimit
      ensures r.Ok? ==> forall i :: 0 <= i < |resp.body.topTracks| ==>
        resp.body.topTracks[i] == TrackRef(r.value[i].name, r.value[i].uri)
    {
      calls := [ApiRequest(ArtistsTopTracks(artistId), accessToken)];
      match r {
        case Err(details) =>
          resp := ServerError("Failed to fetch top tracks", UpstreamDetails(details));
        case Ok(tracks) =>
          resp := Json(TopTracksBody(TopTracks(tracks)));
      }
    }

    /**
     * PUT /play (URI from the body) and GET /play?uri= (URI from the query):
     * both refuse a missing or empty URI before calling upstream.
     */
    method Play(uri: JsStr, r: Upstream<()>) returns (resp: Response, calls: seq<Call>)
      ensures !Truthy(uri) <==> calls == []
      ensures !Truthy(uri) ==> resp == BadRequest("URI is required")
      ensures Truthy(uri) ==> calls == [ApiRequest(MePlayerPlay(uri.s), accessToken)]
      ensures Truthy(uri) && r.Err? ==> resp == ServerError("Failed to play track", UpstreamDetails(r.details))
      ensures Truthy(uri) && r.Ok? ==> resp == Json(MessageBody("Started playing track: " + uri.s))
    {
      if !Truthy(uri) {
        return BadRequest("URI is required"), [];
      }
      calls := [ApiRequest(MePlayerPlay(uri.s), accessToken)];
      if r.Err? {
        resp := ServerError("Failed to play track", UpstreamDetails(r.details));
      } else {
        resp := Json(MessageBody("Started playing track: " + uri.s));
      }
    }

    /** GET /me/top-tracks: every track as `{name, artist, album, uri}`, or 500 if a track has no artist. */
    method UserTopTracks(r: Upstream<seq<Track>>) returns (resp: Response, calls: seq<Call>)
      ensures calls == [ApiRequest(MeTopTracks, accessToken)]
      ensures r.Err? ==> resp == ServerError("Failed to fetch your top tracks", UpstreamDetails(r.details))
      ensures r.Ok? ==> (resp.status == 200 <==> forall i :: 0 <= i < |r.value| ==> r.value[i].artists != [])
      ensures r.Ok? && resp.status != 200 ==> resp == ServerError("Failed to fetch your top tracks", LocalTypeError)
      ensures r.Ok? && resp.status == 200 ==> resp.body.UserTopTracksBody? && |resp.body.tracks| == |r.value|
      ensures r.Ok? && resp.status == 200 ==> forall i :: 0 <= i < |r.value| ==>
        resp.body.tracks[i] == TrackSummary(r.value[i].name, r.value[i].artists[0].name, r.value[i].album, r.value[i].uri)
    {
      calls := [ApiRequest(MeTopTracks, accessToken)];
      match r {
        case Err(details) =>
          resp := ServerError("Failed to fetch your top tracks", UpstreamDetails(details));
        case Ok(items) =>
          match TrackSummaries(items) {
            case Throws =>
              resp := ServerError("Failed to fetch your top tracks", LocalTypeError);
            case Value(tracks) =>
              resp := Json(UserTopTracksBody(tracks));
          }
      }
    }

    /** GET /me/now-playing: null with a note on 204, the track otherwise, 500 if there is none to read. */
    method NowPlaying(r: Upstream<CurrentlyPlaying>) returns (resp: Response, calls: seq<Call>)
      ensures calls == [ApiRequest(MeCurrentlyPlaying, accessToken)]
      ensures r.Err? ==> resp == ServerError("Failed to fetch currently playing track", UpstreamDetails(r.details))
      ensures r.Ok? && r.value.status == NoContent ==>
        resp == Json(NowPlayingBody(None, Some("No track currently playing")))
      ensures r.Ok? && r.value.status != NoContent && Playable(r.value) ==>
        resp == Json(NowPlayingBody(Some(PlayingOf(r.value)), None))
      ensures r.Ok? && r.value.status != NoContent && !Playable(r.value) ==>
        resp == ServerError("Failed to fetch currently playing track", LocalTypeError)
    {
      calls := [ApiRequest(MeCurrentlyPlaying, accessToken)];
      match r {
        case Err(details) =>
          resp := ServerError("Failed to fetch currently playing track", UpstreamDetails(details));
        case Ok(cp) =>
          if cp.status == NoContent {
            resp := Json(NowPlayingBody(None, Some("No track currently playing")));
          } else {
            match CurrentTrack(cp) {
              case Throws =>
                resp := ServerError("Failed to fetch currently playing track", LocalTypeError);
              case Value(playing) =>
                resp := Json(NowPlayingBody(playing, None));
            }
          }
      }
    }

    /**
     * GET /spotify: 401 without an access token; otherwise followed artists,
     * then top tracks, then the current track, called in that order. A failed
     * first or second call (or a top track without artist) gives 500; a failed
     * third call only leaves `now_playing` null.
     */
    method Spotify(following: Upstream<seq<Artist>>, top: Upstream<seq<Track>>, now: Upstream<CurrentlyPlaying>)
      returns (resp: Response, calls: seq<Call>)
      ensures !Truthy(accessToken) ==>
        calls == [] && resp == Response(401, LoginRequired("Not authenticated with Spotify", "/login"))
      ensures Truthy(accessToken) ==> 1 <= |calls| <= 3
      ensures Truthy(accessToken) ==> calls == OverviewCalls(accessToken)[..|calls|]
      ensures Truthy(accessToken) && following.Err? ==>
        |calls| == 1 && resp == ServerError("Failed to fetch Spotify data", UpstreamDetails(following.details))
      ensures Truthy(accessToken) && following.Ok? && top.Err? ==>
        |calls| == 2 && resp == ServerError("Failed to fetch Spotify data", UpstreamDetails(top.details))
      ensures Truthy(accessToken) && following.Ok? && top.Ok? && TrackLinks(top.value).Throws? ==>
        |calls| == 2 && resp == ServerError("Failed to fetch Spotify data", LocalTypeError)
      ensures resp.status == 200 <==>
        Truthy(accessToken) && following.Ok? && top.Ok? && TrackLinks(top.value).Value?
      ensures resp.status == 200 ==> |calls| == 3 && resp == Json(OverviewBody(
        OverviewNowPlaying(now), "/pause", ArtistRefs(following.value), TrackLinks(top.value).value))
    {
      if !Truthy(accessToken) {
        return Response(401, LoginRequired("Not authenticated with Spotify", "/login")), [];
      }
      calls := [ApiRequest(MeFollowing, accessToken)];
      if following.Err? {
        return ServerError("Failed to fetch Spotify data", UpstreamDetails(following.details)), calls;
      }
      var artists := ArtistRefs(following.value);
      calls := calls + [ApiRequest(MeTopTracks, accessToken)];
      if top.Err? {
        return ServerError("Failed to fetch Spotify data", UpstreamDetails(top.details)), calls;
      }
      var links := TrackLinks(top.value);
      if links.Throws? {
        return ServerError("Failed to fetch Spotify data", LocalTypeError), calls;
      }
      var nowPlaying: Option<Playing> := None;
      calls := calls + [ApiRequest(MeCurrentlyPlaying, accessToken)];
      if now.Ok? && now.value.status != NoContent && now.value.item.Some? {
        if now.value.item.value.artists != [] {
          nowPlaying := Some(PlayingOf(now.value));
        }
      }
      resp := Json(OverviewBody(nowPlaying, "/pause", artists, links.value));
    }
  }

  /**
   * Every route other than callback and refresh leaves both tokens as they
   * were, whatever the upstream answers: none of those handlers may modify
   * the store.
   */
  method ReadOnlyRoutesKeepTokens(store: TokenStore, artistId: string, uri: JsStr,
                                  artists: Upstream<seq<Artist>>, tracks: Upstream<seq<Track>>,
                                  done: Upstream<()>, now: Upstream<CurrentlyPlaying>)
    returns (before: TokenPair, after: TokenPair)
    ensures before == store.Pair() && after == before
  {
    before := store.Pair();
    var resp, calls := store.FollowedArtists(artists);
    resp, calls := store.Pause(done);
    resp, calls := store.ArtistTopTracks(artistId, tracks);
    resp, calls := store.Play(uri, done);
    resp, calls := store.UserTopTracks(tracks);
    resp, calls := store.NowPlaying(now);
    resp, calls := store.Spotify(artists, tracks, now);
    after := store.Pair();
  }

  /** Log in, then refresh against an answer that carries no new refresh token. */
  method LoginThenRefreshScenario() returns (access: JsStr, refresh: JsStr, authorized: bool)
    ensures access == Str("A2") && refresh == Str("R1") && authorized
  {
    var store := new TokenStore();
    var resp, calls := store.Callback(Str("code"), Ok(TokenGrant(Str("A1"), Str("R1"))));
    assert store.accessToken == Str("A1");
    resp, calls := store.Refresh(Ok(TokenGrant(Str("A2"), Undefined)));
    assert calls == [TokenRequest(RefreshGrant(Str("R1")))];
    access, refresh, authorized := store.accessToken, store.refreshToken, IsAuthorized(store.Pair());
  }

  /** A freshly started server answers the aggregate route with 401 and issues no call. */
  method UnauthenticatedScenario(following: Upstream<seq<Artist>>, top: Upstream<seq<Track>>,
                                 now: Upstream<CurrentlyPlaying>) returns (resp: Response, calls: seq<Call>)
    ensures resp.status == 401 && resp.body.LoginRequired? && resp.body.loginUrl == "/login"
    ensures calls == []
  {
    var store := new TokenStore();
    resp, calls := store.Spotify(following, top, now);
  }
}
