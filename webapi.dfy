/**
 * The upstream music-streaming web API as the server sees it: the results of
 * the awaited HTTP calls (inputs of the model) and the outbound calls the
 * server issues (outputs of the model). Only the JSON fields that the
 * handlers read are kept.
 */
module WebApi {
  import opened Wrappers
  import opened Js

  /**
   * The outcome of one awaited upstream call: the parsed response, or the
   * rejection caught by the handler. `details` stands for what the handler
   * reports of the error (`err.response?.data || err.message`).
   */
  datatype Upstream<T> = Ok(value: T) | Err(details: string)

  /** The token endpoint's answer; either field may be missing. */
  datatype TokenGrant = TokenGrant(accessToken: JsStr, refreshToken: JsStr)

  datatype Artist = Artist(name: string, id: string)

  datatype Track = Track(name: string, artists: seq<Artist>, album: string, uri: string, durationMs: int)

  /** The currently-playing endpoint's answer: HTTP status, `item` (may be null) and `progress_ms`. */
  datatype CurrentlyPlaying = CurrentlyPlaying(status: int, item: Option<Track>, progressMs: int)

  /** The form posted to the token endpoint. */
  datatype Grant = AuthorizationCode(code: JsStr) | RefreshGrant(refreshToken: JsStr)

  /** The resource endpoints the handlers call, by path. */
  datatype Endpoint =
    | MeFollowing
    | MePlayerPause
    | ArtistsTopTracks(artistId: string)
    | MePlayerPlay(uri: string)
    | MeTopTracks
    | MeCurrentlyPlaying

  /**
   * One outbound HTTP call: a POST to the token endpoint (client credentials
   * in a Basic header), or a resource call carrying the access token as its
   * bearer credential.
   */
  datatype Call = TokenRequest(grant: Grant) | ApiRequest(endpoint: Endpoint, bearer: JsStr)
}
