/** The responses the route handlers write: a status code and a JSON (or text) body. */
module Http {
  import opened Wrappers
  import opened Reshape

  /** What an error body reports: the upstream's details, or the message of a TypeError raised while reshaping. */
  datatype Details = UpstreamDetails(data: string) | LocalTypeError

  datatype Body =
    | TextBody(text: string)
    | ErrorBody(error: string, details: Option<Details>)
    | LoginRequired(error: string, loginUrl: string)
    | MessageBody(message: string)
    | FollowedArtistsBody(followedArtists: seq<string>)
    | TopTracksBody(topTracks: seq<TrackRef>)
    | UserTopTracksBody(tracks: seq<TrackSummary>)
    | NowPlayingBody(nowPlaying: Option<Playing>, note: Option<string>)
    | OverviewBody(overviewNowPlaying: Option<Playing>, stopPlaybackUrl: string,
                   artists: seq<ArtistRef>, overviewTracks: seq<TrackLink>)

  datatype Response = Response(status: int, body: Body)

  /** `res.status(400).json({ error })`. */
  function BadRequest(error: string): (resp: Response) {
    Response(400, ErrorBody(error, None))
  }

  /** `res.status(500).json({ error, details })`. */
  function ServerError(error: string, details: Details): (resp: Response) {
    Response(500, ErrorBody(error, Some(details)))
  }

  /** `res.json(body)`: status 200. */
  function Json(body: Body): (resp: Response) {
    Response(200, body)
  }
}
