/**
 * The pure reshaping the route handlers apply to upstream JSON: `map`
 * projections, the top-ten `slice`, and the "nothing is playing" rules.
 * A projection that reads `track.artists[0].name` throws a TypeError in
 * JavaScript when the artists list is empty; `Throws` models that.
 */
module Reshape {
  import opened Wrappers
  import opened WebApi

  /** How many artist top tracks `/top-tracks/:artist_id` keeps. */
  const TopTracksLimit: nat := 10

  /** HTTP 204 No Content: the player has nothing to report. */
  const NoContent: int := 204

  datatype Outcome<T> = Value(value: T) | Throws

  datatype TrackRef = TrackRef(name: string, uri: string)

  datatype TrackSummary = TrackSummary(name: string, artist: string, album: string, uri: string)

  datatype ArtistRef = ArtistRef(name: string, id: string)

  /** The link `/play?uri=<uri, percent-encoded>` offered next to each aggregate track. */
  datatype PlayLink = PlayLink(uri: string)

  datatype TrackLink = TrackLink(name: string, artist: string, uri: string, playUrl: PlayLink)

  datatype Playing = Playing(name: string, artist: string, album: string, uri: string, progressMs: int, durationMs: int)

  /** `/me/following`: the followed artists' names, in order. */
  function ArtistNames(artists: seq<Artist>): (names: seq<string>)
    ensures |names| == |artists|
    ensures forall i :: 0 <= i < |artists| ==> names[i] == artists[i].name
  {
    if artists == [] then [] else [artists[0].name] + ArtistNames(artists[1..])
  }

  /** `/spotify`: the followed artists as `{name, id}`, in order. */
  function ArtistRefs(artists: seq<Artist>): (refs: seq<ArtistRef>)
    ensures |refs| == |artists|
    ensures forall i :: 0 <= i < |artists| ==> refs[i] == ArtistRef(artists[i].name, artists[i].id)
  {
    if artists == [] then [] else [ArtistRef(artists[0].name, artists[0].id)] + ArtistRefs(artists[1..])
  }

  /** Projects each track to `{name, uri}`, in order. */
  function TrackRefs(tracks: seq<Track>): (refs: seq<TrackRef>)
    ensures |refs| == |tracks|
    ensures forall i :: 0 <= i < |tracks| ==> refs[i] == TrackRef(tracks[i].name, tracks[i].uri)
  {
    if tracks == [] then [] else [TrackRef(tracks[0].name, tracks[0].uri)] + TrackRefs(tracks[1..])
  }

  /** `/top-tracks/:artist_id`: `tracks.slice(0, 10)` projected to `{name, uri}`. */
  function TopTracks(tracks: seq<Track>): (top: seq<TrackRef>)
    ensures |top| == if |tracks| < TopTracksLimit then |tracks| else TopTracksLimit
    ensures forall i :: 0 <= i < |top| ==> top[i] == TrackRef(tracks[i].name, tracks[i].uri)
  {
    var n := if |tracks| < TopTracksLimit then |tracks| else TopTracksLimit;
    TrackRefs(tracks[..n])
  }

  /** `/me/top-tracks`: `{name, artist, album, uri}` per track; throws if some track has no artist. */
  function TrackSummaries(items: seq<Track>): (r: Outcome<seq<TrackSummary>>)
    ensures r.Value? <==> forall i :: 0 <= i < |items| ==> items[i].artists != []
    ensures r.Value? ==> |r.value| == |items|
    ensures r.Value? ==> forall i :: 0 <= i < |items| ==>
      r.value[i] == TrackSummary(items[i].name, items[i].artists[0].name, items[i].album, items[i].uri)
  {
    if items == [] then Value([])
    else if items[0].artists == [] then Throws
    else
      match TrackSummaries(items[1..])
      case Throws => Throws
      case Value(rest) =>
        Value([TrackSummary(items[0].name, items[0].artists[0].name, items[0].album, items[0].uri)] + rest)
  }

  /** `/spotify`: `{name, artist, uri, play_url}` per track; throws if some track has no artist. */
  function TrackLinks(items: seq<Track>): (r: Outcome<seq<TrackLink>>)
    ensures r.Value? <==> forall i :: 0 <= i < |items| ==> items[i].artists != []
    ensures r.Value? ==> |r.value| == |items|
    ensures r.Value? ==> forall i :: 0 <= i < |items| ==>
      r.value[i] == TrackLink(items[i].name, items[i].artists[0].name, items[i].uri, PlayLink(items[i].uri))
  {
    if items == [] then Value([])
    else if items[0].artists == [] then Throws
    else
      match TrackLinks(items[1..])
      case Throws => Throws
      case Value(rest) =>
        Value([TrackLink(items[0].name, items[0].artists[0].name, items[0].uri, PlayLink(items[0].uri))] + rest)
  }

  /** The currently-playing answer has a track whose fields can be read. */
  predicate Playable(cp: CurrentlyPlaying) {
    cp.item.Some? && cp.item.value.artists != []
  }

  /** The `now_playing` object built from a playable answer. */
  function PlayingOf(cp: CurrentlyPlaying): (playing: Playing)
    requires Playable(cp)
  {
    var t := cp.item.value;
    Playing(t.name, t.artists[0].name, t.album, t.uri, cp.progressMs, t.durationMs)
  }

  /**
   * `/me/now-playing`: null on 204; otherwise the track, which throws when
   * `item` is null or has no artist.
   */
  function CurrentTrack(cp: CurrentlyPlaying): (r: Outcome<Option<Playing>>)
    ensures cp.status == NoContent ==> r == Value(None)
    ensures cp.status != NoContent ==> (r.Value? <==> Playable(cp))
    ensures cp.status != NoContent && Playable(cp) ==> r == Value(Some(PlayingOf(cp)))
    ensures r.Value? && r.value.Some? ==> Playable(cp) && r.value.value == PlayingOf(cp)
  {
    if cp.status == NoContent then Value(None)
    else if Playable(cp) then Value(Some(PlayingOf(cp)))
    else Throws
  }

  /**
   * `/spotify`'s `now_playing`: a track only when the sub-call succeeded, did
   * not answer 204, carried an `item` and its projection did not throw; null
   * in every other case, the failure included.
   */
  function OverviewNowPlaying(now: Upstream<CurrentlyPlaying>): (np: Option<Playing>)
    ensures np.Some? <==> now.Ok? && now.value.status != NoContent && Playable(now.value)
    ensures np.Some? ==> np.value == PlayingOf(now.value)
  {
    match now
    case Err(_) => None
    case Ok(cp) => if cp.status != NoContent && cp.item.Some? && cp.item.value.artists != [] then Some(PlayingOf(cp)) else None
  }

  /**
   * The aggregate shows exactly what the standalone now-playing route would
   * show, and null where that route fails.
   */
  lemma OverviewAgreesWithCurrentTrack(now: Upstream<CurrentlyPlaying>)
    ensures now.Err? ==> OverviewNowPlaying(now) == None
    ensures now.Ok? ==> OverviewNowPlaying(now) == match CurrentTrack(now.value)
                                                  case Value(v) => v
                                                  case Throws => None
  {
  }

  /** Each projection keeps the upstream order: a prefix of the input gives a prefix of the output. */
  lemma TrackRefsPrefix(tracks: seq<Track>, n: nat)
    requires n <= |tracks|
    ensures TrackRefs(tracks[..n]) == TrackRefs(tracks)[..n]
  {
  }

  /** Up to ten tracks are kept whole; beyond ten, what is kept is the first ten. */
  lemma TopTracksIsPrefix(tracks: seq<Track>)
    ensures |tracks| <= TopTracksLimit ==> TopTracks(tracks) == TrackRefs(tracks)
    ensures TopTracksLimit <= |tracks| ==> TopTracks(tracks) == TrackRefs(tracks)[..TopTracksLimit]
  {
  }
}
