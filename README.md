# OAuth token lifecycle of a music-streaming API proxy

The server is an Express app that forwards a few calls to a music-streaming web API. It keeps two
module-level strings, `access_token` and `refresh_token`. Both start empty. The authorization-code
callback sets them and the refresh endpoint updates them. No other route writes either token. The
resource routes send the access token as a bearer credential, and the aggregate route `/spotify`
refuses to run without one.

The model has these parts:

- `Js`: a possibly missing JavaScript string (`Undefined | Str`) and JavaScript truthiness. A token field
  or a `uri` missing from a response or request counts as false, just like `""`.
- `WebApi`: the upstream API as the handlers see it. Each awaited axios call becomes an input
  `Upstream<T> = Ok(value) | Err(details)`. Each outbound call becomes a `Call` value (the token
  endpoint with its grant, or a resource endpoint with the bearer token it carried).
- `Reshape`: the pure `map`/`slice` projections and the "nothing is playing" rules. Reading
  `track.artists[0].name` when a track has no artists throws a TypeError in JavaScript. The model
  shows that as `Outcome.Throws`.
- `Http`: the responses, meaning a status code and a tagged body.
- `Tokens`: the token pair as a value, the two transitions that change it, and lemmas over any
  sequence of handled requests.
- `Server`: class `TokenStore`. It has the two token fields and one method per route. Each method
  takes the upstream results it awaits as parameters and returns the response plus the list of
  outbound calls it made. A guarded path that never reaches the network is stated as `calls == []`.
  Only `Callback` and `Refresh` have a `modifies` clause. So Dafny's frame rules, not just a lemma,
  show that no other route changes either token.

Behaviour of the code worth knowing:

- A token answer without `access_token` logs the server out, because lines 67 and 338 copy the field
  without checking it. `Tokens.StaysAuthorized` therefore assumes that every successful exchange
  carries an access token.
- Only `/spotify` checks for an access token (line 238). The other resource routes call upstream with
  whatever token is stored, even an empty one.
- There is no shared helper for authorized calls: each handler builds its own bearer header from the
  module-level variable. The model records that header in each `Call`.
- `/me/now-playing` returns null only on status 204 (line 209). A 200 answer with a null `item` (or a
  track with no artists) throws while being reshaped at lines 216-227, and the route answers 500. The
  aggregate route's sub-call treats the same cases as null (line 284).
- `PUT /play` (lines 143-170) and `GET /play` (lines 355-382) are the same code. One reads `uri` from
  the body and the other from the query string. `Server.TokenStore.Play` models both.

## Model

| member | source | states |
|---|---|---|
| `Reshape.ArtistNames` | src/index.js:86-88 | one name per followed artist, in upstream order |
| `Reshape.ArtistRefs` | src/index.js:254-257 | one `{name, id}` per followed artist, in upstream order |
| `Reshape.TrackRefs` | src/index.js:128-131 | one `{name, uri}` per track, same length, element i comes from track i |
| `Reshape.TopTracks` | src/index.js:128-131 | length is min(10, n); element i is the `{name, uri}` of input track i |
| `Reshape.TrackRefsPrefix` | src/index.js:128 | projecting the first n tracks gives the first n projections |
| `Reshape.TopTracksIsPrefix` | src/index.js:128 | up to ten tracks are all kept; beyond ten the result is exactly the first ten projections |
| `Reshape.TrackSummaries` | src/index.js:182-187 | succeeds exactly when every track has an artist; then `{name, artist, album, uri}` per track in order |
| `Reshape.TrackLinks` | src/index.js:267-272 | succeeds exactly when every track has an artist; then `{name, artist, uri, play_url}` per track in order |
| `Reshape.CurrentTrack` | src/index.js:208-227 | status 204 gives null; any other status gives the track when it is present and has an artist, and throws otherwise |
| `Reshape.OverviewNowPlaying` | src/index.js:275-298 | a track exactly when the sub-call succeeded, the status is not 204, `item` is present and readable; null otherwise, failures included |
| `Reshape.OverviewAgreesWithCurrentTrack` | src/index.js:284-294 | the aggregate shows what the standalone route shows, and null where that route errors |
| `Tokens.AfterCallback` | src/index.js:49-73 | an upstream error leaves both tokens unchanged; success overwrites both with the response fields, even missing ones |
| `Tokens.AfterRefresh` | src/index.js:316-351 | no change without a truthy refresh token or on upstream error; success sets the access token and replaces the refresh token only with a truthy new one; a set refresh token stays set |
| `Tokens.RunAppend` | src/index.js:19-20 | handling a sequence of requests in two parts gives the same tokens as handling it in one go |
| `Tokens.RefreshTokenRetained` | src/index.js:340-343 | with no callback in between, any number of refreshes and other requests keeps a set refresh token set |
| `Tokens.StaysAuthorized` | src/index.js:338-343 | authorization lasts as long as every successful token exchange returns an access token |
| `Tokens.LatestCallbackWins` | src/index.js:67-68 | after a successful callback the pair is exactly that response's, whatever came before |
| `Tokens.LoginThenRefresh` | src/index.js:338-343 | login with (A1, R1), then a refresh answer without a refresh token, leaves (A2, R1) |
| `Server.TokenStore.constructor` | src/index.js:19-20 | both tokens start empty, and the server is not authorized |
| `Server.TokenStore.Callback` | src/index.js:46-74 | one token-endpoint call with the code; tokens follow `AfterCallback`; 500 "Failed to get tokens" on error, success text otherwise |
| `Server.TokenStore.Refresh` | src/index.js:316-352 | no truthy refresh token: 400 "No refresh token available", no call, no change; otherwise one call carrying the stored refresh token, tokens follow `AfterRefresh`, 500 on error |
| `Server.TokenStore.FollowedArtists` | src/index.js:77-96 | always one call with the current bearer token; 500 on error; otherwise the names in order |
| `Server.TokenStore.Pause` | src/index.js:99-114 | always one pause call with the current bearer token; message on success, 500 on error |
| `Server.TokenStore.ArtistTopTracks` | src/index.js:117-140 | one call for that artist; at most ten `{name, uri}` in upstream order, or 500 |
| `Server.TokenStore.Play` | src/index.js:143-170 | no upstream call exactly when the URI is missing or empty, and then 400 "URI is required"; otherwise one play call for that URI, then a message or 500 |
| `Server.TokenStore.UserTopTracks` | src/index.js:173-196 | 200 exactly when the call succeeded and every track has an artist, with one summary per track in order; 500 otherwise |
| `Server.TokenStore.NowPlaying` | src/index.js:199-234 | 204 gives `now_playing: null` with a note; a readable track gives it; an unreadable one or an upstream error gives 500 |
| `Server.TokenStore.Spotify` | src/index.js:237-313 | no access token: 401 with `login_url: "/login"`, no call; otherwise calls in the fixed order, stopping at the first failure; 200 exactly when followed artists and top tracks succeed, whatever the now-playing sub-call did; `now_playing` follows `OverviewNowPlaying` |
| `Server.ReadOnlyRoutesKeepTokens` | src/index.js:77-313 | running every route other than callback and refresh on one store, with any upstream answers, leaves both tokens unchanged |
| `Server.LoginThenRefreshScenario` | src/index.js:316-352 | after callback (A1, R1) and a refresh returning only A2, the store holds (A2, R1) and is authorized |
| `Server.UnauthenticatedScenario` | src/index.js:238-243 | a fresh store answers `/spotify` with 401 and `login_url` "/login", and issues no call |

## Left out

- `GET /login`: builds the authorize URL from a random state string (`Math.random`) and `querystring.stringify`. It reads and changes no token.
- `generateRandomString`: nondeterministic, and it uses floating point.
- `GET /health`: a constant `{message: "ok"}` reply that touches no state.
- `src/config.js`: reads environment variables; client id, secret, redirect URI and port are not part of this model.
- The Basic authorization header (`Buffer` and base64) and the form encoding of token requests. They are library calls; a `TokenRequest` records only the grant it carries.
- `Reshape.TrackLinks`: `play_url` is kept as the tag `PlayLink(uri)` that stands for `/play?uri=` followed by `encodeURIComponent(uri)`; the percent-encoding itself is not modelled, nor the URIError that `encodeURIComponent` throws on a lone surrogate in `track.uri` (which makes the aggregate route answer 500), since a Dafny string cannot hold a lone surrogate.
- Error details: `err.response?.data || err.message` (and the raw `err` in the callback) are an opaque string in `Upstream.Err`. A TypeError raised while reshaping is `LocalTypeError`.
- JSON shapes beyond the fields the handlers read. A `uri` that is a JSON value other than a string is not modelled. A missing nested object (no `artists.items`, no `album`) is treated as present.
- Interleaving of concurrent async handlers: each handler is modelled as atomic, so two requests never race.
- Express routing, CORS and JSON middleware, `app.listen` and `console.error` logging: input/output plumbing.
