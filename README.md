# Now-playing endpoint: retrying client and cache-fallback route

A Dafny model of the part of a personal website that shows the track its
owner is listening to. Two pieces are modelled:

- **The upstream client** (`SpotifyClient`, `spotify_client.dfy`). `withRetry`
  re-invokes an operation until it resolves or its retry budget is spent. The
  default budget is 2, so there are at most 3 invocations. `getAccessToken`
  refreshes the access token under that wrapper. `getNowPlaying` fails fast
  when the token body has no `access_token`. Otherwise it queries the
  "currently playing" endpoint under the same wrapper. A token attempt is
  accepted only on an ok status (200 to 299, the "ok status" of the WHATWG
  Fetch Standard, section 2.2.3). A now-playing attempt is accepted on an ok
  status or on 204 No Content (section 15.3.5 of RFC 9110).
- **The route** (`NowPlayingRoute`, `now_playing_route.dfy`). It builds a
  playback snapshot from the player payload. The artists are joined with
  `", "` and the first image URL is kept, or nothing when there is no image.
  `GET` takes one of three paths over the one-slot `last_track` cache:
  - happy path: write the snapshot to the cache and serve it;
  - 204 or status above 400: serve the cached snapshot with `isPlaying`
    forced to false, or `{isPlaying: false}` when the cache is empty, and do
    not write the cache;
  - anything thrown: serve the cached value verbatim and do not write the
    cache.

The network is modelled by sequences. Each wrapped operation is given the
sequence of outcomes its successive invocations would settle to: `fetch`
rejecting, or a response with a status and a body that may not parse. The
retry functions consume that sequence from the front and report how many
invocations they made. The cache is the field `lastTrack: Option<Track>` of
class `Route`. `Route.Get` is proved against the pure function `Respond`, and
the properties of the three paths are lemmas about `Respond`. The payload
types (`PlayerTypes`) stand for `src/lib/types`, which is not part of this
model.

`getNowPlaying` resolves only with statuses in 200..299. So of the route's
test `status === 204 || status > 400`, only the 204 half can ever fire
(`FallbackOnlyForNoContent`). The model keeps the test exactly as written,
including the strict `> 400`, and `Respond` is proved for every status.

## Model

| member | source | states |
|---|---|---|
| SpotifyClient.MaxAttempts | src/lib/spotify.ts:10-19 | at least one invocation; with a positive budget `r`, at most `r + 1`; with a budget of zero or less, exactly 1 |
| SpotifyClient.IsOkStatus | src/lib/spotify.ts:36 | `response.ok` holds exactly for the 2xx class: the status divided by 100 is 2 |
| SpotifyClient.WithRetry | src/lib/spotify.ts:10-19 | makes 1 to `r + 1` invocations; the result is the last invocation's outcome; every earlier one rejected; a rejection is returned only after the whole budget is spent |
| SpotifyClient.RetryFirstSuccess | src/lib/spotify.ts:11-16 | if invocation `k` is the first to resolve within the budget, the result is its value and exactly `k + 1` invocations are made |
| SpotifyClient.RetryExhausted | src/lib/spotify.ts:13-18 | if every invocation within the budget rejects, all `r + 1` are made and the last one's error is rethrown unchanged |
| SpotifyClient.RetryWithoutBudget | src/lib/spotify.ts:14-18 | with a budget of zero or less there is exactly one invocation, and its outcome is the result |
| SpotifyClient.RetryUsesOnlyItsCalls | src/lib/spotify.ts:10-19 | the run depends only on the invocations it made; outcomes after those are never consulted |
| SpotifyClient.TokenAttempt | src/lib/spotify.ts:24-46 | a token attempt resolves iff the fetch succeeded with an ok status and a parseable body; a non-ok status rejects with that status |
| SpotifyClient.TokenAttempts | src/lib/spotify.ts:23-47 | the i-th invocation's outcome is the token acceptance rule applied to the i-th exchange |
| SpotifyClient.GetAccessToken | src/lib/spotify.ts:22-48 | at most 3 token attempts; the result is the last attempt's outcome; all earlier attempts failed; a success came with an ok status; a failure comes only after 3 attempts |
| SpotifyClient.NowPlayingAttempt | src/lib/spotify.ts:59-73 | a now-playing attempt resolves iff the status is ok or 204, and then with the response itself, whose status is in 200..299; otherwise it rejects with the status |
| SpotifyClient.NowPlayingAttempts | src/lib/spotify.ts:59-73 | the i-th invocation's outcome is the now-playing acceptance rule applied to the i-th exchange |
| SpotifyClient.HasAccessToken | src/lib/spotify.ts:55 | the truthiness of `access_token`: present and of non-zero length |
| SpotifyClient.GetNowPlaying | src/lib/spotify.ts:52-74 | the token phase is exactly `getAccessToken`'s run (1 to 3 attempts); any now-playing attempt happens iff the token resolved with a non-empty access token, and then the result and the count of now-playing attempts are exactly the retry wrapper's over the now-playing attempts; a resolved response has a status in 200..299 |
| SpotifyClient.TokenFailurePropagates | src/lib/spotify.ts:53 | a token refresh that exhausts its retries rejects `getNowPlaying` with the same error, after 3 token attempts and no now-playing attempt |
| SpotifyClient.MissingTokenFailsFast | src/lib/spotify.ts:53-57 | a token body without an access token fails with the missing-token error, with no further token attempt and no now-playing attempt |
| SpotifyClient.NowPlayingFirstAccepted | src/lib/spotify.ts:59-73 | with a usable token, if now-playing attempt `k` is the first accepted one within the budget, `getNowPlaying` resolves with that response after exactly `k + 1` now-playing attempts |
| SpotifyClient.NowPlayingAfterToken | src/lib/spotify.ts:59-73 | with a usable token, `getNowPlaying` resolves iff one of the three budgeted now-playing attempts is accepted; otherwise it makes all three and rejects with the third one's error |
| NowPlayingRoute.JoinNamesShape | src/pages/api/spotify.json.ts:26 | `join(', ')`: the empty list gives the empty string; otherwise the line starts with the first name, follows it with `", "` when there are two or more names, and ends with the last name |
| NowPlayingRoute.JoinNamesAppend | src/pages/api/spotify.json.ts:26 | joining one more artist appends `", "` and that name: the names appear in their original order |
| NowPlayingRoute.SplitJoinNames | src/pages/api/spotify.json.ts:26 | cutting the joined line at `", "` gives back the non-empty list of names exactly, when no name contains a comma |
| NowPlayingRoute.ArtistNames | src/pages/api/spotify.json.ts:26 | the names of the artists, one per artist, in order |
| NowPlayingRoute.FirstImageUrl | src/pages/api/spotify.json.ts:28 | present iff there is at least one image, and then the first image's URL; never fails |
| NowPlayingRoute.ToTrack | src/pages/api/spotify.json.ts:23-32 | the snapshot takes playing state, title, album, song URL, duration and progress from the payload; the artist line is the artists' names joined with `", "` in order; the image URL is present iff there is an image, and is then the first image's URL; no artists gives the empty artist line |
| NowPlayingRoute.ToTrackArtistNames | src/pages/api/spotify.json.ts:26 | a snapshot's artist line reads back as the payload's artist names, in order, when there is at least one artist and no name has a comma |
| NowPlayingRoute.IsFallbackStatus | src/pages/api/spotify.json.ts:10 | the fallback test holds exactly for 204 and for statuses 401 and above; 400 is not a fallback status |
| NowPlayingRoute.PathOf | src/pages/api/spotify.json.ts:7-47 | happy path iff the fetch resolved with a status that is neither 204 nor above 400 and a parseable payload; fallback path iff it resolved with 204 or above 400; everything else lands in `catch` |
| NowPlayingRoute.CachedOrIdle | src/pages/api/spotify.json.ts:42-43 | the cached snapshot, or `{isPlaying: false}` exactly when the slot is empty |
| NowPlayingRoute.NotPlaying | src/pages/api/spotify.json.ts:14 | the result never reports playback; a snapshot keeps every field except `isPlaying`, which becomes false |
| NowPlayingRoute.Respond | src/pages/api/spotify.json.ts:6-49 | the cache changes only on the happy path; there the body is the snapshot built from the payload and the cache holds exactly that snapshot |
| NowPlayingRoute.FallbackServesCacheNotPlaying | src/pages/api/spotify.json.ts:10-19 | 204 or a status above 400 serves the cached snapshot with only `isPlaying` false, or `{isPlaying: false}` if nothing is cached, and leaves the cache as it was |
| NowPlayingRoute.ExceptionServesCacheVerbatim | src/pages/api/spotify.json.ts:39-47 | on the exception path the cached value is served unchanged, or `{isPlaying: false}` if nothing is cached, and the cache is left as it was |
| NowPlayingRoute.FallbackBoundaryIsStrict | src/pages/api/spotify.json.ts:10 | status 400 with a payload takes the happy path and writes the cache; status 401 takes the fallback path and leaves it alone |
| NowPlayingRoute.RespondIdempotent | src/pages/api/spotify.json.ts:23-38 | serving the same upstream outcome a second time gives the same body and the same cache contents |
| NowPlayingRoute.PlayingOnlyFromSnapshot | src/pages/api/spotify.json.ts:6-49 | a body reports playback only when it was just fetched, or when it is a cached snapshot served verbatim on the exception path |
| NowPlayingRoute.FallbackOnlyForNoContent | src/pages/api/spotify.json.ts:10 | for any response `getNowPlaying` resolves with, the fallback test holds iff the status is 204 |
| NowPlayingRoute.CacheAfterAppend | src/pages/api/spotify.json.ts:34 | serving one more request is one more step of the handler on the cache |
| NowPlayingRoute.CacheHoldsLastFetched | src/pages/api/spotify.json.ts:34 | after any sequence of requests the cache holds the snapshot of the last happy-path request, or its initial value if there was none |
| NowPlayingRoute.Route.Get | src/pages/api/spotify.json.ts:6-49 | body and new cache are `Respond` of the old cache and of `getNowPlaying`'s outcome: the cache is written only on the happy path, and then with the served snapshot; the fallback serves the cache not playing; the exception path serves it verbatim |

## Left out

- The HTTP transport: URLs, headers, Basic authentication (RFC 7617), the Bearer header (RFC 6750) and the form encoding of the refresh grant (section 6 of RFC 6749). Each fetch is an abstract outcome.
- `response.text()` when reading an error body. If it rejected, the error rethrown would be its own and not the status error; the model assumes it resolves.
- JSON parsing. A token or player body is typed, and a body that does not parse or has no `item` is `None`. For the token call that rejection is retried. In the route it lands in `catch`.
- The Redis client (`src/lib/redis.ts` is not part of this model) and its failures. The cache is one `Option<Track>` field with no serialisation. Only full snapshots are ever written, so the slot never holds `{isPlaying: false}`.
- A cache call that throws inside `try` lands in `catch` in the source; the model treats cache reads and writes as always succeeding.
- Logging (`console.warn`, `console.error`), environment variables, and the `Response` wrapper (headers and the status 200 every path returns).
- `async` scheduling and concurrent requests racing on the cache. Requests are served one after another.
- SpotifyClient.WithRetry: the budget is an integer. JavaScript allows a fractional `retries`, but the source only uses the default 2.
- SpotifyClient.WithRetry: the environment must supply at least `MaxAttempts(retries)` outcomes. This is a bound on the model's input, not a condition the source imposes.
