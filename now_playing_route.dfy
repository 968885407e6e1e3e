/**
 * The `GET /api/spotify.json` route: translate the upstream player state into
 * a playback snapshot, keep the last one in a one-slot cache (`last_track`),
 * and fall back to that cache when the upstream has nothing to offer.
 */
module NowPlayingRoute {
  import opened Wrappers
  import opened PlayerTypes
  import opened SpotifyClient

  // ---------------------------------------------------------------------------
  // Snapshot and response body
  // ---------------------------------------------------------------------------

  /** The playback snapshot served to the front end and stored in the cache. */
  datatype Track = Track(
    isPlaying: bool,
    title: string,
    artist: string,
    album: string,
    albumImageUrl: Option<string>,
    songUrl: string,
    duration: int,
    progress: int)

  /** A response body: a snapshot, or the bare `{isPlaying: false}` served
      when nothing is cached. */
  datatype Body = Idle | TrackBody(track: Track) {
    predicate IsPlaying() {
      TrackBody? && track.isPlaying
    }
  }

  // ---------------------------------------------------------------------------
  // Payload to snapshot
  // ---------------------------------------------------------------------------

  /** Separator of `Array.prototype.join(', ')` for the artist list. */
  const ArtistSeparator: string := ", "

  /** `names.join(', ')`. */
  function JoinNames(names: seq<string>): string {
    if |names| == 0 then ""
    else if |names| == 1 then names[0]
    else names[0] + ArtistSeparator + JoinNames(names[1..])
  }

  /** The shape of a joined line: empty for no names; otherwise it starts with
      the first name, has the separator right after it when there are two or
      more names, and ends with the last name. */
  lemma {:induction false} JoinNamesShape(names: seq<string>)
    ensures names == [] ==> JoinNames(names) == ""
    ensures names != [] ==>
              |names[0]| <= |JoinNames(names)| && JoinNames(names)[..|names[0]|] == names[0]
    ensures |names| >= 2 ==>
              |names[0]| + 2 <= |JoinNames(names)| &&
              JoinNames(names)[|names[0]|..|names[0]| + 2] == ArtistSeparator
    ensures names != [] ==>
              |names[|names| - 1]| <= |JoinNames(names)| &&
              JoinNames(names)[|JoinNames(names)| - |names[|names| - 1]|..] == names[|names| - 1]
    decreases |names|
  {
    if |names| >= 2 {
      var rest := JoinNames(names[1..]);
      var line := names[0] + ArtistSeparator + rest;
      assert JoinNames(names) == line;
      JoinNamesShape(names[1..]);
      var last := names[|names| - 1];
      assert names[1..][|names[1..]| - 1] == last;
      assert line[|line| - |last|..] == rest[|rest| - |last|..];
    }
  }

  /** Joining one more name appends the separator and that name, so the names
      appear in their original order, left to right. */
  lemma {:induction false} JoinNamesAppend(names: seq<string>, name: string)
    requires names != []
    ensures JoinNames(names + [name]) == JoinNames(names) + ArtistSeparator + name
    decreases |names|
  {
    var all := names + [name];
    if |names| > 1 {
      assert all[1..] == names[1..] + [name];
      JoinNamesAppend(names[1..], name);
      calc {
        JoinNames(all);
        all[0] + ArtistSeparator + JoinNames(names[1..] + [name]);
        names[0] + ArtistSeparator + (JoinNames(names[1..]) + ArtistSeparator + name);
        (names[0] + ArtistSeparator + JoinNames(names[1..])) + ArtistSeparator + name;
      }
    } else {
      assert all[1..] == [name];
      assert JoinNames(all) == names[0] + ArtistSeparator + JoinNames([name]);
    }
  }

  /** Reference reading of a joined list: cut at every ", ". */
  function SplitNames(s: string): (names: seq<string>)
    ensures |names| >= 1
    decreases |s|
  {
    if |s| < 2 then [s]
    else if s[..2] == ArtistSeparator then [""] + SplitNames(s[2..])
    else
      var rest := SplitNames(s[1..]);
      [[s[0]] + rest[0]] + rest[1..]
  }

  predicate HasNoComma(name: string) {
    forall i :: 0 <= i < |name| ==> name[i] != ','
  }

  /** A comma-free name followed by the separator is split off intact. */
  lemma {:induction false} SplitNamesAfterName(name: string, tail: string)
    requires HasNoComma(name)
    ensures SplitNames(name + ArtistSeparator + tail) == [name] + SplitNames(tail)
    decreases |name|
  {
    var s := name + ArtistSeparator + tail;
    if name == [] {
      assert s == ArtistSeparator + tail;
      assert s[..2] == ArtistSeparator && s[2..] == tail;
    } else {
      assert s[0] == name[0] != ',';
      assert s[..2] != ArtistSeparator;
      assert s[1..] == name[1..] + ArtistSeparator + tail;
      SplitNamesAfterName(name[1..], tail);
      assert [s[0]] + name[1..] == name;
    }
  }

  /** A comma-free name is read back as itself. */
  lemma {:induction false} SplitNamesSingle(name: string)
    requires HasNoComma(name)
    ensures SplitNames(name) == [name]
    decreases |name|
  {
    if |name| >= 2 {
      assert name[..2] != ArtistSeparator by { assert name[0] != ','; }
      SplitNamesSingle(name[1..]);
      assert [name[0]] + name[1..] == name;
    }
  }

  /** The joined artist line loses nothing when no name contains a comma:
      cutting it at ", " gives back the names, in order. */
  lemma {:induction false} SplitJoinNames(names: seq<string>)
    requires names != []
    requires forall i :: 0 <= i < |names| ==> HasNoComma(names[i])
    ensures SplitNames(JoinNames(names)) == names
    decreases |names|
  {
    if |names| == 1 {
      assert JoinNames(names) == names[0];
      SplitNamesSingle(names[0]);
    } else {
      var rest := JoinNames(names[1..]);
      assert JoinNames(names) == names[0] + ArtistSeparator + rest;
      SplitNamesAfterName(names[0], rest);
      SplitJoinNames(names[1..]);
      assert [names[0]] + names[1..] == names;
    }
  }

  /** The artists' names, in order (`artists.map(a => a.name)`). */
  function ArtistNames(artists: seq<Artist>): (names: seq<string>)
    ensures |names| == |artists|
    ensures forall i :: 0 <= i < |artists| ==> names[i] == artists[i].name
  {
    seq(|artists|, i requires 0 <= i < |artists| => artists[i].name)
  }

  /** `images[0]?.url`: the first image's URL, absent when there is none. */
  function FirstImageUrl(images: seq<Image>): (url: Option<string>)
    ensures url.Some? <==> |images| > 0
    ensures url.Some? ==> url.value == images[0].url
  {
    if |images| == 0 then None else Some(images[0].url)
  }

  /** The snapshot built from a player payload. */
  function ToTrack(p: PlayerPayload): (t: Track)
    ensures t.isPlaying == p.isPlaying && t.title == p.item.name && t.album == p.item.album.name
    ensures t.songUrl == p.item.externalUrls.spotify
    ensures t.duration == p.item.durationMs && t.progress == p.progressMs
    ensures t.albumImageUrl.Some? <==> |p.item.album.images| > 0
    ensures t.albumImageUrl.Some? ==> t.albumImageUrl.value == p.item.album.images[0].url
    ensures t.artist == JoinNames(ArtistNames(p.item.artists))
    ensures p.item.artists == [] ==> t.artist == ""
  {
    Track(
      p.isPlaying,
      p.item.name,
      JoinNames(ArtistNames(p.item.artists)),
      p.item.album.name,
      FirstImageUrl(p.item.album.images),
      p.item.externalUrls.spotify,
      p.item.durationMs,
      p.progressMs)
  }

  /** The artist line of a snapshot reads back as the artists' names, in
      order, when there is at least one artist and no name has a comma. */
  lemma ToTrackArtistNames(p: PlayerPayload)
    requires p.item.artists != []
    requires forall i :: 0 <= i < |p.item.artists| ==> HasNoComma(p.item.artists[i].name)
    ensures SplitNames(ToTrack(p).artist) == ArtistNames(p.item.artists)
  {
    SplitJoinNames(ArtistNames(p.item.artists));
  }

  // ---------------------------------------------------------------------------
  // The handler's three paths
  // ---------------------------------------------------------------------------

  /** What `getNowPlaying()` settled to, as seen by the handler. */
  type Upstream = Result<NowPlayingResponse, Failure>

  /** The statuses sent to the cache without parsing the body. */
  predicate IsFallbackStatus(status: int)
    ensures IsFallbackStatus(status) <==> status == NoContent || status >= 401
    ensures status == 400 ==> !IsFallbackStatus(status)
  {
    status == NoContent || status > 400
  }

  datatype Path = HappyPath | FallbackPath | ExceptionPath

  /** Which of the three paths a request takes. An unparseable body, or one
      without an `item`, throws inside `try` and lands in `catch`. */
  function PathOf(upstream: Upstream): (path: Path)
    ensures path == HappyPath <==>
              upstream.Ok? && !IsFallbackStatus(upstream.value.status) && upstream.value.body.Some?
    ensures path == FallbackPath <==> upstream.Ok? && IsFallbackStatus(upstream.value.status)
  {
    match upstream
    case Err(_) => ExceptionPath
    case Ok(response) =>
      if IsFallbackStatus(response.status) then FallbackPath
      else if response.body.None? then ExceptionPath
      else HappyPath
  }

  /** The cached snapshot, or `{isPlaying: false}` when the slot is empty. */
  function CachedOrIdle(cache: Option<Track>): (b: Body)
    ensures b.Idle? <==> cache.None?
    ensures cache.Some? ==> b == TrackBody(cache.value)
  {
    match cache
    case None => Idle
    case Some(t) => TrackBody(t)
  }

  /** `{...lastTrack, isPlaying: false}`. */
  function NotPlaying(b: Body): (r: Body)
    ensures !r.IsPlaying()
    ensures r.Idle? <==> b.Idle?
    ensures b.TrackBody? ==> r.track == b.track.(isPlaying := false)
  {
    match b
    case Idle => Idle
    case TrackBody(t) => TrackBody(t.(isPlaying := false))
  }

  /** What one request serves, and what the cache slot holds afterwards. */
  datatype Reply = Reply(body: Body, cache: Option<Track>)

  /** The handler as a function of the cache slot before the request and of
      what `getNowPlaying()` settled to. */
  function Respond(cache: Option<Track>, upstream: Upstream): (r: Reply)
    ensures r.cache != cache ==> PathOf(upstream) == HappyPath
    ensures PathOf(upstream) == HappyPath ==>
              r.body == TrackBody(ToTrack(upstream.value.body.value)) && r.cache == Some(r.body.track)
  {
    match PathOf(upstream)
    case HappyPath =>
      var track := ToTrack(upstream.value.body.value);
      Reply(TrackBody(track), Some(track))
    case FallbackPath => Reply(NotPlaying(CachedOrIdle(cache)), cache)
    case ExceptionPath => Reply(CachedOrIdle(cache), cache)
  }

  /** 204 or a status above 400 serves the cached snapshot with only
      `isPlaying` forced to false, and leaves the cache alone. */
  lemma FallbackServesCacheNotPlaying(cache: Option<Track>, upstream: Upstream)
    requires upstream.Ok? && IsFallbackStatus(upstream.value.status)
    ensures Respond(cache, upstream).cache == cache
    ensures cache.None? ==> Respond(cache, upstream).body == Idle
    ensures cache.Some? ==> Respond(cache, upstream).body == TrackBody(cache.value.(isPlaying := false))
  {
  }

  /** A failure anywhere upstream serves the cached value verbatim (playing
      or not), and leaves the cache alone. */
  lemma ExceptionServesCacheVerbatim(cache: Option<Track>, upstream: Upstream)
    requires PathOf(upstream) == ExceptionPath
    ensures Respond(cache, upstream) == Reply(CachedOrIdle(cache), cache)
  {
  }

  /** The fallback boundary is strict: 400 with a payload takes the happy
      path, 401 does not. */
  lemma FallbackBoundaryIsStrict(cache: Option<Track>, p: PlayerPayload)
    ensures Respond(cache, Ok(HttpResponse(400, Some(p)))) == Reply(TrackBody(ToTrack(p)), Some(ToTrack(p)))
    ensures Respond(cache, Ok(HttpResponse(401, Some(p)))).cache == cache
  {
  }

  /** Serving the same upstream outcome twice gives the same body and leaves
      the cache as the first request left it. */
  lemma RespondIdempotent(cache: Option<Track>, upstream: Upstream)
    ensures Respond(Respond(cache, upstream).cache, upstream) == Respond(cache, upstream)
  {
  }

  /** No response body ever reports playback unless it was just fetched or
      was cached from an earlier fetch. */
  lemma PlayingOnlyFromSnapshot(cache: Option<Track>, upstream: Upstream)
    requires Respond(cache, upstream).body.IsPlaying()
    ensures PathOf(upstream) == HappyPath || (PathOf(upstream) == ExceptionPath && cache.Some? && cache.value.isPlaying)
  {
  }

  /** Of what `getNowPlaying()` can resolve with, only 204 takes the fallback
      path: the client rejects every status outside 200..299 and 204 itself,
      so the `status > 400` test never fires for it. */
  lemma FallbackOnlyForNoContent(tokens: seq<TokenExchange>, players: seq<NowPlayingExchange>)
    requires |tokens| >= 3 && |players| >= 3
    requires GetNowPlaying(tokens, players).result.Ok?
    ensures IsFallbackStatus(GetNowPlaying(tokens, players).result.value.status) <==>
              GetNowPlaying(tokens, players).result.value.status == NoContent
  {
  }

  // ---------------------------------------------------------------------------
  // A sequence of requests
  // ---------------------------------------------------------------------------

  /** The cache slot after serving the requests in order. */
  function CacheAfter(cache: Option<Track>, upstreams: seq<Upstream>): Option<Track>
    decreases |upstreams|
  {
    if upstreams == [] then cache
    else CacheAfter(Respond(cache, upstreams[0]).cache, upstreams[1..])
  }

  /** The snapshot of the last request in the list that took the happy path. */
  function LastFetched(upstreams: seq<Upstream>): (t: Option<Track>)
    decreases |upstreams|
  {
    if upstreams == [] then None
    else if PathOf(upstreams[|upstreams| - 1]) == HappyPath then
      Some(ToTrack(upstreams[|upstreams| - 1].value.body.value))
    else LastFetched(upstreams[..|upstreams| - 1])
  }

  /** Serving one request more is one more step of the handler. */
  lemma {:induction false} CacheAfterAppend(cache: Option<Track>, upstreams: seq<Upstream>, u: Upstream)
    ensures CacheAfter(cache, upstreams + [u]) == Respond(CacheAfter(cache, upstreams), u).cache
    decreases |upstreams|
  {
    if upstreams != [] {
      assert (upstreams + [u])[1..] == upstreams[1..] + [u];
      CacheAfterAppend(Respond(cache, upstreams[0]).cache, upstreams[1..], u);
    }
  }

  /** The cache holds the last successfully fetched snapshot, and only
      a slot no request ever wrote keeps its initial value. */
  lemma {:induction false} CacheHoldsLastFetched(cache: Option<Track>, upstreams: seq<Upstream>)
    ensures CacheAfter(cache, upstreams) ==
              if LastFetched(upstreams).Some? then LastFetched(upstreams) else cache
    decreases |upstreams|
  {
    if upstreams != [] {
      var init := upstreams[..|upstreams| - 1];
      var u := upstreams[|upstreams| - 1];
      assert upstreams == init + [u];
      CacheAfterAppend(cache, init, u);
      CacheHoldsLastFetched(cache, init);
    }
  }

  // ---------------------------------------------------------------------------
  // The route, over the `last_track` slot
  // ---------------------------------------------------------------------------

  /** The route handler together with the one cache slot it reads and writes. */
  class Route {
    /** The `last_track` slot; `None` while it has never been written. */
    var lastTrack: Option<Track>

    constructor (initial: Option<Track>)
      ensures lastTrack == initial
    {
      lastTrack := initial;
    }

    /** `GET`: serve one request. `tokens` and `players` are what the
        successive token-refresh and now-playing fetches settle to. */
    method Get(tokens: seq<TokenExchange>, players: seq<NowPlayingExchange>) returns (body: Body)
      requires |tokens| >= 3 && |players| >= 3
      modifies this
      ensures Reply(body, lastTrack) == Respond(old(lastTrack), GetNowPlaying(tokens, players).result)
      ensures lastTrack != old(lastTrack) ==> PathOf(GetNowPlaying(tokens, players).result) == HappyPath
      ensures PathOf(GetNowPlaying(tokens, players).result) == HappyPath ==>
                body.TrackBody? && lastTrack == Some(body.track)
      ensures PathOf(GetNowPlaying(tokens, players).result) == FallbackPath ==>
                body == NotPlaying(CachedOrIdle(lastTrack))
      ensures PathOf(GetNowPlaying(tokens, players).result) == ExceptionPath ==>
                body == CachedOrIdle(lastTrack)
    {
      var upstream := GetNowPlaying(tokens, players).result;
      match upstream {
        case Err(_) =>
          body := CachedOrIdle(lastTrack);
        case Ok(response) =>
          if IsFallbackStatus(response.status) {
            var cached := CachedOrIdle(lastTrack);
            cached := NotPlaying(cached);
            body := cached;
          } else {
            match response.body {
              case None =>
                body := CachedOrIdle(lastTrack);
              case Some(player) =>
                var track := ToTrack(player);
                lastTrack := Some(track);
                body := TrackBody(track);
            }
          }
      }
    }
  }
}
