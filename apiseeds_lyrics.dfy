/**
 * The Apiseeds Lyrics plugin: for each track, send one lyric lookup to the
 * Apiseeds service and, when the reply arrives, store the lyrics and release
 * the album's hold on the request.
 */
module ApiseedsLyrics {
  import opened Wrappers
  import opened Json
  import opened Picard

  const ApiseedsHost: string := "orion.apiseeds.com"
  const ApiseedsPort: int := 443
  /** Minimum spacing in milliseconds: 60 * 1000 / 200 with Python's true division. */
  const ApiseedsDelay: real := 60.0 * 1000.0 / 200.0

  /** The name of the setting that holds the API key. */
  const ApiKeySetting: string := "apiseeds_apikey"

  const PathPrefix: string := "/api/music/lyric/"

  // ---------------------------------------------------------------------------
  // Rate limit

  /** The delay is 300 ms: a ceiling of 200 requests per minute. */
  lemma DelayIs300()
    ensures ApiseedsDelay == 300.0
    ensures 200.0 * ApiseedsDelay == 60.0 * 1000.0
  {
  }

  /** Registers the plugin's delay for its (host, port) at load time. */
  method RegisterRateLimit(rc: RateControl)
    modifies rc
    ensures rc.minimumDelays == old(rc.minimumDelays)[(ApiseedsHost, ApiseedsPort) := 300.0]
  {
    rc.SetMinimumDelay((ApiseedsHost, ApiseedsPort), ApiseedsDelay);
  }

  /** Send times to one (host, port), each at least `delay` after the one before, as the rate control lets them go. */
  ghost predicate Spaced(times: seq<real>, delay: real)
  {
    forall k :: 0 < k < |times| ==> times[k] - times[k - 1] >= delay
  }

  /** Sends `j - i` apart are at least `j - i` delays apart. */
  lemma {:induction false} SpacedSpan(times: seq<real>, delay: real, i: nat, j: nat)
    requires Spaced(times, delay)
    requires i <= j < |times|
    ensures times[j] - times[i] >= (j - i) as real * delay
  {
    if i < j {
      SpacedSpan(times, delay, i, j - 1);
      assert times[j] - times[j - 1] >= delay;
      assert (j - i) as real * delay == (j - 1 - i) as real * delay + delay;
    }
  }

  /**
   * With the delay registered for the Apiseeds (host, port) by `RegisterRateLimit`,
   * any 201 consecutive sends span at least a minute: at most 200 requests in any
   * shorter window.
   */
  lemma AtMost200PerMinute(minimumDelays: map<(string, int), real>, times: seq<real>, i: nat)
    requires (ApiseedsHost, ApiseedsPort) in minimumDelays
    requires minimumDelays[(ApiseedsHost, ApiseedsPort)] == ApiseedsDelay
    requires Spaced(times, minimumDelays[(ApiseedsHost, ApiseedsPort)])
    requires i + 200 < |times|
    ensures times[i + 200] - times[i] >= 60000.0
  {
    SpacedSpan(times, ApiseedsDelay, i, i + 200);
  }

  // ---------------------------------------------------------------------------
  // Request construction

  /** `'/api/music/lyric/{}/{}'.format(artist, title)`, from the raw, unquoted values. */
  function RequestPath(artist: string, title: string): (p: string)
    ensures |p| == |PathPrefix| + |artist| + 1 + |title|
    ensures p[..|PathPrefix|] == PathPrefix
  {
    PathPrefix + artist + "/" + title
  }

  /** Index of the first '/' in `s`, or `|s|` when there is none. */
  function FirstSlash(s: string): (k: nat)
    ensures k <= |s|
    ensures k < |s| ==> s[k] == '/'
    ensures forall j :: 0 <= j < k ==> s[j] != '/'
  {
    if s == [] then 0
    else if s[0] == '/' then 0
    else 1 + FirstSlash(s[1..])
  }

  /** The inverse of `RequestPath`: artist up to the first '/', title after it. */
  function SplitPath(p: string): (r: Option<(string, string)>)
    ensures r.Some? ==> '/' !in r.value.0
    ensures r.Some? ==> RequestPath(r.value.0, r.value.1) == p
  {
    if |p| < |PathPrefix| || p[..|PathPrefix|] != PathPrefix then None
    else
      var rest := p[|PathPrefix|..];
      var k := FirstSlash(rest);
      if k == |rest| then None
      else
        assert rest == rest[..k] + "/" + rest[k + 1..];
        assert p == PathPrefix + rest;
        Some((rest[..k], rest[k + 1..]))
  }

  /** A path names its track unambiguously exactly when the artist holds no '/'. */
  lemma PathRoundTrip(artist: string, title: string)
    ensures SplitPath(RequestPath(artist, title)) == Some((artist, title)) <==> '/' !in artist
  {
    var p := RequestPath(artist, title);
    var rest := artist + "/" + title;
    assert p[|PathPrefix|..] == rest;
    if '/' !in artist {
      var k := FirstSlash(rest);
      assert rest[|artist|] == '/';
      assert k == |artist|;
      assert rest[..k] == artist;
      assert rest[k + 1..] == title;
    }
  }

  /** An artist with a '/' produces the same path as a different (artist, title) pair. */
  lemma SlashInArtistCollides(a1: string, a2: string, title: string)
    ensures RequestPath(a1 + "/" + a2, title) == RequestPath(a1, a2 + "/" + title)
    ensures a1 + "/" + a2 != a1
  {
    assert |a1 + "/" + a2| > |a1|;
  }

  /** What `process_track` does, decided by its three presence checks, in order. */
  datatype Dispatch =
    | MissingApiKey
    | MissingArtist
    | MissingTitle
    | Send(path: string, queryArgs: map<string, string>)

  /** The checks of `process_track`: API key, then artist, then title; the first absent one stops it. */
  function Plan(apikey: Option<string>, artist: Option<string>, title: Option<string>): (d: Dispatch)
    ensures d.Send? <==> apikey.Some? && artist.Some? && title.Some?
    ensures apikey.None? ==> d == MissingApiKey
    ensures apikey.Some? && artist.None? ==> d == MissingArtist
    ensures apikey.Some? && artist.Some? && title.None? ==> d == MissingTitle
    ensures d.Send? ==> d.path == RequestPath(artist.value, title.value)
    ensures d.Send? ==> d.queryArgs.Keys == {"apikey"} && d.queryArgs["apikey"] == apikey.value
  {
    match (apikey, artist, title)
    case (None, _, _) => MissingApiKey
    case (Some(_), None, _) => MissingArtist
    case (Some(_), Some(_), None) => MissingTitle
    case (Some(key), Some(a), Some(t)) =>
      Send(RequestPath(a, t), map["apikey" := key])
  }

  /** The GET `process_track` issues for a `Send` decision. */
  function LyricRequest(path: string, queryArgs: map<string, string>, album: Album, metadata: Metadata): (r: Request)
    ensures r.host == "orion.apiseeds.com" && r.port == 443
    ensures r.path == path && r.queryArgs == queryArgs
    ensures r.parseResponseType == None && r.priority
    ensures r.album == album && r.metadata == metadata
  {
    Request(ApiseedsHost, ApiseedsPort, path, queryArgs, None, true, album, metadata)
  }

  // ---------------------------------------------------------------------------
  // Dispatch and completion

  /**
   * The album's counter is its baseline (requests that are not lyric lookups)
   * plus the lyric lookups queued for it and not yet answered.
   */
  ghost predicate Balanced(album: Album, ws: WebService, base: int)
    reads album, ws
  {
    album.requests == base + Outstanding(ws.pending, album)
  }

  /** While balanced, the counter never drops below its baseline. */
  lemma BalancedAtLeastBase(album: Album, ws: WebService, base: int)
    requires Balanced(album, ws, base)
    ensures album.requests >= base
    ensures ws.pending == [] ==> album.requests == base
  {
  }

  /**
   * `process_track`: when the key, the artist and the title are all present,
   * count one more request on the album and queue one GET bound to
   * `(album, metadata)`; otherwise change nothing.
   */
  method ProcessTrack(apikeySetting: Option<string>, album: Album, metadata: Metadata, ws: WebService)
    modifies album`requests, ws
    ensures var d := Plan(apikeySetting, metadata.Get("artist"), metadata.Get("title"));
      if d.Send? then
        && album.requests == old(album.requests) + 1
        && ws.pending == old(ws.pending) + [LyricRequest(d.path, d.queryArgs, album, metadata)]
      else
        && album.requests == old(album.requests)
        && ws.pending == old(ws.pending)
    ensures album.requests - Outstanding(ws.pending, album)
            == old(album.requests - Outstanding(ws.pending, album))
    ensures forall base: int :: old(Balanced(album, ws, base)) <==> Balanced(album, ws, base)
    ensures forall b: Album :: old(allocated(b)) && b != album ==> Outstanding(ws.pending, b) == old(Outstanding(ws.pending, b))
  {
    var apikey := apikeySetting;
    if apikey.None? {
      return;
    }
    var artist := metadata.Get("artist");
    if artist.None? {
      return;
    }
    var title := metadata.Get("title");
    if title.None? {
      return;
    }
    var path := RequestPath(artist.value, title.value);
    var params := map["apikey" := apikey.value];
    album.requests := album.requests + 1;
    var r := LyricRequest(path, params, album, metadata);
    forall b: Album {
      OutstandingAppend(ws.pending, r, b);
    }
    ws.Get(r);
  }

  /** The lyrics a completion finds: none when decoding failed or the lookup raises. */
  function FoundLyrics(document: Option<Json>): (r: Option<string>)
    ensures forall text :: r == Some(text) <==> document.Some? && Carries(document.value, text)
  {
    match document
    case None => None
    case Some(data) =>
      forall text ensures LyricsText(data) == Some(text) <==> Carries(data, text) {
        LyricsTextExact(data, text);
      }
      LyricsText(data)
  }

  /**
   * `process_result`: write `result.track.text` into the `lyrics` tag when the
   * reply carries it, leave the tags alone otherwise, and in every case count
   * the request as done and call `_finalize_loading` once. `document` is what
   * the JSON decoder made of the payload (`None` when it raised); the
   * transport error flag is passed in but, as in the plugin, never read.
   */
  method ProcessResult(album: Album, metadata: Metadata, document: Option<Json>, transportError: bool)
    modifies album, metadata
    ensures album.requests == old(album.requests) - 1
    ensures album.finalizeCount == old(album.finalizeCount) + 1
    ensures match FoundLyrics(document)
      case Some(lyrics) => metadata.tags == old(metadata.tags)["lyrics" := lyrics]
      case None => metadata.tags == old(metadata.tags)
  {
    // try:
    var lyrics := FoundLyrics(document);
    if lyrics.Some? {
      metadata.Set("lyrics", lyrics.value);
    }
    // finally:
    album.requests := album.requests - 1;
    album.FinalizeLoading();
  }

  /**
   * The web service delivers the reply to `ws.pending[i]`: the request leaves
   * the queue and the continuation bound at dispatch runs, once.
   */
  method CompleteRequest(ws: WebService, i: nat, document: Option<Json>, transportError: bool)
    requires i < |ws.pending|
    modifies ws, ws.pending[i].album, ws.pending[i].metadata
    ensures ws.pending == old(ws.pending[..i] + ws.pending[i + 1..])
    ensures var r := old(ws.pending[i]);
      && r.album.requests == old(r.album.requests) - 1
      && r.album.finalizeCount == old(r.album.finalizeCount) + 1
      && r.metadata.tags == (match FoundLyrics(document)
                             case Some(lyrics) => old(r.metadata.tags)["lyrics" := lyrics]
                             case None => old(r.metadata.tags))
    ensures var a := old(ws.pending[i].album);
      a.requests - Outstanding(ws.pending, a) == old(a.requests - Outstanding(ws.pending, a))
    ensures forall base: int :: old(Balanced(ws.pending[i].album, ws, base)) <==> Balanced(old(ws.pending[i].album), ws, base)
    ensures forall b: Album :: old(allocated(b)) && b != old(ws.pending[i].album) ==>
      Outstanding(ws.pending, b) == old(Outstanding(ws.pending, b))
  {
    forall b: Album {
      OutstandingRemove(ws.pending, i, b);
    }
    var r := ws.Take(i);
    ProcessResult(r.album, r.metadata, document, transportError);
  }

  /**
   * A track with key, artist and title, dispatched and then completed: the
   * album's counter is back where it was, finalize ran once, the queue is as
   * before, and the tags changed at most in `lyrics`.
   */
  method DispatchThenComplete(apikeySetting: Option<string>, album: Album, metadata: Metadata,
                              ws: WebService, document: Option<Json>, transportError: bool)
    requires apikeySetting.Some? && "artist" in metadata.tags && "title" in metadata.tags
    modifies album, metadata, ws
    ensures album.requests == old(album.requests)
    ensures album.finalizeCount == old(album.finalizeCount) + 1
    ensures ws.pending == old(ws.pending)
    ensures match FoundLyrics(document)
      case Some(lyrics) => metadata.tags == old(metadata.tags)["lyrics" := lyrics]
      case None => metadata.tags == old(metadata.tags)
  {
    ProcessTrack(apikeySetting, album, metadata, ws);
    var last := |ws.pending| - 1;
    assert ws.pending[..last] == old(ws.pending);
    CompleteRequest(ws, last, document, transportError);
  }
}
