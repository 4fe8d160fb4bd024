# Apiseeds Lyrics: a Dafny model of the request bookkeeping

The Apiseeds Lyrics plugin for MusicBrainz Picard looks up the lyrics of each
loaded track on the Apiseeds service (`orion.apiseeds.com`, port 443). It runs
as a track metadata processor. For every track it checks for the API key, the
artist and the title, in that order. When all three are present it counts one
more outstanding request on the album (`_requests`) and sends one GET to
`/api/music/lyric/{artist}/{title}` with query `apikey={key}`. When the reply
arrives, its completion handler stores `result.track.text` as the track's
`lyrics` tag if the reply carries it. In every case the handler then counts the
request as done and calls the album's `_finalize_loading`. At load time the
plugin registers a minimum spacing of 60 * 1000 / 200 = 300 ms between requests
to the service.

The model has four modules:

- `Wrappers` (`wrappers.dfy`): `Option`, standing for Python's `None` or a value.
- `Json` (`json.dfy`): the decoded reply, and the lookup `data['result']['track']['text']`
  with Python's failure cases (missing key, indexing a non-dict).
- `Picard` (`picard.dfy`): the host objects the plugin touches. `Album` is a class
  with the counter `requests` and a count of `_finalize_loading` calls. `Metadata`
  is a class holding a mutable tag map. `WebService` is a class whose `pending`
  queue records each GET sent and not yet answered. The queue holds the path, the
  query, the priority and the `(album, metadata)` pair the continuation is bound
  to. `RateControl` is the per-(host, port) delay registry. `Outstanding` counts the
  queued requests bound to one album.
- `ApiseedsLyrics` (`apiseeds_lyrics.dfy`): the plugin. It holds the constants,
  path construction and its inverse, the ordered checks (`Plan`), `process_track`
  (`ProcessTrack`) and `process_result` (`ProcessResult`). `CompleteRequest` is
  the transport delivering one reply. The rate-limit lemmas are here too.

The bookkeeping invariant is that `album.requests - Outstanding(pending, album)`
stays constant; `Balanced(album, ws, base)` names it for a given baseline. Dispatch raises both terms by one. Completion lowers both by one
and removes the request from the queue, so no request completes twice. Requests
bound to other albums are not affected.

Two behaviours of the code are kept as written:

- The completion handler never reads its `error` argument. A reply whose body
  decodes to `result.track.text` is stored even if the transport reported an
  error. `ProcessResult` takes the flag and ignores it.
- `_requests` is decremented on every completion with no lower bound, so it is
  an `int`. It stays at or above its starting value only through the invariant
  above.

## Model

| member | source | states |
|---|---|---|
| `ApiseedsLyrics.Plan` | apiseeds-lyrics.py:47-63 | Sends exactly when key, artist and title are all present. A missing key stops the dispatch whatever artist and title are. Next the artist is checked, then the title. A send uses path `RequestPath(artist, title)` and query `{apikey: key}` and nothing else. |
| `ApiseedsLyrics.ProcessTrack` | apiseeds-lyrics.py:45-74 | If `Plan` refuses, the counter and the queue are unchanged. Otherwise the counter rises by exactly 1 and exactly one request is queued, bound to `(album, metadata)`. `album.requests - Outstanding` is preserved, so `Balanced` holds afterwards for exactly the baselines it held for before. No other album's outstanding count changes. Metadata is never modified. |
| `ApiseedsLyrics.LyricRequest` | apiseeds-lyrics.py:67-74 | The GET goes to `orion.apiseeds.com`:443 with the given path and query arguments, raw payload (no parse type) and high priority. It is bound to the given album and metadata. |
| `ApiseedsLyrics.RequestPath` | apiseeds-lyrics.py:62 | The path is `/api/music/lyric/` followed by the raw artist, a `/` and the raw title; its length is the sum of theirs. |
| `ApiseedsLyrics.SplitPath` | apiseeds-lyrics.py:62 | The inverse reading of a lyric path. Any split it returns has a slash-free artist and rebuilds the same path. |
| `ApiseedsLyrics.PathRoundTrip` | apiseeds-lyrics.py:62 | Splitting the path gives back `(artist, title)` if and only if the artist has no `/`. |
| `ApiseedsLyrics.SlashInArtistCollides` | apiseeds-lyrics.py:62-70 | The sent path is not quoted, so an artist with a `/` yields the same path as a different (artist, title) pair. |
| `ApiseedsLyrics.FoundLyrics` | apiseeds-lyrics.py:31-38 | The completion finds lyrics `L` exactly when decoding succeeded and the document carries the string `L` at `result.track.text`. |
| `ApiseedsLyrics.ProcessResult` | apiseeds-lyrics.py:29-42 | On every path the counter drops by exactly 1 and finalize is called exactly once. The tags become `old tags["lyrics" := L]` when lyrics `L` are found; otherwise they are unchanged. No other tag changes. |
| `ApiseedsLyrics.CompleteRequest` | apiseeds-lyrics.py:71 | Delivering the reply to a queued request removes it from the queue and runs the handler bound at dispatch once. `album.requests - Outstanding` is preserved for its album, so `Balanced` holds for the same baselines. Other albums' outstanding counts are untouched. |
| `ApiseedsLyrics.DispatchThenComplete` | apiseeds-lyrics.py:29-74 | A dispatch with key, artist and title, followed by its completion, leaves the counter and queue as they were. Finalize runs once. The tags change only by the found lyrics. |
| `ApiseedsLyrics.BalancedAtLeastBase` | apiseeds-lyrics.py:41 | While the counter equals its baseline plus the album's queued lyric lookups, it is never below the baseline, and it equals the baseline once nothing is queued. |
| `ApiseedsLyrics.DelayIs300` | apiseeds-lyrics.py:25 | `APISEEDS_DELAY` is 300 ms, and 200 such delays make one minute. |
| `ApiseedsLyrics.RegisterRateLimit` | apiseeds-lyrics.py:23-26 | Load time registers 300 ms for (`orion.apiseeds.com`, 443) and keeps the other registrations. |
| `ApiseedsLyrics.SpacedSpan` | apiseeds-lyrics.py:25-26 | If successive sends are at least `delay` apart, then sends `j - i` apart are at least `(j - i) * delay` apart. |
| `ApiseedsLyrics.AtMost200PerMinute` | apiseeds-lyrics.py:26 | When the registry holds the 300 ms that `RegisterRateLimit` puts there for (`orion.apiseeds.com`, 443) and sends keep that spacing, any 201 consecutive sends span at least 60000 ms, so no shorter window holds more than 200 requests. |
| `Json.LyricsText` | apiseeds-lyrics.py:33 | A found text implies the document is an object with `result`, which is an object with `track`. |
| `Json.LyricsTextExact` | apiseeds-lyrics.py:33 | The lookup yields `L` if and only if the document carries the JSON string `L` at `result.track.text`; other members do not matter. `Carries` spells the same lookup out field by field, so this is a restatement in direct field access; the independent checks are `LyricsRoundTrip` and `NoResultNoLyrics`. |
| `Json.LyricsRoundTrip` | apiseeds-lyrics.py:32-34 | The document `{"result": {"track": {"text": L}}}` yields exactly `L`. |
| `Json.NoResultNoLyrics` | apiseeds-lyrics.py:31-38 | A non-object, or an object without `result` such as `{}`, yields no lyrics. |
| `Picard.Album.FinalizeLoading` | apiseeds-lyrics.py:42 | Each call is counted exactly once; the counter is untouched. |
| `Picard.Metadata.Get` | apiseeds-lyrics.py:52-58 | A tag read gives `None` exactly when the tag is absent, and the stored value otherwise. |
| `Picard.Metadata.Set` | apiseeds-lyrics.py:34 | Writing a tag changes that key only. |
| `Picard.WebService.Get` | apiseeds-lyrics.py:67-74 | Sending appends exactly the one request to the pending queue. |
| `Picard.WebService.Take` | apiseeds-lyrics.py:71 | A delivered request is returned and removed from the queue. |
| `Picard.OutstandingConcat` | apiseeds-lyrics.py:64 | Outstanding counts add over concatenated queues. |
| `Picard.OutstandingAppend` | apiseeds-lyrics.py:64 | Queuing a request raises its album's count by one and leaves every other album's count. |
| `Picard.OutstandingRemove` | apiseeds-lyrics.py:41 | Removing a request lowers its album's count by one and leaves every other album's count. |
| `Picard.RateControl.SetMinimumDelay` | apiseeds-lyrics.py:26 | The registration overwrites the delay for its (host, port) only. |

## Left out

- The options page `ApiseedsLyricsOptionsPage` (lines 77-117) is Qt user interface plus config load and save. The API key setting enters `ProcessTrack` as an `Option<string>`.
- Every `log.info` and `log.error` call (lines 35, 38, 49, 54, 59, 65), including the URL quoting of the logged string, is output only. The model also omits the `metadata['title']` reads those log lines make.
- Plugin metadata constants and the registration calls at import time (lines 1-10, 119-120) are host wiring.
- `load_json` is the host's decoder. The model takes its result as `Option<Json>`, with `None` when it raised.
- JSON numbers are kept as literal text and never interpreted, because the plugin never reads them.
- Picard's web service and rate control are not part of this model. `WebService` records only the queued requests; delivery order is free (`CompleteRequest` takes any index). `Spaced` states the spacing the rate control is assumed to enforce. Timing, priority scheduling and the `reply` object are not modelled.
- The unused `track` and `release` arguments of `process_track` are not modelled. The model passes the web service in directly rather than reaching it through `album.tagger.webservice`.
- What `_finalize_loading` does inside the album is not modelled; only how often it is called is counted.
- Whether Picard's `Metadata` returns `None` or an empty string for a missing tag is not visible here. Presence is modelled as the code tests it (`is None`), and nothing is claimed about empty strings.
- LyricsText: a `text` member that is a JSON number, list, object, boolean or null is stored by the plugin as that Python value. The model treats it as not found, because tags hold strings here. The same holds for `FoundLyrics` and `ProcessResult`.
- A reply that never arrives leaves the counter raised. The model records that as a request that stays pending.
