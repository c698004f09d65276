# trhstreamer in Dafny

A model of the decision logic of trhstreamer, a Next.js application that
streams BitTorrent magnet links and HLS playlists in the browser. The model
covers:

- the routing API `POST /api/stream` (and its `GET` form). It checks the
  request, fills in torrent metadata defaults, estimates an HLS stream's size
  from the playlist text, and answers which service streams the input and from
  which URL;
- the relay registration `POST /api/relay/add`. It creates a torrent engine,
  answers once when the engine is ready or fails, registers the engine in the
  process-wide `activeTorrents` map, selects every file, and throttles
  progress logging;
- the input form's classifier (magnet link, HLS playlist URL or invalid) and
  its trim-then-submit step;
- the page's submit, error and reset state, and its choice of player;
- the three players: first-playable-file choice, relay stream URLs, file
  clicks, the HLS fatal-error recovery table and the quality levels;
- the download panel's selection set and its guards.

The external engines are opaque. parse-torrent, torrent-stream, WebTorrent and
hls.js, the `fetch` calls, the `URL` constructor and the configuration module
(`shouldUseNodeService`, `formatBytes`, `nodeStreamerUrl`) appear as
parameters: what they return or report is an input to the model. Components
are classes whose fields are the React state and refs. Events and callbacks
are method calls made in the order they fire. What a component passes to
`onError` is recorded in a `reported` list, and `alert` texts in a `notices`
list.

Modules, one per file:

| file | module | models |
|---|---|---|
| wrappers.dfy | Wrappers | `Option` and `Result` |
| text.dfy | Text | JavaScript `trim`, `split`, `startsWith`/`endsWith`/`includes`, `parseInt` on digits, number-to-text |
| hls_estimate.dfy | HlsEstimate | `estimateHlsSize` on the playlist text |
| stream_router.dfy | StreamRouter | `getTorrentMetadata`, `handleViaNextjs`, `forwardToNodeService`, `POST`, `GET` of `/api/stream` |
| relay_add.dfy | RelayAdd | `POST /api/relay/add`: engine, latch, map, file selection, progress throttle |
| input_form.dfy | InputForm | `MagnetInputForm` |
| page.dfy | Page | the `Home` page |
| playable_files.dfy | PlayableFiles | the playable-file pattern and the relay stream URL |
| hls_player.dfy | HlsPlayer | `HlsPlayer` |
| torrent_player.dfy | TorrentPlayer | `TorrentPlayer` (WebTorrent in the browser) |
| torrent_player_backend.dfy | TorrentPlayerBackend | `TorrentPlayerBackend` (relay on the server) |
| download_button.dfy | DownloadButton | `DownloadButton` |
| video_element.dfy | VideoElement | the render rule of the players' `<video>` element |

Behaviour kept as the code has it:

- Every magnet link is answered with `service: 'nextjs'` and the relay URLs,
  even when `shouldUseNodeService` says the file is large. Only the message
  changes.
- The page picks its player with its own fixed 500 MiB rule, not with the
  router's threshold.
- The relay does not deduplicate. Two requests for the same torrent create two
  engines, and each `ready` overwrites the map entry: there is no
  per-info-hash deduplication. `RelayAdd.RepeatedAddReplacesEngine` shows the
  overwrite.
- When a submission fails, the page stores the error but goes back to the
  input form, which has no place for it. The message is not shown
  (`Page.FailedSubmissionIsNotShown`).
- The bandwidth pattern's inner match reads the first `BANDWIDTH=` after the
  tag. So an `AVERAGE-BANDWIDTH=` attribute placed before `BANDWIDTH=` is the
  one read.

## Model

| member | source | states |
|---|---|---|
| Text.Trim | src/app/components/MagnetInputForm.tsx:39 | `trim()` is empty exactly when every character is JavaScript whitespace; otherwise it begins and ends with a non-whitespace character |
| Text.TrimSpec | src/app/components/MagnetInputForm.tsx:39 | `trim()` is a slice of the text, and everything it drops before and after the slice is whitespace |
| Text.TrimIdempotent | src/app/components/MagnetInputForm.tsx:39-47 | trimming an already trimmed text changes nothing |
| Text.Split | src/app/api/stream/route.ts:34 | `split('\n')` always gives at least one piece, even for the empty text |
| Text.SplitPiecesFree | src/app/api/stream/route.ts:34 | no piece of `split` holds the separator |
| Text.JoinSplit | src/app/api/stream/route.ts:34 | joining the pieces of `split` with the separator gives back the text |
| Text.SplitJoin | src/app/api/stream/route.ts:34 | splitting a join of separator-free pieces gives back the pieces |
| Text.SplitAtSeparator | src/app/api/stream/route.ts:34 | splitting `a + sep + b` gives the pieces of `a` followed by the pieces of `b` |
| Text.DigitRun | src/app/api/stream/route.ts:39 | `\d+` takes the longest run of digits at a position |
| Text.DecimalRoundTrip | src/app/api/stream/route.ts:40 | `parseInt` of a number's decimal text is the number |
| Text.NatToStringInjective | src/app/components/TorrentPlayerBackend.tsx:94 | different file indices have different decimal texts |
| HlsEstimate.CountSegmentsAppend | src/app/api/stream/route.ts:34-36 | the segment count of two line lists is the sum of their counts |
| HlsEstimate.SegmentCountOfLine | src/app/api/stream/route.ts:34-36 | a single line counts once exactly when it is non-blank after trim and its untrimmed text does not start with `#` |
| HlsEstimate.SegmentCountConcat | src/app/api/stream/route.ts:34-36 | the count of `a + '\n' + b` is the count of `a` plus the count of `b` |
| HlsEstimate.IndentedTagCounts | src/app/api/stream/route.ts:35 | a tag line indented by a space counts as a segment, because the `#` test is on the untrimmed line |
| HlsEstimate.NoSegmentsNoBytes | src/app/api/stream/route.ts:34-55 | a playlist with no segment line is estimated at 0 bytes |
| HlsEstimate.FirstDurationMatch | src/app/api/stream/route.ts:39 | the match found is the leftmost `#EXT-X-TARGETDURATION:` followed by a digit |
| HlsEstimate.SegmentDurationSpec | src/app/api/stream/route.ts:39-40 | the duration is 10 without a match, else the value of the digits after the leftmost match |
| HlsEstimate.LineEnd | src/app/api/stream/route.ts:43 | `.` stops at the first line terminator (`\n`, `\r`, U+2028, U+2029) |
| HlsEstimate.FirstBandwidth | src/app/api/stream/route.ts:48 | the inner `/BANDWIDTH=(\d+)/` finds the leftmost occurrence in the range |
| HlsEstimate.LastBandwidth | src/app/api/stream/route.ts:43 | the greedy `.*` stops at the last `BANDWIDTH=<digit>` of the line |
| HlsEstimate.MatchStreamInfAtSpec | src/app/api/stream/route.ts:43 | the global pattern matches at a position exactly when the `#EXT-X-STREAM-INF:` tag is there and a `BANDWIDTH=<digit>` follows on the same line |
| HlsEstimate.StreamInfMatchesSound | src/app/api/stream/route.ts:43-48 | every match the global scan finds has the tag at its start, and its value is read at a `BANDWIDTH=<digit>` after the tag on the same line |
| HlsEstimate.StreamInfBandwidthsSound | src/app/api/stream/route.ts:43-50 | every collected bandwidth is a `BANDWIDTH=` value on an `#EXT-X-STREAM-INF:` line, after the tag |
| HlsEstimate.StreamInfMatchesComplete | src/app/api/stream/route.ts:43-46 | the scan's first match is the one at the first position where the global pattern matches, and the scan resumes where that match ends |
| HlsEstimate.NoMatchNoScan | src/app/api/stream/route.ts:43-46 | where the global pattern matches nowhere, the scan finds nothing |
| HlsEstimate.MatchReadsFirstBandwidth | src/app/api/stream/route.ts:43-48 | with the tag at a position and the first `BANDWIDTH=<digit>` of its line at `b`, the pattern matches there and the inner match reads the value at `b` |
| HlsEstimate.OneStreamInfLine | src/app/api/stream/route.ts:43-52 | a playlist with a single `#EXT-X-STREAM-INF:` tag whose line holds `BANDWIDTH=v` yields exactly `[v]`, and its maximum bandwidth is `v` |
| HlsEstimate.NoStreamInfNoBandwidths | src/app/api/stream/route.ts:43-46 | a text without the tag yields no bandwidths |
| HlsEstimate.AverageBandwidthWins | src/app/api/stream/route.ts:47-50 | with `AVERAGE-BANDWIDTH=` first in the attribute list, the value read is the average one |
| HlsEstimate.SeqMax | src/app/api/stream/route.ts:51 | `Math.max` returns an element that bounds all the others |
| HlsEstimate.MaxBandwidth | src/app/api/stream/route.ts:44-52 | 5,000,000 without matches; otherwise one of the matched bandwidths and at least every one of them |
| HlsEstimate.EstimateHlsSize | src/app/api/stream/route.ts:28-63 | the estimate is non-negative; 100 MiB when the playlist cannot be fetched; otherwise 8 × bytes = segments × duration × bandwidth |
| StreamRouter.GetTorrentMetadata | src/app/api/stream/route.ts:68-88 | it fails with 'Invalid magnet URI' exactly when parsing threw; a result's name is never empty |
| StreamRouter.MetadataDefaults | src/app/api/stream/route.ts:79-81 | infoHash defaults to '', name to 'Unknown' (also when empty), size to 0 |
| StreamRouter.HandleViaNextjs | src/app/api/stream/route.ts:129-143 | the answer is `nextjs` with the torrent's size and name |
| StreamRouter.ForwardToNodeService | src/app/api/stream/route.ts:93-124 | success exactly when the node service answered ok, then `nodejs` with stream and download URLs built from `nodeStreamerUrl` and the id; the size, formatted size and file name are the service's own, and the message is 'Large file - routed to dedicated streaming service'. A non-ok answer fails with 'Node service error: ' and the status text; a thrown error fails with its message |
| StreamRouter.MagnetBranch | src/app/api/stream/route.ts:162-211 | without the `magnet:?` prefix 400 'Invalid magnet URI format'; a parse failure 500 'Failed to process stream request' with details 'Invalid magnet URI'; every success is `nextjs` |
| StreamRouter.HlsBranch | src/app/api/stream/route.ts:214-247 | an unparseable URL gives 400 'Invalid m3u8 URL format'; a `nextjs` answer streams the URL unchanged |
| StreamRouter.Post | src/app/api/stream/route.ts:149-264 | an unreadable body gives 500 with the parse error as details; neither field gives 400 'Either magnetUri or m3u8Url is required'; a `nodejs` answer only comes without a magnet link |
| StreamRouter.Get | src/app/api/stream/route.ts:270-283 | the query values are routed as a POST body: neither truthy gives 400 'Either magnetUri or m3u8Url is required', a truthy magnet takes the magnet branch, otherwise a truthy playlist takes the HLS branch |
| StreamRouter.MagnetTakesPrecedence | src/app/api/stream/route.ts:154-162 | with a magnet link, the m3u8 field, the playlist and the node service make no difference |
| StreamRouter.MagnetAlwaysRelayed | src/app/api/stream/route.ts:171-210 | every accepted magnet link is answered `nextjs` with `/api/relay/stream/<infoHash>/0`, `/api/relay/download/<infoHash>`, its size and name, whatever the threshold says |
| StreamRouter.MagnetMessage | src/app/api/stream/route.ts:175-210 | size 0 keeps 'Small file - handled by Next.js'; otherwise the threshold chooses the 'Large file (…)' or 'Small file (…)' message |
| StreamRouter.HlsRouting | src/app/api/stream/route.ts:225-246 | over the threshold the node service is sent `{ m3u8Url }` and the answer is `nodejs` with the id URL, or 500 when forwarding fails; otherwise `nextjs` with the URL unchanged, the estimate as size and no download URL |
| StreamRouter.UnfetchablePlaylistFallsBack | src/app/api/stream/route.ts:58-62 | when the threshold keeps 100 MiB in process (`shouldUseNodeService` false for it), an unfetchable playlist is estimated at 100 MiB and the request succeeds with that size |
| StreamRouter.NoValidSourceUnreachable | src/app/api/stream/route.ts:249-252 | 'No valid stream source provided' is never answered |
| RelayAdd.Post | src/app/api/relay/add/route.ts:7-28 | an unreadable body gives 500 with its message; a missing, empty or non-string `magnetURI` gives 400 'Invalid magnet URI' and creates no engine; otherwise a fresh engine for the URI and an unsettled request |
| RelayAdd.Engine.constructor | src/app/api/relay/add/route.ts:24-28 | the engine gets 100 connections, 10 upload slots and the path '/tmp/torrents' |
| RelayAdd.AddRequest.OnReady | src/app/api/relay/add/route.ts:32-103 | only the first settling event acts. It maps the info-hash to this engine, leaving every other key alone. It selects every file, answers with the indexed file list and starts the throttle at 0/0 |
| RelayAdd.AddRequest.OnError | src/app/api/relay/add/route.ts:105-115 | only the first settling event acts: 500 with the error message, or 'Failed to add torrent' when it is empty |
| RelayAdd.SelectAll | src/app/api/relay/add/route.ts:44-47 | every engine file ends up selected |
| RelayAdd.ListFrom | src/app/api/relay/add/route.ts:49-53 | entry i copies file i's name and length and carries index start + i |
| RelayAdd.FileList | src/app/api/relay/add/route.ts:49-53 | the list keeps the engine's order, and entry i has index i and file i's name and length |
| RelayAdd.Progress | src/app/api/relay/add/route.ts:65 | progress is the floor of downloaded × 100 / total in exact arithmetic (the double-precision rounding of the source is left out, see below) |
| RelayAdd.TickStep | src/app/api/relay/add/route.ts:62-87 | `lastLoggedProgress` never decreases. A tick logs exactly when progress is at least 5 above it and 2000 ms have passed, and only then moves `lastLogTime`. A logging tick records the progress. Completion fires exactly when progress is 100, the recorded value is below 100 and the tick did not log; it records 100. A tick that does neither changes nothing |
| RelayAdd.ProgressLog.Tick | src/app/api/relay/add/route.ts:62-87 | the new state and the events are `TickStep` of the old state at `Progress(downloaded, total)` |
| RelayAdd.RunMonotone | src/app/api/relay/add/route.ts:69-86 | over any run of ticks `lastLoggedProgress` never decreases |
| RelayAdd.NoCompletionAfterHundred | src/app/api/relay/add/route.ts:83-86 | once 100 is recorded no later tick logs completion |
| RelayAdd.CompletionAtMostOnce | src/app/api/relay/add/route.ts:83-86 | completion is logged at most once over any run of ticks |
| RelayAdd.RepeatedAddReplacesEngine | src/app/api/relay/add/route.ts:5-41 | two requests for the same torrent create two engines; afterwards the map holds only the second |
| InputForm.ValidateInput | src/app/components/MagnetInputForm.tsx:13-33 | 'magnet' exactly when the input has the `magnet:?` prefix and contains `xt=urn:`. 'hls' exactly when it does not, ends in `.m3u8` or contains `.m3u8?`, and the URL parses. Anything else is invalid |
| InputForm.MagnetWithoutTopicFallsThrough | src/app/components/MagnetInputForm.tsx:15-30 | a `magnet:?` input without `xt=urn:` is judged by the playlist test |
| InputForm.MagnetWinsOverPlaylist | src/app/components/MagnetInputForm.tsx:15-23 | an input passing both tests is a magnet link |
| InputForm.EmptyIsInvalid | src/app/components/MagnetInputForm.tsx:13-33 | the empty input is invalid |
| InputForm.DisabledMeansInvalid | src/app/components/MagnetInputForm.tsx:93 | whenever a form's submit button is disabled (`!input.trim()`), submitting its input would have been rejected |
| InputForm.SubmittedIsTrimmed | src/app/components/MagnetInputForm.tsx:39-47 | what `onSubmit` receives is non-empty and already trimmed |
| InputForm.MagnetInputForm.HandleSubmit | src/app/components/MagnetInputForm.tsx:35-48 | a valid trimmed input is passed on with its kind and the error is cleared; otherwise nothing is passed on and the validation message is shown |
| InputForm.MagnetInputForm.HandlePaste | src/app/components/MagnetInputForm.tsx:50-57 | the clipboard text replaces the input; a failed read sets the clipboard message |
| InputForm.MagnetInputForm.Change | src/app/components/MagnetInputForm.tsx:70 | typing replaces the input and keeps the error |
| InputForm.AcceptedMagnetPassesApiCheck | src/app/components/MagnetInputForm.tsx:15-20 | an accepted magnet link never gets the router's 'Invalid magnet URI format' |
| InputForm.AcceptedPlaylistPassesApiCheck | src/app/components/MagnetInputForm.tsx:23-30 | an accepted playlist URL never gets the router's 'Invalid m3u8 URL format' |
| InputForm.RejectsPlainText | tests/unit/MagnetInputForm.test.tsx:14-31 | 'invalid-link' is rejected |
| InputForm.AcceptsTestMagnet | tests/unit/MagnetInputForm.test.tsx:33-47 | the test's magnet link is left unchanged by `trim()`, so it is the text submitted, and is accepted as a magnet link |
| InputForm.AcceptsTestPlaylist | tests/unit/MagnetInputForm.test.tsx:49-63 | the test's playlist URL is accepted as HLS when the URL parses |
| Page.SubmitResult | src/app/page.tsx:41-77 | success exactly when the route answered ok: the active stream records the submitted text, the kind and the answer. A thrown fetch gives its message. The active stream's `streamUrl` is the route's `streamUrl`. A failed answer gives its `error`, or 'Failed to process stream' when that is empty |
| Page.ChoosePlayer | src/app/page.tsx:153-205 | every player receives the submitted text, never the routed URL; the HLS player exactly for HLS input |
| Page.Home.BeginSubmit | src/app/page.tsx:38-39 | the error is cleared and loading starts |
| Page.Home.FinishSubmit | src/app/page.tsx:54-80 | loading ends on every path. Success sets the active stream; failure sets the error and leaves the active stream as it was |
| Page.Home.HandleError | src/app/page.tsx:83-87 | the error becomes the player's message |
| Page.Home.HandleReset | src/app/page.tsx:89-93 | the active stream is dropped and the error cleared |
| Page.RouteErrorsAreNonEmpty | src/app/page.tsx:54-57 | every failed route answer carries a non-empty `error` |
| Page.SubmissionTakesItsBranch | src/app/page.tsx:48-51 | a magnet submission is routed by the magnet branch and a playlist submission by the HLS branch |
| Page.BackendPlayerIffOver500MiB | src/app/page.tsx:156-158 | for an accepted and routed magnet link, the server-side player is used exactly when the torrent is over 500 MiB, and the browser player otherwise |
| Page.PlaylistAlwaysHlsPlayer | src/app/page.tsx:203-205 | a routed playlist always mounts the HLS player on the submitted URL, also when routed to the node service |
| Page.FailedSubmissionIsNotShown | src/app/page.tsx:107-151 | after a failed first submission the error is stored while the screen is the bare input form |
| PlayableFiles.FirstPlayableSpec | src/app/components/TorrentPlayer.tsx:79-81 | -1 exactly when no name is playable; otherwise a playable name with no playable name before it |
| PlayableFiles.FirstPlayableAppend | src/app/components/TorrentPlayerBackend.tsx:66-68 | files after the first playable one do not change the choice |
| PlayableFiles.UpperCaseExtension | src/app/components/TorrentPlayer.tsx:80 | 'Movie.MKV' is playable |
| PlayableFiles.ExtensionMustBeLast | src/app/components/TorrentPlayer.tsx:80 | 'a.mp4.txt' is not playable |
| PlayableFiles.StreamUrlInjective | src/app/components/TorrentPlayerBackend.tsx:94 | different (info-hash, file) pairs get different `/api/relay/stream/<infoHash>/<fileIndex>` URLs |
| HlsPlayer.FatalRecovery | src/app/components/HlsPlayer.tsx:113-130 | a network error means reload with 'Network error loading HLS stream'; a media error means media recovery with 'Media error in HLS stream'; any other type means destroy with 'Fatal error loading HLS stream' |
| HlsPlayer.RecoveryMessagesDistinct | src/app/components/HlsPlayer.tsx:113-130 | the reported message tells which recovery was attempted |
| HlsPlayer.QualitiesFrom | src/app/components/HlsPlayer.tsx:93-97 | entry i copies level i's height and bitrate and carries index start + i |
| HlsPlayer.QualityList | src/app/components/HlsPlayer.tsx:93-97 | the quality list keeps the level order; button i selects level i |
| HlsPlayer.Instance.Apply | src/app/components/HlsPlayer.tsx:113-130 | each recovery is one `startLoad`, one `recoverMediaError` or `destroy`, and nothing else |
| HlsPlayer.Player.Init | src/app/components/HlsPlayer.tsx:28-80 | no video element: 'Video element not ready' and nothing else. Native support: the video source is the URL and loading ends. A failed import is reported while mounted. No hls.js support: 'HLS is not supported in this browser'. Otherwise a new instance loads the URL, if still mounted |
| HlsPlayer.Player.OnManifestParsed | src/app/components/HlsPlayer.tsx:81-102 | while mounted, loading ends; with more than one level the quality list is set and the current quality follows the instance |
| HlsPlayer.Player.OnError | src/app/components/HlsPlayer.tsx:104-132 | non-fatal errors and errors after unmount change nothing; a fatal error reports and applies the table's recovery |
| HlsPlayer.Player.OnLevelSwitched | src/app/components/HlsPlayer.tsx:134-139 | while mounted the current quality becomes the switched level |
| HlsPlayer.Player.HandleQualityChange | src/app/components/HlsPlayer.tsx:159-164 | without an instance nothing happens; otherwise instance and buttons move to the index (-1 is Auto) |
| HlsPlayer.Player.Unmount | src/app/components/HlsPlayer.tsx:151-156 | later events are ignored and the instance is destroyed |
| HlsPlayer.StartAsWritten | src/app/components/HlsPlayer.tsx:34-38 | as written, a freshly mounted player always reports 'Video element not ready' and stays loading |
| HlsPlayer.StartWithVideoRendered | src/app/components/HlsPlayer.tsx:43-79 | with the video element present, native playback starts on the URL, or an instance loads it |
| TorrentPlayer.Player.Init | src/app/components/TorrentPlayer.tsx:35-57 | a failed import is reported as 'Failed to initialize torrent: …' while mounted; otherwise a client is created if still mounted |
| TorrentPlayer.Player.PlayFile | src/app/components/TorrentPlayer.tsx:141-154 | with a video element the file is rendered and loading ends; without one nothing changes |
| TorrentPlayer.Player.OnTorrentAdded | src/app/components/TorrentPlayer.tsx:57-93 | after unmount nothing changes. Otherwise the file list is the torrent's. With no playable file it reports 'No playable video file found in torrent' and loading ends. Otherwise the first playable file is selected and played |
| TorrentPlayer.Player.OnTorrentError | src/app/components/TorrentPlayer.tsx:108-113 | while mounted 'Torrent error: ' and the message are reported |
| TorrentPlayer.Player.OnClientError | src/app/components/TorrentPlayer.tsx:118-124 | while mounted 'WebTorrent error: ' and the message are reported and loading ends |
| TorrentPlayer.Player.Unmount | src/app/components/TorrentPlayer.tsx:158-165 | later callbacks are ignored and a created client is destroyed |
| TorrentPlayer.PlayAsWritten | src/app/components/TorrentPlayer.tsx:141-154 | as written, a torrent with a playable file selects it but never renders it, and the spinner stays |
| TorrentPlayer.PlayWithVideoRendered | src/app/components/TorrentPlayer.tsx:92-93 | with the video element present, the first playable file is rendered and loading ends |
| TorrentPlayerBackend.FailureMessage | src/app/components/TorrentPlayerBackend.tsx:49-88 | a failure is reported as 'Failed to add torrent: ' followed by the thrown message, the server's error, or 'Failed to add torrent to server'; there is no failure exactly when the relay answered with the torrent |
| TorrentPlayerBackend.Player.PlayFile | src/app/components/TorrentPlayerBackend.tsx:91-99 | with a video element the source becomes the relay URL of the file; without one nothing changes |
| TorrentPlayerBackend.Player.OnAddResponse | src/app/components/TorrentPlayerBackend.tsx:35-88 | after unmount nothing changes. Otherwise a failure is reported and loading ends. A success records the torrent and ends loading, then either reports that no file is playable or selects and plays the first playable file |
| TorrentPlayerBackend.Player.OnFileClick | src/app/components/TorrentPlayerBackend.tsx:159-164 | clicking entry i selects i and points the source at the relay URL of file i |
| TorrentPlayerBackend.Player.Unmount | src/app/components/TorrentPlayerBackend.tsx:103-106 | a later answer changes nothing |
| TorrentPlayerBackend.RequestAcceptedIffNonEmpty | src/app/components/TorrentPlayerBackend.tsx:44 | the relay registers the `{ magnetURI }` body exactly when the magnet link is non-empty |
| TorrentPlayerBackend.RouterUrlIsFileZero | src/app/components/TorrentPlayerBackend.tsx:94 | the router's stream URL for a torrent is the player's URL for file 0 |
| TorrentPlayerBackend.PicksEnginesFirstPlayable | src/app/components/TorrentPlayerBackend.tsx:66-68 | the file picked from the relay's list is the engine's first playable file |
| TorrentPlayerBackend.FirstLoadAsWritten | src/app/components/TorrentPlayerBackend.tsx:91-99 | as written, the first playable file is selected but the video element appears with no source |
| TorrentPlayerBackend.FirstLoadWithVideoRendered | src/app/components/TorrentPlayerBackend.tsx:78-80 | with the video element present, the first playable file streams from its relay URL |
| DownloadButton.Toggle | src/app/components/DownloadButton.tsx:15-23 | the index's membership flips, every other index keeps its own, and the size moves by one |
| DownloadButton.ToggleTwice | src/app/components/DownloadButton.tsx:15-23 | toggling the same index twice restores the selection |
| DownloadButton.ToggleStaysInList | src/app/components/DownloadButton.tsx:57-65 | toggles of listed files keep the selection within the list |
| DownloadButton.TorrentLabelShowsCount | src/app/components/DownloadButton.tsx:88 | different selection sizes give different button texts |
| DownloadButton.Button.Render | src/app/components/DownloadButton.tsx:50-120 | the torrent panel renders exactly for type torrent with files given, and the HLS panel exactly for type hls with a non-empty URL. Checkbox i is checked exactly when i is selected. The button is disabled exactly when downloading or nothing is selected, and its caption is the torrent label ('Preparing...', else the selection size). The HLS button is disabled exactly while downloading, captioned 'Preparing...' then and 'Download Stream' otherwise |
| DownloadButton.Button.HandleFileToggle | src/app/components/DownloadButton.tsx:15-23 | the selection becomes its toggle at the index |
| DownloadButton.Button.HandleDownloadTorrent | src/app/components/DownloadButton.tsx:25-37 | an empty selection only shows the reminder; otherwise the notice is shown and `downloading` ends false |
| DownloadButton.Button.HandleDownloadHls | src/app/components/DownloadButton.tsx:39-48 | without a URL nothing happens; otherwise the notice is shown and `downloading` ends false |
| DownloadButton.ClickSequence | src/app/components/DownloadButton.tsx:83-88 | after any sequence of checkbox and download clicks, in any order, the button is disabled exactly when nothing is selected and never reads 'Preparing...' |

## Left out

- Floating point: `formatBytes`, `toFixed`, `torrent.progress * 100` and the speed display are not modelled. Sizes are exact reals or naturals.
- The configuration module is not part of this model. `shouldUseNodeService`, `formatBytes` and `nodeStreamerUrl` are parameters, so no threshold rule is assumed.
- The `URL` constructor is an abstract acceptance predicate.
- parse-torrent, torrent-stream, WebTorrent and hls.js are opaque. Their results and events are inputs.
- Network I/O is left out. Each `fetch` result is a value: the playlist text or its absence, the node service's answer, and the route answers seen by the page and the server-side player.
- The relay stream and download routes are not part of this model. Neither is HTTP Range handling. Only the URLs pointing at them are.
- Timers and React scheduling are left out. The throttle's interval is explicit `Tick` calls, and the HLS player's 100 ms delay is the moment `Init` is called. Stopping the interval on the engine's `idle` event is the caller making no more ticks. State is what each handler leaves; re-renders between setters are not modelled.
- The `TorrentPlayer` statistics interval is left out: it only copies floating-point numbers from the engine into the display.
- RelayAdd.ProgressLog.Tick: requires a torrent length above zero. With a zero length JavaScript computes `Infinity` when something was downloaded (it logs "Infinity%" and stores Infinity) and `NaN` otherwise (nothing logs); neither is modelled.
- RelayAdd.Progress: computes the floor exactly, while the source floors the double-precision product `(downloaded / total) * 100`, which can round just below an integer: for 29 of 100 bytes the source gets 28 and the model 29. A tick at such a point can log in the model and not in the source.
- StreamRouter.Post: body fields are optional strings. JSON numbers, objects or booleans in `magnetUri`/`m3u8Url` are not modelled, since the page and `GET` only send strings or nothing.
- RelayAdd.Post: a synchronous throw from the engine constructor is not modelled. It rejects the returned promise outside the `try`.
- The 'Unknown error' texts for thrown values that are not `Error` objects are not modelled. Every thrown value is taken to carry a message string.
- `parseInt` is exact: digit runs beyond 2^53, which JavaScript rounds, are not distinguished.
- Console logging, JSX markup, styling, the Next.js configuration and the type declaration files are not part of this model.

## Findings

| source | as written | input that shows it | evidently intended | confidence | as-written member | corrected member |
|---|---|---|---|---|---|---|
| src/app/components/HlsPlayer.tsx:34-38 | the `<video>` element is rendered only when `loading` is false (lines 173-188), but `initHls` looks it up while `loading` is still true | any playlist URL, on first mount | the video element exists while the spinner shows, so playback starts | not executed | HlsPlayer.StartAsWritten | HlsPlayer.StartWithVideoRendered |
| src/app/components/TorrentPlayer.tsx:141-154 | `playFile` needs the `<video>` element, which is rendered only when `loading` is false (lines 183-197), and on the playable path only `playFile` clears `loading` | a torrent with one `.mp4` file | the first playable file is rendered and loading ends | not executed | TorrentPlayer.PlayAsWritten | TorrentPlayer.PlayWithVideoRendered |
| src/app/components/TorrentPlayerBackend.tsx:91-99 | `playFile` runs while `loading` is true, when the `<video>` element (lines 120-136) is not rendered, so the first file's source is never set | a relay answer listing one `.mp4` file | the video element streams `/api/relay/stream/<infoHash>/<index>` | not executed | TorrentPlayerBackend.FirstLoadAsWritten | TorrentPlayerBackend.FirstLoadWithVideoRendered |

In each row both halves drive the same component class. The player methods
take the presence of the video element as a parameter. The as-written member
passes the component's render rule, `VideoElement.RenderedAsWritten(loading)`. The
corrected member passes a video element that is present.
