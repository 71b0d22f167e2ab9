# A verified model of the AAMP playback core

AAMP is a C++ adaptive-streaming player. This project models its five stateful components and proves what
they keep over whole runs:

* **The HLS track engine** (`fragmentcollector_hls.cpp`): a playlist is walked by a resumable cursor, an index of
  completion times is built beside it, live refreshes replace the text and find the cursor again by media sequence
  number, trick play searches the index from a cached position, and audio, video and subtitle are synchronized by
  sequence number.
* **Profile selection in a main manifest**: a one-pass filter that keeps the best audio codec, clears its tables in
  mid-stream and starts over when I-frame entries are mixed in. Beside it, the choice of the audio track.
* **Client-side ad placement for DASH** (`admanager_mpd.cpp`): ads of a break are laid over content periods as they
  grow from one MPD refresh to the next, with a reverse index that playback looks ads up in.
* **The playlist cache** (`AampCacheHandler.cpp`): a bounded cache whose entries share heap buffers freed by hand.
* **Codecs and text scanners**: base64, base64url, the attribute-list tokenizer and the in-place line splitter.

Every component that changes state in the source is a class, or a method over an array, whose methods update the
fields step by step and are proved equal to a function on values. The lemmas are about those functions.

## How the files fit together

| files | what they hold |
|---|---|
| `Playlist`, `TrackModel`, `WindowScan` | the playlist as lines, the engine as functions, and what its readers do on a window of a broadcast |
| `LiveRun`, `LiveGaps` | runs of the fetch loop over a sliding playlist, without and with gaps, restarts and seeks |
| `LiveSections` | initialization sections over runs on any playlists, and when the end of the stream is reported |
| `Sessions` | playlists for every window, sessions that start on them, and inputs at which properties fail |
| `Timeline`, `TrickPlay`, `TrackSync` | culled time and periods, fast forward and rewind, synchronization |
| `TrackStates` | the class `TrackState` |
| `MainManifest`, `AudioTrack` | profile selection, audio track selection |
| `AdPlacement`, `AdRuns`, `AdLookup`, `AdManager`, `AdFiling` | one break being placed, runs of refreshes, the reverse index, all breaks together, the break a lookup answers with |
| `AdObject` | the class `PrivateCDAIObjectMPD` |
| `PlaylistCache`, `CacheHandler` | the cache as a map, and the class `AampCacheHandler` with its buffers |
| `Base64`, `Base64Url` | RFC 4648, sections 4 and 5 |
| `Common` | options, bytes, maximum |
| `CText`, `AttrList`, `LineSplit` | NUL-terminated text in a buffer, RFC 8216 section 4.2 attribute lists, lines |

A live stream is a *broadcast* (an endless sequence of segments with durations), and a playlist advertises a
*window* of it under URIs of its own. Times are reals. Downloads, clocks and the cache hit of a start-over are inputs. Locked methods are
atomic steps. History that the program does not record (the content received by an ad break, bytes leaked by the
cache) is kept in ghost state or in the specification.

## What turned out not to hold, and when it does

Each item names the exact condition and, where it is a lemma of its own, an input on the failing side.

* After a live gap the first segment of the new window is stepped over unless a segment was pending
  (`LiveGaps.GapOutcome`, an equivalence; `Sessions.GapLosesSegments`); only strict increase holds over such runs
  (`LiveGaps.NumbersIncrease`).
* A refresh that turns a live track on-demand restarts the walk while the play target still counts from the start of
  the session. The next segment follows the current one if and only if the culled time is shorter than that segment,
  up to the tolerance of the walk (`LiveGaps.RestartContinuity`, `Sessions.RestartLosesSegment`).
* A live refresh takes over the initialization section in force where it finds the cursor without asking for it to be
  fetched. So over a run every segment goes out behind its own section if every refresh continues with the section that
  arrived last or one is pending, and after a refresh that does not, the next segment goes out without its section
  unless the walk meets another one (`LiveSections.SectionsArrive`, `LiveSections.RefreshServes`, an equivalence;
  `LiveSections.SectionIsMissed`).
* Culled time grows by what was dropped if and only if the last played segment is still listed or was the last one
  dropped (`Timeline.CulledExactly`, `Sessions.CulledTooLittle`).
* `SyncTracks` measures the subtitle against the number the audio track had before audio was moved. The subtitle ends
  on the common number if and only if audio does not lag, is at most 50 ahead of the subtitle, and the subtitle's
  playlist lists its number, or audio lags and the subtitle was on the video's number already
  (`TrackSync.SubtitleMeets`, `Sessions.SubtitleMisses`).
* In trick play a node found together with a new initialization section is noted as presented but not fetched; it is
  lost for the rest of the run, while a new node without one is downloaded if and only if its download succeeds
  (`TrickPlay.SectionNodeIsLost`, `TrickPlay.FirstSegmentIsLost`).
* A ramp-down at most one step from the beginning of a rewind takes the target back beyond where it was. If the refresh
  that it causes fails, the search goes on from its cached position, and finds what a scan of the whole index would find
  if and only if no node beyond the cached one ends within one step (`TrickPlay.TurnSearchesExactly`,
  `TrickPlay.RunSearchesExactly`, `TrickPlay.RampDownOvershoots`). If the refresh succeeds the search restarts and is
  exact, but its next node lies past everything downloaded if and only if all of that ends after one step
  (`TrickPlay.RestartRepeats`, `TrickPlay.RestartDownloadsTwice`). No other ramp-down repeats a segment
  (`TrickPlay.RunDownloadsInOrder`).
* Entries of unknown codec pass the profile filter, and are lost when the tables are cleared: the two-line
  specification is met if and only if none of them stands before the cut (`MainManifest.ChosenIsFilterIff`,
  `MainManifest.UnknownCodecIsLost`).
* Content that arrives while the last ad waits for two seconds of fallback is discarded: an ad that joins then starts
  late by exactly that much (`AdRuns.JoinedAdIsLate`, `AdRuns.LastAdWaits`, `AdRuns.LateAd`).
* Content that a period held when a break opened it is counted again, so that an ad that starts there is shifted by it;
  only the first ad of the break is not. Two ads that follow one another are contiguous if and only if their shifts are
  equal: the first two, in the break's own period, if and only if it held no content when the first one arrived
  (`AdRuns.AdsAreContiguous`, `AdManager.SecondAdIsLate`). A break that spilled into that period before is enough for
  the second ad to start behind all content, and it leaves index entries that are taken for ads of the new break
  (`AdFiling.SpilledBreakStartsLate`).
* An ad that spills into a period announced as a break of its own is looked up under that other break: the lookup
  names the ad's break if and only if the period is filed under it, which holds of a period without entries of another
  break if and only if it was not announced (`AdFiling.ReachedLookup`, `AdFiling.SpilledAdIsMisfiled`).
* A seek into an ad is answered in whole seconds. In the period where the ad starts, that is the true position if and
  only if what is cut off to whole seconds equals the distance of the ad's start from its bucket of two seconds; in a
  period that opened in mid-ad, if and only if what was played of the ad before and what is cut off come to nothing
  (`AdLookup.DiscreteOffset`, `AdLookup.SeekHitsAndMisses`, `AdLookup.SeekMisjudgesMidAd`).
* A cache insertion whose effective URL is the key of an entry that owns bytes leaks them; the stored size equals the
  owned bytes if and only if that did not happen (`PlaylistCache.InsertSound`, `PlaylistCache.OverwriteLeaks`). Making
  room compares what was freed with the new length, not with what is missing, so a playlist that would fit can be
  rejected after the cache was emptied for it (`PlaylistCache.EvictsEnough`, `PlaylistCache.RejectsWhatWouldFit`).
* The base64 decoder reports the number of bytes it wrote if and only if no group before the last is short
  (`Base64.LengthExact`, `Base64.ReportsTooMuch`). The base64url pair gives a byte string back if and only if its
  length is not a multiple of three or the first byte left unset happens to be NUL (`Base64Url.UrlRoundTrip`).
* The comment above `GetBestAudioTrackByLanguage` ranks the initial language above the default track; in the code an
  exact match with a language the user did not select is always preceded by a track of the same language, unless
  the language part is empty (`AudioTrack.ExactIsShadowed`).

## Model

| member | source | states |
|---|---|---|
| TrackStates.TrackState.GetNextFragmentUriFromPlaylist | fragmentcollector_hls.cpp:1431-1782 | the cursor walk, line by line over the mutable playlist, returns the pointer and leaves the fields that the walk function gives for every playlist, target and cursor |
| TrackStates.TrackState.FindMediaForSequenceNumber | fragmentcollector_hls.cpp:1791-1850 | the cursor is found again by sequence number, at the first segment numbered as wanted or later |
| TrickPlay.FlushRestartsSearch | fragmentcollector_hls.cpp:2356-2410 | the index rebuilt after a flush does not depend on the one before, and the next search finds what a scan of the whole index finds, wherever the search stood |
| TrackStates.TrackState.IndexPlaylist | fragmentcollector_hls.cpp:2672-3045 | the index, the period table, the live flag and, on a refresh, the culled time |
| TrackStates.TrackState.RefreshPlaylist | fragmentcollector_hls.cpp:3126-3275 | a failed download keeps the old playlist; a live one finds its cursor again; an on-demand one restarts |
| LiveRun.ProfileChangeDelays | fragmentcollector_hls.cpp:3095-3115 | a profile change delays and loses nothing: once the new initialization section arrives, state and segment are what they had been without the change, and until then turns do nothing |
| LiveRun.ProfileSwitches | fragmentcollector_hls.cpp:3095-3243 | a profile change with the refresh it causes, onto a playlist that lists the same segments under other URIs, keeps the track in step: the segment that was due is the next one, under its new URI |
| TrackStates.TrackState.FetchFragment | fragmentcollector_hls.cpp:1902-2170 | the play target moves past the segment unless an initialization section is pending; a ramp-down takes it back, and a failed download forgets the node presented last |
| TrackStates.TrackState.FetchLoopTurn | fragmentcollector_hls.cpp:5312-5415 | one turn of the fetch loop, with the pending initialization section served first |
| TrackStates.TrackState.GetFragmentUriFromIndex | fragmentcollector_hls.cpp:1243-1417 | the search from the cached index, the presented node and whether it is the one presented before |
| TrackStates.TrackState.SearchIndex | fragmentcollector_hls.cpp:1249-1299 | the first node ending at the target or later, or in rewind the last one ending at it or earlier, from the cached position |
| TrackStates.TrackState.PresentNode | fragmentcollector_hls.cpp:1300-1387 | the presented node sets the cursor, the duration and the initialization section |
| TrackStates.TrackState.FetchTrickPlayFragment | fragmentcollector_hls.cpp:1868-2170 | one trick-play fetch: end of stream, a rewind target clamped at zero, what a failed download or a ramp-down leaves, and whether it ramped down |
| TrackStates.TrackState.TrickPlayTurn | fragmentcollector_hls.cpp:5312-5415 | one turn of the fetch loop in trick play: the pending initialization section is served first, and after a ramp-down, a section that did not arrive or the refresh interval of a live stream the playlist is refreshed |
| TrackStates.TrackState.GetNextFragmentPeriodInfo | fragmentcollector_hls.cpp:6264-6317 | the period of the first fragment ending after the target, and its offset |
| TrackStates.TrackState.GetPeriodStartPosition | fragmentcollector_hls.cpp:6325-6355 | the start of a period, zero for one that does not exist |
| TrackStates.TrackState.CatchUp | fragmentcollector_hls.cpp:3876-3918 | the catch-up loop of the lagging track |
| TrackStates.SyncTracks | fragmentcollector_hls.cpp:3805-3965 | all three tracks after the sync, and whether it was done by sequence number |
| WindowScan.FindInWindow | fragmentcollector_hls.cpp:1791-1850 | on a window of a broadcast the find lands on the wanted segment, on the first one if the window moved past it, and nowhere if the window ends before it |
| WindowScan.IndexWindow | fragmentcollector_hls.cpp:2672-3045 | indexing a window gives the partial sums of the durations as completion times |
| WindowScan.IndexRefreshed | fragmentcollector_hls.cpp:2672-3045 | a refresh rebuilds the index of the new window and adds to the culled time exactly what the last played segment moved by |
| WindowScan.CompletionInWindow | fragmentcollector_hls.cpp:2306-2328 | the completion time of any sequence number, clipped at both ends of the window |
| LiveRun.NextAdvances | fragmentcollector_hls.cpp:1453-1476 | after a segment was handed out the walk stops at the next one and at no other |
| LiveRun.NextRunsDry | fragmentcollector_hls.cpp:1453-1476 | after the last segment of the window the walk finds nothing and moves nothing |
| LiveRun.LiveRefresh | fragmentcollector_hls.cpp:3235-3243 | a refresh onto a later window that still lists the current segment keeps the cursor in step and the next number unchanged |
| LiveRun.LiveTurn | fragmentcollector_hls.cpp:1902-1935 | any turn, whatever download fails, hands out the next number or leaves it due |
| LiveRun.LiveContinuity | fragmentcollector_hls.cpp:1431-1850 | over every run of turns, failed downloads, ramp-downs, profile changes and refreshes, onto playlists of any profile, the segments handed out are consecutive, each under the URI that the playlist held lists for it, and culled time plus completion time of every listed segment is its fixed place on the session's timeline |
| LiveRun.TwoTurnsEmit | fragmentcollector_hls.cpp:5312-5415 | with working downloads two turns hand out a segment whenever the window has one to hand out |
| LiveGaps.NumbersIncrease | fragmentcollector_hls.cpp:1837-1842 | whatever windows are served, gaps and stalls included, the numbers handed out strictly increase and each segment goes out under the URI that the playlist held lists for its number |
| LiveGaps.GapOutcome | fragmentcollector_hls.cpp:1837-1842 | after a gap the first segment is handed out if and only if one was pending; otherwise the second one, if there is one, is next if and only if the two together outlast the lost one or fall within tolerance |
| LiveGaps.WalkFromStart | fragmentcollector_hls.cpp:1431-1782 | a walk from the start of a window stops at the first segment that covers the target |
| LiveGaps.CoversInMilliseconds | fragmentcollector_hls.cpp:1680-1684 | where times are milliseconds that is a segment ending after the target, or one that starts at most a tenth of a second before it |
| LiveGaps.RestartContinuity | fragmentcollector_hls.cpp:3235-3260 | after a refresh that makes the track on-demand the next segment follows if and only if the culled time is shorter than it or within tolerance, and with the segment before it no longer within tolerance |
| LiveGaps.NegativeSeek | fragmentcollector_hls.cpp:1431-1450 | a seek before the beginning plays from the beginning |
| LiveGaps.UnnumberedFromZero | fragmentcollector_hls.cpp:1431-1782 | segments of a playlist that does not number them count from zero, for the walk of a new track as for the index |
| LiveSections.SectionGoesFirst | fragmentcollector_hls.cpp:1528-1536 | a turn that walks over a line naming another section than the one held hands out nothing and leaves that section to be fetched, the last one named |
| LiveSections.NothingBeforeSection | fragmentcollector_hls.cpp:1902-1912 | then no turn hands out a segment before one in which the section arrives, as long as the playlist is not replaced |
| LiveSections.SectionsArrive | fragmentcollector_hls.cpp:1431-1850 | over every run on any playlists a segment goes out only after the section in force at its line has arrived, if every refresh continues with the section that arrived last or one is pending |
| LiveSections.SameSectionContinues | fragmentcollector_hls.cpp:1791-1850 | a refresh continues so if it lists, where it finds the cursor, no section or the one in force before |
| LiveSections.RefreshServes | fragmentcollector_hls.cpp:3235-3243 | the segment handed out next after a refresh has its section if and only if the refresh continues with the section that arrived last or one is pending |
| LiveSections.SectionIsMissed | fragmentcollector_hls.cpp:1816-1847 | a refresh onto the same segments behind another section, after which the next one goes out without it |
| LiveSections.SectionsStart | fragmentcollector_hls.cpp:3806-3832 | a new track, and one just indexed and aligned, misses no section |
| LiveSections.UnknownSectionIsDropped | fragmentcollector_hls.cpp:5312-5415 | a pending injection without a section known is dropped, and the turn is what it would be without it |
| LiveSections.RampDownFetchesSection | fragmentcollector_hls.cpp:2118-2170 | a ramped-down download hands out nothing, and no segment follows before the section of the new profile |
| LiveSections.LastSegmentEnds | fragmentcollector_hls.cpp:1917-1923 | after the last segment of a window went out the next turn reports the end if and only if the stream is on-demand or its playlist ends it |
| LiveSections.LiveNeverEnds | fragmentcollector_hls.cpp:1917-1923 | over every live run without an end tag the end is never reported |
| LiveSections.NewSession | fragmentcollector_hls.cpp:3806-3832 | a new track of a live window, indexed and walked to its seek position, is in step with the segment that covers it due, nothing culled or passed over and no end noted |
| Timeline.CulledExactly | fragmentcollector_hls.cpp:3014-3033 | a refresh adds the duration of the dropped segments if and only if the last played one is still listed or was the last one dropped |
| Timeline.IndexPlaylistDescribes | fragmentcollector_hls.cpp:2725-2747 | for every playlist with a header, completion times are prefix sums, the period table lists exactly the discontinuous fragments in order, each at its own start, and the duration is the total |
| Timeline.IndexSaysLive | fragmentcollector_hls.cpp:2765-2940 | the last line that says its kind decides whether the stream is live, and without one it is what it was |
| Timeline.PeriodDecomposition | fragmentcollector_hls.cpp:6264-6355 | a returned period's start plus the non-negative offset is the start of the first fragment ending after the target |
| TrickPlay.CachedScanIsFullScan | fragmentcollector_hls.cpp:1249-1299 | the search from the cached index finds what a scan of the whole index finds if and only if the cached index has not overtaken the target |
| TrickPlay.RefreshSearches | fragmentcollector_hls.cpp:3194-3260 | a refresh that succeeds restarts the search over the new index at the same target; one that fails changes nothing |
| TrickPlay.TurnSearchesExactly | fragmentcollector_hls.cpp:5312-5415 | from an exact search any turn leaves an exact one, whatever section, download and refresh fails, if and only if, in case it ramps down at most one step from the beginning of a rewind and its refresh fails, no node beyond the one found ends within one step; a rewind target is never negative |
| TrickPlay.RunSearchesExactly | fragmentcollector_hls.cpp:5312-5415 | over every trick-play run the cached search equals the full scan in every state if and only if every turn meets that condition |
| TrickPlay.RampDownOvershoots | fragmentcollector_hls.cpp:2157-2161 | a ramp-down whose refresh fails, after which the two searches differ |
| TrickPlay.ForwardEnds | fragmentcollector_hls.cpp:1893-1901 | fast forward, whatever sections it meets and downloads fail, reports the end once its target has passed every completion time |
| TrickPlay.RewindEnds | fragmentcollector_hls.cpp:1877-1892 | rewind reports the beginning within the number of turns that cover its initial target |
| TrickPlay.FoundBeyond | fragmentcollector_hls.cpp:1300-1387 | a node found is the one presented before, repeated, or lies beyond everything downloaded, in the direction of play |
| TrickPlay.NodePresented | fragmentcollector_hls.cpp:1300-1387 | for every playlist node k is presented with the duration of EXTINF k and the section in force there, at the URI with no other one between it and that EXTINF unless a blank line comes first |
| TrickPlay.WindowNodePresented | fragmentcollector_hls.cpp:1333-1361 | in a window without blank lines inside its segments node k is presented at the URI of segment k |
| TrickPlay.ForwardPresents | fragmentcollector_hls.cpp:1249-1281 | fast forward presents the first node that ends at its target or later, and nothing within the live offset of the end of a live playlist |
| TrickPlay.PlaylistReplacedIff | fragmentcollector_hls.cpp:5312-5415 | a turn replaces the playlist if and only if something was downloaded for it and its download ramped down, or it was asked to and the stream is live or its section did not arrive |
| TrickPlay.RunDownloadsInOrder | fragmentcollector_hls.cpp:1868-2170 | over every run of turns, with initialization sections served or not, downloads that succeed, fail or ramp down, refreshes that fail, and playlists replaced at ramp-downs, in a rewind more than one step from the beginning, the segments downloaded follow one another in the direction of play, none twice, and each is fetched from the URI of its EXTINF in the playlist held |
| TrickPlay.RestartRepeats | fragmentcollector_hls.cpp:2157-2161 | where the playlist is replaced at a ramp-down at most one step from the beginning of a rewind, the next node found is past everything downloaded if and only if all of that ends after one step |
| TrickPlay.RestartDownloadsTwice | fragmentcollector_hls.cpp:5312-5415 | a rewind over a playlist of two seconds that downloads its last segment before and after a ramp-down |
| TrickPlay.SectionNodeIsLost | fragmentcollector_hls.cpp:1303-1331 | a new node without a new initialization section is downloaded if and only if its download succeeds; one found with a new section is noted as presented without being fetched, and no later turn of the run downloads it |
| TrickPlay.FirstSegmentIsLost | fragmentcollector_hls.cpp:1303-1331 | a fast forward over two segments behind one initialization section downloads the second one only |
| TrickPlay.TrickStarts | fragmentcollector_hls.cpp:2672-3045 | a playlist just indexed is in the state from which the trick-play theorems start, each node at the EXTINF it was made from |
| TrickPlay.NewTrackSpools | fragmentcollector_hls.cpp:2672-3045 | a new track, once indexed, is in that state, at its seek position |
| TrackSync.CatchUpLands | fragmentcollector_hls.cpp:3876-3918 | with enough segments the catch-up lands at the start of the segment wanted and the offset grows by exactly the durations passed over |
| TrackSync.CatchUpStops | fragmentcollector_hls.cpp:3876-3918 | with too few segments it stops at the last one |
| TrackSync.SyncMeets | fragmentcollector_hls.cpp:3817-3918 | once a lag is accepted audio and video stand on one number if and only if the lagging track lists it; then targets equal positions and offsets grew by the durations passed over |
| TrackSync.SubtitleMeets | fragmentcollector_hls.cpp:3931-3965 | the subtitle ends on the number audio and video play if and only if audio does not lag, is at most 50 ahead of the subtitle and the subtitle lists its number, or audio lags and the subtitle was on the video's number |
| TrackSync.SyncedByNumber | fragmentcollector_hls.cpp:3867-3930 | the tracks are synchronized by sequence number if and only if start times are not to be used and the lag is at most 50, and at most 2 where start times are known; the leading track is not moved, and none is otherwise |
| TrackSync.AlignStands | fragmentcollector_hls.cpp:3806-3832 | a fresh track walked to a seek position stands at the start of the first segment that covers it |
| TrackSync.SessionStarts | fragmentcollector_hls.cpp:3806-3832 | a track of a live window, indexed and walked to its seek position, is in step: the base of the run theorems, with the segment that covers the position due |
| Sessions.ListingIsWindow | fragmentcollector_hls.cpp:1431-1782 | every window of every broadcast has a playlist, so the hypotheses of the window theorems can be met for all of them |
| Sessions.GapLosesSegments | fragmentcollector_hls.cpp:1837-1842 | sessions in which a gap loses one segment, two segments and none |
| Sessions.CulledTooLittle | fragmentcollector_hls.cpp:3014-3033 | a session in which a refresh counts too little culled time, and one in which it counts all |
| Sessions.RestartLosesSegment | fragmentcollector_hls.cpp:3235-3260 | a session whose end loses the next segment, and one whose end does not |
| Sessions.SubtitleMisses | fragmentcollector_hls.cpp:3931-3965 | tracks whose subtitle misses the common number with audio lagging and with audio not lagging, and a lagging audio with which it meets |
| MainManifest.CategorizeTracks | fragmentcollector_hls.cpp:908-982 | the flags and counters of a pass say exactly which codec is the best so far; an entry is ignored if and only if a better codec was found or it is switched off, and clears if and only if it is better than one found before |
| MainManifest.KnownCodecsFilter | fragmentcollector_hls.cpp:841-1054 | with known codecs the result is, in manifest order, the in-range I-frame entries and the in-range entries of the best enabled codec, however they are interleaved |
| MainManifest.ChosenIsFilterIff | fragmentcollector_hls.cpp:908-1034 | with unknown codecs that holds if and only if no in-range entry of unknown codec stands before the cut |
| MainManifest.CutIs | fragmentcollector_hls.cpp:984-1034 | that cut is the last entry whose codec is better than every one before it, or none if an in-range I-frame entry stands before such an entry and the parse starts over |
| MainManifest.UnknownCodecIsLost | fragmentcollector_hls.cpp:1021-1033 | a manifest that loses an in-range entry of unknown codec |
| MainManifest.StartOverRaises | fragmentcollector_hls.cpp:997-1020 | each start-over raises the best rank, so there are at most three |
| MainManifest.LastPassChooses | fragmentcollector_hls.cpp:841-1204 | the pass that runs to the end keeps exactly the entries of the specification |
| MainManifest.ChosenObeys | fragmentcollector_hls.cpp:819-1054 | on the settings and the rows kept: with EC3 disabled no AC3, EC3 or ATMOS row is, with ATMOS disabled no ATMOS row; every row is strictly between the bitrates and of the best codec let through, and all entries of that codec and all I-frame entries within the bitrates are kept |
| MainManifest.ParseStops | fragmentcollector_hls.cpp:1081-1172 | the parse reads up to the first segment or second header, and the status says which |
| MainManifest.MediasCounts | fragmentcollector_hls.cpp:1056-1069 | media entries are counted one by one |
| MainManifest.StreamTables.AddIFrame | fragmentcollector_hls.cpp:860-890 | an in-range I-frame entry becomes the next profile and the tables stay aligned |
| MainManifest.StreamTables.ClearInPlace | fragmentcollector_hls.cpp:1021-1033 | the current row moves to slot 0 and the profiles are emptied |
| MainManifest.StreamTables.AddStream | fragmentcollector_hls.cpp:894-1053 | a stream entry is kept, ignored, clears the tables or forces the parse to start over |
| MainManifest.StreamTables.ParseStream | fragmentcollector_hls.cpp:894-1053 | after a stream line the tables hold the rows kept so far, aligned with the profiles, or the parse must start over because I-frame entries stand before a better codec |
| MainManifest.StreamTables.ParseIFrame | fragmentcollector_hls.cpp:860-890 | after an I-frame line the tables hold the rows kept so far, aligned with the profiles |
| MainManifest.StreamTables.ParsePass | fragmentcollector_hls.cpp:841-1203 | after every line row i describes profile i for every i below the profile count |
| MainManifest.StreamTables.ParseMainManifest | fragmentcollector_hls.cpp:831-1235 | at most three restarts; the tables hold exactly the chosen entries, each as the settings demand and its profile beside it, and the status, also when the manifest is not in the cache for a start-over |
| MainManifest.FewEntriesFit | fragmentcollector_hls.cpp:860-1053 | no pass over at most 128 entries writes past the stream table, whatever it keeps of them |
| AudioTrack.GetBestAudioTrackByLanguage | fragmentcollector_hls.cpp:3282-3368 | the single scan with a shrinking range of preferred languages returns the track given by the ordered rules |
| AudioTrack.PreferredIs | fragmentcollector_hls.cpp:3323-3336 | the preferred candidate is the first track of the group attaining the smallest position on the list, and there is none exactly when no track's language is on it |
| AudioTrack.ChoiceIsOfGroup | fragmentcollector_hls.cpp:3299-3368 | a track is chosen exactly when the group has one, and it is of the group |
| AudioTrack.ChosenByRules | fragmentcollector_hls.cpp:3299-3368 | which rule decides: the exact language if the user selected it, else a preferred language, then the same language, a preferred one after all, the exact one, a default track, any track; the first track of the rule that applies |
| AudioTrack.ExactIsShadowed | fragmentcollector_hls.cpp:3310-3366 | an exact match with a language not selected by the user never decides |
| AdPlacement.StepKeeps | admanager_mpd.cpp:223-276 | one iteration of the placement loop keeps the accounting of content and the place of every ad |
| AdPlacement.FillKeeps | admanager_mpd.cpp:223-276 | the placement loop uses all the new content and keeps both |
| AdPlacement.DiscardsIff | admanager_mpd.cpp:240-264 | content is discarded if and only if it completes the last ad and is shorter than the room to fall back |
| AdRuns.PlaceOverKeeps | admanager_mpd.cpp:179-280 | the loop over the periods of an MPD keeps both across period changes |
| AdRuns.RunAccounted | admanager_mpd.cpp:167-382 | over every run of refreshes what was received is the ads laid, the current offset, what was discarded and what was left over after the end marker, and each ad starts where the ones before it end, late by what was discarded before its turn and shifted by what its period held when it was opened |
| AdRuns.RunLaid | admanager_mpd.cpp:167-382 | from a punctual state every ad that has its place starts where the ones before it end, but for the shift of its period |
| AdRuns.AdsAreContiguous | admanager_mpd.cpp:179-266 | for a fixed list of ads each later ad starts on the content timeline exactly where the one before ends if and only if their periods are shifted equally, and otherwise off by the difference |
| AdRuns.WaitedIsUnused | admanager_mpd.cpp:260-264 | what was discarded under the waiting last ad is the content received beyond the place it has reached |
| AdRuns.JoinedAdIsLate | admanager_mpd.cpp:223-276 | over every run of refreshes in which an ad that joined as the last one has started, it starts where the ad before it ends, late by exactly the content discarded while that one waited and by as much as its period is shifted more |
| AdRuns.LastAdWaits | admanager_mpd.cpp:260-264 | a last ad under which 1.5 s of content are discarded |
| AdRuns.LateAd | admanager_mpd.cpp:223-276 | and an ad joining it that starts 1.5 s late |
| AdRuns.EndSettles | admanager_mpd.cpp:281-346 | a settled break ends at a period boundary, or at least 4 s into its end period and 2 s before the end of it, and it stays unsettled if and only if it ends 4 s or more into the last period and too close to its end |
| AdRuns.EndMoves | admanager_mpd.cpp:281-346 | how far the settled end moves: back to the beginning of its period if less than 4 s into it, on to the beginning of the period listed next if less than 2 s remain, not at all otherwise; only the period it moves to is reset |
| AdRuns.OnlyOutlierIsLost | admanager_mpd.cpp:294-299 | an ad laid in the period reset by a move back ended less than 4 s into it |
| AdRuns.BreakEndsWithLastAd | admanager_mpd.cpp:240-259 | a complete break ends where its last ad ends, late by what was discarded while that one waited and off by the shifts of the two periods |
| AdRuns.PlaceOverFills | admanager_mpd.cpp:195-203 | every period that the placement passed through is marked as filled |
| AdRuns.ContentCountedOnce | fragmentcollector_mpd.cpp:3284-3335 | two refreshes of one period count every segment numbered above the old end exactly once |
| AdLookup.PlaceOverCatalog | admanager_mpd.cpp:179-280 | placement keeps every ad findable in its period's index and, for every period that was without entries of another break when it was opened, the meaning of every key |
| AdLookup.LookupInvertsPlacement | admanager_mpd.cpp:384-415 | after any run, with ads of at least 2000 ms, the seamless lookup at any offset of an ad's bucket returns that ad's number unless the end adjustment reset its period, and in a period that was without entries of another break keys increase with the ads |
| AdLookup.SeamlessAnswers | admanager_mpd.cpp:395-415 | the seamless lookup answers with the entry of the bucket of its offset or, where that has none, of the next one, if an ad starts there, and with none otherwise |
| AdLookup.KeysFollowAds | admanager_mpd.cpp:214-234 | in a period's index a larger key belongs to a later ad |
| AdLookup.DiscreteFindsLatest | admanager_mpd.cpp:416-437 | discrete playback finds the latest ad whose bucket begins at or before the offset |
| AdLookup.DiscreteOffset | admanager_mpd.cpp:416-437 | the whole seconds returned are the true position inside the ad found if and only if, in the period where the ad starts, what is cut off equals the distance of the ad's start from its bucket, and in a period that opened in mid-ad what was played before and what is cut off come to nothing |
| AdLookup.SeekHitsAndMisses | admanager_mpd.cpp:416-437 | a seek to 5.5 s that hits an ad starting at 4.5 s and misses one starting at 4 s |
| AdLookup.SeekMisjudgesMidAd | admanager_mpd.cpp:416-437 | a period that opens 4 s into an ad, where a seek to its beginning lands at the beginning of the ad |
| AdFiling.LookupNamesBreak | admanager_mpd.cpp:384-415 | after any run the seamless lookup answers with the ad's number, and with its break if and only if the ad's period was not filed under another break before |
| AdFiling.RunIndexed | admanager_mpd.cpp:104-754 | over every run of announcing, fulfilling, refreshing and pruning the reverse index is kept, and every period of the pending break is filed under it or is a break of its own |
| AdFiling.ReachedLookup | admanager_mpd.cpp:384-415 | in every state reached from the start the lookup answers with the ad and its break if and only if the period is filed under it, otherwise with the ad's number in the break it is filed under; a period without entries of another break is filed under its own if and only if it was announced as a break |
| AdFiling.SpilledAdIsMisfiled | admanager_mpd.cpp:205-234 | a run after which an ad of one break is looked up as the second ad of another one, which has none |
| AdFiling.SpilledBreakStartsLate | admanager_mpd.cpp:659-673 | the run goes on with the break of that period: its second ad starts behind all content, and at two seconds a third ad is found that it does not have |
| AdManager.ApplySound | admanager_mpd.cpp:632-754 | every operation keeps the ads of every break within its budget, their total accounted, the pending break present and the cursor inside its ad |
| AdManager.ReachedSound | admanager_mpd.cpp:104-754 | so in every state reached from the start |
| AdManager.ResolvedStart | admanager_mpd.cpp:648-684 | a resolved ad starts at the sum of the ads before it and is trimmed if and only if the break has too little space; then it gets all that is left, and the break is exactly full |
| AdManager.AdmitsSpace | admanager_mpd.cpp:728-738 | an ad is admitted exactly to the breaks in which it would get a place of any length |
| AdManager.PlaceForgets | admanager_mpd.cpp:341-380 | a refresh forgets the placement if and only if the break is complete and its end settled |
| AdManager.PruneKeeps | admanager_mpd.cpp:104-132 | the playing and the pending break, the listed breaks and the listed periods stay as they were, and everything else goes |
| AdManager.FirstAdReady | admanager_mpd.cpp:659-673 | the first ad of a break leaves the placement in a state from which the run theorems apply, whatever content and index its period has |
| AdManager.FirstAdIndexed | admanager_mpd.cpp:659-673 | the reverse index starts with the break, whatever entries its period has |
| AdManager.SecondAdIsLate | admanager_mpd.cpp:659-673 | over every run of refreshes the second ad starts late by what its period held when it was opened, for the break's own period the content there when the first ad arrived; the two are contiguous if and only if that is nothing |
| AdRuns.AppendKeeps | admanager_mpd.cpp:651-684 | an ad that joins keeps the accounting, and the ads on time if nothing was discarded and the break had not ended |
| AdManager.AppendCatalog | admanager_mpd.cpp:651-684 | an ad that joins keeps the reverse index |
| AdManager.ApplyKept | admanager_mpd.cpp:104-754 | announcing, fulfilling, refreshing and pruning, in any order, keep the accounting and the place of every ad of the pending break |
| AdManager.ReachedKept | admanager_mpd.cpp:104-754 | so does every run of them from the start |
| AdObject.PrivateCDAIObjectMPD.SetAlternateContents | admanager_mpd.cpp:700-754 | a place holder for a new break; an ad is admitted if and only if its break exists and has space, rejected if and only if it exists and has none |
| AdObject.PrivateCDAIObjectMPD.FulFillAdObject | admanager_mpd.cpp:632-698 | the reported start is the sum of the ads before, the reported duration what the ad got, and nothing changes when there is no ad or no break |
| AdObject.PrivateCDAIObjectMPD.AddAd | admanager_mpd.cpp:643-684 | the ad joins its break, and the first one starts the placement |
| AdObject.PrivateCDAIObjectMPD.PeriodNewContentDuration | fragmentcollector_mpd.cpp:3284-3335 | the duration of the segments not counted so far and the new end number |
| AdObject.PrivateCDAIObjectMPD.PlaceOnce | admanager_mpd.cpp:223-276 | one iteration: the ad's place and bucket, the offset, the next ad, the end markers or the wait |
| AdObject.PrivateCDAIObjectMPD.PlaceOnPeriod | admanager_mpd.cpp:205-276 | new content of the open period is counted, the period tied to the break, and ads laid over it |
| AdObject.PrivateCDAIObjectMPD.AdjustEndPeriod | admanager_mpd.cpp:281-346 | where the break ends is moved to a period boundary when it is close to one, or stays to be decided |
| AdObject.PrivateCDAIObjectMPD.PlaceAds | admanager_mpd.cpp:167-382 | one refresh: the pending break, the period map and the cursor, which is reset when the placement is over |
| AdObject.PrivateCDAIObjectMPD.PrunePeriodMaps | admanager_mpd.cpp:104-132 | only listed periods stay, and only listed breaks and the pending and the playing one |
| AdObject.PrivateCDAIObjectMPD.CheckForAdStart | admanager_mpd.cpp:384-446 | the break, the ad and the offset for seamless and for discrete playback, and the end of the break |
| PlaylistCache.InsertSound | AampCacheHandler.cpp:28-96 | for every limit owned bytes never exceed it, and the stored size equals them if and only if no owning entry was overwritten |
| PlaylistCache.OverwriteLeaks | AampCacheHandler.cpp:77-91 | two insertions after which two bytes are leaked and counted |
| PlaylistCache.EvictsEnough | AampCacheHandler.cpp:162-230 | a playlist that needs room is stored if and only if the bytes that may be evicted are as many as it has |
| PlaylistCache.RejectsWhatWouldFit | AampCacheHandler.cpp:222-226 | a cache that is emptied for a playlist that fits and is rejected |
| PlaylistCache.After | AampCacheHandler.cpp:28-230 | in every reachable state the byte budget holds |
| PlaylistCache.RetrievesLatest | AampCacheHandler.cpp:62-134 | what is retrieved by URL or effective URL is what the latest insertion binding that key stored, not cleared or evicted since, bytes, effective URL and type, and it was no live playlist but a main manifest |
| PlaylistCache.LiveIsNotCached | AampCacheHandler.cpp:35-41 | a live playlist of another type than main manifest leaves the cache as it is |
| PlaylistCache.OthersAreCached | AampCacheHandler.cpp:35-96 | any other new playlist is cached under both its keys if nothing limits the cache or it fits; a main manifest is then alone |
| PlaylistCache.CachedIff | AampCacheHandler.cpp:28-96 | when exactly a new playlist gets cached, for every limit |
| PlaylistCache.EvictsOwnTypeFirst | AampCacheHandler.cpp:162-230 | exactly the entries of the same type go if they own enough, and everything but the main manifest otherwise |
| PlaylistCache.AfterOneManifest | AampCacheHandler.cpp:43-47 | in every reachable state at most one main manifest is cached |
| PlaylistCache.ManifestSurvives | AampCacheHandler.cpp:185-220 | no other playlist evicts the main manifest; an entry of it is lost if and only if its key is the effective URL of a playlist that gets stored |
| CacheHandler.AampCacheHandler.InsertToPlaylistCache | AampCacheHandler.cpp:28-96 | every buffer referred to stays live, owned once and of one file type, and the new contents are those of the map |
| CacheHandler.AampCacheHandler.ShareBuffer | AampCacheHandler.cpp:77-91 | the effective URL's entry shares the buffer without owning it; an owner overwritten by it leaks |
| CacheHandler.AampCacheHandler.RetrieveFromPlaylistCache | AampCacheHandler.cpp:109-134 | a hit copies the bytes and the effective URL, a miss changes nothing |
| CacheHandler.AampCacheHandler.ClearPlaylistCache | AampCacheHandler.cpp:140-157 | every owned buffer is freed once and no entry stays |
| CacheHandler.AampCacheHandler.Visit | AampCacheHandler.cpp:185-203 | erasing while iterating: a duplicate may lose its buffer only if it is still to be erased, and no buffer is freed twice |
| CacheHandler.AampCacheHandler.EvictionPass | AampCacheHandler.cpp:185-220 | a pass in any order leaves exactly the entries that stay, all live, and counts the bytes they no longer own |
| CacheHandler.AampCacheHandler.AllocatePlaylistCacheSlot | AampCacheHandler.cpp:162-230 | the two passes, the size freed and whether it is enough |
| CacheHandler.AampCacheHandler.IsUrlCached | AampCacheHandler.cpp:346-357 | exactly the cached keys |
| Base64.RoundTrip | _base64.cpp:40-175 | decoding the encoding gives every byte string back, with its exact length |
| Base64.LengthExact | _base64.cpp:142-175 | the reported length is the number of bytes written if and only if no group before the last is short |
| Base64.ReportsTooMuch | _base64.cpp:142-175 | a text of which one byte is written and four are reported |
| Base64.PaddingIs | _base64.cpp:50-84 | no NUL in an encoding, and padding exactly for the bytes the last group lacks |
| Base64.TablesAreAlphabet | _base64.cpp:40-140 | the encoder's table is the alphabet, and the decoder's inverts it, with '-' as a second last character |
| Base64.Encode | _base64.cpp:40-87 | the loop writes the encoding by 24-bit groups, ended by a NUL |
| Base64.Decode | _base64.cpp:142-175 | the loop writes exactly the decoded bytes and reports the stated length |
| Base64Url.UrlRoundTrip | AampUtils.cpp:267-328 | a byte string comes back if and only if its length is not a multiple of three or the first unset byte is NUL |
| Base64Url.UrlRoundTripAlways | AampUtils.cpp:307-328 | whatever the buffer held before, the round trip holds exactly for lengths not divisible by three |
| Base64Url.UrlAlphabet | AampUtils.cpp:267-295 | the last two characters are '-' and '_' |
| Base64Url.UrlEncode | AampUtils.cpp:267-295 | the string is the encoding in the URL alphabet without padding |
| Base64Url.UrlDecode | AampUtils.cpp:307-328 | the decoded bytes of the padded text, the two unset bytes given |
| AttrList.PrintedListParses | fragmentcollector_hls.cpp:620-679 | parsing the printed form of any well-formed list calls back once per attribute, in order, with its exact name and value, commas inside quotes kept; a string put back in quotes is the value printed |
| AttrList.CallsStart | fragmentcollector_hls.cpp:623-650 | for every text spaces are passed over, the first name is what precedes the first equal sign, and a control character or one beyond ASCII before it ends the calls |
| AttrList.GetAttributeValueString | fragmentcollector_hls.cpp:278-301 | the text between the quotes or NONE; only the closing quote is overwritten |
| AttrList.ParseOne | fragmentcollector_hls.cpp:623-676 | one attribute; what is scanned next is as it was, whatever the callback wrote |
| AttrList.ParseAttrList | fragmentcollector_hls.cpp:620-679 | the callbacks made for every NUL-terminated text, on which the scan ends, although callbacks write into the buffer |
| LineSplit.LinesArePrinted | fragmentcollector_hls.cpp:591-606 | the lines of a text with LF or CR-LF line ends are exactly the lines written |
| LineSplit.RestartSeesTheSame | fragmentcollector_hls.cpp:1453-1457 | a restart at a line plus its length plus one sees the same non-empty lines |
| LineSplit.MyStrPbrk | fragmentcollector_hls.cpp:591-606 | one byte is overwritten, the next pointer and everything behind it are as they were |
| LineSplit.RemainingLines | fragmentcollector_hls.cpp:1470-1476 | repeated calls yield exactly the non-empty lines |
| LineSplit.RestartBehind | fragmentcollector_hls.cpp:1453-1457 | the restart yields exactly the lines that were still to come |

## Left out

* Network, curl, GStreamer, DRM and key rotation, threads and the cleanup timer: a download is a given result, a locked
  method one step, the timer a clearing.
* Floating-point rounding, 32-bit overflow of sizes and durations, and failing allocation.
* Trick play that stopped at the end of a live playlist and goes on after a refresh; and that one lower I-frame profile
  is all there is to ramp down to.
* XML, MPD parsing and ad manifests: a period is its id, its duration and its segments; `aamp_GetPeriodDuration` is given.
* `ClearMaps`, `ResetState` and `CheckForAdTerminate` of the ad manager; a first ad fulfilled for a second break replaces
  the pending placement, as in the source, and the first break is then not followed further.
* Resolution, averaged bandwidth, subtitle and media attributes of a main manifest, which do not affect the choice.
- TrackStates.TrackState.GetNextFragmentUriFromPlaylist: leaves out byte ranges, low-latency tags, program-date-time skipping and the pairing of discontinuities between tracks; the model follows the path that ignores discontinuities.
- TrackStates.TrackState.IndexPlaylist: leaves out the indexing of keys and the way of culling by program-date-time; culled time is what the completion times give.
- TrackStates.SyncTracks: leaves out synchronization by start time and by discontinuity and the live adjustment in `Init`, and takes audio and video to be enabled, because the source compares numbers it has not set otherwise.
- TrackStates.TrackState.GetFragmentUriFromIndex: asks for a node when searching forward, because the source reads the last one first.
- TrackStates.TrackState.SearchIndex: asks for a node when searching forward, for the same reason.
- TrackStates.TrackState.FetchTrickPlayFragment: asks for a node when searching forward, for the same reason.
- TrackStates.TrackState.TrickPlayTurn: asks for a node when searching forward, and for a fragment in what a refresh downloads.
- TrackStates.TrackState.PresentNode: compares initialization sections by value; the source compares the playlist text from the tag on, of which the line need not be terminated yet, so that a repeated tag with the same value can count as a new section.
- TrickPlay.RunDownloadsInOrder: is stated for runs in which no playlist is replaced but at a ramp-down, because the completion times of a refreshed live playlist count from another start; `TrickPlay.RestartRepeats` is about the ramp-downs that it leaves out.
- TrickPlay.WindowNodePresented: asks for no blank line between the tags of a segment, because the source stops at one.
- LiveRun.LiveContinuity: takes the segments of all profiles to be numbered alike and to last equally long, and a refreshed window not to begin before the one held.
- LiveSections.SectionsArrive: asks that refreshes bring content and go on under the section that arrived last, unless one is pending; `LiveSections.RefreshServes` is about those that do not.
- LiveRun.ProfileChangeDelays: is about the new initialization section alone; `LiveRun.ProfileSwitches` is about the change and the refresh that it causes together.
- MainManifest.StreamTables.ParseMainManifest: asks that no pass keeps 128 rows when it reads a further entry, because the source writes its fixed table without a bound check.
- MainManifest.StreamTables.ParsePass: asks the same of its pass.
- MainManifest.StreamTables.ParseStream: asks for a free slot.
- MainManifest.StreamTables.ParseIFrame: asks for a free slot.
- AdObject.PrivateCDAIObjectMPD.CheckForAdStart: asks for a non-negative offset, because the source converts it to an unsigned number.
- AdManager.ReachedKept: holds while a break has a name, an MPD lists distinct periods of which those behind the open one are new to the break, and pruning keeps the open period.
- AdFiling.RunIndexed: asks the same of its operations, and nothing beside.
- AdFiling.ReachedLookup: is stated for ads of at least 2000 ms, below which two ads can share a bucket, and for periods whose index was not reset by the end adjustment.
- AdLookup.LookupInvertsPlacement: is stated for ads of at least 2000 ms.
- AdLookup.DiscreteFindsLatest: is stated for periods that were without entries of another break when they were opened; entries that are left there are answered as ads of the new break, as `AdFiling.SpilledBreakStartsLate` shows.
- AdLookup.DiscreteOffset: is stated for such periods, too.
- AdRuns.RunAccounted: asks that no refresh brings back a period the break has opened before, because the source would count its content again.
- Base64.Decode: asks for whole groups of four characters, because the source reads and writes past its buffers otherwise.
- Base64Url.UrlDecode: takes the two bytes the source leaves unset as inputs, and asks that the text they complete is made of whole groups, because the decoder reads past it otherwise.
- AttrList.ParseAttrList: the callbacks are represented by the names whose values they read as strings.
- CacheHandler.AampCacheHandler.RetrieveFromPlaylistCache: asks that the caller's buffer is not one of the cache's own.
