# Danmaku engine of the Kodi Android port — a verified model

This project models the core of the danmaku ("bullet comment") subsystem of the Kodi Android
port:

- The Java `DanmakuEngine` and the pieces it drives: the playback clocks, the preferences, the
  Bilibili XML parser, local track discovery, the content filter and the performance sampler.
- The settings store that turns user settings into a `DanmakuConfig`.
- The Python helpers of the `script.service.dandanplay` add-on: the dandanplay API response
  handling, the Bilibili XML writer, the local-path and media-key helpers, and the search-keyword
  sanitiser.

## How the model is built

- **The engine** is the class `Engine.DanmakuEngine`, with the Java fields. Each of its methods
  updates those fields in place. Each method's postcondition ties the new `State()` (a snapshot
  of the fields and the preferences store) to a pure function of the old state in module
  `EngineSpec`. The properties of the engine are lemmas about those functions, in
  `EngineProps` (renderer and clock effects), `EngineSelection` (what a selection and the
  candidate step choose), `Windowing` and `Prefs`.
- **The renderer** is a value, `Renderers.Surface`. It records what the test renderer observes:
  call counters, the last seek and speed, the prepared items, and the visible and prepared flags.
  A set `failing` says which kinds of call throw. A call that throws changes nothing on the
  surface, and the engine then marks itself unprepared, as `safeRendererCall` does.
- **Time** is a parameter `now`, in milliseconds. One engine call reads the realtime source and
  the clock's time provider at the same instant.
- **The outside world is passed in as parameters:**
  - the file system (`Files.FileSystem`: existence, readability, listings, opening a file);
  - the XML document as the pull parser would see it (`BiliXml.XmlDoc`);
  - the JSON codec of the preferences (`Prefs.Codec`);
  - the add-on's HTTP responses, `urlparse`/`unquote`, and Kodi's `translatePath`.
- **Numbers:** Java `long` and `int` values are unbounded integers. `int` colours are wrapped to
  32 bits explicitly (`Text.ToInt32`). Java `float` fields are reals. Casting a float or double
  to `long` truncates toward zero (`Text.Trunc`), and Java's integer division is written out
  (`Text.JavaDiv`).
- **The window.** The window of items handed to the renderer is computed around the raw clock
  position. Each item is placed at its time plus the track's offset. A seek, however, compares
  the offset-adjusted target with the window. The model keeps both, as the code does.
- **The re-window at 70.** `DanmakuWindowingTest` asserts that two items are in view after the
  re-window at position 70 with 50 ms on either side. The code's window is [20, 120], which keeps
  the items at 80 and 120 (`Windowing.RewindowScenario`).
- **Load errors.** A selected file that exists but cannot be read gives no track and records no
  error of its own: `parseTrackFromDisk` returns nothing without setting one. A cached track
  whose file cannot be read then records `parse_failed`, while an id loaded from a file leaves
  the error cleared. Only an id that is not an existing file records `missing`. The model keeps
  these paths as the code has them (`EngineSpec.ParseTrackFromDisk`, `EngineSpec.LoadFromFile`).
- **The track cache** is a map from `CacheKey(mediaKey, id)` to cached tracks. Every entry is
  stored under the key of its own media item and id (`EngineSpec.CacheInvariant`). The engine
  keeps this invariant, and discovery only returns tracks for the media key it was asked about
  (`EngineSpec.DiscoveredForKey`).

## Model

| member | source | states |
|---|---|---|
| Configs.AllEnabled | xbmc/src/dfmExperimental/java/org/xbmc/kodi/danmaku/model/DanmakuConfig.java:148-150 | every danmaku type is switched on |
| Configs.NewConfig | xbmc/src/dfmExperimental/java/org/xbmc/kodi/danmaku/model/DanmakuConfig.java:21-41 | a missing keyword list becomes empty, missing type switches enable all types; every other field is the argument |
| Configs.Defaults | xbmc/src/dfmExperimental/java/org/xbmc/kodi/danmaku/model/DanmakuConfig.java:43-54 | unit scale, speed and alpha, maxOnScreen 0 and maxLines 0 (the engine defaults), no keywords, every type, offset 0 |
| Configs.Config.WithOffset | xbmc/src/dfmExperimental/java/org/xbmc/kodi/danmaku/model/DanmakuConfig.java:88-99 | the offset moves by the delta and every other option is the same |
| Configs.WithOffsetComposes | xbmc/src/dfmExperimental/java/org/xbmc/kodi/danmaku/model/DanmakuConfig.java:88-99 | two offset moves are one move by their sum |
| Tracks.NewTrack | xbmc/src/dfmExperimental/java/org/xbmc/kodi/danmaku/model/DanmakuTrack.java:20-27 | the fields are the arguments; a missing config becomes the defaults |
| Tracks.Track.WithConfig | xbmc/src/dfmExperimental/java/org/xbmc/kodi/danmaku/model/DanmakuTrack.java:53-55 | the result is the same track by `equals` (id and media key), carries the new config or the defaults, and differs in nothing else |
| MediaKeys.Deserialize | xbmc/src/dfmExperimental/java/org/xbmc/kodi/danmaku/model/MediaKey.java:36-51 | an empty string is an error; a parsed key is valid, its path has no `|`, and the text starts with the path and a `|` |
| MediaKeys.DeserializeSerialize | xbmc/src/dfmExperimental/java/org/xbmc/kodi/danmaku/model/MediaKey.java:32-51 | parsing a serialised key whose path has no `|` gives the key back |
| MediaKeys.SerializeInjective | xbmc/src/dfmExperimental/java/org/xbmc/kodi/danmaku/model/MediaKey.java:32-34 | two keys with the same text are the same key |
| Clocks.ClockState.NowMs | xbmc/src/dfmExperimental/java/org/xbmc/kodi/danmaku/clock/SoftClock.java:32-38 | a paused clock reports its anchor; a playing clock adds the elapsed real time times the speed, truncated toward zero; at speed 1 that is the elapsed time; at speed >= 0 it never goes back before the anchor |
| Clocks.NowMsMonotone | xbmc/src/dfmExperimental/java/org/xbmc/kodi/danmaku/clock/SoftClock.java:32-38 | at a non-negative speed the position never decreases as time passes |
| Clocks.SoftClock.constructor | xbmc/src/dfmExperimental/java/org/xbmc/kodi/danmaku/clock/SoftClock.java:23-29 | position 0, anchored at the first reading, speed 1, paused; it reports 0 at all times |
| Clocks.SoftClock.Anchor | xbmc/src/dfmExperimental/java/org/xbmc/kodi/danmaku/clock/SoftClock.java:51-56 | all four fields are replaced; the clock reports the position at the anchor instant |
| Clocks.SoftClock.Pause | xbmc/src/dfmExperimental/java/org/xbmc/kodi/danmaku/clock/SoftClock.java:59-61 | speed 0, paused; the clock reports the position at all times |
| Clocks.SoftClock.Seek | xbmc/src/dfmExperimental/java/org/xbmc/kodi/danmaku/clock/SoftClock.java:64-66 | position and instant are re-based; speed and playing are kept |
| Clocks.CaughtUp | xbmc/src/dfmExperimental/java/org/xbmc/kodi/danmaku/clock/MediaSessionClock.java:24-39 | the anchor is now at the state's speed; it plays iff the session is playing or buffering; a stamped position is carried forward by the elapsed time times the speed, truncated toward zero |
| Clocks.CaughtUpAgreesWithClock | xbmc/src/dfmExperimental/java/org/xbmc/kodi/danmaku/clock/MediaSessionClock.java:24-39 | for a stamped state, the re-anchored clock reads at the update instant what a clock anchored at the stamp, at the state's speed, reads then |
| Clocks.MediaSessionClock.constructor | xbmc/src/dfmExperimental/java/org/xbmc/kodi/danmaku/clock/MediaSessionClock.java:19-22 | the inner soft clock starts at 0, paused, speed 1 |
| Clocks.MediaSessionClock.UpdateFromPlaybackState | xbmc/src/dfmExperimental/java/org/xbmc/kodi/danmaku/clock/MediaSessionClock.java:24-39 | a missing state changes nothing; otherwise the clock is re-anchored at the caught-up position |
| Clocks.MediaSessionClock.NowMs | xbmc/src/dfmExperimental/java/org/xbmc/kodi/danmaku/clock/MediaSessionClock.java:42-44 | reports what the inner clock reports |
| Clocks.MediaSessionClock.Anchor | xbmc/src/dfmExperimental/java/org/xbmc/kodi/danmaku/clock/MediaSessionClock.java:57-59 | delegates the anchor to the inner clock |
| Clocks.MediaSessionClock.Pause | xbmc/src/dfmExperimental/java/org/xbmc/kodi/danmaku/clock/MediaSessionClock.java:62-64 | delegates the pause to the inner clock |
| Clocks.MediaSessionClock.Seek | xbmc/src/dfmExperimental/java/org/xbmc/kodi/danmaku/clock/MediaSessionClock.java:67-69 | delegates the seek to the inner clock |
| Clocks.CatchUpExample | xbmc/src/dfmExperimentalDebugUnitTest/java/org/xbmc/kodi/danmaku/clock/MediaSessionClockTest.java:20-36 | a playing state at 1000 ms, stamped 500 ms earlier at 1.5x, reads 1750 ms and playing |
| Renderers.NewSurface | xbmc/src/dfmExperimentalDebugUnitTest/java/org/xbmc/kodi/danmaku/FakeRenderer.java:23-71 | a fresh renderer: unprepared, hidden, no items, never sought, speed 1, no calls counted |
| Renderers.Apply | xbmc/src/dfmExperimentalDebugUnitTest/java/org/xbmc/kodi/danmaku/FakeRenderer.java:22-70 | prepare stores items and config, prepares and counts; release unprepares and counts; setVisible, seekTo and setSpeed record their argument, and setVisible counts; play and pause count; every field, each counter included, is kept by the calls that do not set it |
| Files.FileName | xbmc/src/dfmExperimental/java/org/xbmc/kodi/danmaku/source/local/LocalTrackDiscovery.java:21-53 | the whole text after the last separator (the whole path without one), with no separator in it |
| Files.ParentOf | xbmc/src/dfmExperimental/java/org/xbmc/kodi/danmaku/source/local/LocalTrackDiscovery.java:21-53 | nothing for a name without a separator; a parent for any longer path with one; the parent, a separator and the name make the path, or the parent is the root |
| BiliXml.MapMode | xbmc/src/dfmExperimental/java/org/xbmc/kodi/danmaku/source/local/BiliXmlParser.java:97-111 | mode 4 is bottom, 5 is top, 7 is positioned, anything else scrolls |
| BiliXml.ItemOfFields | xbmc/src/dfmExperimental/java/org/xbmc/kodi/danmaku/source/local/BiliXmlParser.java:77-95 | an item iff time, mode, size and colour all parse; time is seconds times 1000 truncated; the mode maps to the type; the size is the parsed size; the colour is the parsed long wrapped to 32 bits; alpha 1, no position |
| BiliXml.ParseItem | xbmc/src/dfmExperimental/java/org/xbmc/kodi/danmaku/source/local/BiliXmlParser.java:77-95 | a missing or empty attribute gives nothing; an item exactly when there are at least four fields and they decode, and then it is the item of those fields |
| BiliXml.ParseResult | xbmc/src/dfmExperimental/java/org/xbmc/kodi/danmaku/source/local/BiliXmlParser.java:38-64 | a malformed document fails with MALFORMED, an unreadable one with IO, otherwise every well-formed `d` element in order |
| BiliXml.Parse | xbmc/src/dfmExperimental/java/org/xbmc/kodi/danmaku/source/local/BiliXmlParser.java:38-64 | the parsing loop returns ParseResult |
| BiliXml.ItemsOfAppend | xbmc/src/dfmExperimental/java/org/xbmc/kodi/danmaku/source/local/BiliXmlParser.java:38-64 | the items of two element runs are the items of each, concatenated |
| BiliXml.ParseItemHalfSecond | xbmc/src/dfmExperimentalDebugUnitTest/java/org/xbmc/kodi/danmaku/source/local/BiliXmlParserTest.java:32-57 | `0.5,1,25,255` gives a scrolling item at 500 ms, size 25, colour 255 |
| BiliXml.ParseItemBadTime | xbmc/src/dfmExperimental/java/org/xbmc/kodi/danmaku/source/local/BiliXmlParser.java:77-95 | a time that is not a number drops the item |
| Filtering.MatchesKeyword | xbmc/src/dfmExperimental/java/org/xbmc/kodi/danmaku/DanmakuEngine.java:565-579 | true iff some non-empty keyword occurs in the text, ignoring ASCII case |
| Filtering.ApplyFilters | xbmc/src/dfmExperimental/java/org/xbmc/kodi/danmaku/DanmakuEngine.java:546-563 | the filtering loop returns Filtered |
| Filtering.FilteredMembership | xbmc/src/dfmExperimental/java/org/xbmc/kodi/danmaku/DanmakuEngine.java:546-593 | an item is kept iff it is in the input, its type is enabled and it matches no keyword |
| Filtering.FilteredAppend | xbmc/src/dfmExperimental/java/org/xbmc/kodi/danmaku/DanmakuEngine.java:546-563 | filtering distributes over concatenation (order is kept) |
| Filtering.FilterAllowsAll | xbmc/src/dfmExperimental/java/org/xbmc/kodi/danmaku/DanmakuEngine.java:546-593 | with every type on and no keyword, every item is kept |
| Windowing.NewWindowingConfig | xbmc/src/dfmExperimental/java/org/xbmc/kodi/danmaku/DanmakuEngine.java:629-634 | negative sizes are clamped to 0 |
| Windowing.ComputeWindow | xbmc/src/dfmExperimental/java/org/xbmc/kodi/danmaku/DanmakuEngine.java:503-507 | the window starts at or after 0, holds a non-negative position, is at most lead plus trail wide, and is exactly [position - lead, position + trail] once the position reaches the lead |
| Windowing.ApplyWindow | xbmc/src/dfmExperimental/java/org/xbmc/kodi/danmaku/DanmakuEngine.java:513-525 | the windowing loop returns Windowed |
| Windowing.WindowedMembership | xbmc/src/dfmExperimental/java/org/xbmc/kodi/danmaku/DanmakuEngine.java:513-525 | an item is kept iff it is in the input and its offset time lies in the window |
| Windowing.WindowedAppend | xbmc/src/dfmExperimental/java/org/xbmc/kodi/danmaku/DanmakuEngine.java:513-525 | windowing distributes over concatenation |
| Windowing.FreshWindowIsStable | xbmc/src/dfmExperimental/java/org/xbmc/kodi/danmaku/DanmakuEngine.java:479-511 | right after a window is computed at a position, that position needs no shift |
| Windowing.OutsideNeedsShift | xbmc/src/dfmExperimental/java/org/xbmc/kodi/danmaku/DanmakuEngine.java:479-511 | a position outside the window always needs a shift |
| Windowing.RewindowScenario | xbmc/src/dfmExperimentalDebugUnitTest/java/org/xbmc/kodi/danmaku/DanmakuWindowingTest.java:27-67 | with 50 ms on either side, items at 0, 80 and 120 give [0] at 0; at 70 a shift is due, and the window [20, 120] keeps 80 and 120 |
| Discovery.BaseName | xbmc/src/dfmExperimental/java/org/xbmc/kodi/danmaku/source/local/LocalTrackDiscovery.java:55-58 | the text before the last dot when that dot is past the first character, else the whole name |
| Discovery.Score | xbmc/src/dfmExperimental/java/org/xbmc/kodi/danmaku/source/local/LocalTrackDiscovery.java:60-74 | first match wins: 100 iff equal ignoring case, 90 iff otherwise the candidate starts with the video name, 85 iff otherwise the video name starts with the candidate, 80 iff otherwise the candidate contains the video name, else 50 |
| Discovery.ReasonAgreesWithScore | xbmc/src/dfmExperimental/java/org/xbmc/kodi/danmaku/source/local/LocalTrackDiscovery.java:76-87 | the reason label always describes the score |
| Discovery.CandidateOf | xbmc/src/dfmExperimental/java/org/xbmc/kodi/danmaku/source/local/LocalTrackDiscovery.java:21-53 | a local track with id and path the absolute path, default config, the media key, scored on the base names |
| Discovery.SortCandidates | xbmc/src/dfmExperimental/java/org/xbmc/kodi/danmaku/source/local/LocalTrackDiscovery.java:21-53 | the sort is a permutation |
| Discovery.SortCandidatesSorted | xbmc/src/dfmExperimental/java/org/xbmc/kodi/danmaku/source/local/LocalTrackDiscovery.java:21-53 | the result is ordered by descending score, then ascending name |
| Discovery.Discover | xbmc/src/dfmExperimental/java/org/xbmc/kodi/danmaku/source/local/LocalTrackDiscovery.java:21-53 | the discovery loop returns Discovered |
| Discovery.CollectedFromAccepted | xbmc/src/dfmExperimental/java/org/xbmc/kodi/danmaku/source/local/LocalTrackDiscovery.java:21-53 | every candidate comes from a readable `.xml` file of the listing |
| Discovery.DiscoveredProperties | xbmc/src/dfmExperimental/java/org/xbmc/kodi/danmaku/source/local/LocalTrackDiscovery.java:21-53 | the result is sorted, and each candidate belongs to the media key and to a readable `.xml` file of the media file's directory, with id = path |
| Discovery.AcceptedAreCollected | xbmc/src/dfmExperimental/java/org/xbmc/kodi/danmaku/source/local/LocalTrackDiscovery.java:31-50 | every accepted file of the listing has its candidate among the collected ones |
| Discovery.DiscoveredComplete | xbmc/src/dfmExperimental/java/org/xbmc/kodi/danmaku/source/local/LocalTrackDiscovery.java:21-53 | nothing without a media path, a parent directory or a listing; otherwise every readable `.xml` file of the directory is a candidate |
| Prefs.LastTrackKey | xbmc/src/dfmExperimental/java/org/xbmc/kodi/danmaku/DanmakuPreferences.java:76-78 | the last-track key carries its prefix |
| Prefs.ConfigKey | xbmc/src/dfmExperimental/java/org/xbmc/kodi/danmaku/DanmakuPreferences.java:80-82 | the config key carries its prefix |
| Prefs.DanmakuPreferences.constructor | xbmc/src/dfmExperimental/java/org/xbmc/kodi/danmaku/DanmakuPreferences.java:1-82 | the store starts with the given entries |
| Prefs.DanmakuPreferences.SaveLastTrack | xbmc/src/dfmExperimental/java/org/xbmc/kodi/danmaku/DanmakuPreferences.java:37-41 | stores the track id under the last-track key |
| Prefs.DanmakuPreferences.GetLastTrackId | xbmc/src/dfmExperimental/java/org/xbmc/kodi/danmaku/DanmakuPreferences.java:44-46 | reads the id stored under the last-track key |
| Prefs.DanmakuPreferences.SaveConfig | xbmc/src/dfmExperimental/java/org/xbmc/kodi/danmaku/DanmakuPreferences.java:48-52 | stores the encoded config under the config key |
| Prefs.DanmakuPreferences.GetConfig | xbmc/src/dfmExperimental/java/org/xbmc/kodi/danmaku/DanmakuPreferences.java:55-67 | decodes the stored config; an entry that fails to decode is removed |
| Prefs.DanmakuPreferences.GetDefaultConfig | xbmc/src/dfmExperimental/java/org/xbmc/kodi/danmaku/DanmakuEngine.java:464-467 | returns the store's default config, if any |
| Prefs.DanmakuPreferences.Clear | xbmc/src/dfmExperimental/java/org/xbmc/kodi/danmaku/DanmakuPreferences.java:69-74 | removes both keys of the media item |
| Prefs.LastTrackRoundTrip | xbmc/src/dfmExperimental/java/org/xbmc/kodi/danmaku/DanmakuPreferences.java:37-46 | the id saved for a media item is read back |
| Prefs.ConfigRoundTrip | xbmc/src/dfmExperimental/java/org/xbmc/kodi/danmaku/DanmakuPreferences.java:48-67 | with a sound codec, the config saved for a media item is read back |
| Prefs.KeysSeparate | xbmc/src/dfmExperimental/java/org/xbmc/kodi/danmaku/DanmakuPreferences.java:76-82 | a last-track key is never a config key, and each kind of key is injective |
| Prefs.SavesAreIndependent | xbmc/src/dfmExperimental/java/org/xbmc/kodi/danmaku/DanmakuPreferences.java:37-67 | saving the track or the config of one media item never changes what another media item reads |
| Prefs.SavesOfOneKindKeepTheOther | xbmc/src/dfmExperimental/java/org/xbmc/kodi/danmaku/DanmakuPreferences.java:37-67 | for the same media item, saving the config keeps the remembered track id and saving the track id keeps the config read |
| Prefs.ClearRemovesOnlyItsKeys | xbmc/src/dfmExperimental/java/org/xbmc/kodi/danmaku/DanmakuPreferences.java:69-74 | after a clear both reads are empty; other keys and the default config are kept |
| PerfSampler.StatsValue.Add | xbmc/src/dfmExperimental/java/org/xbmc/kodi/danmaku/perf/DanmakuPerformanceSampler.java:163-169 | count and total grow by one sample; the maximum is the larger of the old maximum and the sample |
| PerfSampler.StatsValue.Avg | xbmc/src/dfmExperimental/java/org/xbmc/kodi/danmaku/perf/DanmakuPerformanceSampler.java:171-173 | 0 without samples, else the truncated quotient of total by count |
| PerfSampler.StatsOfSamples | xbmc/src/dfmExperimental/java/org/xbmc/kodi/danmaku/perf/DanmakuPerformanceSampler.java:163-169 | after a run of samples: their number, their sum, and a maximum that bounds each and is 0 or one of them |
| PerfSampler.AverageWithinRange | xbmc/src/dfmExperimental/java/org/xbmc/kodi/danmaku/perf/DanmakuPerformanceSampler.java:163-173 | the average of non-negative samples lies between 0 and their maximum |
| PerfSampler.Stats.constructor | xbmc/src/dfmExperimental/java/org/xbmc/kodi/danmaku/perf/DanmakuPerformanceSampler.java:163-173 | no samples |
| PerfSampler.Stats.Add | xbmc/src/dfmExperimental/java/org/xbmc/kodi/danmaku/perf/DanmakuPerformanceSampler.java:163-169 | the object's value advances as StatsValue.Add |
| PerfSampler.Stats.Avg | xbmc/src/dfmExperimental/java/org/xbmc/kodi/danmaku/perf/DanmakuPerformanceSampler.java:171-173 | returns StatsValue.Avg of the object's value |
| PerfSampler.Initial | xbmc/src/dfmExperimental/java/org/xbmc/kodi/danmaku/perf/DanmakuPerformanceSampler.java:31-48 | a sampler is disabled iff asked to be or it has no report file |
| PerfSampler.DisabledIgnoresCalls | xbmc/src/dfmExperimental/java/org/xbmc/kodi/danmaku/perf/DanmakuPerformanceSampler.java:50-107 | a disabled sampler ignores every call |
| PerfSampler.DisabledIsPermanent | xbmc/src/dfmExperimental/java/org/xbmc/kodi/danmaku/perf/DanmakuPerformanceSampler.java:86-107 | a sampler is never re-enabled, and a due write that fails disables it |
| PerfSampler.ThrottleCountsOne | xbmc/src/dfmExperimental/java/org/xbmc/kodi/danmaku/perf/DanmakuPerformanceSampler.java:77-84 | a throttle adds exactly one to the counter |
| PerfSampler.WindowRecordsWidth | xbmc/src/dfmExperimental/java/org/xbmc/kodi/danmaku/perf/DanmakuPerformanceSampler.java:68-75 | a window records its width, never less than 0 |
| PerfSampler.RecordsFlushOnlyWhenDue | xbmc/src/dfmExperimental/java/org/xbmc/kodi/danmaku/perf/DanmakuPerformanceSampler.java:129-134 | a record call writes a report only once 5000 ms have passed since the last, stamped with the current time |
| PerfSampler.Sampler.constructor | xbmc/src/dfmExperimental/java/org/xbmc/kodi/danmaku/perf/DanmakuPerformanceSampler.java:40-48 | the fields form Initial |
| PerfSampler.Sampler.Flush | xbmc/src/dfmExperimental/java/org/xbmc/kodi/danmaku/perf/DanmakuPerformanceSampler.java:86-107 | the state becomes Flushed |
| PerfSampler.Sampler.FlushIfDue | xbmc/src/dfmExperimental/java/org/xbmc/kodi/danmaku/perf/DanmakuPerformanceSampler.java:129-134 | the state becomes FlushedIfDue |
| PerfSampler.Sampler.RecordPrepare | xbmc/src/dfmExperimental/java/org/xbmc/kodi/danmaku/perf/DanmakuPerformanceSampler.java:50-58 | the state becomes AfterPrepare |
| PerfSampler.Sampler.RecordResync | xbmc/src/dfmExperimental/java/org/xbmc/kodi/danmaku/perf/DanmakuPerformanceSampler.java:60-66 | the state becomes AfterResync |
| PerfSampler.Sampler.RecordWindow | xbmc/src/dfmExperimental/java/org/xbmc/kodi/danmaku/perf/DanmakuPerformanceSampler.java:68-75 | the state becomes AfterWindow |
| PerfSampler.Sampler.RecordThrottle | xbmc/src/dfmExperimental/java/org/xbmc/kodi/danmaku/perf/DanmakuPerformanceSampler.java:77-84 | the state becomes AfterThrottle |
| Settings.ParseKeywords | xbmc/src/dfmExperimental/java/org/xbmc/kodi/danmaku/app/DanmakuSettingsStore.java:114-127 | a missing setting gives no keywords; otherwise the trimmed non-empty comma-separated parts, in order |
| Settings.KeywordsAreKeywords | xbmc/src/dfmExperimental/java/org/xbmc/kodi/danmaku/app/DanmakuSettingsStore.java:114-127 | every parsed keyword is non-empty, trimmed and free of commas |
| Settings.FormatKeywords | xbmc/src/dfmExperimental/java/org/xbmc/kodi/danmaku/app/DanmakuSettingsStore.java:129-141 | the keywords are joined with `, ` |
| Settings.FormatThenParse | xbmc/src/dfmExperimental/java/org/xbmc/kodi/danmaku/app/DanmakuSettingsStore.java:114-141 | formatting parsed-shaped keywords and parsing the text gives them back |
| Settings.ParseIsStable | xbmc/src/dfmExperimental/java/org/xbmc/kodi/danmaku/app/DanmakuSettingsStore.java:114-141 | parse after format after parse is the first parse |
| Settings.SettingsPrefs.constructor | xbmc/src/dfmExperimental/java/org/xbmc/kodi/danmaku/app/DanmakuSettingsStore.java:45-83 | the store holds the given values |
| Settings.SettingsPrefs.PutIfMissing | xbmc/src/dfmExperimental/java/org/xbmc/kodi/danmaku/app/DanmakuSettingsStore.java:45-83 | a missing key gets the value; a present key is kept |
| Settings.EnsureDefaults | xbmc/src/dfmExperimental/java/org/xbmc/kodi/danmaku/app/DanmakuSettingsStore.java:45-83 | the store becomes WithDefaults of the old store |
| Settings.DefaultWritesAddMissing | xbmc/src/dfmExperimental/java/org/xbmc/kodi/danmaku/app/DanmakuSettingsStore.java:45-83 | the eleven writes add exactly the missing defaults |
| Settings.WithDefaultsKeepsValues | xbmc/src/dfmExperimental/java/org/xbmc/kodi/danmaku/app/DanmakuSettingsStore.java:45-83 | present values are kept, exactly the missing default keys are added, and a second pass changes nothing |
| Settings.BuildConfig | xbmc/src/dfmExperimental/java/org/xbmc/kodi/danmaku/app/DanmakuSettingsStore.java:89-112 | a config iff every setting reads with its type; then scale, speed and alpha are the stored percentages over 100, max-on-screen, offset, keywords and the four type flags are the stored values or their defaults, and there is no line limit |
| Settings.WrongTypeGivesNoConfig | xbmc/src/dfmExperimental/java/org/xbmc/kodi/danmaku/app/DanmakuSettingsStore.java:96-101 | a type switch stored as text makes `buildConfig` throw (no config), while an absent switch reads as on |
| Settings.EmptyStoreBuildsDefaults | xbmc/src/dfmExperimental/java/org/xbmc/kodi/danmaku/app/DanmakuSettingsStore.java:45-112 | an empty store builds the engine's default config |
| Settings.EnsureDefaultsKeepsConfig | xbmc/src/dfmExperimental/java/org/xbmc/kodi/danmaku/app/DanmakuSettingsStore.java:45-112 | writing the defaults never changes the config built from a store |
| Settings.SameReadsSameConfig | xbmc/src/dfmExperimental/java/org/xbmc/kodi/danmaku/app/DanmakuSettingsStore.java:89-112 | two stores that read the same for every key build the same config |
| EngineSpec.CacheKey | xbmc/src/dfmExperimental/java/org/xbmc/kodi/danmaku/DanmakuEngine.java:527-529 | the key starts with the serialised media key |
| EngineSpec.Initial | xbmc/src/dfmExperimental/java/org/xbmc/kodi/danmaku/DanmakuEngine.java:84-102 | nothing selected, empty cache, unbounded window from 0, hidden, unprepared, no error |
| EngineSpec.SafeCall | xbmc/src/dfmExperimental/java/org/xbmc/kodi/danmaku/DanmakuEngine.java:531-538 | a throwing call leaves the renderer and marks the engine unprepared; otherwise the call takes effect; the selection is untouched |
| EngineSpec.RefreshWindow | xbmc/src/dfmExperimental/java/org/xbmc/kodi/danmaku/DanmakuEngine.java:479-501 | only the window flags may change; the renderer and the applied position are kept |
| EngineSpec.PrepareRenderer | xbmc/src/dfmExperimental/java/org/xbmc/kodi/danmaku/DanmakuEngine.java:382-415 | no items change nothing; a throwing prepare only marks the engine unprepared; otherwise the renderer holds the filtered, windowed items and the prepare time is recorded; the selection is untouched |
| EngineSpec.Align | xbmc/src/dfmExperimental/java/org/xbmc/kodi/danmaku/DanmakuEngine.java:353-380 | aligning never changes the selection |
| EngineSpec.Resync | xbmc/src/dfmExperimental/java/org/xbmc/kodi/danmaku/DanmakuEngine.java:353-380 | resyncing never changes the selection |
| EngineSpec.PassPlayback | xbmc/src/dfmExperimental/java/org/xbmc/kodi/danmaku/DanmakuEngine.java:353-380 | passing speed and playing state never changes the selection |
| EngineSpec.ApplyPlaybackState | xbmc/src/dfmExperimental/java/org/xbmc/kodi/danmaku/DanmakuEngine.java:353-380 | applying the playback state never changes the selection (the transport calls are stated by `EngineProps.ApplyTransport`) |
| EngineSpec.Tick | xbmc/src/dfmExperimental/java/org/xbmc/kodi/danmaku/DanmakuEngine.java:150-177 | a tick never changes the selection |
| EngineSpec.UpdatePlaybackState | xbmc/src/dfmExperimental/java/org/xbmc/kodi/danmaku/DanmakuEngine.java:182-185 | the clock is anchored at the reported position, speed and state (the renderer effects are stated by `EngineProps.UpdatePlaybackTransport`) |
| EngineSpec.PauseState | xbmc/src/dfmExperimental/java/org/xbmc/kodi/danmaku/DanmakuEngine.java:187-190 | the clock freezes at its current position (the renderer pause is stated by `EngineProps.PauseTransport`) |
| EngineSpec.Seek | xbmc/src/dfmExperimental/java/org/xbmc/kodi/danmaku/DanmakuEngine.java:279-292 | the clock is re-based at the target, keeping speed and playing |
| EngineSpec.UpdateSpeed | xbmc/src/dfmExperimental/java/org/xbmc/kodi/danmaku/DanmakuEngine.java:295-300 | the clock is re-anchored at its current position with the new speed; the selection is kept |
| EngineSpec.SetVisibility | xbmc/src/dfmExperimental/java/org/xbmc/kodi/danmaku/DanmakuEngine.java:259-264 | the flag is set, and the renderer follows it unless the call throws |
| EngineSpec.UpdateConfig | xbmc/src/dfmExperimental/java/org/xbmc/kodi/danmaku/DanmakuEngine.java:267-276 | the active config is the given one or the defaults; the selection is kept (persisting and re-filtering are stated by `EngineProps.UpdateConfigPersistsAndFilters`) |
| EngineSpec.AttachRenderer | xbmc/src/dfmExperimental/java/org/xbmc/kodi/danmaku/DanmakuEngine.java:126-137 | a missing renderer is ignored; the selection is kept (the re-prepare and forced seek are stated by `EngineProps.AttachRendererRealigns`) |
| EngineSpec.DetachRenderer | xbmc/src/dfmExperimental/java/org/xbmc/kodi/danmaku/DanmakuEngine.java:139-145 | the engine is unprepared, and the renderer too unless release throws |
| EngineSpec.GetStatus | xbmc/src/dfmExperimental/java/org/xbmc/kodi/danmaku/DanmakuEngine.java:303-305 | the clock's current position and the visibility |
| EngineSpec.ParseTrackFromDisk | xbmc/src/dfmExperimental/java/org/xbmc/kodi/danmaku/DanmakuEngine.java:417-435 | a missing or unreadable file gives nothing; a parsed track keeps its metadata and clears the error |
| EngineSpec.LoadFromFile | xbmc/src/dfmExperimental/java/org/xbmc/kodi/danmaku/DanmakuEngine.java:437-457 | a missing file records the `missing` error; a parsed track is cached under its key and clears the error; a failed parse leaves the cache; nothing else changes |
| EngineSpec.MergeConfig | xbmc/src/dfmExperimental/java/org/xbmc/kodi/danmaku/DanmakuEngine.java:459-472 | the config stored for the media item wins, then the application default, then the candidate's config; only an unreadable stored entry is dropped from the store |
| EngineSpec.Activate | xbmc/src/dfmExperimental/java/org/xbmc/kodi/danmaku/DanmakuEngine.java:244-255 | the track and its items become active; the cache is kept |
| EngineSpec.Registered | xbmc/src/dfmExperimental/java/org/xbmc/kodi/danmaku/DanmakuEngine.java:330-335 | registering discovered candidates keeps the cache invariant (the contents are stated by `EngineSpec.RegisteredCovers` and `EngineSpec.RegisteredContents`) |
| EngineSpec.RegisteredCovers | xbmc/src/dfmExperimental/java/org/xbmc/kodi/danmaku/DanmakuEngine.java:330-335 | every old key stays and every discovered candidate gets its key |
| EngineSpec.RegisteredContents | xbmc/src/dfmExperimental/java/org/xbmc/kodi/danmaku/DanmakuEngine.java:330-335 | each key holds its old entry or the item-less entry of a discovered candidate with that key; an entry no candidate reaches is unchanged |
| EngineSpec.DiscoveredForKey | xbmc/src/dfmExperimental/java/org/xbmc/kodi/danmaku/source/local/LocalTrackDiscovery.java:21-53 | discovery returns only tracks of the media key asked about |
| EngineSpec.EnsureCandidates | xbmc/src/dfmExperimental/java/org/xbmc/kodi/danmaku/DanmakuEngine.java:317-347 | the cache invariant is kept (the choice of track is stated by the `EngineSelection.EnsureCandidates…` lemmas) |
| EngineSpec.Resolve | xbmc/src/dfmExperimental/java/org/xbmc/kodi/danmaku/DanmakuEngine.java:225-233 | a cached key gives its entry unchanged; a found track is cached under the requested key; only the cache and the error change |
| EngineSpec.UseFound | xbmc/src/dfmExperimental/java/org/xbmc/kodi/danmaku/DanmakuEngine.java:234-256 | the cache invariant is kept (the outcome is stated by `EngineSelection.UseFoundOutcome`) |
| EngineSpec.SelectInternal | xbmc/src/dfmExperimental/java/org/xbmc/kodi/danmaku/DanmakuEngine.java:212-256 | the cache invariant is kept (the outcome is stated by `EngineSelection.SelectOutcome`) |
| EngineSpec.SelectTrack | xbmc/src/dfmExperimental/java/org/xbmc/kodi/danmaku/DanmakuEngine.java:208-210 | the cache invariant is kept (the outcome is stated by `EngineSelection.SelectTrackOutcome`) |
| EngineSpec.BindTrack | xbmc/src/dfmExperimental/java/org/xbmc/kodi/danmaku/DanmakuEngine.java:110-121 | a missing track is ignored; the cache invariant is kept (the selection of the bound track is stated by `EngineSelection.BindTrackSelects`) |
| EngineSpec.ToCandidate | xbmc/src/dfmExperimental/java/org/xbmc/kodi/danmaku/DanmakuEngine.java:474-477 | the candidate keeps track and score; a missing reason becomes `cached` |
| EngineSpec.CandidatesState | xbmc/src/dfmExperimental/java/org/xbmc/kodi/danmaku/DanmakuEngine.java:193-205 | a missing media key changes nothing |
| Engine.InsertByScore | xbmc/src/dfmExperimental/java/org/xbmc/kodi/danmaku/DanmakuEngine.java:193-205 | a stable insertion that is a permutation |
| Engine.InsertByScoreSorted | xbmc/src/dfmExperimental/java/org/xbmc/kodi/danmaku/DanmakuEngine.java:193-205 | insertion keeps the list ordered by descending score |
| Engine.InsertByScoreMembers | xbmc/src/dfmExperimental/java/org/xbmc/kodi/danmaku/DanmakuEngine.java:193-205 | the result holds exactly the old elements and the new one |
| Engine.ListsKeysInsert | xbmc/src/dfmExperimental/java/org/xbmc/kodi/danmaku/DanmakuEngine.java:193-205 | each insertion extends the listing by the next cached track |
| Engine.DanmakuEngine.constructor | xbmc/src/dfmExperimental/java/org/xbmc/kodi/danmaku/DanmakuEngine.java:84-102 | the engine starts in Initial |
| Engine.DanmakuEngine.SafeRendererCall | xbmc/src/dfmExperimental/java/org/xbmc/kodi/danmaku/DanmakuEngine.java:531-538 | the state becomes SafeCall |
| Engine.DanmakuEngine.RefreshWindow | xbmc/src/dfmExperimental/java/org/xbmc/kodi/danmaku/DanmakuEngine.java:479-501 | the state becomes RefreshWindow |
| Engine.DanmakuEngine.PrepareRenderer | xbmc/src/dfmExperimental/java/org/xbmc/kodi/danmaku/DanmakuEngine.java:382-415 | the state becomes PrepareRenderer |
| Engine.DanmakuEngine.WindowedItems | xbmc/src/dfmExperimental/java/org/xbmc/kodi/danmaku/DanmakuEngine.java:382-415 | returns the filtered items of the window |
| Engine.DanmakuEngine.ApplyPlaybackState | xbmc/src/dfmExperimental/java/org/xbmc/kodi/danmaku/DanmakuEngine.java:353-380 | the state becomes ApplyPlaybackState |
| Engine.DanmakuEngine.Tick | xbmc/src/dfmExperimental/java/org/xbmc/kodi/danmaku/DanmakuEngine.java:150-177 | the state becomes Tick |
| Engine.DanmakuEngine.UpdatePlaybackState | xbmc/src/dfmExperimental/java/org/xbmc/kodi/danmaku/DanmakuEngine.java:182-185 | the state becomes UpdatePlaybackState |
| Engine.DanmakuEngine.Pause | xbmc/src/dfmExperimental/java/org/xbmc/kodi/danmaku/DanmakuEngine.java:187-190 | the state becomes PauseState |
| Engine.DanmakuEngine.Seek | xbmc/src/dfmExperimental/java/org/xbmc/kodi/danmaku/DanmakuEngine.java:279-292 | the state becomes Seek |
| Engine.DanmakuEngine.UpdateSpeed | xbmc/src/dfmExperimental/java/org/xbmc/kodi/danmaku/DanmakuEngine.java:295-300 | the state becomes UpdateSpeed |
| Engine.DanmakuEngine.SetVisibility | xbmc/src/dfmExperimental/java/org/xbmc/kodi/danmaku/DanmakuEngine.java:259-264 | the state becomes SetVisibility |
| Engine.DanmakuEngine.UpdateConfig | xbmc/src/dfmExperimental/java/org/xbmc/kodi/danmaku/DanmakuEngine.java:267-276 | the state becomes UpdateConfig |
| Engine.DanmakuEngine.AttachRenderer | xbmc/src/dfmExperimental/java/org/xbmc/kodi/danmaku/DanmakuEngine.java:126-137 | the state becomes AttachRenderer |
| Engine.DanmakuEngine.DetachRenderer | xbmc/src/dfmExperimental/java/org/xbmc/kodi/danmaku/DanmakuEngine.java:139-145 | the state becomes DetachRenderer |
| Engine.DanmakuEngine.GetStatus | xbmc/src/dfmExperimental/java/org/xbmc/kodi/danmaku/DanmakuEngine.java:303-305 | returns GetStatus and changes nothing |
| Engine.DanmakuEngine.ParseTrackFromDisk | xbmc/src/dfmExperimental/java/org/xbmc/kodi/danmaku/DanmakuEngine.java:417-435 | result and state are ParseTrackFromDisk |
| Engine.DanmakuEngine.LoadFromFile | xbmc/src/dfmExperimental/java/org/xbmc/kodi/danmaku/DanmakuEngine.java:437-457 | result and state are LoadFromFile |
| Engine.DanmakuEngine.MergeConfig | xbmc/src/dfmExperimental/java/org/xbmc/kodi/danmaku/DanmakuEngine.java:459-472 | result and state are MergeConfig |
| Engine.DanmakuEngine.SelectTrackInternal | xbmc/src/dfmExperimental/java/org/xbmc/kodi/danmaku/DanmakuEngine.java:212-256 | the state becomes SelectInternal |
| Engine.DanmakuEngine.EnsureCandidates | xbmc/src/dfmExperimental/java/org/xbmc/kodi/danmaku/DanmakuEngine.java:317-347 | the state becomes EnsureCandidates |
| Engine.DanmakuEngine.SelectTrack | xbmc/src/dfmExperimental/java/org/xbmc/kodi/danmaku/DanmakuEngine.java:208-210 | the state becomes SelectTrack |
| Engine.DanmakuEngine.BindTrack | xbmc/src/dfmExperimental/java/org/xbmc/kodi/danmaku/DanmakuEngine.java:110-121 | the state becomes BindTrack, which selects the bound track (`EngineSelection.BindTrackSelects`) |
| Engine.DanmakuEngine.GetTrackCandidates | xbmc/src/dfmExperimental/java/org/xbmc/kodi/danmaku/DanmakuEngine.java:193-205 | the state becomes CandidatesState; the list has one candidate per cached track of the media item, by descending score |
| Engine.DanmakuEngine.CachedCandidates | xbmc/src/dfmExperimental/java/org/xbmc/kodi/danmaku/DanmakuEngine.java:193-205 | one candidate per cached track of the media item, by descending score |
| EngineProps.AlignKeepsDriftBelowThreshold | xbmc/src/dfmExperimental/java/org/xbmc/kodi/danmaku/DanmakuEngine.java:353-380 | after aligning, the applied position is within 200 ms of the offset-adjusted clock; a drift of 200 ms or a forced align seeks there |
| EngineProps.AlignPassesSpeed | xbmc/src/dfmExperimental/java/org/xbmc/kodi/danmaku/DanmakuEngine.java:353-380 | aligning hands the clock's speed to the renderer |
| EngineProps.AlignKeepsWindow | xbmc/src/dfmExperimental/java/org/xbmc/kodi/danmaku/DanmakuEngine.java:353-380 | aligning touches neither the window nor the renderer's items |
| EngineProps.AlignKeepsPrepared | xbmc/src/dfmExperimental/java/org/xbmc/kodi/danmaku/DanmakuEngine.java:353-380 | with no failing call, aligning keeps both prepared flags |
| EngineProps.SafeCallKeepsWindow | xbmc/src/dfmExperimental/java/org/xbmc/kodi/danmaku/DanmakuEngine.java:531-538 | a non-prepare call changes only the renderer |
| EngineProps.TickWhenSteady | xbmc/src/dfmExperimental/java/org/xbmc/kodi/danmaku/DanmakuEngine.java:150-177 | a tick with nothing to move only aligns |
| EngineProps.TickThrottled | xbmc/src/dfmExperimental/java/org/xbmc/kodi/danmaku/DanmakuEngine.java:150-177 | a shift due within the throttle only marks it pending; the renderer keeps its items |
| EngineProps.TickShiftsWindow | xbmc/src/dfmExperimental/java/org/xbmc/kodi/danmaku/DanmakuEngine.java:150-177 | a shift due after the throttle prepares the window around the current position |
| EngineProps.PrepareKeepsItems | xbmc/src/dfmExperimental/java/org/xbmc/kodi/danmaku/DanmakuEngine.java:382-415 | a successful prepare leaves the filtered, windowed items on the renderer and records the window |
| EngineProps.SeekInsideWindow | xbmc/src/dfmExperimental/java/org/xbmc/kodi/danmaku/DanmakuEngine.java:279-292 | a seek inside the window seeks a prepared renderer to the offset-adjusted target, with no new prepare |
| EngineProps.SeekOutsideWindow | xbmc/src/dfmExperimental/java/org/xbmc/kodi/danmaku/DanmakuEngine.java:279-292 | a seek outside the window prepares again around the target, whatever the throttle, and forces the renderer there |
| EngineProps.ThrottleScenario | xbmc/src/dfmExperimentalDebugUnitTest/java/org/xbmc/kodi/danmaku/DanmakuWindowingTest.java:70-109 | with 30 ms on either side and a 50 ms throttle, the window [0, 30] prepared at 0 is only marked pending at 40, and marked for a new prepare at 60 |
| EngineProps.ResyncScenario | xbmc/src/dfmExperimentalDebugUnitTest/java/org/xbmc/kodi/danmaku/EngineThresholdsTest.java:22-49 | with a 300 ms offset, a drift of 150 ms does not seek, a drift of 225 ms seeks to 525 |
| EngineProps.SelectMissingFile | xbmc/src/dfmExperimental/java/org/xbmc/kodi/danmaku/DanmakuEngine.java:212-233 | selecting, without the candidate step, an uncached id that is not an existing file only records the `missing` error |
| EngineProps.SelectParseFailed | xbmc/src/dfmExperimental/java/org/xbmc/kodi/danmaku/DanmakuEngine.java:234-240 | a cached track without items that fails to parse only records `parse_failed` |
| EngineProps.SelectCachedTrack | xbmc/src/dfmExperimental/java/org/xbmc/kodi/danmaku/DanmakuEngine.java:244-255 | selecting a cached track with items activates it with the merged config, remembers it as the last track and stores the config |
| EngineProps.SavedConfigWins | xbmc/src/dfmExperimental/java/org/xbmc/kodi/danmaku/DanmakuEngine.java:459-472 | with a sound codec, a config saved for a media item is the one the next selection of its tracks uses |
| EngineProps.ActivateRemembers | xbmc/src/dfmExperimental/java/org/xbmc/kodi/danmaku/DanmakuEngine.java:244-255 | activation remembers the track id and, with a sound codec, the active config |
| EngineProps.AlignTransport | xbmc/src/dfmExperimental/java/org/xbmc/kodi/danmaku/DanmakuEngine.java:365-379 | with no failing call, aligning passes the speed, plays or pauses once as the clock does, and a forced align seeks to the offset-adjusted position |
| EngineProps.ApplyPrepares | xbmc/src/dfmExperimental/java/org/xbmc/kodi/danmaku/DanmakuEngine.java:356-363 | with no failing call, the window check, the prepare and the visibility call leave the renderer prepared, showing the engine's visibility, holding the prepared items |
| EngineProps.ApplyTransport | xbmc/src/dfmExperimental/java/org/xbmc/kodi/danmaku/DanmakuEngine.java:353-380 | with a track that has items and no failing call, the renderer ends prepared, visible as the engine, at the clock's speed, played or paused once, within 200 ms of the offset-adjusted clock, and exactly there when forced |
| EngineProps.UpdatePlaybackTransport | xbmc/src/dfmExperimental/java/org/xbmc/kodi/danmaku/DanmakuEngine.java:182-185 | the renderer gets the new speed, plays when playing and pauses otherwise, and is within 200 ms of the new offset-adjusted position |
| EngineProps.PauseTransport | xbmc/src/dfmExperimental/java/org/xbmc/kodi/danmaku/DanmakuEngine.java:187-190 | the renderer is paused once, never played, given speed 0, and the position stays where it was |
| EngineProps.AttachRendererRealigns | xbmc/src/dfmExperimental/java/org/xbmc/kodi/danmaku/DanmakuEngine.java:126-137 | a new renderer is prepared with the filtered, windowed items around the clock and forced to the offset-adjusted position, with the clock's speed |
| EngineProps.UpdateConfigPersistsAndFilters | xbmc/src/dfmExperimental/java/org/xbmc/kodi/danmaku/DanmakuEngine.java:267-276 | the new config is the one read back for the media item, and the renderer is prepared again with the items the new config lets through in the window, then forced to the new offset |
| EngineProps.ThrottledTickScenario | xbmc/src/dfmExperimentalDebugUnitTest/java/org/xbmc/kodi/danmaku/DanmakuWindowingTest.java:70-109 | on ticks: nothing is prepared at 40 and the move stays pending; at 60 the renderer is prepared a second time with the window [30, 90] |
| EngineSelection.UseFoundOutcome | xbmc/src/dfmExperimental/java/org/xbmc/kodi/danmaku/DanmakuEngine.java:234-256 | a found track with items, or whose file parses, becomes active and remembered; one whose file does not parse only records `parse_failed` |
| EngineSelection.FoundOutcome | xbmc/src/dfmExperimental/java/org/xbmc/kodi/danmaku/DanmakuEngine.java:225-256 | resolving and using an id either selects the track under that key or keeps the selection; a cached track with items is always selected |
| EngineSelection.SelectOutcome | xbmc/src/dfmExperimental/java/org/xbmc/kodi/danmaku/DanmakuEngine.java:212-256 | a selection either activates and remembers the track under the requested key and clears the error, or keeps the selection, the renderer and the preferences |
| EngineSelection.SelectTrackOutcome | xbmc/src/dfmExperimental/java/org/xbmc/kodi/danmaku/DanmakuEngine.java:208-256 | after the candidate step, `selectTrack` activates the requested track or keeps what the candidate step left |
| EngineSelection.SelectTrackFailureKeeps | xbmc/src/dfmExperimental/java/org/xbmc/kodi/danmaku/DanmakuEngine.java:208-256 | with tracks cached and no other remembered track to return to, a failed `selectTrack` keeps the previous selection |
| EngineSelection.BestScoresHighest | xbmc/src/dfmExperimental/java/org/xbmc/kodi/danmaku/source/local/LocalTrackDiscovery.java:51-52 | the first discovered candidate scores at least as high as every other |
| EngineSelection.RegisteredState | xbmc/src/dfmExperimental/java/org/xbmc/kodi/danmaku/DanmakuEngine.java:330-335 | registering discovery changes only the cache, and keeps its invariant |
| EngineSelection.EnsureCandidatesPicksRemembered | xbmc/src/dfmExperimental/java/org/xbmc/kodi/danmaku/DanmakuEngine.java:336-340 | with nothing cached before, the remembered track, once registered, is selected |
| EngineSelection.EnsureCandidatesPicksBest | xbmc/src/dfmExperimental/java/org/xbmc/kodi/danmaku/DanmakuEngine.java:341-346 | otherwise the first, highest-scoring discovered track is selected unless already active |
| EngineSelection.EnsureCandidatesOnlyRegisters | xbmc/src/dfmExperimental/java/org/xbmc/kodi/danmaku/DanmakuEngine.java:330-346 | with no remembered track, and nothing discovered or the best already active, the step only registers |
| EngineSelection.EnsureCandidatesReturnsToRemembered | xbmc/src/dfmExperimental/java/org/xbmc/kodi/danmaku/DanmakuEngine.java:321-329 | with tracks already cached, the remembered track is re-selected when cached and not active; otherwise nothing happens |
| EngineSelection.SelectTrackMissingFile | xbmc/src/dfmExperimentalDebugUnitTest/java/org/xbmc/kodi/danmaku/ParserErrorFlowTest.java:44-64 | through `selectTrack`, with nothing cached, discovered or remembered, an id that is not an existing file only records `missing` |
| EngineSelection.EnsureWhenCached | xbmc/src/dfmExperimental/java/org/xbmc/kodi/danmaku/DanmakuEngine.java:317-329 | with tracks already cached, the candidate step is the use of the remembered cached track when it is set, cached, not active and not empty, and changes nothing otherwise |
| EngineSelection.UseFoundKeepsEntry | xbmc/src/dfmExperimental/java/org/xbmc/kodi/danmaku/DanmakuEngine.java:234-256 | using a cached track keeps the track of every cached key, and the whole entry of one that has items |
| EngineSelection.EnsureKeepsEntry | xbmc/src/dfmExperimental/java/org/xbmc/kodi/danmaku/DanmakuEngine.java:317-347 | the candidate step keeps the track of a cached entry, and the whole entry when it has items |
| EngineSelection.SelectBoundTrack | xbmc/src/dfmExperimental/java/org/xbmc/kodi/danmaku/DanmakuEngine.java:208-256 | `selectTrack` of a cached track with a non-empty id makes it the active, remembered track with its items, or records `parse_failed` for its file |
| EngineSelection.BindTrackSelects | xbmc/src/dfmExperimental/java/org/xbmc/kodi/danmaku/DanmakuEngine.java:107-121 | a bound track with an empty id is only cached; one with an id and non-empty items becomes the active, remembered track with those items; one with an id and no items is parsed from its file and becomes active, or `parse_failed` is recorded |
| AddonApi.MatchEpisode | xbmc/assets/script.service.dandanplay/resources/lib/api.py:27-44 | the loop returns MatchedEpisode |
| AddonApi.MatchedEpisodeIsFirst | xbmc/assets/script.service.dandanplay/resources/lib/api.py:27-44 | no response or no match gives nothing; otherwise the first match with a truthy episode id, or nothing iff none has one |
| AddonApi.WithTitle | xbmc/assets/script.service.dandanplay/resources/lib/api.py:57-58 | the episode copy gains the anime title only when it has none |
| AddonApi.SearchEpisode | xbmc/assets/script.service.dandanplay/resources/lib/api.py:46-60 | the loop returns SearchedEpisode |
| AddonApi.SearchedEpisodeIsFirst | xbmc/assets/script.service.dandanplay/resources/lib/api.py:46-60 | an empty keyword gives nothing; otherwise the first episode of the first anime that has episodes, titled; nothing exactly when every anime has no episodes |
| AddonApi.DownloadComments | xbmc/assets/script.service.dandanplay/resources/lib/api.py:62-69 | no id or no data gives no comments; otherwise the comments or none |
| AddonApi.EscapeRoundTrip | xbmc/assets/script.service.dandanplay/resources/lib/api.py:78 | unescaping an escaped text gives it back |
| AddonApi.EscapedHasNoMarkup | xbmc/assets/script.service.dandanplay/resources/lib/api.py:78 | an escaped text has no `<`, `>`, `"` or `'` |
| AddonApi.BuildBiliXml | xbmc/assets/script.service.dandanplay/resources/lib/api.py:71-80 | the loop returns BiliXml |
| AddonApi.OneLinePerUsableComment | xbmc/assets/script.service.dandanplay/resources/lib/api.py:71-80 | one `d` line per comment with a truthy `p`, in order |
| AddonApi.BiliXmlFrame | xbmc/assets/script.service.dandanplay/resources/lib/api.py:71-80 | the document starts with `<i>` and ends with `</i>` |
| AddonApi.CommentTextIsEscaped | xbmc/assets/script.service.dandanplay/resources/lib/api.py:78 | each line holds the escaped comment text |
| AddonUtils.ToLocalPath | xbmc/assets/script.service.dandanplay/resources/lib/utils.py:26-36 | nothing for a missing or empty URL; a `file://` URL gives the decoded path component after the host; an absolute path unchanged; a `special://` URL is translated by Kodi; nothing for an unknown scheme |
| AddonUtils.FileUrlGivesPath | xbmc/assets/script.service.dandanplay/resources/lib/utils.py:29-31 | a `file://` URL with an empty host gives its decoded path |
| AddonUtils.MediaKeyAgreesWithJava | xbmc/assets/script.service.dandanplay/resources/lib/utils.py:39-40 | the add-on's key text has the layout of the Java key's text and parses back to the key of the same numbers |
| AddonUtils.KeywordChars | xbmc/assets/script.service.dandanplay/resources/lib/utils.py:43-48 | a keyword has no brackets, dots or underscores, and its other characters are spaces or come from the base name |
| AddonUtils.KeywordSpacing | xbmc/assets/script.service.dandanplay/resources/lib/utils.py:43-48 | a keyword has no double whitespace and none at either end |
| AddonUtils.KeywordIgnoresDirectory | xbmc/assets/script.service.dandanplay/resources/lib/utils.py:43-48 | the directory part never matters |

## Left out

- The IPC server, the Android service, the settings screen, the overlay view and its mount controller, the OSD actions, the player-event bridge and the developer injector are not part of this model. They are Android glue around the engine.
- The XML pull parser is not modelled. A document is given as the sequence of `d` elements it contains, or as a malformed or unreadable document (`BiliXml.XmlDoc`).
- The JSON encoding of a config in the preferences is a parameter (`Prefs.Codec`). `Prefs.ConfigRoundTrip` holds for a codec that decodes what it encodes (`Prefs.Sound`).
- Logging and the engine's debug flag are left out. They change no state.
- The performance sampler is modelled on its own. The engine's calls into it are not modelled: the record calls in `tick`, `applyPlaybackState`, `prepareRenderer` and `refreshWindow`, and the flush in `detachRenderer`. They change no engine state. The report's JSON layout and the file writing are reduced to the fields of `PerfSampler.Report` and a write outcome.
- The add-on's `_request` (HTTP, authentication, retries), `service.py`, `ipc.py` and `filehash.py` are not part of this model. The responses enter as values (`AddonApi.Json`).
- `urlparse`'s percent-decoding (`unquote`) and Kodi's `translatePath` are parameters of `AddonUtils.ToLocalPath`.
- AddonUtils.UrlPath: keeps tab, carriage-return and line-feed characters, which `urlsplit` removes from the whole URL before splitting it; a `file://` URL holding one of them gives a path with it in the model.
- Discovery.SortCandidates: orders names of equal score by `Text.LexLess`, which compares Unicode code points. Java's `String.compareTo` compares UTF-16 code units, so a name with a character above U+FFFF and one with a character in U+E000-U+FFFF at the same place are ordered the other way round.
- Files.FileName: splits the path text at its last `/` as given. `java.io.File` first normalises the path, dropping a doubled or trailing separator, so a path ending in `/` has an empty name in the model.
- Files.ParentOf: also works on the path text as given, without the normalisation of `java.io.File`, so a doubled or trailing separator gives a different parent.
- Arithmetic overflow of Java `long` values (positions, offsets, sizes) is not modelled. Positions stay far from 2^63 in practice.
- The renderer is never null inside the engine: the constructor rejects null, and `attachRenderer` ignores it. The `renderer == null` branches are therefore not modelled.
- `loadFromFile` first scans the cache for an entry of the same media key and id. Under `EngineSpec.CacheInvariant` such an entry is always stored under the same key the caller has just looked up, so the scan never finds one. The model goes straight to the file.
- `mergeConfig` calls `DanmakuPreferences.getDefaultConfig`, which `DanmakuPreferences.java` does not define. The model gives the store an optional application-wide default config (a field of `Prefs.PrefStore`), read by `Prefs.DanmakuPreferences.GetDefaultConfig`.
- EngineSpec.BindTrack: its ensures states the cache invariant and the ignored missing track; the selection of the bound track is stated by `EngineSelection.BindTrackSelects`.
- EngineProps.SelectCachedTrack: does not state the window or the renderer state after activation, only the selection, the remembered track and the stored config.
- EngineSpec.Tick: its ensures states that the selection is untouched; what a tick does to the renderer is stated by `EngineProps.TickWhenSteady`, `TickThrottled`, `TickShiftsWindow` and `ThrottledTickScenario`.
- EngineSpec.ApplyPlaybackState: its ensures states that the selection is untouched; the transport calls are stated by `EngineProps.ApplyTransport` for a renderer with no failing call.
- EngineSpec.UpdatePlaybackState: its ensures states the clock only; the renderer effects are stated by `EngineProps.UpdatePlaybackTransport` for a renderer with no failing call.
- EngineSpec.PauseState: its ensures states the clock only; the renderer pause is stated by `EngineProps.PauseTransport` for a renderer with no failing call.
- EngineSpec.UpdateConfig: its ensures states the config and the kept selection; persisting and re-filtering are stated by `EngineProps.UpdateConfigPersistsAndFilters`, for a renderer with no failing call and a codec that reads back what it writes.
- EngineSpec.AttachRenderer: its ensures states the ignored missing renderer and the kept selection; the re-prepare and the forced seek are stated by `EngineProps.AttachRendererRealigns` for a renderer with no failing call.
- EngineSpec.Registered: its ensures states the cache invariant; the registered contents are stated by `EngineSpec.RegisteredCovers` and `EngineSpec.RegisteredContents`.
- EngineSpec.EnsureCandidates: its ensures states the cache invariant; the choice of track is stated by `EngineSelection.EnsureCandidatesPicksRemembered`, `EnsureCandidatesPicksBest`, `EnsureCandidatesOnlyRegisters` and `EnsureCandidatesReturnsToRemembered`.
- EngineSpec.UseFound, EngineSpec.SelectInternal, EngineSpec.SelectTrack: their ensures state the cache invariant; success and failure are stated by `EngineSelection.UseFoundOutcome`, `SelectOutcome`, `SelectTrackOutcome` and `SelectTrackFailureKeeps`. A `selectTrack` runs the candidate step first, which may itself switch tracks, so a failed `selectTrack` keeps the selection that step left rather than the one before the call.
- EngineProps.ThrottleScenario: states the window check only; the ticks around it, with the second prepare at 60, are stated by `EngineProps.ThrottledTickScenario`.
- EngineProps.SelectMissingFile: covers the selection without the candidate step; the public `selectTrack` path of the engine's missing-file test is `EngineSelection.SelectTrackMissingFile`.
- Filtering.MatchesKeyword: folds ASCII letters only (`Text.Lower`). Java's `toLowerCase()` folds every Unicode letter, so a keyword such as "É" does not suppress "é" in the model as it does in the engine.
- Discovery.Score: the equal-ignoring-case test folds ASCII letters only. Java's `equalsIgnoreCase` folds every Unicode letter, so two names that differ only in the case of a non-ASCII letter score below 100 in the model.
- Discovery.Reason: uses the same ASCII-only equal-ignoring-case test as `Discovery.Score`.
- BiliXml.ParseFloat: accepts plain decimals only (sign, digits, optional fraction). Java's `Float.parseFloat` also accepts exponents ("1e1"), "NaN", "Infinity", the `f`/`d` suffixes and hex floats. Float rounding to 32 bits is not modelled either.
- BiliXml.ItemOfFields: inherits the plain-decimal `BiliXml.ParseFloat`, so a time or size written with an exponent, "NaN" or a suffix gives no item in the model, while Java keeps one.
- BiliXml.ParseItem: inherits the plain-decimal `BiliXml.ParseFloat` through `BiliXml.ItemOfFields`.
- Text.ParseInteger: accepts ASCII digits only. `Long.parseLong` and `Integer.parseInt` also accept the decimal digits of other scripts.
- Renderers.Apply: which kinds of call throw is fixed for a surface (`failing`). A call that fails once and succeeds on a later try within the same engine call cannot be expressed. Every spec function takes an arbitrary state, so the failing set may differ from one engine call to the next.
- AddonApi.MatchedEpisode, AddonApi.MatchEpisode, AddonApi.MatchedEpisodeIsFirst, AddonApi.FirstWithEpisodeId, AddonApi.FirstIsFirst: require `MatchShape`. This drops the paths where `match_episode` raises: a response that is truthy but not an object (`AttributeError` on `.get`), `matches` not a list, and a match item that is not an object before the first one with an episode id.
- AddonApi.SearchedEpisode, AddonApi.SearchEpisode, AddonApi.SearchedEpisodeIsFirst, AddonApi.FirstEpisode, AddonApi.FirstEpisodeIsFirst: require `SearchShape`. This drops the paths where `search_episode` raises: a response that is not an object, `animes` not a list, an anime that is not an object, and a first episode that is not an object (`dict(...)` raises or builds a different mapping).
- AddonApi.DownloadComments: requires `CommentsShape`. This drops the `AttributeError` of a truthy response that is not an object.
- AddonApi.CommentLine, AddonApi.CommentLines, AddonApi.BiliXml, AddonApi.BuildBiliXml, AddonApi.CommentLinesAppend, AddonApi.OneLinePerUsableComment, AddonApi.BiliXmlFrame, AddonApi.CommentTextIsEscaped: require `CommentShape`. This drops a comment that is not an object (`AttributeError`) and a non-string `m` (`escape` raises). A `p` that is a list or an object is also excluded, although Python writes its `str()` form.
- AddonUtils.MediaKeyAgreesWithJava: states only that the key texts have the same layout. The add-on passes the modification time in seconds (`int(stat.st_mtime())`, service.py:104), while the Java player builds its key from `lastModified()` in milliseconds (DanmakuController.java:396). The two keys of the same file therefore differ.
