/**
 * What each engine operation does to the engine's state, as pure functions of the state before
 * the call. `now` is the reading of the realtime source and of the clock's time provider,
 * which is the same instant throughout one call.
 */
module EngineSpec {
  import opened Wrappers
  import opened Text
  import opened Configs
  import opened MediaKeys
  import opened Tracks
  import opened Clocks
  import opened Filtering
  import opened Windowing
  import opened BiliXml
  import opened Files
  import opened Discovery
  import opened Prefs
  import opened Renderers

  /** A drift of this many milliseconds between clock and renderer forces a seek. */
  const ResyncThresholdMs: int := 200

  /** A track known to the engine, with its items once parsed (empty until then). */
  datatype CachedTrack = CachedTrack(track: Track, items: seq<Item>, config: Config, score: int, reason: Option<string>)

  /** The last load failure: the file and a reason such as "missing", "IO", "MALFORMED" or "parse_failed". */
  datatype LoadError = LoadError(path: string, reason: string)

  /** What the engine is built with and never changes: the file system, the preference codec and the windowing sizes. */
  datatype Env = Env(fs: FileSystem, codec: Codec, windowing: WindowingConfig)

  datatype EngineState = EngineState(
    cache: map<string, CachedTrack>,
    renderer: Surface,
    activeTrack: Option<Track>,
    activeConfig: Config,
    activeItems: seq<Item>,
    visible: bool,
    prepared: bool,
    pending: bool,
    lastApplied: int,
    lastError: Option<LoadError>,
    windowStart: int,
    windowEnd: Bound,
    lastPrepare: int,
    clock: ClockState,
    prefs: PrefStore)

  /** `getStatus`. */
  datatype Status = Status(visible: bool, playing: bool, positionMs: int, speed: real)

  /** The cache key of a track of a media item. */
  function CacheKey(k: MediaKey, id: string): (key: string)
    ensures StartsWith(key, Serialize(k))
  {
    Serialize(k) + "#" + id
  }

  /** Every cached track is stored under the key of its own media item and id. */
  predicate CacheInvariant(cache: map<string, CachedTrack>) {
    forall key :: key in cache ==> key == CacheKey(cache[key].track.mediaKey, cache[key].track.id)
  }

  /** Renderer driving never changes the selection, the stored preferences or the clock. */
  predicate SameSelection(a: EngineState, b: EngineState) {
    a.cache == b.cache && a.activeTrack == b.activeTrack && a.activeItems == b.activeItems
    && a.activeConfig == b.activeConfig && a.prefs == b.prefs && a.clock == b.clock
    && a.visible == b.visible && a.lastError == b.lastError
  }

  /** The state right after construction: nothing selected, no window yet, the window's prepare time set to `now`. */
  function Initial(renderer: Surface, clock: ClockState, prefs: PrefStore, now: int): (st: EngineState)
    ensures st.activeTrack.None? && st.activeItems == [] && st.cache == map[] && CacheInvariant(st.cache)
    ensures st.windowStart == 0 && st.windowEnd == Unbounded && st.lastPrepare == now
    ensures !st.visible && !st.prepared && !st.pending && st.lastError.None?
  {
    EngineState(map[], renderer, None, Defaults(), [], false, false, false, 0, None, 0, Unbounded, now, clock, prefs)
  }

  function ActiveId(st: EngineState): Option<string> {
    if st.activeTrack.Some? then Some(st.activeTrack.value.id) else None
  }

  // ---------------------------------------------------------------------------------------
  // Renderer driving
  // ---------------------------------------------------------------------------------------

  /** `safeRendererCall`: a call that throws marks the renderer unprepared; otherwise it takes effect. */
  function SafeCall(st: EngineState, c: Call): (r: EngineState)
    ensures SameSelection(st, r)
    ensures Throws(st.renderer, c) ==> !r.prepared && r.renderer == st.renderer
    ensures !Throws(st.renderer, c) ==> r.prepared == st.prepared && r.renderer == Apply(st.renderer, c)
  {
    var throws := Throws(st.renderer, c);
    st.(renderer := if throws then st.renderer else Apply(st.renderer, c), prepared := !throws && st.prepared)
  }

  /**
   * `refreshWindow`: with items and a reason to move the window, either records the move as
   * pending (too soon after the last prepare) or marks the renderer for a new prepare.
   */
  function RefreshWindow(w: WindowingConfig, st: EngineState, now: int, positionMs: int): (r: EngineState)
    ensures SameSelection(st, r) && r.renderer == st.renderer && r.lastApplied == st.lastApplied
  {
    if st.activeItems == [] then st
    else if !NeedsShift(st.windowStart, st.windowEnd, w.guardMs, positionMs, st.pending) then st
    else if now - st.lastPrepare < w.reprepareThrottleMs then st.(pending := true)
    else st.(prepared := false, pending := false)
  }

  /** The items a prepare at `positionMs` hands to the renderer: filtered, then windowed. */
  function PreparedItems(w: WindowingConfig, st: EngineState, positionMs: int): seq<Item> {
    Windowed(Filtered(st.activeItems, st.activeConfig), st.activeConfig.offsetMs, ComputeWindow(w, positionMs))
  }

  /**
   * `prepareRenderer`: hands the filtered and windowed items to the renderer; on success the
   * window, the prepare time and the applied position are recorded and, when shown, the
   * renderer is made visible and sought to the applied position.
   */
  function PrepareRenderer(w: WindowingConfig, st: EngineState, now: int): (r: EngineState)
    ensures SameSelection(st, r)
    ensures st.activeItems == [] ==> r == st
    ensures st.activeItems != [] && OpPrepare in st.renderer.failing ==> r == st.(prepared := false)
    ensures st.activeItems != [] && OpPrepare !in st.renderer.failing ==>
              r.renderer.items == PreparedItems(w, st, st.clock.NowMs(now)) && r.lastPrepare == now && !r.pending
  {
    if st.activeItems == [] then st
    else
      var pos := st.clock.NowMs(now);
      var range := ComputeWindow(w, pos);
      var call := PrepareCall(PreparedItems(w, st, pos), st.activeConfig);
      if Throws(st.renderer, call) then st.(prepared := false)
      else
        var surface := Apply(st.renderer, call);
        var s1 := st.(renderer := surface, prepared := surface.prepared, windowStart := range.startMs,
                      windowEnd := Finite(range.endMs), pending := false, lastPrepare := now,
                      lastApplied := pos + st.activeConfig.offsetMs);
        if s1.prepared && s1.visible then SafeCall(SafeCall(s1, VisibleCall(true)), SeekCall(s1.lastApplied))
        else s1
  }

  /**
   * The common tail of `tick` and `applyPlaybackState`, with the clock at `positionMs`: seek
   * when forced or when the drift reaches the threshold, then pass on the speed and the
   * playing state.
   */
  function Align(st: EngineState, positionMs: int, force: bool): (r: EngineState)
    ensures SameSelection(st, r)
  {
    PassPlayback(Resync(st, positionMs, force))
  }

  /** Seeks to the offset-adjusted position, and records it, when forced or drifted by the threshold or more. */
  function Resync(st: EngineState, positionMs: int, force: bool): (r: EngineState)
    ensures SameSelection(st, r)
  {
    var effective := positionMs + st.activeConfig.offsetMs;
    if force || Abs(effective - st.lastApplied) >= ResyncThresholdMs
    then SafeCall(st, SeekCall(effective)).(lastApplied := effective)
    else st
  }

  /** Passes the clock's speed, then its playing state, on to the renderer. */
  function PassPlayback(st: EngineState): (r: EngineState)
    ensures SameSelection(st, r)
  {
    var s1 := SafeCall(st, SpeedCall(st.clock.speed));
    if s1.clock.playing then SafeCall(s1, PlayCall) else SafeCall(s1, PauseCall)
  }

  /** `applyPlaybackState`. */
  function ApplyPlaybackState(w: WindowingConfig, st: EngineState, now: int, force: bool): (r: EngineState)
    ensures SameSelection(st, r)
  {
    if st.activeTrack.None? then st
    else
      var s1 := RefreshWindow(w, st, now, st.clock.NowMs(now));
      var s2 := if !s1.prepared then PrepareRenderer(w, s1, now) else s1;
      var s3 := SafeCall(s2, VisibleCall(s2.visible));
      if !s3.renderer.prepared then s3 else Align(s3, s3.clock.NowMs(now), force)
  }

  /** `tick`. */
  function Tick(w: WindowingConfig, st: EngineState, now: int): (r: EngineState)
    ensures SameSelection(st, r)
  {
    if st.activeTrack.None? || st.activeItems == [] then st
    else
      var s1 := RefreshWindow(w, st, now, st.clock.NowMs(now));
      var s2 := if !s1.prepared || !s1.renderer.prepared then PrepareRenderer(w, s1, now) else s1;
      if !s2.prepared || !s2.renderer.prepared then s2 else Align(s2, s2.clock.NowMs(now), false)
  }

  /** `updatePlaybackState`: re-anchors the clock at `now`, then applies. */
  function UpdatePlaybackState(w: WindowingConfig, st: EngineState, now: int, positionMs: int, speed: real, playing: bool): (r: EngineState)
    ensures r.clock == ClockState(positionMs, now, speed, playing)
  {
    ApplyPlaybackState(w, st.(clock := ClockState(positionMs, now, speed, playing)), now, false)
  }

  /** `pause`: freezes the clock where it is now, then applies. */
  function PauseState(w: WindowingConfig, st: EngineState, now: int): (r: EngineState)
    ensures r.clock == ClockState(st.clock.NowMs(now), now, 0.0, false)
  {
    ApplyPlaybackState(w, st.(clock := ClockState(st.clock.NowMs(now), now, 0.0, false)), now, false)
  }

  /**
   * `seek`: re-bases the clock; a target outside the window schedules a new window and forces
   * a seek, otherwise a prepared renderer is sought directly.
   */
  function Seek(w: WindowingConfig, st: EngineState, now: int, positionMs: int): (r: EngineState)
    ensures r.clock == st.clock.(anchorPositionMs := positionMs, anchorRealtimeMs := now)
  {
    var s0 := st.(clock := st.clock.(anchorPositionMs := positionMs, anchorRealtimeMs := now));
    var effective := positionMs + s0.activeConfig.offsetMs;
    if !IsWithinWindow(effective, s0.windowStart, s0.windowEnd) then
      ApplyPlaybackState(w, s0.(pending := true, prepared := false), now, true)
    else if s0.renderer.prepared then SafeCall(s0, SeekCall(effective)).(lastApplied := effective)
    else s0
  }

  /** `updateSpeed`: re-anchors at the current position with the new speed. */
  function UpdateSpeed(st: EngineState, now: int, speed: real): (r: EngineState)
    ensures r.clock == ClockState(st.clock.NowMs(now), now, speed, st.clock.playing)
    ensures r.activeTrack == st.activeTrack && r.cache == st.cache
  {
    var s0 := st.(clock := ClockState(st.clock.NowMs(now), now, speed, st.clock.playing));
    if s0.renderer.prepared then SafeCall(s0, SpeedCall(speed)) else s0
  }

  /** `setVisibility`. */
  function SetVisibility(st: EngineState, visible: bool): (r: EngineState)
    ensures r.visible == visible
    ensures !Throws(st.renderer, VisibleCall(visible)) ==> r.renderer.visible == visible
    ensures r.activeTrack == st.activeTrack && r.cache == st.cache
  {
    SafeCall(st.(visible := visible), VisibleCall(visible))
  }

  /** `updateConfig`: a missing config means the defaults; it is saved for the active track's media item. */
  function UpdateConfig(e: Env, st: EngineState, now: int, config: Option<Config>): (r: EngineState)
    ensures r.activeConfig == config.GetOr(Defaults())
    ensures r.activeTrack == st.activeTrack && r.cache == st.cache
  {
    var c := config.GetOr(Defaults());
    var s0 := st.(activeConfig := c);
    var s1 := if s0.activeTrack.Some? then s0.(prefs := StoreConfig(s0.prefs, e.codec, s0.activeTrack.value.mediaKey, c)) else s0;
    ApplyPlaybackState(e.windowing, PrepareRenderer(e.windowing, s1.(prepared := false), now), now, true)
  }

  /** `attachRenderer`: a missing renderer is ignored; a new one starts unprepared and is prepared when there is something to show. */
  function AttachRenderer(w: WindowingConfig, st: EngineState, now: int, renderer: Option<Surface>): (r: EngineState)
    ensures renderer.None? ==> r == st
    ensures r.activeTrack == st.activeTrack && r.cache == st.cache
  {
    if renderer.None? then st
    else
      var s0 := st.(renderer := renderer.value, prepared := false);
      if s0.activeTrack.Some? && s0.activeItems != [] then ApplyPlaybackState(w, PrepareRenderer(w, s0, now), now, true)
      else s0
  }

  /** `detachRenderer`: releases the renderer and marks it unprepared. */
  function DetachRenderer(st: EngineState): (r: EngineState)
    ensures !r.prepared
    ensures !Throws(st.renderer, ReleaseCall) ==> !r.renderer.prepared
    ensures r.activeTrack == st.activeTrack && r.cache == st.cache
  {
    SafeCall(st, ReleaseCall).(prepared := false)
  }

  function GetStatus(st: EngineState, now: int): (s: Status)
    ensures s.positionMs == st.clock.NowMs(now) && s.visible == st.visible
  {
    Status(st.visible, st.clock.playing, st.clock.NowMs(now), st.clock.speed)
  }

  // ---------------------------------------------------------------------------------------
  // Loading and selection
  // ---------------------------------------------------------------------------------------

  /**
   * `parseTrackFromDisk`: a missing or unreadable file gives nothing and leaves the error as it
   * was; a failure to open or read records "IO", a malformed document "MALFORMED"; a parsed
   * document clears the error.
   */
  function ParseTrackFromDisk(fs: FileSystem, st: EngineState, track: Track, score: int, reason: Option<string>): (res: (Option<CachedTrack>, EngineState))
    ensures res.1 == st.(lastError := res.1.lastError)
    ensures res.0.Some? ==> res.0.value.track == track && res.0.value.config == track.config
                            && res.0.value.score == score && res.0.value.reason == reason && res.1.lastError.None?
    ensures !fs.isPresent(track.filePath) || !fs.canRead(track.filePath) ==> res == (None, st)
  {
    var path := track.filePath;
    if !fs.isPresent(path) || !fs.canRead(path) then (None, st)
    else
      match fs.open(path)
      case None => (None, st.(lastError := Some(LoadError(path, "IO"))))
      case Some(doc) =>
        match ParseResult(doc)
        case Success(items) => (Some(CachedTrack(track, items, track.config, score, reason)), st.(lastError := None))
        case Failure(why) => (None, st.(lastError := Some(LoadError(path, ReasonName(why)))))
  }

  /** The track `loadFromFile` makes for an id that names a file. */
  function FileTrack(fs: FileSystem, k: MediaKey, id: string): (t: Track)
    ensures t.id == id && t.mediaKey == k && t.config == Defaults()
  {
    NewTrack(id, FileName(id), Local, fs.absolutePath(id), Some(Defaults()), k)
  }

  /**
   * `loadFromFile` once the cache has no entry for the key: an id that is not an existing
   * file records "missing"; otherwise the file is parsed with score 80 and reason "file" and
   * cached under the key.
   */
  function LoadFromFile(fs: FileSystem, st: EngineState, k: MediaKey, id: string): (res: (Option<CachedTrack>, EngineState))
    requires CacheInvariant(st.cache)
    ensures CacheInvariant(res.1.cache)
    ensures res.0.Some? ==> res.0.value.track == FileTrack(fs, k, id) && res.1.cache == st.cache[CacheKey(k, id) := res.0.value]
    ensures res.0.None? ==> res.1.cache == st.cache
    ensures res.1 == st.(cache := res.1.cache, lastError := res.1.lastError)
    ensures res.0.Some? ==> res.1.lastError.None?
    ensures !fs.isPresent(id) ==> res == (None, st.(lastError := Some(LoadError(id, "missing"))))
  {
    if !fs.isPresent(id) then (None, st.(lastError := Some(LoadError(id, "missing"))))
    else
      var track := FileTrack(fs, k, id);
      var (parsed, s1) := ParseTrackFromDisk(fs, st, track, 80, Some("file"));
      if parsed.None? then (None, s1)
      else
        CacheInsert(s1.cache, parsed.value);
        (parsed, s1.(cache := s1.cache[CacheKey(k, id) := parsed.value]))
  }

  /**
   * `mergeConfig`: the config saved for the media item wins, then the application default,
   * then the candidate's own config. Reading the saved config may drop an unreadable entry.
   */
  function MergeConfig(codec: Codec, prefs: PrefStore, track: Track, candidate: Config): (res: (Config, PrefStore))
    ensures res.1 == ReadConfig(prefs, codec, track.mediaKey).1
    ensures ReadConfig(prefs, codec, track.mediaKey).0.Some? ==> res.0 == ReadConfig(prefs, codec, track.mediaKey).0.value
    ensures ReadConfig(prefs, codec, track.mediaKey).0.None? ==> res.0 == prefs.defaultConfig.GetOr(candidate)
  {
    var (saved, p1) := ReadConfig(prefs, codec, track.mediaKey);
    if saved.Some? then (saved.value, p1)
    else if p1.defaultConfig.Some? then (p1.defaultConfig.value, p1)
    else (candidate, p1)
  }

  /** The selection itself: activate, reset the window, prepare, force a seek, remember the choice. */
  function Activate(e: Env, st: EngineState, k: MediaKey, cached: CachedTrack, now: int): (r: EngineState)
    ensures r.cache == st.cache && r.activeTrack == Some(cached.track) && r.activeItems == cached.items
  {
    var (config, p1) := MergeConfig(e.codec, st.prefs, cached.track, cached.config);
    var s1 := st.(activeTrack := Some(cached.track), activeItems := cached.items, activeConfig := config,
                  prefs := p1, prepared := false, pending := false, windowStart := 0, windowEnd := Unbounded);
    var s2 := ApplyPlaybackState(e.windowing, PrepareRenderer(e.windowing, s1, now), now, true);
    s2.(prefs := StoreConfig(StoreLastTrack(s2.prefs, k, cached.track), e.codec, k, s2.activeConfig))
  }

  /** A discovered candidate as registered: its track, no items yet, the track's config, its score and reason. */
  function Unparsed(c: TrackCandidate): CachedTrack {
    CachedTrack(c.track, [], c.track.config, c.score, c.reason)
  }

  /** The cache after registering discovered candidates, each with no items yet, in discovery order. */
  function Registered(cache: map<string, CachedTrack>, k: MediaKey, cs: seq<TrackCandidate>): (r: map<string, CachedTrack>)
    requires CacheInvariant(cache)
    requires forall c :: c in cs ==> c.track.mediaKey == k
    ensures CacheInvariant(r)
  {
    if cs == [] then cache
    else
      var last := cs[|cs| - 1];
      assert last in cs;
      var init := Registered(cache, k, cs[..|cs| - 1]);
      CacheInsert(init, Unparsed(last));
      init[CacheKey(k, last.track.id) := Unparsed(last)]
  }

  /** Storing an entry under its own key keeps the cache invariant. */
  lemma CacheInsert(cache: map<string, CachedTrack>, entry: CachedTrack)
    requires CacheInvariant(cache)
    ensures CacheInvariant(cache[CacheKey(entry.track.mediaKey, entry.track.id) := entry])
  {
  }

  /** Registering keeps every cached entry's key and adds the key of every discovered candidate. */
  lemma {:induction false} RegisteredCovers(cache: map<string, CachedTrack>, k: MediaKey, cs: seq<TrackCandidate>)
    requires CacheInvariant(cache)
    requires forall c :: c in cs ==> c.track.mediaKey == k
    ensures forall key :: key in cache ==> key in Registered(cache, k, cs)
    ensures forall c :: c in cs ==> CacheKey(k, c.track.id) in Registered(cache, k, cs)
  {
    if cs != [] {
      var init := cs[..|cs| - 1];
      assert forall c :: c in init ==> c in cs;
      RegisteredCovers(cache, k, init);
      assert forall c :: c in cs ==> c in init || c == cs[|cs| - 1];
    }
  }

  /**
   * After registering, each key holds its old entry or the unparsed entry of a candidate with
   * that key, and an entry that no candidate's key reaches is left as it was.
   */
  lemma {:induction false} RegisteredContents(cache: map<string, CachedTrack>, k: MediaKey, cs: seq<TrackCandidate>, key: string)
    requires CacheInvariant(cache)
    requires forall c :: c in cs ==> c.track.mediaKey == k
    ensures key in Registered(cache, k, cs) ==>
              (key in cache && Registered(cache, k, cs)[key] == cache[key])
              || exists c :: c in cs && key == CacheKey(k, c.track.id) && Registered(cache, k, cs)[key] == Unparsed(c)
    ensures key in cache && (forall c :: c in cs ==> CacheKey(k, c.track.id) != key) ==>
              key in Registered(cache, k, cs) && Registered(cache, k, cs)[key] == cache[key]
  {
    if cs != [] {
      var init := cs[..|cs| - 1];
      var last := cs[|cs| - 1];
      assert last in cs;
      assert forall c :: c in init ==> c in cs;
      RegisteredContents(cache, k, init, key);
      var before := Registered(cache, k, init);
      assert Registered(cache, k, cs) == before[CacheKey(k, last.track.id) := Unparsed(last)];
      if key != CacheKey(k, last.track.id) && key in before && !(key in cache && before[key] == cache[key]) {
        var c :| c in init && key == CacheKey(k, c.track.id) && before[key] == Unparsed(c);
        assert c in cs;
      }
    }
  }

  lemma DiscoveredForKey(fs: FileSystem, k: MediaKey)
    ensures forall c :: c in Discovered(fs, Some(k)) ==> c.track.mediaKey == k
  {
    forall c | c in Discovered(fs, Some(k)) ensures c.track.mediaKey == k {
      DiscoveredProperties(fs, k, c);
    }
  }

  predicate HasTracksFor(cache: map<string, CachedTrack>, k: MediaKey) {
    exists key :: key in cache && cache[key].track.mediaKey == k
  }

  /**
   * `ensureCandidates`: with tracks already cached, re-selects the remembered track if it is
   * cached and not active; otherwise discovers and registers local files, then selects the
   * remembered track if cached, else the best discovered one unless it is already active.
   */
  function EnsureCandidates(e: Env, st: EngineState, k: MediaKey, now: int): (r: EngineState)
    requires CacheInvariant(st.cache)
    ensures CacheInvariant(r.cache)
    decreases 1
  {
    if HasTracksFor(st.cache, k) then
      var last := LastTrackId(st.prefs, k);
      if last.Some? && CacheKey(k, last.value) in st.cache && Some(last.value) != ActiveId(st)
      then SelectInternal(e, st, Some(k), last, false, now)
      else st
    else
      DiscoveredForKey(e.fs, k);
      var discovered := Discovered(e.fs, Some(k));
      var s1 := st.(cache := Registered(st.cache, k, discovered));
      var last := LastTrackId(s1.prefs, k);
      if last.Some? && CacheKey(k, last.value) in s1.cache then SelectInternal(e, s1, Some(k), last, false, now)
      else if discovered != [] && Some(discovered[0].track.id) != ActiveId(s1)
      then SelectInternal(e, s1, Some(k), Some(discovered[0].track.id), false, now)
      else s1
  }

  /** The track found for a key: the cached entry, or one loaded from the file the id names. */
  function Resolve(fs: FileSystem, st: EngineState, k: MediaKey, id: string): (res: (Option<CachedTrack>, EngineState))
    requires CacheInvariant(st.cache)
    ensures CacheInvariant(res.1.cache)
    ensures res.0.Some? ==> CacheKey(res.0.value.track.mediaKey, res.0.value.track.id) == CacheKey(k, id)
    ensures res.0.Some? ==> CacheKey(k, id) in res.1.cache && res.1.cache[CacheKey(k, id)] == res.0.value
    ensures res.0.Some? && st.lastError.None? ==> res.1.lastError.None?
    ensures CacheKey(k, id) in st.cache ==> res == (Some(st.cache[CacheKey(k, id)]), st)
    ensures res.1 == st.(cache := res.1.cache, lastError := res.1.lastError)
  {
    var key := CacheKey(k, id);
    if key in st.cache then (Some(st.cache[key]), st)
    else LoadFromFile(fs, st, k, id)
  }

  /**
   * The end of `selectTrackInternal` once a track is found: a track without items is parsed
   * first ("parse_failed" when that fails) and cached under the key, then it is activated.
   */
  function UseFound(e: Env, st: EngineState, k: MediaKey, id: string, found: CachedTrack, now: int): (r: EngineState)
    requires CacheInvariant(st.cache)
    requires CacheKey(found.track.mediaKey, found.track.id) == CacheKey(k, id)
    ensures CacheInvariant(r.cache)
  {
    if found.items != [] then Activate(e, st, k, found, now)
    else
      var res := ParseTrackFromDisk(e.fs, st, found.track, found.score, found.reason);
      if res.0.None? then res.1.(lastError := Some(LoadError(found.track.filePath, "parse_failed")))
      else
        CacheInsert(res.1.cache, res.0.value);
        Activate(e, res.1.(cache := res.1.cache[CacheKey(k, id) := res.0.value]), k, res.0.value, now)
  }

  /**
   * `selectTrackInternal`: ignored without a media key or with an empty id; otherwise clears
   * the error, optionally ensures candidates, resolves the track and uses it.
   */
  function SelectInternal(e: Env, st: EngineState, k: Option<MediaKey>, id: Option<string>, callEnsure: bool, now: int): (r: EngineState)
    requires CacheInvariant(st.cache)
    ensures CacheInvariant(r.cache)
    decreases if callEnsure then 2 else 0
  {
    if k.None? || id.None? || id.value == [] then st
    else
      var s0 := st.(lastError := None);
      var s1 := if callEnsure then EnsureCandidates(e, s0, k.value, now) else s0;
      var res := Resolve(e.fs, s1, k.value, id.value);
      if res.0.None? then res.1 else UseFound(e, res.1, k.value, id.value, res.0.value, now)
  }

  /** `selectTrack`. */
  function SelectTrack(e: Env, st: EngineState, k: Option<MediaKey>, id: Option<string>, now: int): (r: EngineState)
    requires CacheInvariant(st.cache)
    ensures CacheInvariant(r.cache)
  {
    SelectInternal(e, st, k, id, true, now)
  }

  /** `bindTrack`: caches the track with its items (none when missing) and config (defaults when missing) at score 100, then selects it. */
  function BindTrack(e: Env, st: EngineState, track: Option<Track>, items: Option<seq<Item>>, config: Option<Config>, now: int): (r: EngineState)
    requires CacheInvariant(st.cache)
    ensures CacheInvariant(r.cache)
    ensures track.None? ==> r == st
  {
    if track.None? then st
    else
      var t := track.value;
      var cached := CachedTrack(t, items.GetOr([]), config.GetOr(Defaults()), 100, Some("prebound"));
      CacheInsert(st.cache, cached);
      SelectTrack(e, st.(cache := st.cache[CacheKey(t.mediaKey, t.id) := cached]), Some(t.mediaKey), Some(t.id), now)
  }

  /** The candidate a cached track is listed as; a missing reason reads "cached". */
  function ToCandidate(c: CachedTrack): (t: TrackCandidate)
    ensures t.track == c.track && t.score == c.score && t.reason.Some?
    ensures c.reason.Some? ==> t.reason == c.reason
  {
    TrackCandidate(c.track, c.score, Some(c.reason.GetOr("cached")))
  }

  /** `getTrackCandidates`' effect on the state: ensuring the candidates of the media item. */
  function CandidatesState(e: Env, st: EngineState, k: Option<MediaKey>, now: int): (r: EngineState)
    requires CacheInvariant(st.cache)
    ensures CacheInvariant(r.cache)
    ensures k.None? ==> r == st
  {
    if k.None? then st else EnsureCandidates(e, st, k.value, now)
  }

  /** The keys of the cached tracks of a media item. */
  function KeysFor(cache: map<string, CachedTrack>, k: MediaKey): set<string> {
    set key | key in cache && cache[key].track.mediaKey == k
  }

  /** By descending score. */
  predicate ByScore(cs: seq<TrackCandidate>) {
    forall i, j :: 0 <= i < j < |cs| ==> cs[i].score >= cs[j].score
  }

  /** `getTrackCandidates`' list: one candidate per cached track of the media item, by descending score. */
  ghost predicate ListsCandidates(cache: map<string, CachedTrack>, k: MediaKey, cs: seq<TrackCandidate>) {
    ByScore(cs) && |cs| == |KeysFor(cache, k)|
    && forall c :: c in cs <==> exists key :: key in KeysFor(cache, k) && c == ToCandidate(cache[key])
  }
}
