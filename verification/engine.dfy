/**
 * The danmaku engine: it owns the track cache and the renderer, keeps the renderer aligned
 * with the playback clock, moves the item window, and remembers the chosen track and config
 * per media item. Every operation is proved to change the engine exactly as the function of
 * the same name in `EngineSpec` says.
 */
module Engine {
  import opened Wrappers
  import opened Text
  import opened Configs
  import opened MediaKeys
  import opened Tracks
  import opened Clocks
  import opened Filtering
  import opened Windowing
  import opened BiliXml
  import opened Files
  import opened Discovery
  import opened Prefs
  import opened Renderers
  import opened EngineSpec

  class DanmakuEngine {
    const clock: SoftClock
    const preferences: DanmakuPreferences
    const fs: FileSystem
    const windowing: WindowingConfig

    var trackCache: map<string, CachedTrack>
    var renderer: Surface
    var activeTrack: Option<Track>
    var activeConfig: Config
    var activeItems: seq<Item>
    var visible: bool
    var prepared: bool
    var windowShiftPending: bool
    var lastAppliedPositionMs: int
    var lastError: Option<LoadError>
    var windowStartMs: int
    var windowEndMs: Bound
    var lastWindowPrepareRealtimeMs: int

    function Env(): Env {
      EngineSpec.Env(fs, preferences.codec, windowing)
    }

    function State(): EngineState
      reads this, clock, preferences
    {
      EngineState(trackCache, renderer, activeTrack, activeConfig, activeItems, visible, prepared,
                  windowShiftPending, lastAppliedPositionMs, lastError, windowStartMs, windowEndMs,
                  lastWindowPrepareRealtimeMs, clock.State(), preferences.Store())
    }

    predicate Valid()
      reads this
    {
      CacheInvariant(trackCache)
    }

    constructor(renderer: Surface, clock: SoftClock, preferences: DanmakuPreferences, fs: FileSystem,
                windowing: WindowingConfig, now: int)
      ensures this.clock == clock && this.preferences == preferences && this.fs == fs && this.windowing == windowing
      ensures Valid() && State() == Initial(renderer, clock.State(), preferences.Store(), now)
    {
      this.renderer := renderer;
      this.clock := clock;
      this.preferences := preferences;
      this.fs := fs;
      this.windowing := windowing;
      trackCache := map[];
      activeTrack := None;
      activeConfig := Defaults();
      activeItems := [];
      visible := false;
      prepared := false;
      windowShiftPending := false;
      lastAppliedPositionMs := 0;
      lastError := None;
      lastWindowPrepareRealtimeMs := now;
      windowStartMs := 0;
      windowEndMs := Unbounded;
    }

    // -------------------------------------------------------------------------------------
    // Renderer driving
    // -------------------------------------------------------------------------------------

    method SafeRendererCall(c: Call)
      modifies this
      ensures State() == SafeCall(old(State()), c)
    {
      if Throws(renderer, c) {
        prepared := false;
      } else {
        renderer := Apply(renderer, c);
      }
    }

    method RefreshWindow(positionMs: int, now: int)
      modifies this
      ensures State() == EngineSpec.RefreshWindow(windowing, old(State()), now, positionMs)
    {
      if activeItems == [] {
        return;
      }
      if !NeedsShift(windowStartMs, windowEndMs, windowing.guardMs, positionMs, windowShiftPending) {
        return;
      }
      if now - lastWindowPrepareRealtimeMs < windowing.reprepareThrottleMs {
        windowShiftPending := true;
        return;
      }
      prepared := false;
      windowShiftPending := false;
    }

    method PrepareRenderer(now: int)
      modifies this
      ensures State() == EngineSpec.PrepareRenderer(windowing, old(State()), now)
    {
      if activeItems == [] {
        return;
      }
      ghost var s0 := State();
      var positionMs := clock.NowMs(now);
      var windowed := WindowedItems(positionMs);
      var call := PrepareCall(windowed, activeConfig);
      if Throws(renderer, call) {
        prepared := false;
        PrepareFails(windowing, s0, now);
        return;
      }
      RecordPrepare(Apply(renderer, call), ComputeWindow(windowing, positionMs), positionMs, now);
      PrepareSteps(windowing, s0, now, State());
      ShowPrepared();
    }

    /** The bookkeeping of a successful prepare: the new window, the prepare time and the applied position. */
    method RecordPrepare(surface: Surface, range: WindowRange, positionMs: int, now: int)
      modifies this
      ensures var st := old(State());
              State() == st.(renderer := surface, prepared := surface.prepared,
                             windowStart := range.startMs, windowEnd := Finite(range.endMs),
                             pending := false, lastPrepare := now, lastApplied := positionMs + st.activeConfig.offsetMs)
    {
      renderer, prepared := surface, surface.prepared;
      windowStartMs, windowEndMs := range.startMs, Finite(range.endMs);
      RecordMarks(now, positionMs + activeConfig.offsetMs);
    }

    /** When a prepare happened and where it placed the renderer; no shift is pending after it. */
    method RecordMarks(now: int, appliedMs: int)
      modifies this
      ensures State() == old(State()).(pending := false, lastPrepare := now, lastApplied := appliedMs)
    {
      windowShiftPending, lastWindowPrepareRealtimeMs, lastAppliedPositionMs := false, now, appliedMs;
    }

    /** The end of a successful prepare: a shown renderer is made visible and sought to the applied position. */
    method ShowPrepared()
      modifies this
      ensures var st := old(State());
              State() == if st.prepared && st.visible then SafeCall(SafeCall(st, VisibleCall(true)), SeekCall(st.lastApplied)) else st
    {
      if prepared && visible {
        SafeRendererCall(VisibleCall(true));
        SafeRendererCall(SeekCall(lastAppliedPositionMs));
      }
    }

    /** The active items a prepare at `positionMs` hands over: filtered by the config, then windowed. */
    method WindowedItems(positionMs: int) returns (windowed: seq<Item>)
      ensures windowed == PreparedItems(windowing, State(), positionMs)
    {
      var filtered := ApplyFilters(activeItems, activeConfig);
      windowed := ApplyWindow(filtered, activeConfig.offsetMs, ComputeWindow(windowing, positionMs));
    }

    /** The seek-speed-play sequence shared by `tick` and `applyPlaybackState`. */
    method AlignRenderer(now: int, force: bool)
      modifies this
      ensures State() == Align(old(State()), old(clock.NowMs(now)), force)
    {
      var positionMs := clock.NowMs(now);
      ResyncRenderer(positionMs, force);
      PassPlayback();
    }

    method ResyncRenderer(positionMs: int, force: bool)
      modifies this
      ensures State() == Resync(old(State()), positionMs, force)
    {
      var effective := positionMs + activeConfig.offsetMs;
      var drift := Abs(effective - lastAppliedPositionMs);
      if force || drift >= ResyncThresholdMs {
        SafeRendererCall(SeekCall(effective));
        lastAppliedPositionMs := effective;
      }
    }

    method PassPlayback()
      modifies this
      ensures State() == EngineSpec.PassPlayback(old(State()))
    {
      SafeRendererCall(SpeedCall(clock.speed));
      if clock.playing {
        SafeRendererCall(PlayCall);
      } else {
        SafeRendererCall(PauseCall);
      }
    }

    method ApplyPlaybackState(force: bool, now: int)
      modifies this
      ensures State() == EngineSpec.ApplyPlaybackState(windowing, old(State()), now, force)
    {
      if activeTrack.None? {
        return;
      }
      RefreshWindow(clock.NowMs(now), now);
      if !prepared {
        PrepareRenderer(now);
      }
      SafeRendererCall(VisibleCall(visible));
      if !renderer.prepared {
        return;
      }
      AlignRenderer(now, force);
    }

    method Tick(now: int)
      modifies this
      ensures State() == EngineSpec.Tick(windowing, old(State()), now)
    {
      if activeTrack.None? {
        return;
      }
      if activeItems == [] {
        return;
      }
      RefreshWindow(clock.NowMs(now), now);
      if !prepared || !renderer.prepared {
        PrepareRenderer(now);
      }
      if !prepared || !renderer.prepared {
        return;
      }
      AlignRenderer(now, false);
    }

    method UpdatePlaybackState(positionMs: int, speed: real, playing: bool, now: int)
      modifies this, clock
      ensures State() == EngineSpec.UpdatePlaybackState(windowing, old(State()), now, positionMs, speed, playing)
    {
      clock.Anchor(positionMs, speed, now, playing);
      ApplyPlaybackState(false, now);
    }

    method Pause(now: int)
      modifies this, clock
      ensures State() == PauseState(windowing, old(State()), now)
    {
      clock.Pause(clock.NowMs(now), now);
      ApplyPlaybackState(false, now);
    }

    method Seek(positionMs: int, now: int)
      modifies this, clock
      ensures State() == EngineSpec.Seek(windowing, old(State()), now, positionMs)
    {
      ghost var st := State();
      clock.Seek(positionMs, now);
      SeekSteps(windowing, st, now, positionMs, State());
      var effective := positionMs + activeConfig.offsetMs;
      if !IsWithinWindow(effective, windowStartMs, windowEndMs) {
        ScheduleWindow(now);
      } else {
        SeekPrepared(effective);
      }
    }

    /** A target outside the window: a new window is pending, and the renderer is prepared again and sought. */
    method ScheduleWindow(now: int)
      modifies this
      ensures State() == EngineSpec.ApplyPlaybackState(windowing, old(State()).(pending := true, prepared := false), now, true)
    {
      windowShiftPending := true;
      prepared := false;
      ApplyPlaybackState(true, now);
    }

    /** A target inside the window: a prepared renderer is sought there directly. */
    method SeekPrepared(effective: int)
      modifies this
      ensures var st := old(State());
              State() == if st.renderer.prepared then SafeCall(st, SeekCall(effective)).(lastApplied := effective) else st
    {
      if renderer.prepared {
        SafeRendererCall(SeekCall(effective));
        lastAppliedPositionMs := effective;
      }
    }

    method UpdateSpeed(speed: real, now: int)
      modifies this, clock
      ensures State() == EngineSpec.UpdateSpeed(old(State()), now, speed)
    {
      clock.Anchor(clock.NowMs(now), speed, now, clock.playing);
      if renderer.prepared {
        SafeRendererCall(SpeedCall(speed));
      }
    }

    method SetVisibility(visible: bool)
      modifies this
      ensures State() == EngineSpec.SetVisibility(old(State()), visible)
    {
      this.visible := visible;
      SafeRendererCall(VisibleCall(visible));
    }

    method UpdateConfig(config: Option<Config>, now: int)
      modifies this, preferences
      ensures State() == EngineSpec.UpdateConfig(Env(), old(State()), now, config)
    {
      ghost var s0 := State();
      activeConfig := if config.None? then Defaults() else config.value;
      if activeTrack.Some? {
        preferences.SaveConfig(activeTrack.value.mediaKey, activeConfig);
      }
      prepared := false;
      UpdateConfigSteps(Env(), s0, now, config, State());
      PrepareRenderer(now);
      ApplyPlaybackState(true, now);
    }

    method AttachRenderer(newRenderer: Option<Surface>, now: int)
      modifies this
      ensures State() == EngineSpec.AttachRenderer(windowing, old(State()), now, newRenderer)
    {
      if newRenderer.None? {
        return;
      }
      renderer := newRenderer.value;
      prepared := false;
      if activeTrack.Some? && activeItems != [] {
        PrepareRenderer(now);
        ApplyPlaybackState(true, now);
      }
    }

    method DetachRenderer()
      modifies this
      ensures State() == EngineSpec.DetachRenderer(old(State()))
    {
      SafeRendererCall(ReleaseCall);
      prepared := false;
    }

    method GetStatus(now: int) returns (status: Status)
      ensures status == EngineSpec.GetStatus(State(), now)
    {
      status := Status(visible, clock.playing, clock.NowMs(now), clock.speed);
    }

    // -------------------------------------------------------------------------------------
    // Loading and selection
    // -------------------------------------------------------------------------------------

    method ParseTrackFromDisk(track: Track, score: int, reason: Option<string>) returns (found: Option<CachedTrack>)
      modifies this
      ensures (found, State()) == EngineSpec.ParseTrackFromDisk(fs, old(State()), track, score, reason)
    {
      var path := track.filePath;
      if !fs.isPresent(path) || !fs.canRead(path) {
        return None;
      }
      var doc := fs.open(path);
      if doc.None? {
        lastError := Some(LoadError(path, "IO"));
        return None;
      }
      var parsed := Parse(doc.value);
      match parsed {
        case Success(items) =>
          lastError := None;
          found := Some(CachedTrack(track, items, track.config, score, reason));
        case Failure(why) =>
          lastError := Some(LoadError(path, ReasonName(why)));
          found := None;
      }
    }

    method LoadFromFile(k: MediaKey, id: string) returns (found: Option<CachedTrack>)
      requires Valid()
      modifies this
      ensures (found, State()) == EngineSpec.LoadFromFile(fs, old(State()), k, id)
    {
      if !fs.isPresent(id) {
        lastError := Some(LoadError(id, "missing"));
        return None;
      }
      ghost var s0 := State();
      found := ParseTrackFromDisk(FileTrack(fs, k, id), 80, Some("file"));
      LoadSteps(fs, s0, k, id, found, State());
      if found.Some? {
        trackCache := trackCache[CacheKey(k, id) := found.value];
      }
    }

    method MergeConfig(track: Track, candidate: Config) returns (config: Config)
      modifies preferences
      ensures (config, preferences.Store()) == EngineSpec.MergeConfig(preferences.codec, old(preferences.Store()), track, candidate)
    {
      var saved := preferences.GetConfig(track.mediaKey);
      if saved.Some? {
        return saved.value;
      }
      var defaultConfig := preferences.GetDefaultConfig();
      if defaultConfig.Some? {
        return defaultConfig.value;
      }
      return candidate;
    }

    /** The part of `selectTrackInternal` after a track has been found for the key. */
    method Activate(k: MediaKey, cached: CachedTrack, now: int)
      modifies this, preferences
      ensures State() == EngineSpec.Activate(Env(), old(State()), k, cached, now)
    {
      ghost var s0 := State();
      var config := MergeConfig(cached.track, cached.config);
      SetSelection(cached, config);
      ghost var s1 := State();
      PrepareRenderer(now);
      ApplyPlaybackState(true, now);
      ghost var s2 := State();
      preferences.SaveLastTrack(k, cached.track);
      preferences.SaveConfig(k, activeConfig);
      ActivateSteps(Env(), s0, k, cached, now, s1, s2);
    }

    /** Makes `cached` the active track with `config`, with no window yet and the renderer to be prepared. */
    method SetSelection(cached: CachedTrack, config: Config)
      modifies this
      ensures State() == old(State()).(activeTrack := Some(cached.track), activeItems := cached.items, activeConfig := config,
                                       prepared := false, pending := false, windowStart := 0, windowEnd := Unbounded)
    {
      activeTrack, activeItems, activeConfig := Some(cached.track), cached.items, config;
      ResetWindow();
    }

    /** Forgets the window: nothing is prepared, no shift is pending and the window is unbounded. */
    method ResetWindow()
      modifies this
      ensures State() == old(State()).(prepared := false, pending := false, windowStart := 0, windowEnd := Unbounded)
    {
      prepared, windowShiftPending, windowStartMs, windowEndMs := false, false, 0, Unbounded;
    }

    method UseFound(k: MediaKey, id: string, found: CachedTrack, now: int)
      requires Valid() && CacheKey(found.track.mediaKey, found.track.id) == CacheKey(k, id)
      modifies this, preferences
      ensures State() == EngineSpec.UseFound(Env(), old(State()), k, id, found, now)
    {
      var cached := found;
      if cached.items == [] {
        var parsed := ParseTrackFromDisk(cached.track, cached.score, cached.reason);
        if parsed.None? {
          lastError := Some(LoadError(cached.track.filePath, "parse_failed"));
          return;
        }
        cached := parsed.value;
        trackCache := trackCache[CacheKey(k, id) := cached];
      }
      Activate(k, cached, now);
    }

    method SelectTrackInternal(k: Option<MediaKey>, id: Option<string>, callEnsure: bool, now: int)
      requires Valid()
      modifies this, clock, preferences
      ensures Valid()
      ensures State() == SelectInternal(Env(), old(State()), k, id, callEnsure, now)
      decreases if callEnsure then 2 else 0
    {
      if k.None? {
        return;
      }
      if id.None? || id.value == [] {
        return;
      }
      ghost var s0 := State();
      lastError := None;
      if callEnsure {
        EnsureCandidates(k.value, now);
      }
      SelectSteps(Env(), s0, k.value, id.value, callEnsure, now, State());
      var found := ResolveTrack(k.value, id.value);
      if found.None? {
        return;
      }
      UseFound(k.value, id.value, found.value, now);
    }

    /** The cached track for the key, or else the one loaded from the file the id names. */
    method ResolveTrack(k: MediaKey, id: string) returns (found: Option<CachedTrack>)
      requires Valid()
      modifies this
      ensures Valid()
      ensures (found, State()) == Resolve(fs, old(State()), k, id)
    {
      var key := CacheKey(k, id);
      if key in trackCache {
        found := Some(trackCache[key]);
      } else {
        found := LoadFromFile(k, id);
      }
    }

    method EnsureCandidates(k: MediaKey, now: int)
      requires Valid()
      modifies this, clock, preferences
      ensures Valid()
      ensures State() == EngineSpec.EnsureCandidates(Env(), old(State()), k, now)
      decreases 1
    {
      ghost var s0 := State();
      if HasTracksFor(trackCache, k) {
        var lastTrackId := preferences.GetLastTrackId(k);
        EnsureCachedSteps(Env(), s0, k, now);
        if lastTrackId.Some? && CacheKey(k, lastTrackId.value) in trackCache && Some(lastTrackId.value) != ActiveId(State()) {
          SelectTrackInternal(Some(k), lastTrackId, false, now);
        }
        return;
      }
      var discovered := RegisterDiscovered(k);
      EnsureDiscoveredSteps(Env(), s0, k, now);
      var lastTrackId := preferences.GetLastTrackId(k);
      if lastTrackId.Some? && CacheKey(k, lastTrackId.value) in trackCache {
        SelectTrackInternal(Some(k), lastTrackId, false, now);
        return;
      }
      if discovered != [] {
        var best := discovered[0].track.id;
        if Some(best) != ActiveId(State()) {
          SelectTrackInternal(Some(k), Some(best), false, now);
        }
      }
    }

    /** The discovery half of `ensureCandidates`: every discovered file is cached, without items yet. */
    method RegisterDiscovered(k: MediaKey) returns (discovered: seq<TrackCandidate>)
      requires Valid()
      modifies this
      ensures discovered == Discovered(fs, Some(k))
      ensures forall c :: c in discovered ==> c.track.mediaKey == k
      ensures Valid() && State() == old(State()).(cache := Registered(old(trackCache), k, discovered))
    {
      ghost var s0 := State();
      discovered := Discover(fs, Some(k));
      DiscoveredForKey(fs, k);
      var i := 0;
      while i < |discovered|
        invariant 0 <= i <= |discovered|
        invariant State() == s0.(cache := Registered(s0.cache, k, discovered[..i]))
      {
        RegisteredSnoc(s0.cache, k, discovered, i);
        var track := discovered[i].track;
        trackCache := trackCache[CacheKey(k, track.id) := CachedTrack(track, [], track.config, discovered[i].score, discovered[i].reason)];
        i := i + 1;
      }
      assert discovered[..|discovered|] == discovered;
    }

    method SelectTrack(k: Option<MediaKey>, id: Option<string>, now: int)
      requires Valid()
      modifies this, clock, preferences
      ensures Valid()
      ensures State() == EngineSpec.SelectTrack(Env(), old(State()), k, id, now)
    {
      SelectTrackInternal(k, id, true, now);
    }

    method BindTrack(track: Option<Track>, items: Option<seq<Item>>, config: Option<Config>, now: int)
      requires Valid()
      modifies this, clock, preferences
      ensures Valid()
      ensures State() == EngineSpec.BindTrack(Env(), old(State()), track, items, config, now)
    {
      if track.None? {
        return;
      }
      var t := track.value;
      var safeItems := if items.None? then [] else items.value;
      var resolvedConfig := if config.None? then Defaults() else config.value;
      trackCache := trackCache[CacheKey(t.mediaKey, t.id) := CachedTrack(t, safeItems, resolvedConfig, 100, Some("prebound"))];
      SelectTrack(Some(t.mediaKey), Some(t.id), now);
    }

    /**
     * `getTrackCandidates`: ensures the candidates, then lists the cached tracks of the media
     * item by descending score.
     */
    method GetTrackCandidates(k: Option<MediaKey>, now: int) returns (result: seq<TrackCandidate>)
      requires Valid()
      modifies this, clock, preferences
      ensures Valid()
      ensures State() == CandidatesState(Env(), old(State()), k, now)
      ensures k.None? ==> result == []
      ensures k.Some? ==> ListsCandidates(trackCache, k.value, result)
    {
      if k.None? {
        return [];
      }
      EnsureCandidates(k.value, now);
      result := CachedCandidates(k.value);
    }

    /**
     * The listing part of `getTrackCandidates`: one candidate per cached track of the media
     * item, taken in the cache's own (unspecified) order and inserted stably by descending score.
     */
    method CachedCandidates(k: MediaKey) returns (result: seq<TrackCandidate>)
      ensures ListsCandidates(trackCache, k, result)
    {
      var cache := trackCache;
      var keys := KeysFor(cache, k);
      var remaining := keys;
      result := [];
      while remaining != {}
        invariant remaining <= keys <= cache.Keys
        invariant |result| + |remaining| == |keys|
        invariant ByScore(result)
        invariant ListsKeys(cache, keys - remaining, result)
        decreases |remaining|
      {
        var key :| key in remaining;
        ListsKeysInsert(cache, keys - remaining, key, result);
        InsertByScoreSorted(ToCandidate(cache[key]), result);
        result := InsertByScore(ToCandidate(cache[key]), result);
        assert keys - remaining + {key} == keys - (remaining - {key});
        remaining := remaining - {key};
      }
    }
  }

  /** `cs` holds exactly the candidates of the cached tracks under `done`. */
  ghost predicate ListsKeys(cache: map<string, CachedTrack>, done: set<string>, cs: seq<TrackCandidate>)
    requires done <= cache.Keys
  {
    forall c :: c in cs <==> exists key :: key in done && c == ToCandidate(cache[key])
  }

  lemma ListsKeysInsert(cache: map<string, CachedTrack>, done: set<string>, key: string, cs: seq<TrackCandidate>)
    requires done <= cache.Keys && key in cache
    requires ListsKeys(cache, done, cs)
    ensures ListsKeys(cache, done + {key}, InsertByScore(ToCandidate(cache[key]), cs))
  {
    var r := InsertByScore(ToCandidate(cache[key]), cs);
    InsertByScoreMembers(ToCandidate(cache[key]), cs);
    forall c ensures c in r <==> exists k' :: k' in done + {key} && c == ToCandidate(cache[k'])
    {
      if c in r && c != ToCandidate(cache[key]) {
        assert c in cs;
        var k' :| k' in done && c == ToCandidate(cache[k']);
        assert k' in done + {key};
      }
      if c == ToCandidate(cache[key]) {
        assert key in done + {key};
      }
    }
  }

  /** Places `c` after every element whose score is at least its own (a stable insertion). */
  function InsertByScore(c: TrackCandidate, cs: seq<TrackCandidate>): (r: seq<TrackCandidate>)
    ensures |r| == |cs| + 1
    ensures multiset(r) == multiset(cs) + multiset{c}
  {
    if cs == [] then [c]
    else if c.score > cs[0].score then [c] + cs
    else
      assert cs == [cs[0]] + cs[1..];
      [cs[0]] + InsertByScore(c, cs[1..])
  }

  /** Insertion keeps a list ordered by descending score. */
  lemma {:induction false} InsertByScoreSorted(c: TrackCandidate, cs: seq<TrackCandidate>)
    requires ByScore(cs)
    ensures ByScore(InsertByScore(c, cs))
  {
    if cs != [] && c.score <= cs[0].score {
      var rest := InsertByScore(c, cs[1..]);
      InsertByScoreSorted(c, cs[1..]);
      forall i | 0 <= i < |rest| ensures rest[i].score <= cs[0].score {
        assert rest[i] in multiset(cs[1..]) + multiset{c};
      }
    }
  }

  lemma InsertByScoreMembers(c: TrackCandidate, cs: seq<TrackCandidate>)
    ensures forall x :: x in InsertByScore(c, cs) <==> x in cs || x == c
  {
    var r := InsertByScore(c, cs);
    forall x ensures x in r <==> x in cs || x == c {
      assert x in r <==> x in multiset(r);
      assert x in cs <==> x in multiset(cs);
    }
  }

  /** `PrepareRenderer` after a prepare call that succeeded. */
  lemma PrepareSteps(w: WindowingConfig, st: EngineState, now: int, s1: EngineState)
    requires st.activeItems != []
    requires !Throws(st.renderer, PrepareCall(PreparedItems(w, st, st.clock.NowMs(now)), st.activeConfig))
    requires s1 == st.(renderer := Apply(st.renderer, PrepareCall(PreparedItems(w, st, st.clock.NowMs(now)), st.activeConfig)),
                       prepared := s1.renderer.prepared,
                       windowStart := ComputeWindow(w, st.clock.NowMs(now)).startMs,
                       windowEnd := Finite(ComputeWindow(w, st.clock.NowMs(now)).endMs),
                       pending := false, lastPrepare := now,
                       lastApplied := st.clock.NowMs(now) + st.activeConfig.offsetMs)
    ensures EngineSpec.PrepareRenderer(w, st, now)
            == if s1.prepared && s1.visible then SafeCall(SafeCall(s1, VisibleCall(true)), SeekCall(s1.lastApplied)) else s1
  {
  }

  /** Registering one more candidate stores it on top of the ones before it. */
  lemma RegisteredSnoc(cache: map<string, CachedTrack>, k: MediaKey, cs: seq<TrackCandidate>, i: nat)
    requires CacheInvariant(cache) && i < |cs|
    requires forall c :: c in cs ==> c.track.mediaKey == k
    ensures forall c :: c in cs[..i] ==> c.track.mediaKey == k
    ensures forall c :: c in cs[..i + 1] ==> c.track.mediaKey == k
    ensures Registered(cache, k, cs[..i + 1])
            == Registered(cache, k, cs[..i])[CacheKey(k, cs[i].track.id) := CachedTrack(cs[i].track, [], cs[i].track.config, cs[i].score, cs[i].reason)]
  {
    assert cs[..i + 1][..i] == cs[..i];
    assert forall c :: c in cs[..i + 1] ==> c in cs;
  }

  /** `seek` once the clock is re-based. */
  lemma SeekSteps(w: WindowingConfig, st: EngineState, now: int, positionMs: int, s0: EngineState)
    requires s0 == st.(clock := st.clock.(anchorPositionMs := positionMs, anchorRealtimeMs := now))
    ensures var effective := positionMs + s0.activeConfig.offsetMs;
            EngineSpec.Seek(w, st, now, positionMs)
            == if !IsWithinWindow(effective, s0.windowStart, s0.windowEnd)
               then EngineSpec.ApplyPlaybackState(w, s0.(pending := true, prepared := false), now, true)
               else if s0.renderer.prepared then SafeCall(s0, SeekCall(effective)).(lastApplied := effective)
               else s0
  {
  }

  /** The steps of `loadFromFile` for an id that names an existing file. */
  lemma LoadSteps(fs: FileSystem, st: EngineState, k: MediaKey, id: string, parsed: Option<CachedTrack>, s1: EngineState)
    requires CacheInvariant(st.cache) && fs.isPresent(id)
    requires (parsed, s1) == ParseTrackFromDisk(fs, st, FileTrack(fs, k, id), 80, Some("file"))
    ensures EngineSpec.LoadFromFile(fs, st, k, id)
            == if parsed.None? then (None, s1) else (parsed, s1.(cache := s1.cache[CacheKey(k, id) := parsed.value]))
  {
  }

  /** The steps of `updateConfig`: store the config, then prepare and apply from the unprepared state. */
  lemma UpdateConfigSteps(e: Env, st: EngineState, now: int, config: Option<Config>, s1: EngineState)
    requires var c := config.GetOr(Defaults());
             s1 == if st.activeTrack.Some?
                   then st.(activeConfig := c, prefs := StoreConfig(st.prefs, e.codec, st.activeTrack.value.mediaKey, c), prepared := false)
                   else st.(activeConfig := c, prepared := false)
    ensures EngineSpec.UpdateConfig(e, st, now, config) == ApplyPlaybackState(e.windowing, EngineSpec.PrepareRenderer(e.windowing, s1, now), now, true)
  {
  }

  /** The steps of `selectTrackInternal` once the error is cleared and candidates are ensured. */
  lemma SelectSteps(e: Env, st: EngineState, k: MediaKey, id: string, callEnsure: bool, now: int, s1: EngineState)
    requires CacheInvariant(st.cache) && id != []
    requires s1 == if callEnsure then EngineSpec.EnsureCandidates(e, st.(lastError := None), k, now) else st.(lastError := None)
    ensures CacheInvariant(s1.cache)
    ensures SelectInternal(e, st, Some(k), Some(id), callEnsure, now)
            == var res := Resolve(e.fs, s1, k, id);
               if res.0.None? then res.1 else EngineSpec.UseFound(e, res.1, k, id, res.0.value, now)
  {
  }

  /** The steps of `Activate`: set the selection, prepare and apply, then remember the choice. */
  lemma ActivateSteps(e: Env, st: EngineState, k: MediaKey, cached: CachedTrack, now: int, s1: EngineState, s2: EngineState)
    requires s1 == st.(activeTrack := Some(cached.track), activeItems := cached.items,
                       activeConfig := MergeConfig(e.codec, st.prefs, cached.track, cached.config).0,
                       prefs := MergeConfig(e.codec, st.prefs, cached.track, cached.config).1,
                       prepared := false, pending := false, windowStart := 0, windowEnd := Unbounded)
    requires s2 == ApplyPlaybackState(e.windowing, EngineSpec.PrepareRenderer(e.windowing, s1, now), now, true)
    ensures EngineSpec.Activate(e, st, k, cached, now)
            == s2.(prefs := StoreConfig(StoreLastTrack(s2.prefs, k, cached.track), e.codec, k, s2.activeConfig))
  {
  }

  /** `EnsureCandidates` when the media item already has cached tracks. */
  lemma EnsureCachedSteps(e: Env, st: EngineState, k: MediaKey, now: int)
    requires CacheInvariant(st.cache) && HasTracksFor(st.cache, k)
    ensures var last := LastTrackId(st.prefs, k);
            EngineSpec.EnsureCandidates(e, st, k, now)
            == if last.Some? && CacheKey(k, last.value) in st.cache && Some(last.value) != ActiveId(st)
               then SelectInternal(e, st, Some(k), last, false, now) else st
  {
  }

  /** `EnsureCandidates` when the media item has no cached track: discover and register first. */
  lemma EnsureDiscoveredSteps(e: Env, st: EngineState, k: MediaKey, now: int)
    requires CacheInvariant(st.cache) && !HasTracksFor(st.cache, k)
    ensures forall c :: c in Discovered(e.fs, Some(k)) ==> c.track.mediaKey == k
    ensures var discovered := Discovered(e.fs, Some(k));
            var s1 := st.(cache := Registered(st.cache, k, discovered));
            var last := LastTrackId(s1.prefs, k);
            EngineSpec.EnsureCandidates(e, st, k, now)
            == if last.Some? && CacheKey(k, last.value) in s1.cache then SelectInternal(e, s1, Some(k), last, false, now)
               else if discovered != [] && Some(discovered[0].track.id) != ActiveId(s1)
               then SelectInternal(e, s1, Some(k), Some(discovered[0].track.id), false, now)
               else s1
  {
    DiscoveredForKey(e.fs, k);
  }

  /** `PrepareRenderer` when the prepare call throws. */
  lemma PrepareFails(w: WindowingConfig, st: EngineState, now: int)
    requires st.activeItems != []
    requires Throws(st.renderer, PrepareCall(PreparedItems(w, st, st.clock.NowMs(now)), st.activeConfig))
    ensures EngineSpec.PrepareRenderer(w, st, now) == st.(prepared := false)
  {
  }
}
