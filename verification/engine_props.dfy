/**
 * Properties of the engine operations: the resync threshold, window shifts and their throttle,
 * seeks inside and outside the window, and what a selection leaves behind. The scenario lemmas
 * replay the engine's own unit-test sequences on the model.
 */
module EngineProps {
  import opened Wrappers
  import opened Text
  import opened Configs
  import opened MediaKeys
  import opened Tracks
  import opened Clocks
  import opened Filtering
  import opened Windowing
  import opened Files
  import opened Prefs
  import opened Renderers
  import opened EngineSpec

  /** The renderer calls made while aligning leave the window bookkeeping alone. */
  predicate SameWindow(a: EngineState, b: EngineState) {
    a.windowStart == b.windowStart && a.windowEnd == b.windowEnd && a.pending == b.pending
    && a.lastPrepare == b.lastPrepare && a.renderer.items == b.renderer.items
    && a.renderer.prepareCount == b.renderer.prepareCount
  }

  /**
   * After aligning at clock position `positionMs`, the applied position is within the threshold
   * of the offset-adjusted clock: a drift of 200 ms or more (or a forced alignment) seeks the
   * renderer there, a smaller drift leaves the renderer's position alone.
   */
  lemma AlignKeepsDriftBelowThreshold(st: EngineState, positionMs: int, force: bool)
    ensures var effective := positionMs + st.activeConfig.offsetMs;
            var r := Align(st, positionMs, force);
            var resync := force || Abs(effective - st.lastApplied) >= ResyncThresholdMs;
            && Abs(effective - r.lastApplied) < ResyncThresholdMs
            && r.lastApplied == (if resync then effective else st.lastApplied)
            && (OpSeek !in st.renderer.failing ==> r.renderer.lastSeekMs == (if resync then effective else st.renderer.lastSeekMs))
  {
  }

  /** Aligning passes the clock's speed on to the renderer. */
  lemma AlignPassesSpeed(st: EngineState, positionMs: int, force: bool)
    requires OpSpeed !in st.renderer.failing
    ensures Align(st, positionMs, force).renderer.lastSpeed == st.clock.speed
  {
  }

  /** Aligning touches neither the window nor the renderer's items. */
  lemma AlignKeepsWindow(st: EngineState, positionMs: int, force: bool)
    ensures SameWindow(st, Align(st, positionMs, force))
  {
    var s1 := Resync(st, positionMs, force);
    var effective := positionMs + st.activeConfig.offsetMs;
    if force || Abs(effective - st.lastApplied) >= ResyncThresholdMs {
      SafeCallKeepsWindow(st, SeekCall(effective));
    }
    PassPlaybackKeepsWindow(s1);
  }

  lemma PassPlaybackKeepsWindow(st: EngineState)
    ensures SameWindow(st, PassPlayback(st))
  {
    var s1 := SafeCall(st, SpeedCall(st.clock.speed));
    SafeCallKeepsWindow(st, SpeedCall(st.clock.speed));
    SafeCallKeepsWindow(s1, PlayCall);
    SafeCallKeepsWindow(s1, PauseCall);
  }

  /** With no failing call, aligning leaves both prepared flags as they were. */
  lemma AlignKeepsPrepared(st: EngineState, positionMs: int, force: bool)
    requires st.renderer.failing == {}
    ensures Align(st, positionMs, force).prepared == st.prepared
    ensures Align(st, positionMs, force).renderer.prepared == st.renderer.prepared
  {
    var s1 := Resync(st, positionMs, force);
    assert s1.prepared == st.prepared && s1.renderer.prepared == st.renderer.prepared && s1.renderer.failing == {};
    PassPlaybackKeepsPrepared(s1);
  }

  lemma PassPlaybackKeepsPrepared(st: EngineState)
    requires st.renderer.failing == {}
    ensures PassPlayback(st).prepared == st.prepared
    ensures PassPlayback(st).renderer.prepared == st.renderer.prepared
  {
  }

  /** A renderer call other than `prepare` changes only the renderer, and a call that throws not even that. */
  lemma SafeCallKeepsWindow(st: EngineState, c: Call)
    requires !c.PrepareCall?
    ensures var r := SafeCall(st, c);
            && SameWindow(st, r) && r.lastApplied == st.lastApplied && r.clock == st.clock
            && r.renderer.failing == st.renderer.failing
            && (!c.SeekCall? ==> r.renderer.lastSeekMs == st.renderer.lastSeekMs)
            && (!c.SpeedCall? ==> r.renderer.lastSpeed == st.renderer.lastSpeed)
            && (!Throws(st.renderer, c) && c.SeekCall? ==> r.renderer.lastSeekMs == c.positionMs)
            && (!Throws(st.renderer, c) && c.SpeedCall? ==> r.renderer.lastSpeed == c.speed)
            && (st.renderer.failing == {} && !c.ReleaseCall? ==> r.prepared == st.prepared && r.renderer.prepared == st.renderer.prepared)
  {
  }

  /**
   * With no failing call, aligning passes the clock's speed, plays or pauses once as the clock
   * does, keeps the surface's visibility and prepared flags, and a forced alignment seeks to
   * the offset-adjusted position.
   */
  lemma AlignTransport(st: EngineState, positionMs: int, force: bool)
    requires st.renderer.failing == {}
    ensures var r := Align(st, positionMs, force);
            && r.renderer.lastSpeed == st.clock.speed
            && r.renderer.playCount == st.renderer.playCount + (if st.clock.playing then 1 else 0)
            && r.renderer.pauseCount == st.renderer.pauseCount + (if st.clock.playing then 0 else 1)
            && r.renderer.visible == st.renderer.visible && r.renderer.failing == {}
            && r.prepared == st.prepared && r.renderer.prepared == st.renderer.prepared
            && (force ==> r.lastApplied == positionMs + st.activeConfig.offsetMs
                          && r.renderer.lastSeekMs == positionMs + st.activeConfig.offsetMs)
  {
    ResyncTransport(st, positionMs, force);
    PassPlaybackTransport(Resync(st, positionMs, force));
  }

  /** With no failing call, a resync touches only the seek target and the recorded position. */
  lemma ResyncTransport(st: EngineState, positionMs: int, force: bool)
    requires st.renderer.failing == {}
    ensures var r := Resync(st, positionMs, force);
            && r.renderer.failing == {} && r.clock == st.clock && r.renderer.visible == st.renderer.visible
            && r.renderer.playCount == st.renderer.playCount && r.renderer.pauseCount == st.renderer.pauseCount
            && r.prepared == st.prepared && r.renderer.prepared == st.renderer.prepared
            && (force ==> r.lastApplied == positionMs + st.activeConfig.offsetMs
                          && r.renderer.lastSeekMs == positionMs + st.activeConfig.offsetMs)
  {
  }

  /** With no failing call, passing the playback state sets the speed and plays or pauses once. */
  lemma PassPlaybackTransport(st: EngineState)
    requires st.renderer.failing == {}
    ensures var r := PassPlayback(st);
            && r.renderer.lastSpeed == st.clock.speed
            && r.renderer.playCount == st.renderer.playCount + (if st.clock.playing then 1 else 0)
            && r.renderer.pauseCount == st.renderer.pauseCount + (if st.clock.playing then 0 else 1)
            && r.renderer.visible == st.renderer.visible && r.renderer.failing == {}
            && r.prepared == st.prepared && r.renderer.prepared == st.renderer.prepared
            && r.lastApplied == st.lastApplied && r.renderer.lastSeekMs == st.renderer.lastSeekMs
  {
    var s1 := SafeCall(st, SpeedCall(st.clock.speed));
    assert s1.renderer.lastSpeed == st.clock.speed && s1.renderer.lastSeekMs == st.renderer.lastSeekMs;
  }

  /**
   * The first half of `applyPlaybackState` with no failing call: after the window check, the
   * prepare it may need and the visibility call, the renderer is prepared, shows the engine's
   * visibility, and has neither played nor paused; a renderer already holding the items of a
   * prepare at the clock's position still holds them.
   */
  lemma ApplyPrepares(w: WindowingConfig, st: EngineState, now: int)
    requires st.activeTrack.Some? && st.activeItems != [] && st.renderer.failing == {}
    requires st.prepared ==> st.renderer.prepared
    ensures var pos := st.clock.NowMs(now);
            var s1 := RefreshWindow(w, st, now, pos);
            var s2 := if !s1.prepared then PrepareRenderer(w, s1, now) else s1;
            var s3 := SafeCall(s2, VisibleCall(s2.visible));
            && s3.prepared && s3.renderer.prepared && s3.renderer.visible == st.visible && s3.renderer.failing == {}
            && SameSelection(st, s3) && s3.renderer.prepareCount >= st.renderer.prepareCount
            && s3.renderer.playCount == st.renderer.playCount && s3.renderer.pauseCount == st.renderer.pauseCount
            && (st.renderer.items == PreparedItems(w, st, pos) ==> s3.renderer.items == PreparedItems(w, st, pos))
  {
    var pos := st.clock.NowMs(now);
    var s1 := RefreshWindow(w, st, now, pos);
    assert s1 == st || s1 == st.(pending := true) || s1 == st.(prepared := false, pending := false);
    if !s1.prepared {
      PrepareKeepsItems(w, s1, now);
      assert PreparedItems(w, s1, pos) == PreparedItems(w, st, pos);
    }
  }

  /**
   * `applyPlaybackState` with a track that has items and no failing call: the renderer ends
   * prepared and shows the engine's visibility, receives the clock's speed, plays or pauses
   * once as the clock does, and stays within the resync threshold of the offset-adjusted
   * clock; a forced call seeks exactly there.
   */
  lemma ApplyTransport(w: WindowingConfig, st: EngineState, now: int, force: bool)
    requires st.activeTrack.Some? && st.activeItems != [] && st.renderer.failing == {}
    requires st.prepared ==> st.renderer.prepared
    ensures var pos := st.clock.NowMs(now);
            var effective := pos + st.activeConfig.offsetMs;
            var r := ApplyPlaybackState(w, st, now, force);
            && r.prepared && r.renderer.prepared && r.renderer.visible == st.visible
            && r.renderer.lastSpeed == st.clock.speed
            && r.renderer.playCount == st.renderer.playCount + (if st.clock.playing then 1 else 0)
            && r.renderer.pauseCount == st.renderer.pauseCount + (if st.clock.playing then 0 else 1)
            && r.renderer.prepareCount >= st.renderer.prepareCount
            && Abs(effective - r.lastApplied) < ResyncThresholdMs
            && (force ==> r.lastApplied == effective && r.renderer.lastSeekMs == effective)
            && (st.renderer.items == PreparedItems(w, st, pos) ==> r.renderer.items == PreparedItems(w, st, pos))
  {
    var pos := st.clock.NowMs(now);
    var s1 := RefreshWindow(w, st, now, pos);
    var s2 := if !s1.prepared then PrepareRenderer(w, s1, now) else s1;
    var s3 := SafeCall(s2, VisibleCall(s2.visible));
    ApplyPrepares(w, st, now);
    assert ApplyPlaybackState(w, st, now, force) == Align(s3, pos, force);
    AlignTransport(s3, pos, force);
    AlignKeepsDriftBelowThreshold(s3, pos, force);
    AlignKeepsWindow(s3, pos, force);
  }

  /**
   * `updatePlaybackState` with a track that has items and no failing call: the renderer
   * receives the new speed, plays when playing and pauses otherwise, and is sought to within
   * the threshold of the new offset-adjusted position.
   */
  lemma UpdatePlaybackTransport(w: WindowingConfig, st: EngineState, now: int, positionMs: int, speed: real, playing: bool)
    requires st.activeTrack.Some? && st.activeItems != [] && st.renderer.failing == {}
    requires st.prepared ==> st.renderer.prepared
    ensures var r := UpdatePlaybackState(w, st, now, positionMs, speed, playing);
            && r.prepared && r.renderer.prepared && r.renderer.lastSpeed == speed
            && r.renderer.playCount == st.renderer.playCount + (if playing then 1 else 0)
            && r.renderer.pauseCount == st.renderer.pauseCount + (if playing then 0 else 1)
            && Abs(positionMs + st.activeConfig.offsetMs - r.lastApplied) < ResyncThresholdMs
  {
    var s0 := st.(clock := ClockState(positionMs, now, speed, playing));
    assert s0.clock.NowMs(now) == positionMs;
    ApplyTransport(w, s0, now, false);
  }

  /**
   * `pause` with a track that has items and no failing call: the renderer is paused once, never
   * played, and given speed 0, and the position then stays where it was.
   */
  lemma PauseTransport(w: WindowingConfig, st: EngineState, now: int, later: int)
    requires st.activeTrack.Some? && st.activeItems != [] && st.renderer.failing == {}
    requires st.prepared ==> st.renderer.prepared
    ensures var r := PauseState(w, st, now);
            && r.prepared && r.renderer.prepared && r.renderer.lastSpeed == 0.0
            && r.renderer.pauseCount == st.renderer.pauseCount + 1 && r.renderer.playCount == st.renderer.playCount
            && r.clock.NowMs(later) == st.clock.NowMs(now)
  {
    var s0 := st.(clock := ClockState(st.clock.NowMs(now), now, 0.0, false));
    ApplyTransport(w, s0, now, false);
  }

  /**
   * Attaching a renderer that does not fail, with a track that has items, prepares it with the
   * filtered and windowed items around the clock's position and forces it to the
   * offset-adjusted position, passing on the speed and the playing state.
   */
  lemma AttachRendererRealigns(w: WindowingConfig, st: EngineState, now: int, surface: Surface)
    requires st.activeTrack.Some? && st.activeItems != [] && surface.failing == {}
    ensures var pos := st.clock.NowMs(now);
            var effective := pos + st.activeConfig.offsetMs;
            var r := AttachRenderer(w, st, now, Some(surface));
            && r.prepared && r.renderer.prepared && r.renderer.prepareCount > surface.prepareCount
            && r.renderer.items == PreparedItems(w, st, pos)
            && r.renderer.lastSeekMs == effective && r.lastApplied == effective
            && r.renderer.lastSpeed == st.clock.speed && r.renderer.visible == st.visible
  {
    var pos := st.clock.NowMs(now);
    var s0 := st.(renderer := surface, prepared := false);
    var s1 := PrepareRenderer(w, s0, now);
    PrepareKeepsItems(w, s0, now);
    assert PreparedItems(w, s0, pos) == PreparedItems(w, st, pos);
    assert PreparedItems(w, s1, pos) == PreparedItems(w, st, pos) && s1.clock == st.clock;
    ApplyTransport(w, s1, now, true);
  }

  /**
   * `updateConfig` with a track that has items, a renderer that does not fail and a sound codec:
   * the config becomes the one read back for the track's media item, and the renderer is
   * prepared again with the items that pass the new config's filters and fall in the window
   * around the clock's position, then forced to the newly offset position.
   */
  lemma UpdateConfigPersistsAndFilters(e: Env, st: EngineState, now: int, config: Option<Config>)
    requires st.activeTrack.Some? && st.activeItems != [] && st.renderer.failing == {} && Sound(e.codec)
    ensures var c := config.GetOr(Defaults());
            var pos := st.clock.NowMs(now);
            var r := UpdateConfig(e, st, now, config);
            && r.activeConfig == c
            && ReadConfig(r.prefs, e.codec, st.activeTrack.value.mediaKey).0 == Some(c)
            && r.prepared && r.renderer.prepared
            && r.renderer.items == Windowed(Filtered(st.activeItems, c), c.offsetMs, ComputeWindow(e.windowing, pos))
            && r.renderer.lastSeekMs == pos + c.offsetMs
  {
    var c := config.GetOr(Defaults());
    var pos := st.clock.NowMs(now);
    var key := st.activeTrack.value.mediaKey;
    var s1 := st.(activeConfig := c, prefs := StoreConfig(st.prefs, e.codec, key, c), prepared := false);
    ConfigRoundTrip(st.prefs, e.codec, key, c);
    var s2 := PrepareRenderer(e.windowing, s1, now);
    PrepareKeepsItems(e.windowing, s1, now);
    assert PreparedItems(e.windowing, s2, pos) == PreparedItems(e.windowing, s1, pos) && s2.clock == st.clock;
    ApplyTransport(e.windowing, s2, now, true);
    assert UpdateConfig(e, st, now, config) == ApplyPlaybackState(e.windowing, s2, now, true);
  }

  /** A tick with nothing to move aligns the renderer and does nothing else. */
  lemma TickWhenSteady(w: WindowingConfig, st: EngineState, now: int)
    requires st.activeTrack.Some? && st.activeItems != [] && st.prepared && st.renderer.prepared
    requires !NeedsShift(st.windowStart, st.windowEnd, w.guardMs, st.clock.NowMs(now), st.pending)
    ensures Tick(w, st, now) == Align(st, st.clock.NowMs(now), false)
  {
  }

  /**
   * A tick that wants to move the window too soon after the last prepare only records the move
   * as pending: no new prepare, the same items on the renderer.
   */
  lemma TickThrottled(w: WindowingConfig, st: EngineState, now: int)
    requires st.activeTrack.Some? && st.activeItems != [] && st.prepared && st.renderer.prepared
    requires NeedsShift(st.windowStart, st.windowEnd, w.guardMs, st.clock.NowMs(now), st.pending)
    requires now - st.lastPrepare < w.reprepareThrottleMs
    ensures Tick(w, st, now) == Align(st.(pending := true), st.clock.NowMs(now), false)
    ensures Tick(w, st, now).pending && SameWindow(st.(pending := true), Tick(w, st, now))
  {
    AlignKeepsWindow(st.(pending := true), st.clock.NowMs(now), false);
  }

  /**
   * A tick that wants to move the window once the throttle has passed prepares the renderer
   * again with the items of the window around the current position.
   */
  lemma TickShiftsWindow(w: WindowingConfig, st: EngineState, now: int)
    requires st.activeTrack.Some? && st.activeItems != []
    requires NeedsShift(st.windowStart, st.windowEnd, w.guardMs, st.clock.NowMs(now), st.pending)
    requires now - st.lastPrepare >= w.reprepareThrottleMs
    requires OpPrepare !in st.renderer.failing
    ensures var pos := st.clock.NowMs(now);
            var r := Tick(w, st, now);
            && r.renderer.prepareCount == st.renderer.prepareCount + 1
            && r.renderer.items == PreparedItems(w, st, pos)
            && r.windowStart == ComputeWindow(w, pos).startMs && r.windowEnd == Finite(ComputeWindow(w, pos).endMs)
            && r.lastPrepare == now && !r.pending
  {
    var pos := st.clock.NowMs(now);
    var s1 := RefreshWindow(w, st, now, pos);
    assert s1 == st.(prepared := false, pending := false);
    var s2 := PrepareRenderer(w, s1, now);
    PrepareKeepsItems(w, s1, now);
    assert PreparedItems(w, s1, pos) == PreparedItems(w, st, pos);
    if s2.prepared && s2.renderer.prepared {
      AlignKeepsWindow(s2, pos, false);
    }
  }

  /** What a successful prepare leaves on the renderer, whatever the visible and seek calls after it do. */
  lemma PrepareKeepsItems(w: WindowingConfig, st: EngineState, now: int)
    requires st.activeItems != [] && OpPrepare !in st.renderer.failing
    ensures var pos := st.clock.NowMs(now);
            var r := PrepareRenderer(w, st, now);
            && r.renderer.prepareCount == st.renderer.prepareCount + 1
            && r.renderer.items == PreparedItems(w, st, pos)
            && r.windowStart == ComputeWindow(w, pos).startMs && r.windowEnd == Finite(ComputeWindow(w, pos).endMs)
            && r.lastPrepare == now && !r.pending && r.lastApplied == pos + st.activeConfig.offsetMs
            && (st.renderer.failing == {} ==> r.prepared && r.renderer.prepared)
            && (st.renderer.failing == {} && st.visible ==> r.renderer.lastSeekMs == r.lastApplied && r.renderer.visible)
  {
  }

  /**
   * A seek inside the window seeks a prepared renderer straight to the offset-adjusted target,
   * without a new prepare.
   */
  lemma SeekInsideWindow(w: WindowingConfig, st: EngineState, now: int, positionMs: int)
    requires IsWithinWindow(positionMs + st.activeConfig.offsetMs, st.windowStart, st.windowEnd)
    requires st.renderer.prepared && OpSeek !in st.renderer.failing
    ensures var r := Seek(w, st, now, positionMs);
            && r.renderer.lastSeekMs == positionMs + st.activeConfig.offsetMs
            && r.lastApplied == positionMs + st.activeConfig.offsetMs
            && r.clock.NowMs(now) == positionMs
            && SameWindow(st, r) && r.prepared == st.prepared
  {
  }

  /**
   * A seek outside the window always prepares the renderer again around the target, whatever
   * the throttle, and forces the renderer to the offset-adjusted target.
   */
  lemma SeekOutsideWindow(w: WindowingConfig, st: EngineState, now: int, positionMs: int)
    requires !IsWithinWindow(positionMs + st.activeConfig.offsetMs, st.windowStart, st.windowEnd)
    requires st.activeTrack.Some? && st.activeItems != [] && st.renderer.failing == {}
    ensures var r := Seek(w, st, now, positionMs);
            && r.renderer.prepareCount == st.renderer.prepareCount + 1
            && r.renderer.lastSeekMs == positionMs + st.activeConfig.offsetMs
            && r.lastApplied == positionMs + st.activeConfig.offsetMs
            && r.windowStart == ComputeWindow(w, positionMs).startMs
            && r.windowEnd == Finite(ComputeWindow(w, positionMs).endMs)
            && r.prepared && r.renderer.prepared
  {
    var s0 := st.(clock := st.clock.(anchorPositionMs := positionMs, anchorRealtimeMs := now));
    assert s0.clock.NowMs(now) == positionMs;
    var s1 := s0.(pending := true, prepared := false);
    var s2 := RefreshWindow(w, s1, now, positionMs);
    assert !s2.prepared && s2.renderer == st.renderer && s2.activeItems == st.activeItems;
    var s3 := PrepareRenderer(w, s2, now);
    PrepareKeepsItems(w, s2, now);
    var s4 := SafeCall(s3, VisibleCall(s3.visible));
    assert s4.renderer.prepared && s4.clock == s0.clock;
    AlignKeepsDriftBelowThreshold(s4, positionMs, true);
    AlignKeepsWindow(s4, positionMs, true);
    AlignKeepsPrepared(s4, positionMs, true);
    assert Seek(w, st, now, positionMs) == Align(s4, positionMs, true);
  }

  /**
   * With 30 ms on either side and a 50 ms throttle, a window [0, 30] prepared at 0 is left at
   * 40 but only marked pending, and is marked for a new prepare at 60.
   */
  lemma ThrottleScenario(w: WindowingConfig, st: EngineState)
    requires w == NewWindowingConfig(30, 30, 5, 50)
    requires st.activeItems != [] && st.windowStart == 0 && st.windowEnd == Finite(30)
    requires !st.pending && st.lastPrepare == 0
    ensures RefreshWindow(w, st, 40, 40) == st.(pending := true)
    ensures RefreshWindow(w, st.(pending := true), 60, 60) == st.(prepared := false, pending := false)
  {
  }

  /**
   * The engine's throttle sequence on ticks: with 30 ms on either side, a 5 ms guard and a
   * 50 ms throttle, a playing clock at unit speed and a window [0, 30] prepared at 0, the tick
   * at 40 prepares nothing and leaves the move pending, and the tick at 60 prepares the
   * renderer a second time with the window [30, 90].
   */
  lemma ThrottledTickScenario(w: WindowingConfig, st: EngineState)
    requires w == NewWindowingConfig(30, 30, 5, 50)
    requires st.activeTrack.Some? && st.activeItems != [] && st.prepared && st.renderer.prepared
    requires st.renderer.failing == {} && st.clock == ClockState(0, 0, 1.0, true)
    requires st.windowStart == 0 && st.windowEnd == Finite(30) && !st.pending && st.lastPrepare == 0
    ensures var s40 := Tick(w, st, 40);
            && s40.pending && s40.renderer.prepareCount == st.renderer.prepareCount
            && var s60 := Tick(w, s40, 60);
               && s60.renderer.prepareCount == st.renderer.prepareCount + 1
               && s60.windowStart == 30 && s60.windowEnd == Finite(90) && !s60.pending && s60.lastPrepare == 60
  {
    assert st.clock.NowMs(40) == 40;
    TickThrottled(w, st, 40);
    var s40 := Tick(w, st, 40);
    assert s40.renderer.failing == {} by {
      AlignTransport(st.(pending := true), 40, false);
    }
    assert s40.clock == st.clock && s40.activeItems == st.activeItems && s40.activeTrack == st.activeTrack;
    assert s40.clock.NowMs(60) == 60;
    TickShiftsWindow(w, s40, 60);
  }

  /**
   * With a 300 ms offset, a renderer sought to 300 at clock 0 is left alone at clock 150 (drift
   * 150) and sought to 525 at clock 225 (drift 225).
   */
  lemma ResyncScenario(st: EngineState)
    requires st.activeConfig.offsetMs == 300 && st.lastApplied == 300 && st.renderer.lastSeekMs == 300
    requires OpSeek !in st.renderer.failing
    ensures var s1 := Align(st, 150, false);
            && s1.renderer.lastSeekMs == 300 && s1.lastApplied == 300
            && Align(s1, 225, false).renderer.lastSeekMs == 525 && Align(s1, 225, false).lastApplied == 525
  {
    var s1 := Align(st, 150, false);
    AlignKeepsDriftBelowThreshold(st, 150, false);
    assert s1.activeConfig == st.activeConfig && s1.renderer.failing == st.renderer.failing by {
      SafeCallKeepsWindow(st, SpeedCall(st.clock.speed));
      SafeCallKeepsWindow(SafeCall(st, SpeedCall(st.clock.speed)), PlayCall);
      SafeCallKeepsWindow(SafeCall(st, SpeedCall(st.clock.speed)), PauseCall);
    }
    AlignKeepsDriftBelowThreshold(s1, 225, false);
  }

  /**
   * Selecting an id that is neither cached nor an existing file records "missing" for it and
   * changes nothing else: the active track, items and config stay as they were.
   */
  lemma SelectMissingFile(e: Env, st: EngineState, k: MediaKey, id: string, now: int)
    requires CacheInvariant(st.cache) && id != []
    requires CacheKey(k, id) !in st.cache && !e.fs.isPresent(id)
    ensures SelectInternal(e, st, Some(k), Some(id), false, now) == st.(lastError := Some(LoadError(id, "missing")))
  {
  }

  /**
   * Selecting a cached track that has no items yet and whose file does not parse records
   * "parse_failed" for its file and changes nothing else.
   */
  lemma SelectParseFailed(e: Env, st: EngineState, k: MediaKey, id: string, now: int)
    requires CacheInvariant(st.cache) && id != [] && CacheKey(k, id) in st.cache
    requires var c := st.cache[CacheKey(k, id)];
             c.items == [] && ParseTrackFromDisk(e.fs, st, c.track, c.score, c.reason).0.None?
    ensures SelectInternal(e, st, Some(k), Some(id), false, now)
            == st.(lastError := Some(LoadError(st.cache[CacheKey(k, id)].track.filePath, "parse_failed")))
  {
    var c := st.cache[CacheKey(k, id)];
    var s0 := st.(lastError := None);
    assert ParseTrackFromDisk(e.fs, s0, c.track, c.score, c.reason).0.None?;
  }

  /**
   * Selecting a cached track with items makes it active with the merged config, clears the
   * error, keeps the cache, and remembers the track and the config for the media item.
   */
  lemma SelectCachedTrack(e: Env, st: EngineState, k: MediaKey, id: string, now: int)
    requires CacheInvariant(st.cache) && id != [] && CacheKey(k, id) in st.cache
    requires st.cache[CacheKey(k, id)].items != []
    ensures var c := st.cache[CacheKey(k, id)];
            var r := SelectInternal(e, st, Some(k), Some(id), false, now);
            && r.activeTrack == Some(c.track) && r.activeItems == c.items && r.cache == st.cache
            && r.lastError.None?
            && r.activeConfig == MergeConfig(e.codec, st.prefs, c.track, c.config).0
            && LastTrackId(r.prefs, k) == Some(c.track.id)
            && (Sound(e.codec) ==> ReadConfig(r.prefs, e.codec, k).0 == Some(r.activeConfig))
  {
    var c := st.cache[CacheKey(k, id)];
    var s0 := st.(lastError := None);
    ActivateRemembers(e, s0, k, c, now);
  }

  /** What an activation leaves behind, whatever the renderer does. */
  lemma ActivateRemembers(e: Env, st: EngineState, k: MediaKey, c: CachedTrack, now: int)
    ensures var r := Activate(e, st, k, c, now);
            && r.activeTrack == Some(c.track) && r.activeItems == c.items && r.cache == st.cache
            && r.lastError == st.lastError
            && r.activeConfig == MergeConfig(e.codec, st.prefs, c.track, c.config).0
            && LastTrackId(r.prefs, k) == Some(c.track.id)
            && (Sound(e.codec) ==> ReadConfig(r.prefs, e.codec, k).0 == Some(r.activeConfig))
  {
    var (config, p1) := MergeConfig(e.codec, st.prefs, c.track, c.config);
    var s1 := st.(activeTrack := Some(c.track), activeItems := c.items, activeConfig := config,
                  prefs := p1, prepared := false, pending := false, windowStart := 0, windowEnd := Unbounded);
    var s2 := ApplyPlaybackState(e.windowing, PrepareRenderer(e.windowing, s1, now), now, true);
    assert SameSelection(s1, s2);
    var p2 := StoreLastTrack(s2.prefs, k, c.track);
    LastTrackRoundTrip(s2.prefs, k, c.track);
    assert LastTrackKey(k) != ConfigKey(k) by {
      assert LastTrackKey(k)[0] == 'l' && ConfigKey(k)[0] == 'c';
    }
    if Sound(e.codec) {
      ConfigRoundTrip(p2, e.codec, k, config);
    }
  }

  /**
   * A config saved for a media item is the one the next selection of any of its tracks uses,
   * ahead of the application default and the track's own.
   */
  lemma SavedConfigWins(codec: Codec, p: PrefStore, track: Track, candidate: Config, c: Config)
    requires Sound(codec)
    ensures var saved := StoreConfig(p, codec, track.mediaKey, c);
            MergeConfig(codec, saved, track, candidate) == (c, saved)
  {
    ConfigRoundTrip(p, codec, track.mediaKey, c);
  }
}
