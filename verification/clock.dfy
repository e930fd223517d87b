/**
 * The playback clock: a position anchored at a realtime instant and extrapolated from there at
 * the anchored speed while playing. `realtime` arguments stand for the clock's time provider.
 */
module Clocks {
  import opened Wrappers
  import opened Text

  /** The four fields of a soft clock. */
  datatype ClockState = ClockState(anchorPositionMs: int, anchorRealtimeMs: int, speed: real, playing: bool)
  {
    /** `nowMs()` when the time provider reads `realtime`. */
    function NowMs(realtime: int): (pos: int)
      ensures !playing ==> pos == anchorPositionMs
      ensures realtime == anchorRealtimeMs ==> pos == anchorPositionMs
      ensures playing && speed == 1.0 ==> pos == anchorPositionMs + (realtime - anchorRealtimeMs)
      // while playing, the anchor moves by the elapsed real time scaled by the speed, truncated toward zero
      ensures playing ==> pos - anchorPositionMs == Trunc((realtime - anchorRealtimeMs) as real * speed)
      ensures speed >= 0.0 && realtime >= anchorRealtimeMs ==> pos >= anchorPositionMs
    {
      if !playing then anchorPositionMs
      else anchorPositionMs + Trunc((realtime - anchorRealtimeMs) as real * speed)
    }
  }

  /** Truncation toward zero never reverses an order. */
  lemma TruncMonotone(x: real, y: real)
    requires x <= y
    ensures Trunc(x) <= Trunc(y)
  {
  }

  /** Scaling by a non-negative factor keeps an order. */
  lemma ScaleMonotone(x: real, y: real, k: real)
    requires x <= y && k >= 0.0
    ensures x * k <= y * k
  {
    assert y * k - x * k == (y - x) * k;
  }

  /** A longer elapsed time, scaled by a non-negative speed and truncated, is never smaller. */
  lemma ScaledTruncMonotone(d1: real, d2: real, k: real)
    requires d1 <= d2 && k >= 0.0
    ensures Trunc(d1 * k) <= Trunc(d2 * k)
  {
    ScaleMonotone(d1, d2, k);
    TruncMonotone(d1 * k, d2 * k);
  }

  /** The position while playing, as a fact on its own. */
  lemma PlayingNowMs(c: ClockState, t: int)
    requires c.playing
    ensures c.NowMs(t) == c.anchorPositionMs + Trunc((t - c.anchorRealtimeMs) as real * c.speed)
  {
  }

  /** The extrapolated offsets of two instants keep their order at a non-negative speed. */
  lemma PlayingAdvances(c: ClockState, t1: int, t2: int)
    requires c.speed >= 0.0 && t1 <= t2
    ensures c.anchorPositionMs + Trunc((t1 - c.anchorRealtimeMs) as real * c.speed)
            <= c.anchorPositionMs + Trunc((t2 - c.anchorRealtimeMs) as real * c.speed)
  {
    ScaledTruncMonotone((t1 - c.anchorRealtimeMs) as real, (t2 - c.anchorRealtimeMs) as real, c.speed);
  }

  /** At a non-negative speed the reported position never moves backwards as time passes. */
  lemma NowMsMonotone(c: ClockState, t1: int, t2: int)
    requires c.speed >= 0.0 && t1 <= t2
    ensures c.NowMs(t1) <= c.NowMs(t2)
  {
    if c.playing {
      PlayingNowMs(c, t1);
      PlayingNowMs(c, t2);
      PlayingAdvances(c, t1, t2);
    }
  }

  class SoftClock {
    var anchorPositionMs: int
    var anchorRealtimeMs: int
    var speed: real
    var playing: bool

    function State(): ClockState
      reads this
    {
      ClockState(anchorPositionMs, anchorRealtimeMs, speed, playing)
    }

    /** A fresh clock sits at position 0, speed 1, paused, anchored at the provider's first reading. */
    constructor(realtime: int)
      ensures State() == ClockState(0, realtime, 1.0, false)
      ensures forall t :: State().NowMs(t) == 0
    {
      anchorPositionMs := 0;
      anchorRealtimeMs := realtime;
      speed := 1.0;
      playing := false;
    }

    function NowMs(realtime: int): int
      reads this
    {
      State().NowMs(realtime)
    }

    /** Overwrites all four fields; reading at the anchor instant gives back the position. */
    method Anchor(positionMs: int, newSpeed: real, realtimeMs: int, isPlaying: bool)
      modifies this
      ensures State() == ClockState(positionMs, realtimeMs, newSpeed, isPlaying)
      ensures NowMs(realtimeMs) == positionMs
    {
      anchorPositionMs := positionMs;
      anchorRealtimeMs := realtimeMs;
      speed := newSpeed;
      playing := isPlaying;
    }

    /** Freezes the clock at `positionMs`: speed 0 and not playing, whatever time passes. */
    method Pause(positionMs: int, realtimeMs: int)
      modifies this
      ensures State() == ClockState(positionMs, realtimeMs, 0.0, false)
      ensures forall t :: NowMs(t) == positionMs
    {
      Anchor(positionMs, 0.0, realtimeMs, false);
    }

    /** Re-bases position and realtime, keeping speed and the playing flag. */
    method Seek(positionMs: int, realtimeMs: int)
      modifies this
      ensures State() == old(State()).(anchorPositionMs := positionMs, anchorRealtimeMs := realtimeMs)
      ensures NowMs(realtimeMs) == positionMs
    {
      Anchor(positionMs, speed, realtimeMs, playing);
    }
  }

  /** `PlaybackState.STATE_PLAYING` and `PlaybackState.STATE_BUFFERING`. */
  const StatePlaying: int := 3
  const StateBuffering: int := 6

  /** The parts of an Android `PlaybackState` the clock reads. */
  datatype PlaybackState = PlaybackState(state: int, position: int, playbackSpeed: real, lastPositionUpdateTime: int)

  /**
   * The anchor taken from a playback state observed at `realtime`: the reported position is
   * carried forward by the time elapsed since the state's own timestamp (when it has one), and
   * the clock plays while the session is playing or buffering.
   */
  function CaughtUp(st: PlaybackState, realtime: int): (c: ClockState)
    ensures c.anchorRealtimeMs == realtime && c.speed == st.playbackSpeed
    ensures c.playing <==> st.state == StatePlaying || st.state == StateBuffering
    ensures st.lastPositionUpdateTime <= 0 ==> c.anchorPositionMs == st.position
    // a stamped position moves on by the time since the stamp times the speed, truncated toward zero
    ensures st.lastPositionUpdateTime > 0 ==>
              c.anchorPositionMs == st.position + Trunc((realtime - st.lastPositionUpdateTime) as real * st.playbackSpeed)
    ensures st.lastPositionUpdateTime > 0 && st.playbackSpeed == 1.0 ==>
              c.anchorPositionMs == st.position + (realtime - st.lastPositionUpdateTime)
  {
    var position := if st.lastPositionUpdateTime > 0
                    then st.position + Trunc((realtime - st.lastPositionUpdateTime) as real * st.playbackSpeed)
                    else st.position;
    ClockState(position, realtime, st.playbackSpeed, st.state == StatePlaying || st.state == StateBuffering)
  }

  /** A clock driven by media-session updates; it keeps its state in an inner soft clock. */
  class MediaSessionClock {
    const delegate: SoftClock

    constructor(realtime: int)
      ensures fresh(delegate)
      ensures delegate.State() == ClockState(0, realtime, 1.0, false)
    {
      delegate := new SoftClock(realtime);
    }

    /** A missing state changes nothing; otherwise the inner clock is re-anchored at the caught-up position. */
    method UpdateFromPlaybackState(state: Option<PlaybackState>, realtime: int)
      modifies delegate
      ensures state.None? ==> delegate.State() == old(delegate.State())
      ensures state.Some? ==> delegate.State() == CaughtUp(state.value, realtime)
    {
      if state.None? {
        return;
      }
      var st := state.value;
      var speed := st.playbackSpeed;
      var position := st.position;
      if st.lastPositionUpdateTime > 0 {
        var deltaMs := realtime - st.lastPositionUpdateTime;
        position := position + Trunc(deltaMs as real * speed);
      }
      var isPlaying := st.state == StatePlaying || st.state == StateBuffering;
      delegate.Anchor(position, speed, realtime, isPlaying);
    }

    function NowMs(realtime: int): (pos: int)
      reads delegate
      ensures pos == delegate.NowMs(realtime)
    {
      delegate.NowMs(realtime)
    }

    method Anchor(positionMs: int, speed: real, realtimeMs: int, isPlaying: bool)
      modifies delegate
      ensures delegate.State() == ClockState(positionMs, realtimeMs, speed, isPlaying)
    {
      delegate.Anchor(positionMs, speed, realtimeMs, isPlaying);
    }

    method Pause(positionMs: int, realtimeMs: int)
      modifies delegate
      ensures delegate.State() == ClockState(positionMs, realtimeMs, 0.0, false)
    {
      delegate.Pause(positionMs, realtimeMs);
    }

    method Seek(positionMs: int, realtimeMs: int)
      modifies delegate
      ensures delegate.State() == old(delegate.State()).(anchorPositionMs := positionMs, anchorRealtimeMs := realtimeMs)
    {
      delegate.Seek(positionMs, realtimeMs);
    }
  }

  /**
   * Catching up agrees with the soft clock: a stamped state reads, at the moment of the update,
   * what a playing clock anchored at the stamp with the state's position and speed reads then.
   */
  lemma CaughtUpAgreesWithClock(st: PlaybackState, realtime: int)
    requires st.lastPositionUpdateTime > 0
    ensures CaughtUp(st, realtime).NowMs(realtime)
            == ClockState(st.position, st.lastPositionUpdateTime, st.playbackSpeed, true).NowMs(realtime)
  {
    StampedReads(st, realtime);
    ReadsAnchor(CaughtUp(st, realtime));
  }

  /** A playing clock anchored at the stamp reads the stamped position moved on by the scaled elapsed time. */
  lemma StampedReads(st: PlaybackState, realtime: int)
    ensures ClockState(st.position, st.lastPositionUpdateTime, st.playbackSpeed, true).NowMs(realtime)
            == st.position + Trunc((realtime - st.lastPositionUpdateTime) as real * st.playbackSpeed)
  {
    PlayingNowMs(ClockState(st.position, st.lastPositionUpdateTime, st.playbackSpeed, true), realtime);
  }

  /** At its own anchor instant a clock reads its anchor position. */
  lemma ReadsAnchor(c: ClockState)
    ensures c.NowMs(c.anchorRealtimeMs) == c.anchorPositionMs
  {
  }

  /** A state stamped 500 ms ago at 1.5x speed is caught up by 750 ms and reads so at once. */
  lemma CatchUpExample()
    ensures CaughtUp(PlaybackState(StatePlaying, 1000, 1.5, 10000), 10500).NowMs(10500) == 1750
    ensures CaughtUp(PlaybackState(StatePlaying, 1000, 1.5, 10000), 10500).playing
  {
  }
}
