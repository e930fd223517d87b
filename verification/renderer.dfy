/**
 * The rendering surface the engine drives, with the observable behaviour of the test renderer:
 * call counters, the last seek and speed, the prepared items, and the visible and prepared
 * flags. Which calls throw is part of the surface (`failing`); a call that throws changes
 * nothing on the surface.
 */
module Renderers {
  import opened Configs
  import opened Tracks

  datatype Op = OpPrepare | OpPlay | OpPause | OpSeek | OpSpeed | OpVisible | OpRelease

  /** One call on the renderer interface. */
  datatype Call =
    | PrepareCall(items: seq<Item>, config: Config)
    | PlayCall
    | PauseCall
    | SeekCall(positionMs: int)
    | SpeedCall(speed: real)
    | VisibleCall(visible: bool)
    | ReleaseCall
  {
    function Op(): Op {
      match this
      case PrepareCall(_, _) => OpPrepare
      case PlayCall => OpPlay
      case PauseCall => OpPause
      case SeekCall(_) => OpSeek
      case SpeedCall(_) => OpSpeed
      case VisibleCall(_) => OpVisible
      case ReleaseCall => OpRelease
    }
  }

  datatype Surface = Surface(
    prepared: bool,
    visible: bool,
    items: seq<Item>,
    config: Config,
    lastSeekMs: int,
    lastSpeed: real,
    prepareCount: nat,
    playCount: nat,
    pauseCount: nat,
    releaseCount: nat,
    visibleCount: nat,
    failing: set<Op>)

  /** A new surface: nothing prepared, hidden, never sought (-1), unit speed, no calls yet. */
  function NewSurface(failing: set<Op>): (s: Surface)
    ensures !s.prepared && !s.visible && s.items == [] && s.lastSeekMs == -1 && s.lastSpeed == 1.0
    ensures s.prepareCount == 0 && s.playCount == 0 && s.pauseCount == 0 && s.releaseCount == 0 && s.visibleCount == 0
    ensures s.failing == failing
  {
    Surface(false, false, [], Defaults(), -1, 1.0, 0, 0, 0, 0, 0, failing)
  }

  /**
   * The effect of a call that does not throw: `prepare` stores a copy of the items and the
   * config and makes the surface prepared, `release` unprepares it, `setVisible` counts and
   * records the flag, `seekTo`/`setSpeed` record their argument, `play`/`pause` count.
   */
  function Apply(s: Surface, c: Call): (r: Surface)
    ensures r.failing == s.failing
    ensures c.PrepareCall? ==> r.prepared && r.items == c.items && r.config == c.config && r.prepareCount == s.prepareCount + 1
    ensures c.ReleaseCall? ==> !r.prepared && r.releaseCount == s.releaseCount + 1
    ensures c.VisibleCall? ==> r.visible == c.visible && r.visibleCount == s.visibleCount + 1
    ensures c.SeekCall? ==> r.lastSeekMs == c.positionMs
    ensures !c.PrepareCall? && !c.ReleaseCall? ==> r.prepared == s.prepared && r.items == s.items
    ensures !c.PrepareCall? ==> r.prepareCount == s.prepareCount
    ensures c.SpeedCall? ==> r.lastSpeed == c.speed
    ensures !c.SpeedCall? ==> r.lastSpeed == s.lastSpeed
    ensures c.PlayCall? ==> r.playCount == s.playCount + 1
    ensures c.PauseCall? ==> r.pauseCount == s.pauseCount + 1
    ensures !c.VisibleCall? ==> r.visible == s.visible
    ensures !c.SeekCall? ==> r.lastSeekMs == s.lastSeekMs
    ensures !c.PlayCall? ==> r.playCount == s.playCount
    ensures !c.PauseCall? ==> r.pauseCount == s.pauseCount
    ensures !c.ReleaseCall? ==> r.releaseCount == s.releaseCount
    ensures !c.VisibleCall? ==> r.visibleCount == s.visibleCount
    ensures !c.PrepareCall? ==> r.items == s.items && r.config == s.config
  {
    match c
    case PrepareCall(items, config) => s.(prepareCount := s.prepareCount + 1, items := items, config := config, prepared := true)
    case PlayCall => s.(playCount := s.playCount + 1)
    case PauseCall => s.(pauseCount := s.pauseCount + 1)
    case SeekCall(p) => s.(lastSeekMs := p)
    case SpeedCall(v) => s.(lastSpeed := v)
    case VisibleCall(v) => s.(visibleCount := s.visibleCount + 1, visible := v)
    case ReleaseCall => s.(releaseCount := s.releaseCount + 1, prepared := false)
  }

  predicate Throws(s: Surface, c: Call) {
    c.Op() in s.failing
  }
}
