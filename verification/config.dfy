/**
 * The styling, density and filtering options attached to a danmaku track. Java floats are
 * modelled as reals and the millisecond offset as an unbounded integer.
 */
module Configs {
  import opened Wrappers

  /** Which of the four danmaku kinds are shown. */
  datatype TypeEnabled = TypeEnabled(scroll: bool, top: bool, bottom: bool, positioned: bool)

  function AllEnabled(): (t: TypeEnabled)
    ensures t.scroll && t.top && t.bottom && t.positioned
  {
    TypeEnabled(true, true, true, true)
  }

  datatype Config = Config(
    textScaleSp: real,
    scrollSpeedFactor: real,
    alpha: real,
    maxOnScreen: int,
    maxLines: int,
    keywordFilter: seq<string>,
    typeEnabled: TypeEnabled,
    offsetMs: int)
  {
    /** The same options with the offset moved by `deltaMs`. */
    function WithOffset(deltaMs: int): (c: Config)
      ensures c.offsetMs == offsetMs + deltaMs
      ensures c.(offsetMs := offsetMs) == this
    {
      this.(offsetMs := offsetMs + deltaMs)
    }
  }

  /**
   * The public constructor: a missing keyword list becomes the empty list and a missing set of
   * type switches enables every type.
   */
  function NewConfig(textScaleSp: real, scrollSpeedFactor: real, alpha: real, maxOnScreen: int,
                     maxLines: int, keywordFilter: Option<seq<string>>,
                     typeEnabled: Option<TypeEnabled>, offsetMs: int): (c: Config)
    ensures c.keywordFilter == (if keywordFilter.Some? then keywordFilter.value else [])
    ensures c.typeEnabled == (if typeEnabled.Some? then typeEnabled.value else AllEnabled())
    ensures c.textScaleSp == textScaleSp && c.scrollSpeedFactor == scrollSpeedFactor
    ensures c.alpha == alpha && c.maxOnScreen == maxOnScreen && c.maxLines == maxLines
    ensures c.offsetMs == offsetMs
  {
    Config(textScaleSp, scrollSpeedFactor, alpha, maxOnScreen, maxLines,
           keywordFilter.GetOr([]), typeEnabled.GetOr(AllEnabled()), offsetMs)
  }

  /** Unit scale, speed and opacity, engine-default density, no keyword, every type, no offset. */
  function Defaults(): (c: Config)
    ensures c.textScaleSp == 1.0 && c.scrollSpeedFactor == 1.0 && c.alpha == 1.0
    ensures c.maxOnScreen == 0 && c.maxLines == 0 && c.offsetMs == 0
    ensures c.keywordFilter == [] && c.typeEnabled == AllEnabled()
  {
    NewConfig(1.0, 1.0, 1.0, 0, 0, Some([]), Some(AllEnabled()), 0)
  }

  /** Shifting by nothing changes nothing, and two shifts add up. */
  lemma WithOffsetComposes(c: Config, a: int, b: int)
    ensures c.WithOffset(0) == c
    ensures c.WithOffset(a).WithOffset(b) == c.WithOffset(a + b)
  {
  }
}
