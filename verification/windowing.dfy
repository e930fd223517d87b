/**
 * The playback window: only items whose offset-adjusted time falls inside
 * [position - behind, position + ahead] (clamped at 0) are handed to the renderer, and the
 * window is moved once the position leaves it or comes within the guard distance of an edge.
 */
module Windowing {
  import opened Text
  import opened Tracks

  /** Window sizes and the minimum time between two re-prepares, all clamped to be non-negative. */
  datatype WindowingConfig = WindowingConfig(behindMs: nat, aheadMs: nat, guardMs: nat, reprepareThrottleMs: nat)

  function NewWindowingConfig(behindMs: int, aheadMs: int, guardMs: int, reprepareThrottleMs: int): (w: WindowingConfig)
    ensures w.behindMs == Max(0, behindMs) && w.aheadMs == Max(0, aheadMs)
    ensures w.guardMs == Max(0, guardMs) && w.reprepareThrottleMs == Max(0, reprepareThrottleMs)
  {
    WindowingConfig(Max(0, behindMs), Max(0, aheadMs), Max(0, guardMs), Max(0, reprepareThrottleMs))
  }

  /** One minute on either side, a five-second guard and at most one re-prepare per second. */
  function DefaultWindowing(): WindowingConfig {
    NewWindowingConfig(60_000, 60_000, 5_000, 1_000)
  }

  /** The end of the current window; `Unbounded` is the `Long.MAX_VALUE` sentinel of a fresh selection. */
  datatype Bound = Finite(ms: int) | Unbounded

  datatype WindowRange = WindowRange(startMs: int, endMs: int)

  /** The window around a raw clock position. */
  function ComputeWindow(w: WindowingConfig, positionMs: int): (r: WindowRange)
    ensures 0 <= r.startMs <= r.endMs
    ensures positionMs >= 0 ==> r.startMs <= positionMs <= r.endMs
    ensures r.endMs - r.startMs <= w.behindMs + w.aheadMs
    ensures positionMs >= w.behindMs ==> r == WindowRange(positionMs - w.behindMs, positionMs + w.aheadMs)
  {
    var start := Max(0, positionMs - w.behindMs);
    var end := Max(start, positionMs + w.aheadMs);
    WindowRange(start, end)
  }

  /** `isWithinWindow`: inclusive at both ends; nothing lies beyond the sentinel. */
  predicate IsWithinWindow(effectivePositionMs: int, startMs: int, endMs: Bound) {
    effectivePositionMs >= startMs && (endMs.Finite? ==> effectivePositionMs <= endMs.ms)
  }

  /**
   * Whether `refreshWindow` wants a new window: the position is outside it, within the guard of
   * a start above 0 or of a finite end, or a shift is already pending.
   */
  predicate NeedsShift(startMs: int, endMs: Bound, guardMs: int, positionMs: int, pending: bool) {
    var beforeWindow := positionMs < startMs;
    var afterWindow := endMs.Finite? && positionMs > endMs.ms;
    var nearStart := startMs > 0 && positionMs < startMs + guardMs;
    var nearEnd := endMs.Finite? && positionMs > endMs.ms - guardMs;
    beforeWindow || afterWindow || nearStart || nearEnd || pending
  }

  predicate InRange(item: Item, offsetMs: int, r: WindowRange) {
    r.startMs <= item.timeMs + offsetMs <= r.endMs
  }

  /** The items whose offset-adjusted time lies in the window, in their original order. */
  function Windowed(items: seq<Item>, offsetMs: int, r: WindowRange): (s: seq<Item>)
    ensures |s| <= |items|
  {
    if items == [] then []
    else Windowed(items[..|items| - 1], offsetMs, r)
         + (if InRange(items[|items| - 1], offsetMs, r) then [items[|items| - 1]] else [])
  }

  /** `applyWindow`: one pass over the items, appending those inside the window. */
  method ApplyWindow(items: seq<Item>, offsetMs: int, r: WindowRange) returns (windowed: seq<Item>)
    ensures windowed == Windowed(items, offsetMs, r)
  {
    windowed := [];
    var i := 0;
    while i < |items|
      invariant 0 <= i <= |items|
      invariant windowed == Windowed(items[..i], offsetMs, r)
    {
      assert items[..i + 1][..i] == items[..i];
      var effectiveTime := items[i].timeMs + offsetMs;
      if effectiveTime >= r.startMs && effectiveTime <= r.endMs {
        windowed := windowed + [items[i]];
      }
      i := i + 1;
    }
    assert items[..|items|] == items;
  }

  /** An item is handed over exactly when it is in the input and inside the window. */
  lemma {:induction false} WindowedMembership(items: seq<Item>, offsetMs: int, r: WindowRange, x: Item)
    ensures x in Windowed(items, offsetMs, r) <==> x in items && InRange(x, offsetMs, r)
  {
    if items != [] {
      var init := items[..|items| - 1];
      WindowedMembership(init, offsetMs, r, x);
      assert items == init + [items[|items| - 1]];
    }
  }

  /** Windowing distributes over concatenation, so the relative order of kept items is preserved. */
  lemma {:induction false} WindowedAppend(a: seq<Item>, b: seq<Item>, offsetMs: int, r: WindowRange)
    ensures Windowed(a + b, offsetMs, r) == Windowed(a, offsetMs, r) + Windowed(b, offsetMs, r)
    decreases |b|
  {
    if b == [] {
      assert a + b == a;
    } else {
      var b' := b[..|b| - 1];
      assert (a + b)[..|a + b| - 1] == a + b';
      WindowedAppend(a, b', offsetMs, r);
    }
  }

  /**
   * A window just computed at a non-negative position does not ask to move again at that
   * position, provided the guard is no wider than either side.
   */
  lemma FreshWindowIsStable(w: WindowingConfig, positionMs: int)
    requires positionMs >= 0 && w.guardMs <= w.behindMs && w.guardMs <= w.aheadMs
    ensures !NeedsShift(ComputeWindow(w, positionMs).startMs, Finite(ComputeWindow(w, positionMs).endMs),
                        w.guardMs, positionMs, false)
  {
  }

  /** Leaving a window always asks for a shift, whatever the guard. */
  lemma OutsideNeedsShift(startMs: int, endMs: Bound, guardMs: int, positionMs: int, pending: bool)
    requires !IsWithinWindow(positionMs, startMs, endMs)
    ensures NeedsShift(startMs, endMs, guardMs, positionMs, pending)
  {
  }

  /**
   * Items at 0, 80 and 120 ms with 50 ms on either side: around 0 only the first is handed
   * over; at 70 the position has left [0, 50], and the new window [20, 120] keeps the items at
   * 80 and 120.
   */
  lemma RewindowScenario(w: WindowingConfig, a: Item, b: Item, c: Item)
    requires w == NewWindowingConfig(50, 50, 10, 0)
    requires a.timeMs == 0 && b.timeMs == 80 && c.timeMs == 120
    ensures ComputeWindow(w, 0) == WindowRange(0, 50) && Windowed([a, b, c], 0, ComputeWindow(w, 0)) == [a]
    ensures NeedsShift(0, Finite(50), w.guardMs, 70, false)
    ensures ComputeWindow(w, 70) == WindowRange(20, 120) && Windowed([a, b, c], 0, ComputeWindow(w, 70)) == [b, c]
  {
    assert w.behindMs == 50 && w.aheadMs == 50 && w.guardMs == 10;
    WindowedThree(a, b, c, ComputeWindow(w, 0));
    WindowedThree(a, b, c, ComputeWindow(w, 70));
  }

  /** Windowing three items, one at a time. */
  lemma WindowedThree(a: Item, b: Item, c: Item, r: WindowRange)
    ensures Windowed([a, b, c], 0, r)
            == (if InRange(a, 0, r) then [a] else []) + (if InRange(b, 0, r) then [b] else [])
               + (if InRange(c, 0, r) then [c] else [])
  {
    var pick := (x: Item) => if InRange(x, 0, r) then [x] else [];
    assert [a][..0] == [];
    assert Windowed([a], 0, r) == pick(a);
    assert [a, b][..1] == [a];
    assert Windowed([a, b], 0, r) == pick(a) + pick(b);
    assert [a, b, c][..2] == [a, b];
  }
}
