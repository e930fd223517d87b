/**
 * The performance sampler: running statistics of prepare durations, resync drifts and window
 * widths, a throttle counter, and a report written at most every five seconds. A sampler that
 * is disabled, or becomes disabled after a failed write, ignores every call from then on.
 */
module PerfSampler {
  import opened Wrappers
  import opened Text

  const MinFlushIntervalMs: int := 5000

  // ---------------------------------------------------------------------------------------
  // Statistics
  // ---------------------------------------------------------------------------------------

  /** A sample count, the running total and the largest sample (0 before any sample). */
  datatype StatsValue = StatsValue(count: int, total: int, max: int) {

    function Add(v: int): (s: StatsValue)
      ensures s.count == count + 1 && s.total == total + v
      ensures s.max >= max && s.max >= v && (s.max == max || s.max == v)
    {
      StatsValue(count + 1, total + v, if v > max then v else max)
    }

    /** The integer average, truncated; 0 before any sample. */
    function Avg(): (a: int)
      ensures count == 0 ==> a == 0
      ensures count > 0 && total >= 0 ==> a * count <= total < (a + 1) * count
    {
      if count == 0 then 0 else JavaDiv(total, count)
    }
  }

  const NoSamples: StatsValue := StatsValue(0, 0, 0)

  /** The statistics after adding `samples` in order to an empty set. */
  function StatsOf(samples: seq<int>): StatsValue {
    if samples == [] then NoSamples else StatsOf(samples[..|samples| - 1]).Add(samples[|samples| - 1])
  }

  function Sum(samples: seq<int>): int {
    if samples == [] then 0 else Sum(samples[..|samples| - 1]) + samples[|samples| - 1]
  }

  /**
   * The statistics count the samples, total them, and keep a maximum that bounds every sample
   * and is either 0 or one of them.
   */
  lemma {:induction false} StatsOfSamples(samples: seq<int>)
    ensures StatsOf(samples).count == |samples| && StatsOf(samples).total == Sum(samples)
    ensures forall i :: 0 <= i < |samples| ==> samples[i] <= StatsOf(samples).max
    ensures StatsOf(samples).max == 0 || StatsOf(samples).max in samples
    ensures StatsOf(samples).max >= 0
  {
    if samples != [] {
      var init := samples[..|samples| - 1];
      StatsOfSamples(init);
      assert forall i :: 0 <= i < |init| ==> samples[i] == init[i];
    }
  }

  lemma {:induction false} SumAtMost(samples: seq<int>, bound: int)
    requires forall i :: 0 <= i < |samples| ==> samples[i] <= bound
    ensures Sum(samples) <= |samples| * bound
  {
    if samples != [] {
      SumAtMost(samples[..|samples| - 1], bound);
    }
  }

  lemma {:induction false} SumAtLeastZero(samples: seq<int>)
    requires forall i :: 0 <= i < |samples| ==> samples[i] >= 0
    ensures Sum(samples) >= 0
  {
    if samples != [] {
      SumAtLeastZero(samples[..|samples| - 1]);
    }
  }

  /** A quotient of a total between 0 and `m` times the divisor lies between 0 and `m`. */
  lemma QuotientBounds(a: int, t: int, c: int, m: int)
    requires c > 0 && 0 <= t <= m * c && a * c <= t < (a + 1) * c
    ensures 0 <= a <= m
  {
    if a < 0 {
      ProductNonNegative(-(a + 1), c);
    }
    if a > m {
      ProductNonNegative(a - m - 1, c);
    }
  }

  lemma ProductNonNegative(x: int, y: int)
    requires x >= 0 && y >= 0
    ensures x * y >= 0
  {
  }

  /** With non-negative samples the average lies between 0 and the maximum. */
  lemma AverageWithinRange(samples: seq<int>)
    requires forall i :: 0 <= i < |samples| ==> samples[i] >= 0
    ensures 0 <= StatsOf(samples).Avg() <= StatsOf(samples).max
  {
    var s := StatsOf(samples);
    StatsOfSamples(samples);
    if samples != [] {
      SumAtMost(samples, s.max);
      SumAtLeastZero(samples);
      var a := s.Avg();
      QuotientBounds(a, s.total, s.count, s.max);
    }
  }

  /** The Java statistics object. */
  class Stats {
    var count: int
    var total: int
    var max: int

    function Value(): StatsValue
      reads this
    {
      StatsValue(count, total, max)
    }

    constructor ()
      ensures Value() == NoSamples
    {
      count := 0;
      total := 0;
      max := 0;
    }

    method Add(v: int)
      modifies this
      ensures Value() == old(Value()).Add(v)
    {
      count := count + 1;
      total := total + v;
      if v > max {
        max := v;
      }
    }

    method Avg() returns (a: int)
      ensures a == Value().Avg()
    {
      a := if count == 0 then 0 else JavaDiv(total, count);
    }
  }

  // ---------------------------------------------------------------------------------------
  // The sampler
  // ---------------------------------------------------------------------------------------

  /** The numbers a report holds (its JSON layout is not modelled). */
  datatype Report = Report(
    prepareCount: int, prepareAvgMs: int, prepareMaxMs: int,
    resyncCount: int, resyncMaxDriftMs: int,
    windowCount: int, windowAvgWidthMs: int,
    throttleCount: int, lastPreparedTotal: int, lastPreparedWindow: int, timestampMs: int)

  /** How an attempted report write ends: written, no report directory, or an I/O error. */
  datatype WriteOutcome = Written | DirectoryFailed | WriteFailed

  datatype SamplerState = SamplerState(
    disabled: bool,
    hasReportFile: bool,
    prepare: StatsValue,
    resync: StatsValue,
    window: StatsValue,
    lastPreparedTotal: int,
    lastPreparedWindow: int,
    throttleCount: int,
    lastFlushMs: int,
    report: Option<Report>)

  function ReportOf(s: SamplerState, now: int): Report {
    Report(s.prepare.count, s.prepare.Avg(), s.prepare.max, s.resync.count, s.resync.max,
           s.window.count, s.window.Avg(), s.throttleCount, s.lastPreparedTotal, s.lastPreparedWindow, now)
  }

  /** A new sampler; one without a report file is disabled from the start. */
  function Initial(hasReportFile: bool, disabled: bool): (s: SamplerState)
    ensures s.disabled <==> disabled || !hasReportFile
  {
    SamplerState(disabled || !hasReportFile, hasReportFile, NoSamples, NoSamples, NoSamples, 0, 0, 0, 0, None)
  }

  /** `flush`: writes the report, or disables the sampler for good when the write fails. */
  function Flushed(s: SamplerState, now: int, outcome: WriteOutcome): SamplerState {
    if s.disabled || !s.hasReportFile then s
    else
      match outcome
      case Written => s.(report := Some(ReportOf(s, now)), lastFlushMs := now)
      case DirectoryFailed => s.(disabled := true)
      case WriteFailed => s.(disabled := true)
  }

  function FlushedIfDue(s: SamplerState, now: int, outcome: WriteOutcome): SamplerState {
    if now - s.lastFlushMs >= MinFlushIntervalMs then Flushed(s, now, outcome) else s
  }

  function AfterPrepare(s: SamplerState, durationMs: int, totalItems: int, windowedItems: int,
                         now: int, outcome: WriteOutcome): SamplerState {
    if s.disabled then s
    else
      FlushedIfDue(s.(prepare := s.prepare.Add(durationMs), lastPreparedTotal := totalItems,
                    lastPreparedWindow := windowedItems), now, outcome)
  }

  function AfterResync(s: SamplerState, driftMs: int, now: int, outcome: WriteOutcome): SamplerState {
    if s.disabled then s else FlushedIfDue(s.(resync := s.resync.Add(driftMs)), now, outcome)
  }

  function AfterWindow(s: SamplerState, startMs: int, endMs: int, windowedItems: int,
                        now: int, outcome: WriteOutcome): SamplerState {
    if s.disabled then s
    else
      FlushedIfDue(s.(window := s.window.Add(Max(0, endMs - startMs)), lastPreparedWindow := windowedItems),
                 now, outcome)
  }

  function AfterThrottle(s: SamplerState, now: int, outcome: WriteOutcome): SamplerState {
    if s.disabled then s else FlushedIfDue(s.(throttleCount := s.throttleCount + 1), now, outcome)
  }

  /** One call to the sampler, with the time it sees and how a write would end. */
  datatype SamplerCall =
    | PrepareCall(durationMs: int, totalItems: int, windowedItems: int)
    | ResyncCall(driftMs: int)
    | WindowCall(startMs: int, endMs: int, windowedItems: int)
    | ThrottleCall
    | FlushCall

  function Step(s: SamplerState, call: SamplerCall, now: int, outcome: WriteOutcome): SamplerState {
    match call
    case PrepareCall(d, t, w) => AfterPrepare(s, d, t, w, now, outcome)
    case ResyncCall(d) => AfterResync(s, d, now, outcome)
    case WindowCall(a, b, w) => AfterWindow(s, a, b, w, now, outcome)
    case ThrottleCall => AfterThrottle(s, now, outcome)
    case FlushCall => Flushed(s, now, outcome)
  }

  /** A disabled sampler ignores every call and stays disabled. */
  lemma DisabledIgnoresCalls(s: SamplerState, call: SamplerCall, now: int, outcome: WriteOutcome)
    requires s.disabled
    ensures Step(s, call, now, outcome) == s
  {
  }

  /** A sampler never becomes enabled again, and a due write that fails disables it. */
  lemma DisabledIsPermanent(s: SamplerState, call: SamplerCall, now: int, outcome: WriteOutcome)
    ensures s.disabled ==> Step(s, call, now, outcome).disabled
    ensures !s.disabled && s.hasReportFile && outcome != Written && now - s.lastFlushMs >= MinFlushIntervalMs
            ==> Step(s, call, now, outcome).disabled
  {
  }

  /** A throttle adds exactly one to the counter of an enabled sampler. */
  lemma ThrottleCountsOne(s: SamplerState, now: int, outcome: WriteOutcome)
    requires !s.disabled
    ensures AfterThrottle(s, now, outcome).throttleCount == s.throttleCount + 1
  {
  }

  /** A window records its width, never less than 0. */
  lemma WindowRecordsWidth(s: SamplerState, startMs: int, endMs: int, w: int, now: int, outcome: WriteOutcome)
    requires !s.disabled
    ensures AfterWindow(s, startMs, endMs, w, now, outcome).window.count == s.window.count + 1
    ensures AfterWindow(s, startMs, endMs, w, now, outcome).window.total
            == s.window.total + (if endMs > startMs then endMs - startMs else 0)
  {
  }

  /**
   * A record call writes a report only when at least five seconds have passed since the last
   * write, and stamps it with the current time.
   */
  lemma RecordsFlushOnlyWhenDue(s: SamplerState, call: SamplerCall, now: int, outcome: WriteOutcome)
    requires !call.FlushCall?
    ensures var t := Step(s, call, now, outcome);
            t.report != s.report ==> now - s.lastFlushMs >= MinFlushIntervalMs && t.report.value.timestampMs == now
    ensures var t := Step(s, call, now, outcome);
            t.lastFlushMs != s.lastFlushMs ==> t.lastFlushMs == now && now - s.lastFlushMs >= MinFlushIntervalMs
  {
  }

  /** The sampler object: its counters, its three statistics objects and its report file. */
  class Sampler {
    var disabled: bool
    const hasReportFile: bool
    const prepareStats: Stats
    const resyncStats: Stats
    const windowWidthStats: Stats
    var lastPreparedTotal: int
    var lastPreparedWindow: int
    var throttleCount: int
    var lastFlushMs: int
    var report: Option<Report>

    predicate Valid()
      reads this
    {
      prepareStats != resyncStats && prepareStats != windowWidthStats && resyncStats != windowWidthStats
    }

    function State(): SamplerState
      reads this, prepareStats, resyncStats, windowWidthStats
    {
      SamplerState(disabled, hasReportFile, prepareStats.Value(), resyncStats.Value(), windowWidthStats.Value(),
                   lastPreparedTotal, lastPreparedWindow, throttleCount, lastFlushMs, report)
    }

    /** `createDefault` (a report file, enabled), `noOp` (none, disabled) and the public constructor. */
    constructor (hasReportFile: bool, disabled: bool)
      ensures Valid() && State() == Initial(hasReportFile, disabled)
      ensures fresh(prepareStats) && fresh(resyncStats) && fresh(windowWidthStats)
    {
      this.hasReportFile := hasReportFile;
      this.disabled := disabled || !hasReportFile;
      prepareStats := new Stats();
      resyncStats := new Stats();
      windowWidthStats := new Stats();
      lastPreparedTotal := 0;
      lastPreparedWindow := 0;
      throttleCount := 0;
      lastFlushMs := 0;
      report := None;
    }

    method Flush(now: int, outcome: WriteOutcome)
      requires Valid()
      modifies this
      ensures Valid() && State() == Flushed(old(State()), now, outcome)
    {
      if disabled || !hasReportFile {
        return;
      }
      match outcome {
        case DirectoryFailed =>
          disabled := true;
        case WriteFailed =>
          disabled := true;
        case Written =>
          var prepareAvg := prepareStats.Avg();
          var windowAvg := windowWidthStats.Avg();
          report := Some(Report(prepareStats.count, prepareAvg, prepareStats.max, resyncStats.count,
                                resyncStats.max, windowWidthStats.count, windowAvg, throttleCount,
                                lastPreparedTotal, lastPreparedWindow, now));
          lastFlushMs := now;
      }
    }

    method FlushIfDue(now: int, outcome: WriteOutcome)
      requires Valid()
      modifies this
      ensures Valid() && State() == FlushedIfDue(old(State()), now, outcome)
    {
      if now - lastFlushMs >= MinFlushIntervalMs {
        Flush(now, outcome);
      }
    }

    method RecordPrepare(durationMs: int, totalItems: int, windowedItems: int, now: int, outcome: WriteOutcome)
      requires Valid()
      modifies this, prepareStats
      ensures Valid() && State() == AfterPrepare(old(State()), durationMs, totalItems, windowedItems, now, outcome)
    {
      if disabled {
        return;
      }
      prepareStats.Add(durationMs);
      lastPreparedTotal := totalItems;
      lastPreparedWindow := windowedItems;
      FlushIfDue(now, outcome);
    }

    method RecordResync(driftMs: int, now: int, outcome: WriteOutcome)
      requires Valid()
      modifies this, resyncStats
      ensures Valid() && State() == AfterResync(old(State()), driftMs, now, outcome)
    {
      if disabled {
        return;
      }
      resyncStats.Add(driftMs);
      FlushIfDue(now, outcome);
    }

    method RecordWindow(startMs: int, endMs: int, windowedItems: int, now: int, outcome: WriteOutcome)
      requires Valid()
      modifies this, windowWidthStats
      ensures Valid() && State() == AfterWindow(old(State()), startMs, endMs, windowedItems, now, outcome)
    {
      if disabled {
        return;
      }
      windowWidthStats.Add(Max(0, endMs - startMs));
      lastPreparedWindow := windowedItems;
      FlushIfDue(now, outcome);
    }

    method RecordThrottle(now: int, outcome: WriteOutcome)
      requires Valid()
      modifies this
      ensures Valid() && State() == AfterThrottle(old(State()), now, outcome)
    {
      if disabled {
        return;
      }
      throttleCount := throttleCount + 1;
      FlushIfDue(now, outcome);
    }
  }
}
