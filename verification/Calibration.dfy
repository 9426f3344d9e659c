/**
 * The clock calibration of Time.cpp as a state machine on values: startup offset model, sliding
 * window, discontinuity detection, robust refit, conversion. Class ClockCalibration runs it in place.
 */
module Calibration {
  import opened Numerics
  import opened OrderStatistics
  import opened LeastSquares

  const STARTUP_BEST_SAMPLE_COUNT: nat := 8

  datatype CalibrationState = WarmingUp | OffsetOnly | Tracking | Degraded

  datatype Config = Config(
    maximumSampleLatency: int, regressionWindow: int, minimumRegressionSpan: int,
    hostStepThreshold: int, modelStepThreshold: int, maximumDriftPpm: real)

  datatype Status = Status(
    macOrigin: int, unixOrigin: int, minimumLatency: int, medianResidual: int, scale: real,
    sampleCount: nat, rejectedSamples: nat, acceptedSamples: nat, sampleSpan: int,
    state: CalibrationState, valid: bool, driftCalibrated: bool)

  /** Everything a ClockCalibration object remembers. */
  datatype Memory = Memory(samples: seq<TimeSample>, status: Status, lastMac: int, lastUnix: int, lastMono: int)

  // ----- Conversion ----------------------------------------------------------------------

  function ApplyModel(mac: int, macOrigin: int, unixOrigin: int, scale: real): int {
    unixOrigin + LlRound(Times((mac - macOrigin) as real, scale))
  }

  const INVALID_CALIBRATION := "SmartNIC clock calibration is not valid"

  /** The conversion of a valid calibration; the code throws when the status is not valid. */
  function ToUnix(s: Status, mac: int): int {
    ApplyModel(mac, s.macOrigin, s.unixOrigin, s.scale)
  }

  // ----- Startup -------------------------------------------------------------------------

  predicate Acceptable(cfg: Config, s: TimeSample) {
    0 <= s.latency <= cfg.maximumSampleLatency && s.mac > 0 && s.unix > 0
  }

  function Accepted(cfg: Config, samples: seq<TimeSample>): (r: seq<TimeSample>)
    ensures |r| <= |samples|
  {
    if samples == [] then []
    else
      var front := Accepted(cfg, samples[..|samples| - 1]);
      if Acceptable(cfg, samples[|samples| - 1]) then front + [samples[|samples| - 1]] else front
  }

  function InitialStatus(rejected: nat): Status {
    Status(0, 0, 0, 0, 1.0, 0, rejected, 0, 0, WarmingUp, false, false)
  }

  function Cleared(m: Memory): Memory {
    Memory([], InitialStatus(m.status.rejectedSamples), 0, 0, 0)
  }

  ghost predicate SortedByLatency(s: seq<TimeSample>) {
    forall i, j :: 0 <= i < j < |s| ==> s[i].latency <= s[j].latency
  }

  ghost predicate SortedByMono(s: seq<TimeSample>) {
    forall i, j :: 0 <= i < j < |s| ==> s[i].mono <= s[j].mono
  }

  /** `order` is a possible result of `std::sort` by latency; ties may come out in any order. */
  ghost predicate LatencyOrder(s: seq<TimeSample>, order: seq<TimeSample>) {
    multiset(order) == multiset(s) && SortedByLatency(order)
  }

  ghost predicate MonoOrder(s: seq<TimeSample>, order: seq<TimeSample>) {
    multiset(order) == multiset(s) && SortedByMono(order)
  }

  function Best(order: seq<TimeSample>, count: nat): (r: seq<TimeSample>) {
    if |order| > count then order[..count] else order
  }

  function Offsets(s: seq<TimeSample>): (r: seq<int>)
    ensures |r| == |s|
  {
    seq(|s|, i requires 0 <= i < |s| => s[i].unix - s[i].mac)
  }

  /** Index that `std::min_element` by latency returns: the first of the least. */
  function LeastLatency(s: seq<TimeSample>): (k: nat)
    requires s != []
    ensures k < |s|
  {
    if |s| == 1 then 0
    else
      var k := LeastLatency(s[..|s| - 1]);
      if s[|s| - 1].latency < s[k].latency then |s| - 1 else k
  }

  function OffsetModel(status: Status, best: seq<TimeSample>): Status
    requires best != []
  {
    var b := best[LeastLatency(best)];
    status.(macOrigin := b.mac, unixOrigin := b.mac + MedianOf(Offsets(best)), minimumLatency := b.latency,
            medianResidual := 0, scale := 1.0, sampleCount := |best|, valid := true, driftCalibrated := false,
            acceptedSamples := status.acceptedSamples + |best|, state := OffsetOnly)
  }

  /** `initialize`, with the arrangements its two sorts happened to produce. */
  function Initialized(cfg: Config, m: Memory, samples: seq<TimeSample>,
                       byLatency: seq<TimeSample>, byMono: seq<TimeSample>): Memory
  {
    var accepted := Accepted(cfg, samples);
    var cleared := Cleared(m);
    var counted := cleared.(status := cleared.status.(
      rejectedSamples := cleared.status.rejectedSamples + (|samples| - |accepted|)));
    if |accepted| < 4 || byLatency == [] || byMono == [] then counted
    else
      var last := byMono[|byMono| - 1];
      Memory(byMono, OffsetModel(counted.status, Best(byLatency, STARTUP_BEST_SAMPLE_COUNT)),
             last.mac, last.unix, last.mono)
  }

  ghost predicate StartupOrders(cfg: Config, samples: seq<TimeSample>, byLatency: seq<TimeSample>, byMono: seq<TimeSample>) {
    && LatencyOrder(Accepted(cfg, samples), byLatency)
    && MonoOrder(Best(byLatency, STARTUP_BEST_SAMPLE_COUNT), byMono)
  }

  // ----- Sliding window ------------------------------------------------------------------

  predicate MacRollback(m: Memory, s: TimeSample) {
    s.mac <= m.lastMac
  }

  predicate HostClockStep(cfg: Config, m: Memory, s: TimeSample) {
    m.lastMono != 0 && Abs((s.unix - m.lastUnix) - (s.mono - m.lastMono)) > cfg.hostStepThreshold
  }

  predicate ModelStep(cfg: Config, m: Memory, s: TimeSample) {
    Abs(ToUnix(m.status, s.mac) - s.unix) > cfg.modelStepThreshold
  }

  predicate Discontinuity(cfg: Config, m: Memory, s: TimeSample) {
    MacRollback(m, s) || HostClockStep(cfg, m, s) || ModelStep(cfg, m, s)
  }

  /** A one-point offset model on the sample. */
  function Restarted(m: Memory, s: TimeSample): Memory {
    m.(samples := m.samples + [s],
       status := m.status.(macOrigin := s.mac, unixOrigin := s.unix, minimumLatency := s.latency,
                           scale := 1.0, sampleCount := 1, valid := true, state := OffsetOnly))
  }

  function Extended(m: Memory, s: TimeSample): Memory {
    m.(samples := m.samples + [s],
       status := m.status.(minimumLatency := if s.latency < m.status.minimumLatency then s.latency
                                             else m.status.minimumLatency))
  }

  function Admitted(cfg: Config, m: Memory, s: TimeSample): Memory {
    if !m.status.valid then Restarted(m, s)
    else if Discontinuity(cfg, m, s) then
      var c := Cleared(m);
      Restarted(c.(status := c.status.(rejectedSamples := m.status.rejectedSamples + 1)), s)
    else Extended(m, s)
  }

  /** Drops samples older than the regression window, oldest first. */
  function Evicted(window: int, now: int, samples: seq<TimeSample>): seq<TimeSample> {
    if samples != [] && now - samples[0].mono > window then Evicted(window, now, samples[1..]) else samples
  }

  function Span(samples: seq<TimeSample>): int {
    if samples == [] then 0 else samples[|samples| - 1].mono - samples[0].mono
  }

  function Windowed(cfg: Config, m: Memory, s: TimeSample): Memory {
    var kept := Evicted(cfg.regressionWindow, s.mono, m.samples);
    Memory(kept,
           m.status.(sampleCount := |kept|, sampleSpan := Span(kept),
                     acceptedSamples := if m.status.acceptedSamples < |kept| then |kept| else m.status.acceptedSamples),
           s.mac, s.unix, s.mono)
  }

  predicate DueForFit(cfg: Config, samples: seq<TimeSample>) {
    |samples| >= 10 && Span(samples) >= cfg.minimumRegressionSpan
  }

  /** `addSample` up to its call of `fit`. */
  function Recorded(cfg: Config, m: Memory, s: TimeSample): Memory {
    Windowed(cfg, Admitted(cfg, m, s), s)
  }

  function Added(cfg: Config, m: Memory, s: TimeSample): Memory {
    if !Acceptable(cfg, s) then m.(status := m.status.(rejectedSamples := m.status.rejectedSamples + 1))
    else
      var r := Recorded(cfg, m, s);
      if DueForFit(cfg, r.samples) then Refitted(cfg, r) else r
  }

  // ----- Robust refit --------------------------------------------------------------------

  datatype Refit = Refused | Fitted(macOrigin: int, unixOrigin: int, scale: real, medianResidual: int, inliers: seq<TimeSample>)

  function ModelResiduals(s: seq<TimeSample>, macOrigin: int, unixOrigin: int, scale: real): (r: seq<int>)
    ensures |r| == |s|
  {
    seq(|s|, i requires 0 <= i < |s| => s[i].unix - ApplyModel(s[i].mac, macOrigin, unixOrigin, scale))
  }

  function Deviations(r: seq<int>, center: int): (d: seq<int>)
    ensures |d| == |r|
  {
    seq(|r|, i requires 0 <= i < |r| => Abs(r[i] - center))
  }

  function Select(s: seq<TimeSample>, d: seq<int>, threshold: int): (r: seq<TimeSample>)
    requires |s| == |d|
    ensures |r| <= |s|
  {
    if s == [] then []
    else
      var n := |s| - 1;
      var front := Select(s[..n], d[..n], threshold);
      if d[n] <= threshold then front + [s[n]] else front
  }

  function Threshold(d: seq<int>): int {
    if MedianOf(d) * 6 > 50000 then MedianOf(d) * 6 else 50000
  }

  /** Deviations from the median residual under the first-pass line. */
  function FirstPassDeviations(s: seq<TimeSample>, fit: Fit): (d: seq<int>)
    requires s != [] && fit.Line?
    ensures |d| == |s|
  {
    var r := ModelResiduals(s, s[0].mac, fit.unixOrigin, fit.scale);
    Deviations(r, MedianOf(r))
  }

  function InliersOf(s: seq<TimeSample>, fit: Fit): (r: seq<TimeSample>)
    requires s != [] && fit.Line?
    ensures |r| <= |s|
  {
    var d := FirstPassDeviations(s, fit);
    Select(s, d, Threshold(d))
  }

  predicate DriftTooLarge(cfg: Config, scale: real) {
    RAbs((scale - 1.0) * 1000000.0) > cfg.maximumDriftPpm
  }

  function SecondPass(cfg: Config, inliers: seq<TimeSample>): Refit {
    if |inliers| < 4 then Refused
    else
      var fit := FitOf(inliers, inliers[0].mac, inliers[0].unix);
      if fit.NoFit? || DriftTooLarge(cfg, fit.scale) then Refused
      else
        var r := ModelResiduals(inliers, inliers[0].mac, fit.unixOrigin, fit.scale);
        Fitted(inliers[0].mac, fit.unixOrigin, fit.scale, MedianOf(Deviations(r, 0)), inliers)
  }

  function RefitOf(cfg: Config, s: seq<TimeSample>): Refit
    requires s != []
  {
    var fit := FitOf(s, s[0].mac, s[0].unix);
    if fit.NoFit? then Refused else SecondPass(cfg, InliersOf(s, fit))
  }

  function Refitted(cfg: Config, m: Memory): Memory
    requires m.samples != []
  {
    match RefitOf(cfg, m.samples)
    case Refused => m
    case Fitted(macOrigin, unixOrigin, scale, medianResidual, inliers) =>
      m.(status := m.status.(
           macOrigin := macOrigin, unixOrigin := unixOrigin, scale := scale, medianResidual := medianResidual,
           sampleCount := |inliers|, driftCalibrated := true, sampleSpan := Span(inliers), state := Tracking))
  }

  // ----- Runs ----------------------------------------------------------------------------

  datatype Event =
    | Initialize(samples: seq<TimeSample>, byLatency: seq<TimeSample>, byMono: seq<TimeSample>)
    | AddSample(sample: TimeSample)
    | Reset

  ghost predicate Possible(cfg: Config, e: Event) {
    e.Initialize? ==> StartupOrders(cfg, e.samples, e.byLatency, e.byMono)
  }

  ghost predicate PossibleRun(cfg: Config, run: seq<Event>) {
    forall i :: 0 <= i < |run| ==> Possible(cfg, run[i])
  }

  function Apply(cfg: Config, m: Memory, e: Event): Memory {
    match e
    case Initialize(samples, byLatency, byMono) => Initialized(cfg, m, samples, byLatency, byMono)
    case AddSample(s) => Added(cfg, m, s)
    case Reset => Cleared(m)
  }

  const FRESH := Memory([], InitialStatus(0), 0, 0, 0)

  /** The memory of a new calibration after the given calls. */
  function After(cfg: Config, run: seq<Event>): Memory {
    if run == [] then FRESH else Apply(cfg, After(cfg, run[..|run| - 1]), run[|run| - 1])
  }
}
