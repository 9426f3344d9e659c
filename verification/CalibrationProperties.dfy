/** What every run of the calibration keeps, and how good its model is. */
module CalibrationProperties {
  import opened Numerics
  import opened OrderStatistics
  import opened LeastSquares
  import opened Calibration

  // ----- Startup arrangements ------------------------------------------------------------

  lemma {:induction false} AcceptedMembers(cfg: Config, samples: seq<TimeSample>, s: TimeSample)
    ensures s in Accepted(cfg, samples) <==> s in samples && Acceptable(cfg, s)
  {
    if samples != [] {
      AcceptedMembers(cfg, samples[..|samples| - 1], s);
      assert samples == samples[..|samples| - 1] + [samples[|samples| - 1]];
    }
  }

  lemma SameMembers(s: seq<TimeSample>, t: seq<TimeSample>)
    requires multiset(s) == multiset(t)
    ensures |s| == |t| && forall x :: x in s <==> x in t
  {
    assert |multiset(s)| == |s| && |multiset(t)| == |t|;
    forall x ensures x in s <==> x in t {
      assert x in s <==> x in multiset(s);
      assert x in t <==> x in multiset(t);
    }
  }

  /** Startup keeps min(8, accepted) of the accepted samples and nothing else. */
  lemma StartupMembers(cfg: Config, samples: seq<TimeSample>, byLatency: seq<TimeSample>, byMono: seq<TimeSample>)
    requires StartupOrders(cfg, samples, byLatency, byMono)
    ensures |byLatency| == |Accepted(cfg, samples)|
    ensures |byMono| == |Best(byLatency, STARTUP_BEST_SAMPLE_COUNT)|
    ensures forall i :: 0 <= i < |byMono| ==> byMono[i] in samples && Acceptable(cfg, byMono[i])
  {
    var best := Best(byLatency, STARTUP_BEST_SAMPLE_COUNT);
    SameMembers(byLatency, Accepted(cfg, samples));
    SameMembers(byMono, best);
    forall i | 0 <= i < |byMono| ensures byMono[i] in samples && Acceptable(cfg, byMono[i]) {
      assert byMono[i] in best;
      assert byMono[i] in byLatency;
      AcceptedMembers(cfg, samples, byMono[i]);
    }
  }

  // ----- State invariants ----------------------------------------------------------------

  /** Holds between any two calls, whatever the configuration. */
  ghost predicate Consistent(cfg: Config, m: Memory) {
    var s := m.status;
    && (s.valid <==> s.state != WarmingUp) && s.state != Degraded
    && (s.driftCalibrated <==> s.state == Tracking)
    && (!s.driftCalibrated ==> s.scale == 1.0)
    && (s.driftCalibrated ==> !DriftTooLarge(cfg, s.scale))
    && (!s.valid ==> m == Cleared(m))
    && (m.samples != [] ==> NewestIsLast(m))
    && (s.valid && 0 <= cfg.regressionWindow ==> m.samples != [])
  }

  predicate NewestIsLast(m: Memory)
    requires m.samples != []
  {
    var newest := m.samples[|m.samples| - 1];
    m.lastMac == newest.mac && m.lastUnix == newest.unix && m.lastMono == newest.mono
  }

  lemma {:induction false} EvictedKeepsNewest(window: int, now: int, samples: seq<TimeSample>)
    ensures var kept := Evicted(window, now, samples);
      && |kept| <= |samples| && kept == samples[|samples| - |kept|..]
      && (kept != [] ==> now - kept[0].mono <= window)
      && (samples != [] && now - samples[|samples| - 1].mono <= window ==> kept != [])
  {
    if samples != [] && now - samples[0].mono > window {
      EvictedKeepsNewest(window, now, samples[1..]);
      var kept := Evicted(window, now, samples[1..]);
      assert samples[1..][|samples| - 1 - |kept|..] == samples[|samples| - |kept|..];
    }
  }

  lemma RecordedConsistent(cfg: Config, m: Memory, s: TimeSample)
    requires Consistent(cfg, m) && Acceptable(cfg, s)
    ensures Consistent(cfg, Recorded(cfg, m, s)) && Recorded(cfg, m, s).status.valid
  {
    hide Evicted, Admitted, Span, DriftTooLarge;
    AdmittedStatus(cfg, m, s);
    var all := Admitted(cfg, m, s).samples;
    EvictedKeepsNewest(cfg.regressionWindow, s.mono, all);
    var kept := Recorded(cfg, m, s).samples;
    assert kept != [] ==> kept[|kept| - 1] == s;
  }

  lemma AdmittedStatus(cfg: Config, m: Memory, s: TimeSample)
    requires Consistent(cfg, m)
    ensures var a := Admitted(cfg, m, s);
      && a.status.valid && (a.status.state == OffsetOnly || a.status.state == Tracking)
      && (a.status.driftCalibrated <==> a.status.state == Tracking)
      && (if a.status.driftCalibrated then !DriftTooLarge(cfg, a.status.scale) else a.status.scale == 1.0)
      && a.samples != [] && a.samples[|a.samples| - 1] == s
  {
    hide Discontinuity, DriftTooLarge;
  }

  lemma RefittedConsistent(cfg: Config, m: Memory)
    requires Consistent(cfg, m) && m.status.valid && m.samples != []
    ensures Consistent(cfg, Refitted(cfg, m)) && Refitted(cfg, m).status.valid
    ensures Refitted(cfg, m).samples == m.samples
  {
    hide RefitOf, DriftTooLarge;
    if RefitOf(cfg, m.samples).Fitted? {
      RefitWithinDrift(cfg, m.samples);
    }
  }

  lemma RefitWithinDrift(cfg: Config, s: seq<TimeSample>)
    requires s != [] && RefitOf(cfg, s).Fitted?
    ensures !DriftTooLarge(cfg, RefitOf(cfg, s).scale)
  {
    hide FitOf, InliersOf, ModelResiduals, DriftTooLarge, MedianOf;
  }

  lemma AppliedConsistent(cfg: Config, m: Memory, e: Event)
    requires Consistent(cfg, m) && Possible(cfg, e)
    ensures Consistent(cfg, Apply(cfg, m, e))
  {
    match e
    case AddSample(s) =>
      if Acceptable(cfg, s) {
        RecordedConsistent(cfg, m, s);
        if DueForFit(cfg, Recorded(cfg, m, s).samples) {
          RefittedConsistent(cfg, Recorded(cfg, m, s));
        }
      }
    case Initialize(samples, byLatency, byMono) => StartupMembers(cfg, samples, byLatency, byMono);
    case Reset =>
  }

  /** Every reachable calibration state is consistent. */
  lemma {:induction false} EveryRunConsistent(cfg: Config, run: seq<Event>)
    requires PossibleRun(cfg, run)
    ensures Consistent(cfg, After(cfg, run))
  {
    if run != [] {
      EveryRunConsistent(cfg, run[..|run| - 1]);
      AppliedConsistent(cfg, After(cfg, run[..|run| - 1]), run[|run| - 1]);
    }
  }

  /** A negative regression window evicts even the newest sample: the model is valid with nothing retained. */
  lemma NegativeWindowEvictsAll(cfg: Config, s: TimeSample)
    requires cfg.regressionWindow < 0 && Acceptable(cfg, s)
    ensures After(cfg, [AddSample(s)]).status.valid && After(cfg, [AddSample(s)]).samples == []
  {
    assert [AddSample(s)][..0] == [];
    assert [] + [s] == [s] && [s][1..] == [];
    assert Evicted(cfg.regressionWindow, s.mono, [s]) == Evicted(cfg.regressionWindow, s.mono, []) == [];
    assert Recorded(cfg, FRESH, s).samples == [];
  }

  lemma AppliedRejections(cfg: Config, m: Memory, e: Event)
    requires Consistent(cfg, m) && Possible(cfg, e)
    ensures Apply(cfg, m, e).status.rejectedSamples >= m.status.rejectedSamples
    ensures e.AddSample? && (m.status.valid || Acceptable(cfg, e.sample)) ==> Apply(cfg, m, e).status.valid
    ensures e.Initialize? ==> (Apply(cfg, m, e).status.valid <==> |Accepted(cfg, e.samples)| >= 4)
  {
    hide Discontinuity, RefitOf;
    AppliedConsistent(cfg, m, e);
    match e
    case AddSample(s) =>
      if Acceptable(cfg, s) {
        RecordedConsistent(cfg, m, s);
      }
    case Initialize(samples, byLatency, byMono) => StartupMembers(cfg, samples, byLatency, byMono);
    case Reset =>
  }

  lemma AfterNext(cfg: Config, run: seq<Event>, i: nat)
    requires i < |run|
    ensures After(cfg, run[..i + 1]) == Apply(cfg, After(cfg, run[..i]), run[i])
  {
    hide Apply;
    assert run[..i + 1][..i] == run[..i];
  }

  /** Over every run rejections only accumulate, also across resets, and a valid model stays valid for as long as
      there is neither a reset nor a startup. */
  lemma {:induction false} RejectionsAccumulate(cfg: Config, run: seq<Event>, i: nat, j: nat)
    requires PossibleRun(cfg, run) && i <= j <= |run|
    ensures After(cfg, run[..i]).status.rejectedSamples <= After(cfg, run[..j]).status.rejectedSamples
    ensures After(cfg, run[..i]).status.valid && (forall k :: i <= k < j ==> run[k].AddSample?) ==> After(cfg, run[..j]).status.valid
  {
    hide Apply, Possible, After;
    if i < j {
      RejectionsAccumulate(cfg, run, i, j - 1);
      EveryRunConsistent(cfg, run[..j - 1]);
      AfterNext(cfg, run, j - 1);
      AppliedRejections(cfg, After(cfg, run[..j - 1]), run[j - 1]);
    }
  }

  // ----- Monotone conversion with bounded drift ------------------------------------------

  /** The largest relative drift of a reachable model. A negative bound admits no fit, so the slope stays 1. */
  function DriftBound(cfg: Config): real {
    if cfg.maximumDriftPpm < 0.0 then 0.0 else cfg.maximumDriftPpm / 1000000.0
  }

  lemma ScaleNearOne(cfg: Config, s: Status)
    requires if s.driftCalibrated then !DriftTooLarge(cfg, s.scale) else s.scale == 1.0
    ensures -DriftBound(cfg) <= s.scale - 1.0 <= DriftBound(cfg)
    ensures cfg.maximumDriftPpm <= 1000000.0 ==> 0.0 <= s.scale
  {
  }

  /** Conversion keeps order exactly if the slope is not negative. */
  lemma MonotoneIff(s: Status)
    ensures (forall a: int, b: int :: a <= b ==> ToUnix(s, a) <= ToUnix(s, b)) <==> 0.0 <= s.scale
  {
    hide Times;
    if 0.0 <= s.scale {
      forall a: int, b: int | a <= b ensures ToUnix(s, a) <= ToUnix(s, b) {
        TimesMonotone((a - s.macOrigin) as real, (b - s.macOrigin) as real, s.scale);
        LlRoundMonotone(Times((a - s.macOrigin) as real, s.scale), Times((b - s.macOrigin) as real, s.scale));
      }
    } else {
      NegativeSlopeFalls(s);
    }
  }

  lemma NegativeSlopeFalls(s: Status)
    requires s.scale < 0.0
    ensures exists b: int :: s.macOrigin <= b && ToUnix(s, b) < ToUnix(s, s.macOrigin)
  {
    hide Times;
    var n := (1.0 / -s.scale).Floor + 1;
    TimesMonotone(1.0 / -s.scale, n as real, -s.scale);
    TimesDivide(0.0, 1.0, -s.scale);
    TimesRing(n as real, 0.0, s.scale);
    TimesOne(n as real);
    TimesOne(s.scale);
    LlRoundNearest(Times(n as real, s.scale));
    LlRoundOfInt(0);
    assert 1.0 / -s.scale > 0.0;
    assert ToUnix(s, s.macOrigin + n) < ToUnix(s, s.macOrigin);
  }

  /** In every reachable state conversion keeps order if the drift bound is at most 10^6, and stretches intervals by
      at most the drift bound, plus one nanosecond. */
  lemma ConversionMonotoneAndBounded(cfg: Config, m: Memory, a: int, b: int)
    requires Consistent(cfg, m) && a <= b
    ensures cfg.maximumDriftPpm <= 1000000.0 ==> ToUnix(m.status, a) <= ToUnix(m.status, b)
    ensures RAbs((ToUnix(m.status, b) - ToUnix(m.status, a) - (b - a)) as real)
         <= Times(DriftBound(cfg), (b - a) as real) + 1.0
  {
    hide Times;
    var o, k, w := m.status.macOrigin, m.status.scale, (b - a) as real;
    var eps := DriftBound(cfg);
    ScaleNearOne(cfg, m.status);
    var p, q := Times((a - o) as real, k), Times((b - o) as real, k);
    if 0.0 <= k {
      TimesMonotone((a - o) as real, (b - o) as real, k);
      LlRoundMonotone(p, q);
    }
    LlRoundNearest(p);
    LlRoundNearest(q);
    assert q - p == Times(w, k) by {
      TimesRing(k, (b - o) as real, (a - o) as real);
    }
    TimesRing(w, k, 1.0);
    TimesOne(w);
    TimesRing(w, k - 1.0, 0.0);
    TimesRing(eps, w, 0.0);
    TimesRing(-eps, w, 0.0);
    TimesMonotone(k - 1.0, eps, w);
    TimesMonotone(-eps, k - 1.0, w);
    TimesRing(w, 0.0, eps);
  }

  // ----- Sliding window ------------------------------------------------------------------

  /** Monotonic time never runs backwards from one retained sample to the next call. */
  ghost predicate MonotonicInput(cfg: Config, run: seq<Event>) {
    forall i :: 0 <= i < |run| && run[i].AddSample? && Acceptable(cfg, run[i].sample) ==>
      var before := After(cfg, run[..i]); before.status.valid ==> before.lastMono <= run[i].sample.mono
  }

  ghost predicate WithinWindow(cfg: Config, m: Memory) {
    forall i :: 0 <= i < |m.samples| ==> m.lastMono - m.samples[i].mono <= cfg.regressionWindow
  }

  lemma EvictedSorted(window: int, now: int, all: seq<TimeSample>)
    requires SortedByMono(all)
    ensures SortedByMono(Evicted(window, now, all))
    ensures forall i :: 0 <= i < |Evicted(window, now, all)| ==> now - Evicted(window, now, all)[i].mono <= window
  {
    EvictedKeepsNewest(window, now, all);
    hide Evicted;
    var kept := Evicted(window, now, all);
    forall i, j | 0 <= i < j < |kept| ensures kept[i].mono <= kept[j].mono {
      assert kept[i] == all[|all| - |kept| + i] && kept[j] == all[|all| - |kept| + j];
    }
  }

  lemma AdmittedSamples(cfg: Config, m: Memory, s: TimeSample)
    requires Consistent(cfg, m)
    ensures Admitted(cfg, m, s).samples
         == if m.status.valid && !Discontinuity(cfg, m, s) then m.samples + [s] else [s]
  {
  }

  lemma RecordedWindow(cfg: Config, m: Memory, s: TimeSample)
    requires Consistent(cfg, m) && SortedByMono(m.samples)
    requires m.status.valid ==> m.lastMono <= s.mono
    ensures SortedByMono(Recorded(cfg, m, s).samples) && WithinWindow(cfg, Recorded(cfg, m, s))
  {
    hide Discontinuity, Admitted, Evicted;
    AdmittedSamples(cfg, m, s);
    var all := Admitted(cfg, m, s).samples;
    assert SortedByMono(all);
    EvictedSorted(cfg.regressionWindow, s.mono, all);
  }

  lemma AddedWindow(cfg: Config, m: Memory, s: TimeSample)
    requires Consistent(cfg, m) && SortedByMono(m.samples) && Acceptable(cfg, s)
    requires m.status.valid ==> m.lastMono <= s.mono
    ensures SortedByMono(Added(cfg, m, s).samples) && WithinWindow(cfg, Added(cfg, m, s))
  {
    hide Recorded, RefitOf, Consistent;
    RecordedWindow(cfg, m, s);
    assert DueForFit(cfg, Recorded(cfg, m, s).samples) ==>
      Refitted(cfg, Recorded(cfg, m, s)).samples == Recorded(cfg, m, s).samples;
  }

  /** The newest event that is not a rejected sample is a startup. */
  predicate JustStarted(cfg: Config, run: seq<Event>) {
    run != [] &&
    match run[|run| - 1]
    case Initialize(_, _, _) => true
    case AddSample(s) => !Acceptable(cfg, s) && JustStarted(cfg, run[..|run| - 1])
    case Reset => false
  }

  lemma AppliedWindow(cfg: Config, m: Memory, e: Event)
    requires Consistent(cfg, m) && Possible(cfg, e) && SortedByMono(m.samples)
    requires e.AddSample? && Acceptable(cfg, e.sample) && m.status.valid ==> m.lastMono <= e.sample.mono
    ensures SortedByMono(Apply(cfg, m, e).samples)
    ensures e.Reset? || (e.AddSample? && (Acceptable(cfg, e.sample) || WithinWindow(cfg, m))) ==>
              WithinWindow(cfg, Apply(cfg, m, e))
  {
    hide Consistent, Refitted, Recorded, OffsetModel;
    if e.AddSample? && Acceptable(cfg, e.sample) {
      AddedWindow(cfg, m, e.sample);
      hide Added;
    }
  }

  /** On non-decreasing monotonic input the window is always sorted, and it reaches back no further than the
      regression window exactly when its span fits, which is always so unless the calibration has just started up. */
  lemma {:induction false} WindowInvariant(cfg: Config, run: seq<Event>)
    requires PossibleRun(cfg, run) && MonotonicInput(cfg, run)
    ensures var m := After(cfg, run);
      && SortedByMono(m.samples)
      && (WithinWindow(cfg, m) <==> m.samples == [] || Span(m.samples) <= cfg.regressionWindow)
      && (!JustStarted(cfg, run) ==> WithinWindow(cfg, m))
  {
    hide Apply, WithinWindow, Consistent;
    if run == [] {
      NothingRetained(cfg, FRESH);
    } else {
      var n := |run| - 1;
      forall i | 0 <= i < n ensures run[..n][..i] == run[..i] {}
      WindowInvariant(cfg, run[..n]);
      EveryRunConsistent(cfg, run[..n]);
      AppliedWindow(cfg, After(cfg, run[..n]), run[n]);
      EveryRunConsistent(cfg, run);
      WindowIsSpan(cfg, After(cfg, run));
    }
  }

  lemma NothingRetained(cfg: Config, m: Memory)
    requires m.samples == []
    ensures WithinWindow(cfg, m)
  {
  }

  lemma WindowIsSpan(cfg: Config, m: Memory)
    requires Consistent(cfg, m) && SortedByMono(m.samples)
    ensures WithinWindow(cfg, m) <==> m.samples == [] || Span(m.samples) <= cfg.regressionWindow
  {
    if m.samples != [] {
      assert NewestIsLast(m);
      var n := |m.samples| - 1;
      assert forall i :: 0 <= i <= n ==> m.samples[0].mono <= m.samples[i].mono;
    }
  }

  /** Startup itself evicts nothing: four samples that span more than the regression window are all retained. */
  lemma StartupCanExceedWindow()
    ensures var cfg := Config(100, 1000, 0, 0, 0, 0.0);
      exists e: Event :: e.Initialize? && Possible(cfg, e) && MonotonicInput(cfg, [e])
        && After(cfg, [e]).status.valid && !WithinWindow(cfg, After(cfg, [e]))
  {
    var cfg := Config(100, 1000, 0, 0, 0, 0.0);
    var s := [TimeSample(1, 1, 1, 0), TimeSample(2, 2, 2, 0), TimeSample(3, 3, 3, 0), TimeSample(4, 4, 5000, 0)];
    hide Apply, Possible, After;
    StartupRetains(cfg, s);
    var m := After(cfg, [Initialize(s, s, s)]);
    assert m.lastMono - m.samples[0].mono == 4999;
  }

  lemma StartupRetains(cfg: Config, s: seq<TimeSample>)
    requires 4 <= |s| <= STARTUP_BEST_SAMPLE_COUNT && SortedByLatency(s) && SortedByMono(s)
    requires forall i :: 0 <= i < |s| ==> Acceptable(cfg, s[i])
    ensures var e := Initialize(s, s, s);
      && Possible(cfg, e) && After(cfg, [e]).status.valid
      && After(cfg, [e]).samples == s && After(cfg, [e]).lastMono == s[|s| - 1].mono
  {
    AllAccepted(cfg, s);
    OffsetModelIsValid(InitialStatus(0), s);
    hide OffsetModel, Accepted;
    assert [Initialize(s, s, s)][..0] == [];
    assert After(cfg, [Initialize(s, s, s)]) == Apply(cfg, FRESH, Initialize(s, s, s));
  }

  lemma {:induction false} AllAccepted(cfg: Config, s: seq<TimeSample>)
    requires forall i :: 0 <= i < |s| ==> Acceptable(cfg, s[i])
    ensures Accepted(cfg, s) == s
  {
    if s != [] {
      AllAccepted(cfg, s[..|s| - 1]);
    }
  }

  lemma OffsetModelIsValid(status: Status, best: seq<TimeSample>)
    requires best != []
    ensures OffsetModel(status, best).valid
  {
  }

  // ----- Outlier rejection ---------------------------------------------------------------

  lemma {:induction false} SelectCount(s: seq<TimeSample>, d: seq<int>, threshold: int)
    requires |s| == |d|
    ensures |Select(s, d, threshold)| == Rank(d, threshold, true)
  {
    if s != [] {
      SelectCount(s[..|s| - 1], d[..|s| - 1], threshold);
    }
  }

  /** At least half of the candidates survive, whatever the samples. */
  lemma InliersKeepHalf(s: seq<TimeSample>, fit: Fit)
    requires s != [] && fit.Line?
    ensures 2 * |InliersOf(s, fit)| >= |s|
  {
    hide MedianOf, Rank, Select, ModelResiduals;
    var d := FirstPassDeviations(s, fit);
    SelectCount(s, d, Threshold(d));
    MedianNonNegative(d);
    MedianSplitsEvenly(d);
    RankMonotone(d, MedianOf(d), Threshold(d), true);
  }

  ghost predicate IncreasingMac(s: seq<TimeSample>) {
    forall i, j :: 0 <= i < j < |s| ==> s[i].mac < s[j].mac
  }

  lemma {:induction false} SelectIncreasing(s: seq<TimeSample>, d: seq<int>, threshold: int)
    requires |s| == |d| && IncreasingMac(s)
    ensures IncreasingMac(Select(s, d, threshold))
    ensures s != [] ==> forall i :: 0 <= i < |Select(s, d, threshold)| ==>
              Select(s, d, threshold)[i].mac <= s[|s| - 1].mac
  {
    if s != [] {
      SelectIncreasing(s[..|s| - 1], d[..|s| - 1], threshold);
    }
  }

  /** The slope `fit` ends up with on a window. */
  function FinalScale(s: seq<TimeSample>): (k: real)
    requires s != []
  {
    var first := FitOf(s, s[0].mac, s[0].unix);
    if first.NoFit? then 1.0
    else
      var inliers := InliersOf(s, first);
      if inliers == [] then 1.0
      else
        var fit := FitOf(inliers, inliers[0].mac, inliers[0].unix);
        if fit.NoFit? then 1.0 else fit.scale
  }

  /** On seven or more samples with increasing device time, `fit` refuses exactly when the drift is too large:
      both line fits succeed and the minimum-inlier exit is unreachable. */
  lemma RefusesOnlyForDrift(cfg: Config, s: seq<TimeSample>)
    requires |s| >= 7 && IncreasingMac(s)
    ensures RefitOf(cfg, s).Refused? <==> DriftTooLarge(cfg, FinalScale(s))
    ensures RefitOf(cfg, s).Fitted? ==> RefitOf(cfg, s).scale == FinalScale(s) && 2 * |RefitOf(cfg, s).inliers| >= |s|
  {
    assert s[0].mac != s[1].mac;
    FitExistsIffMacsDiffer(s, s[0].mac, s[0].unix);
    var first := FitOf(s, s[0].mac, s[0].unix);
    InliersKeepHalf(s, first);
    var inliers := InliersOf(s, first);
    var d := FirstPassDeviations(s, first);
    SelectIncreasing(s, d, Threshold(d));
    assert inliers[0].mac != inliers[1].mac;
    FitExistsIffMacsDiffer(inliers, inliers[0].mac, inliers[0].unix);
  }

  // ----- Exact recovery ------------------------------------------------------------------

  ghost predicate OnLine(s: seq<TimeSample>, c: real, k: real) {
    forall i :: 0 <= i < |s| ==> s[i].unix as real == c + Times(k, s[i].mac as real)
  }

  ghost predicate MacsDiffer(s: seq<TimeSample>) {
    exists i, j :: 0 <= i < j < |s| && s[i].mac != s[j].mac
  }

  lemma LineThroughFirst(s: seq<TimeSample>, c: real, k: real, i: nat)
    requires OnLine(s, c, k) && i < |s|
    ensures (s[i].unix - s[0].unix) as real == Times(k, (s[i].mac - s[0].mac) as real)
    ensures ApplyModel(s[i].mac, s[0].mac, s[0].unix, k) == s[i].unix
  {
    hide Times;
    TimesRing(k, s[i].mac as real, s[0].mac as real);
    TimesRing(k, (s[i].mac - s[0].mac) as real, 0.0);
    LlRoundOfInt(s[i].unix - s[0].unix);
  }

  lemma ExactFit(s: seq<TimeSample>, c: real, k: real)
    requires s != [] && OnLine(s, c, k) && MacsDiffer(s)
    ensures FitOf(s, s[0].mac, s[0].unix) == Line(k, s[0].unix)
    ensures forall i :: 0 <= i < |s| ==> ModelResiduals(s, s[0].mac, s[0].unix, k)[i] == 0
  {
    hide Times, FitOf, ApplyModel;
    FitExistsIffMacsDiffer(s, s[0].mac, s[0].unix);
    forall i | 0 <= i < |s|
      ensures (s[i].unix - s[0].unix) as real == Times(k, (s[i].mac - s[0].mac) as real)
      ensures ApplyModel(s[i].mac, s[0].mac, s[0].unix, k) == s[i].unix
    {
      LineThroughFirst(s, c, k, i);
    }
    FitRecoversLine(s, s[0].mac, s[0].unix, k);
  }

  lemma {:induction false} SelectAll(s: seq<TimeSample>, d: seq<int>, threshold: int)
    requires |s| == |d| && forall i :: 0 <= i < |d| ==> d[i] <= threshold
    ensures Select(s, d, threshold) == s
  {
    if s != [] {
      SelectAll(s[..|s| - 1], d[..|s| - 1], threshold);
    }
  }

  /** Samples that lie exactly on a line are all inliers and are fitted by that line with zero residual. */
  lemma RefitRecoversLine(cfg: Config, s: seq<TimeSample>, c: real, k: real)
    requires |s| >= 4 && OnLine(s, c, k) && MacsDiffer(s) && !DriftTooLarge(cfg, k)
    ensures RefitOf(cfg, s) == Fitted(s[0].mac, s[0].unix, k, 0, s)
  {
    hide Times;
    ExactFit(s, c, k);
    var r := ModelResiduals(s, s[0].mac, s[0].unix, k);
    MedianOfConstant(r, 0);
    var d := Deviations(r, 0);
    MedianOfConstant(d, 0);
    SelectAll(s, d, Threshold(d));
  }

  /** After a sample that completes an exactly linear window, the model is that line, for every timestamp. */
  lemma ExactRecovery(cfg: Config, m: Memory, s: TimeSample, c: real, k: real, mac: int)
    requires Acceptable(cfg, s) && DueForFit(cfg, Recorded(cfg, m, s).samples)
    requires OnLine(Recorded(cfg, m, s).samples, c, k) && MacsDiffer(Recorded(cfg, m, s).samples)
    requires !DriftTooLarge(cfg, k)
    ensures var after := Added(cfg, m, s).status;
      && after.state == Tracking && after.scale == k && after.medianResidual == 0
      && after.sampleCount == |Recorded(cfg, m, s).samples|
      && RAbs(ToUnix(after, mac) as real - (c + Times(k, mac as real))) <= 0.5
  {
    hide Times, Recorded, RefitOf, DriftTooLarge;
    var window := Recorded(cfg, m, s).samples;
    RefitRecoversLine(cfg, window, c, k);
    TimesRing(k, mac as real, window[0].mac as real);
    TimesRing(k, (mac - window[0].mac) as real, 0.0);
    LlRoundNearest(Times((mac - window[0].mac) as real, k));
  }

  // ----- A negative slope is reachable ---------------------------------------------------

  const WIDE_DRIFT := Config(100, 1000, 0, 100, 100, 3000000.0)

  /** Unix time falls by a nanosecond for every nanosecond of device time. */
  function Falling(i: nat): TimeSample {
    TimeSample(i + 1, 99 - i, i + 1, 0)
  }

  function FallingSamples(n: nat): (r: seq<TimeSample>)
    ensures |r| == n
  {
    seq(n, i requires 0 <= i < n => Falling(i))
  }

  function FallingRun(n: nat): (r: seq<Event>)
    ensures |r| == n
  {
    seq(n, i requires 0 <= i < n => AddSample(Falling(i)))
  }

  /** The offset model of the first sample, with n samples retained. */
  ghost predicate FallingMemory(m: Memory, n: nat)
  {
    && 0 < n && m.samples == FallingSamples(n) && m.status.valid
    && m.status.macOrigin == 1 && m.status.unixOrigin == 99 && m.status.scale == 1.0
    && m.lastMac == n && m.lastUnix == 100 - n && m.lastMono == n
  }

  lemma {:induction false} NothingEvicted(window: int, now: int, samples: seq<TimeSample>)
    requires samples != [] ==> now - samples[0].mono <= window
    ensures Evicted(window, now, samples) == samples
  {
  }

  lemma FallingRecorded(m: Memory, n: nat)
    requires FallingMemory(m, n) && n < 10
    ensures FallingMemory(Recorded(WIDE_DRIFT, m, Falling(n)), n + 1)
  {
    hide Times, Evicted, Span;
    var s := Falling(n);
    TimesOne((s.mac - 1) as real);
    LlRoundOfInt(s.mac - 1);
    assert ToUnix(m.status, s.mac) == 99 + n;
    assert !Discontinuity(WIDE_DRIFT, m, s);
    assert FallingSamples(n + 1) == FallingSamples(n) + [s];
    NothingEvicted(WIDE_DRIFT.regressionWindow, s.mono, FallingSamples(n + 1));
  }

  lemma {:induction false} FallingWindow(n: nat)
    requires 0 < n < 10
    ensures FallingMemory(After(WIDE_DRIFT, FallingRun(n)), n)
  {
    hide Recorded, RefitOf, FallingRun;
    if n == 1 {
      FallingStart();
    } else {
      FallingFront(n);
      FallingWindow(n - 1);
      FallingRecorded(After(WIDE_DRIFT, FallingRun(n - 1)), n - 1);
    }
  }

  lemma FallingFront(n: nat)
    requires 0 < n
    ensures FallingRun(n)[..n - 1] == FallingRun(n - 1) && FallingRun(n)[n - 1] == AddSample(Falling(n - 1))
  {
  }

  lemma FallingStart()
    ensures FallingMemory(After(WIDE_DRIFT, FallingRun(1)), 1)
  {
    hide Evicted, Discontinuity;
    assert FallingRun(1)[..0] == [];
    assert [] + [Falling(0)] == FallingSamples(1);
    NothingEvicted(WIDE_DRIFT.regressionWindow, 1, FallingSamples(1));
  }

  /** With a drift bound above 10^6 ten acceptable samples on a falling line give a model whose conversion falls: it
      does not keep order. */
  lemma ConversionCanFall()
    ensures PossibleRun(WIDE_DRIFT, FallingRun(10))
    ensures var s := After(WIDE_DRIFT, FallingRun(10)).status;
      s.valid && s.scale == -1.0 && exists a: int, b: int :: a <= b && ToUnix(s, b) < ToUnix(s, a)
  {
    hide ToUnix, Recorded, RefitOf, Times;
    FallingWindow(9);
    var m := After(WIDE_DRIFT, FallingRun(9));
    FallingRecorded(m, 9);
    assert FallingRun(10)[..9] == FallingRun(9);
    forall i | 0 <= i < 10 ensures Falling(i).unix as real == 100.0 + Times(-1.0, Falling(i).mac as real) {
      TimesNegative(Falling(i).mac as real);
    }
    assert FallingSamples(10)[0].mac != FallingSamples(10)[1].mac;
    ExactRecovery(WIDE_DRIFT, m, Falling(9), 100.0, -1.0, 0);
    FallingStaysValid(m);
    MonotoneIff(After(WIDE_DRIFT, FallingRun(10)).status);
  }

  lemma TimesNegative(c: real)
    ensures Times(-1.0, c) == -c
  {
  }

  lemma FallingStaysValid(m: Memory)
    requires FallingMemory(m, 9)
    ensures Added(WIDE_DRIFT, m, Falling(9)).status.valid
  {
    hide Recorded, RefitOf;
    FallingRecorded(m, 9);
  }

  // ----- Noisy data ----------------------------------------------------------------------

  /** Every sample is within `noise` of the line c + k * mac. */
  ghost predicate NearLine(s: seq<TimeSample>, c: real, k: real, noise: real) {
    forall i :: 0 <= i < |s| ==> -noise <= s[i].unix as real - (c + Times(k, s[i].mac as real)) <= noise
  }

  lemma {:induction false} DotBounded(e: seq<real>, noise: real)
    requires 0.0 <= noise && forall i :: 0 <= i < |e| ==> -noise <= e[i] <= noise
    ensures Dot(e, e) <= Times(|e| as real, Times(noise, noise))
  {
    hide Times;
    TimesOne(Times(noise, noise));
    if e != [] {
      var n := |e| - 1;
      DotBounded(e[..n], noise);
      SquareBounded(e[n], noise);
      TimesRing(Times(noise, noise), n as real, 1.0);
      TimesRing(n as real, Times(noise, noise), 0.0);
      TimesRing((n + 1) as real, Times(noise, noise), 0.0);
    }
  }

  lemma SquareBounded(x: real, noise: real)
    requires -noise <= x <= noise
    ensures Times(x, x) <= Times(noise, noise)
  {
    assert (noise - x) * (noise + x) >= 0.0;
  }

  /** How many entries are at least `level` in size: their squares alone make up that much of the sum. */
  function Large(r: seq<real>, level: real): nat {
    if r == [] then 0 else Large(r[..|r| - 1], level) + if RAbs(r[|r| - 1]) >= level then 1 else 0
  }

  lemma {:induction false} LargeSquares(r: seq<real>, level: real)
    requires 0.0 <= level
    ensures Times(Large(r, level) as real, Times(level, level)) <= Dot(r, r)
  {
    hide Times;
    TimesOne(Times(level, level));
    if r != [] {
      var n := |r| - 1;
      LargeSquares(r[..n], level);
      TimesSelf(r[n]);
      if RAbs(r[n]) >= level {
        SquareBounded(level, RAbs(r[n]));
        TimesAbs(r[n]);
        TimesRing(Times(level, level), Large(r[..n], level) as real, 1.0);
        TimesRing(Large(r[..n], level) as real, Times(level, level), 0.0);
        TimesRing(Large(r, level) as real, Times(level, level), 0.0);
      }
    }
  }

  lemma TimesAbs(x: real)
    ensures Times(RAbs(x), RAbs(x)) == Times(x, x)
  {
  }

  /** The line through device and Unix time, seen from the fit's origins. */
  lemma NearLineResiduals(s: seq<TimeSample>, c: real, k: real, noise: real)
    requires s != [] && 0.0 <= noise && NearLine(s, c, k, noise)
    ensures var b := c + Times(k, s[0].mac as real) - s[0].unix as real;
      Rss(Xs(s, s[0].mac), Ys(s, s[0].unix), k, b) <= Times(|s| as real, Times(noise, noise))
  {
    hide Times, Dot;
    var b := c + Times(k, s[0].mac as real) - s[0].unix as real;
    var r := Residuals(Xs(s, s[0].mac), Ys(s, s[0].unix), k, b);
    forall i | 0 <= i < |r| ensures -noise <= r[i] <= noise {
      TimesRing(k, s[i].mac as real, s[0].mac as real);
    }
    DotBounded(r, noise);
  }

  lemma {:induction false} LargeCount(d: seq<int>, e: seq<real>, level: int)
    requires |d| == |e| && forall i :: 0 <= i < |d| ==> RAbs(e[i]) >= (d[i] - 1) as real
    ensures Large(e, (level - 1) as real) >= |d| - Rank(d, level, false)
  {
    hide RAbs;
    if d != [] {
      LargeCount(d[..|d| - 1], e[..|e| - 1], level);
    }
  }

  /** Rounding moves a residual by at most one nanosecond. */
  lemma RoundedResidual(s: seq<TimeSample>, i: nat)
    requires i < |s| && Denominator(Xs(s, s[0].mac)) != 0.0
    ensures var x, y := Xs(s, s[0].mac), Ys(s, s[0].unix);
      var a, b := Slope(x, y), Intercept(x, y);
      RAbs(Residuals(x, y, a, b)[i]) >= (Abs(s[i].unix - ApplyModel(s[i].mac, s[0].mac, s[0].unix + LlRound(b), a)) - 1) as real
  {
    hide Times, Denominator, Slope, Intercept, LlRound;
    var x, y := Xs(s, s[0].mac), Ys(s, s[0].unix);
    LlRoundNearest(Intercept(x, y));
    LlRoundNearest(Times(x[i], Slope(x, y)));
    TimesRing(Slope(x, y), x[i], 0.0);
  }

  lemma HalfOfSquares(n: nat, large: nat, level: real, total: real, noise: real)
    requires 0 < n <= 2 * large && 0.0 <= level
    requires Times(large as real, Times(level, level)) <= total <= Times(n as real, Times(noise, noise))
    ensures Times(level, level) <= 2.0 * Times(noise, noise)
  {
    hide Times;
    var l, w := Times(level, level), Times(noise, noise);
    TimesSelf(level);
    TimesMonotone(n as real, 2.0 * large as real, l);
    assert Times(2.0 * large as real, l) == 2.0 * Times(large as real, l) by { TimesTwice(large as real, l); }
    assert 2.0 * Times(n as real, w) == Times(n as real, 2.0 * w) by { TimesTwice(w, n as real); TimesRing(n as real, w, 0.0); TimesRing(n as real, 2.0 * w, 0.0); }
    assert Times(n as real, l) <= Times(n as real, 2.0 * w);
    if l > 2.0 * w {
      TimesPositive(n as real, l - 2.0 * w);
      TimesRing(n as real, l, 2.0 * w);
    }
  }

  lemma TimesTwice(a: real, b: real)
    ensures Times(2.0 * a, b) == 2.0 * Times(a, b)
  {
  }

  ghost predicate AccurateWithin(f: Refit, noise: real) {
    && f.Fitted? && f.inliers != [] && Denominator(Xs(f.inliers, f.inliers[0].mac)) != 0.0
    && f.scale == Slope(Xs(f.inliers, f.inliers[0].mac), Ys(f.inliers, f.inliers[0].unix))
    && LeastRss(f.inliers) <= Times(|f.inliers| as real, Times(noise, noise))
    && (f.medianResidual <= 1 || Times((f.medianResidual - 1) as real, (f.medianResidual - 1) as real) <= 2.0 * Times(noise, noise))
  }

  /** If the inliers lie within `noise` of any line at all, the accepted fit leaves at most noise squared per inlier,
      and its median residual, less one nanosecond of rounding, is at most noise times the square root of two. */
  lemma NoisyFit(cfg: Config, window: seq<TimeSample>, c: real, k: real, noise: real)
    requires window != [] && RefitOf(cfg, window).Fitted? && 0.0 <= noise
    requires NearLine(RefitOf(cfg, window).inliers, c, k, noise)
    ensures AccurateWithin(RefitOf(cfg, window), noise)
  {
    hide RefitOf, Denominator, Slope, Intercept, LeastRss, NearLine, Times, MedianOf, ModelResiduals, Deviations, Xs, Ys;
    var s := FittedInliers(cfg, window);
    NoiseLeft(s, c, k, noise);
    MedianOfNoise(s, noise);
  }

  /** The sum of squared residuals of the least-squares line, before its intercept is rounded. */
  function LeastRss(s: seq<TimeSample>): real
    requires s != [] && Denominator(Xs(s, s[0].mac)) != 0.0
  {
    var x, y := Xs(s, s[0].mac), Ys(s, s[0].unix);
    Rss(x, y, Slope(x, y), Intercept(x, y))
  }

  lemma NoiseLeft(s: seq<TimeSample>, c: real, k: real, noise: real)
    requires s != [] && Denominator(Xs(s, s[0].mac)) != 0.0 && 0.0 <= noise && NearLine(s, c, k, noise)
    ensures LeastRss(s) <= Times(|s| as real, Times(noise, noise))
  {
    hide Denominator, Slope, Intercept, Rss, NearLine, Times;
    NearLineResiduals(s, c, k, noise);
    LeastSquaresOptimal(Xs(s, s[0].mac), Ys(s, s[0].unix), k, c + Times(k, s[0].mac as real) - s[0].unix as real);
  }

  lemma MedianOfNoise(s: seq<TimeSample>, noise: real)
    requires s != [] && Denominator(Xs(s, s[0].mac)) != 0.0 && LeastRss(s) <= Times(|s| as real, Times(noise, noise))
    ensures var x, y := Xs(s, s[0].mac), Ys(s, s[0].unix);
      var med := MedianOf(Deviations(ModelResiduals(s, s[0].mac, s[0].unix + LlRound(Intercept(x, y)), Slope(x, y)), 0));
      med <= 1 || Times((med - 1) as real, (med - 1) as real) <= 2.0 * Times(noise, noise)
  {
    hide Denominator, Slope, Intercept, Dot, Times, MedianOf, ApplyModel, Rank, Large, RAbs, LlRound;
    var x, y := Xs(s, s[0].mac), Ys(s, s[0].unix);
    var e := Residuals(x, y, Slope(x, y), Intercept(x, y));
    var d := Deviations(ModelResiduals(s, s[0].mac, s[0].unix + LlRound(Intercept(x, y)), Slope(x, y)), 0);
    var med := MedianOf(d);
    if med > 1 {
      forall i | 0 <= i < |s| ensures RAbs(e[i]) >= (d[i] - 1) as real {
        RoundedResidual(s, i);
      }
      hide Residuals, Deviations, ModelResiduals;
      LargeCount(d, e, med);
      MedianSplitsEvenly(d);
      LargeSquares(e, (med - 1) as real);
      HalfOfSquares(|s|, Large(e, (med - 1) as real), (med - 1) as real, Dot(e, e), noise);
    }
  }

  /** What an accepted fit was made from. */
  lemma FittedInliers(cfg: Config, window: seq<TimeSample>) returns (s: seq<TimeSample>)
    requires window != [] && RefitOf(cfg, window).Fitted?
    ensures var f := RefitOf(cfg, window);
      && s == f.inliers && |s| >= 4 && f.macOrigin == s[0].mac && Denominator(Xs(s, s[0].mac)) != 0.0
      && var x, y := Xs(s, s[0].mac), Ys(s, s[0].unix);
      && f.scale == Slope(x, y)
      && f.medianResidual == MedianOf(Deviations(ModelResiduals(s, s[0].mac, s[0].unix + LlRound(Intercept(x, y)), Slope(x, y)), 0))
  {
    hide Denominator, Slope, Intercept, InliersOf, MedianOf, ModelResiduals, DriftTooLarge;
    s := RefitOf(cfg, window).inliers;
  }

  // ----- Startup accuracy ----------------------------------------------------------------

  /** How many samples have an offset unix - mac in [lo, hi]. */
  function OffsetsWithin(s: seq<TimeSample>, lo: int, hi: int): nat {
    if s == [] then 0
    else OffsetsWithin(s[..|s| - 1], lo, hi) + (if lo <= s[|s| - 1].unix - s[|s| - 1].mac <= hi then 1 else 0)
  }

  lemma {:induction false} OffsetsWithinRank(s: seq<TimeSample>, lo: int, hi: int)
    requires lo <= hi
    ensures OffsetsWithin(s, lo, hi) == Rank(Offsets(s), hi, true) - Rank(Offsets(s), lo, false)
  {
    if s != [] {
      OffsetsWithinRank(s[..|s| - 1], lo, hi);
      assert Offsets(s)[..|s| - 1] == Offsets(s[..|s| - 1]);
    }
  }

  /** A strict majority of retained startup offsets in [lo, hi] confines the conversion of every timestamp,
      whichever sample was chosen as origin. */
  lemma StartupMajority(cfg: Config, m: Memory, e: Event, lo: int, hi: int, mac: int)
    requires e.Initialize? && Possible(cfg, e) && Apply(cfg, m, e).status.valid && lo <= hi
    requires var best := Best(e.byLatency, STARTUP_BEST_SAMPLE_COUNT); 2 * OffsetsWithin(best, lo, hi) > |best|
    ensures lo <= ToUnix(Apply(cfg, m, e).status, mac) - mac <= hi
  {
    hide Times;
    var best := Best(e.byLatency, STARTUP_BEST_SAMPLE_COUNT);
    var s := Apply(cfg, m, e).status;
    OffsetsWithinRank(best, lo, hi);
    MedianInMajorityInterval(Offsets(best), lo, hi);
    TimesOne((mac - s.macOrigin) as real);
    LlRoundOfInt(mac - s.macOrigin);
  }

  /** Adding s to memory m neither restarts the model nor refits it. */
  predicate KeepsModel(cfg: Config, m: Memory, s: TimeSample) {
    Acceptable(cfg, s) ==>
      && !Discontinuity(cfg, m, s)
      && (DueForFit(cfg, Recorded(cfg, m, s).samples) ==> RefitOf(cfg, Recorded(cfg, m, s).samples).Refused?)
  }

  /** After the startup at position p come only samples, and none of them restarts or refits the model. */
  ghost predicate ModelStands(cfg: Config, run: seq<Event>, p: nat) {
    && p < |run| && run[p].Initialize?
    && forall i :: p < i < |run| ==> run[i].AddSample? && KeepsModel(cfg, After(cfg, run[..i]), run[i].sample)
  }

  lemma ModelKept(cfg: Config, m: Memory, s: TimeSample, mac: int)
    requires m.status.valid && KeepsModel(cfg, m, s)
    ensures var t := Added(cfg, m, s).status; t.valid && t.state == m.status.state && ToUnix(t, mac) == ToUnix(m.status, mac)
  {
    hide Discontinuity, RefitOf, Evicted, ApplyModel, Span;
  }

  lemma {:induction false} StandsUntil(cfg: Config, run: seq<Event>, p: nat, q: nat, mac: int)
    requires ModelStands(cfg, run, p) && After(cfg, run[..p + 1]).status.valid && p < q <= |run|
    ensures var s, t := After(cfg, run[..p + 1]).status, After(cfg, run[..q]).status;
      t.valid && t.state == s.state && ToUnix(t, mac) == ToUnix(s, mac)
  {
    hide ToUnix, Added, KeepsModel, After;
    if p + 1 < q {
      StandsUntil(cfg, run, p, q - 1, mac);
      AfterNext(cfg, run, q - 1);
      ModelKept(cfg, After(cfg, run[..q - 1]), run[q - 1].sample, mac);
    }
  }

  lemma StartupModelStands(cfg: Config, run: seq<Event>, p: nat, mac: int)
    requires ModelStands(cfg, run, p) && After(cfg, run[..p + 1]).status.valid
    ensures var s, t := After(cfg, run[..p + 1]).status, After(cfg, run).status;
      t.valid && t.state == s.state && ToUnix(t, mac) == ToUnix(s, mac)
  {
    hide ToUnix, Apply, KeepsModel;
    StandsUntil(cfg, run, p, |run|, mac);
    assert run[..|run|] == run;
  }
}
