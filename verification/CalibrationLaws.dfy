/**
 * What the calibration does with a sample, said in the sample's own fields: when it refuses or restarts, what it
 * retains, when it fits, which samples the fit keeps, and where the fitted line lies.
 */
module CalibrationLaws {
  import opened Numerics
  import opened OrderStatistics
  import opened LeastSquares
  import opened Calibration
  import opened CalibrationProperties

  // ----- Conversion ----------------------------------------------------------------------

  /** Conversion is the line through the origins, rounded to the nearest nanosecond, halves away from zero. */
  lemma ConversionRounds(s: Status, mac: int)
    ensures var exact, shift := (mac - s.macOrigin) as real * s.scale, (ToUnix(s, mac) - s.unixOrigin) as real;
      && -0.5 <= shift - exact <= 0.5
      && (shift - exact == 0.5 ==> exact > 0.0) && (shift - exact == -0.5 ==> exact < 0.0)
  {
    LlRoundHalves((mac - s.macOrigin) as real * s.scale);
  }

  // ----- Refusal and restart -------------------------------------------------------------

  /** A sample out of range is counted and otherwise ignored; any other is remembered as the last one. */
  lemma RefusalLaw(cfg: Config, m: Memory, s: TimeSample)
    ensures s.latency < 0 || s.latency > cfg.maximumSampleLatency || s.mac <= 0 || s.unix <= 0 ==>
              Added(cfg, m, s) == m.(status := m.status.(rejectedSamples := m.status.rejectedSamples + 1))
    ensures 0 <= s.latency <= cfg.maximumSampleLatency && s.mac > 0 && s.unix > 0 ==>
              var a := Added(cfg, m, s); a.lastMac == s.mac && a.lastUnix == s.unix && a.lastMono == s.mono
  {
    hide Admitted, Evicted, RefitOf, Span;
  }

  predicate Between(low: int, x: int, high: int) {
    low <= x <= high
  }

  /** The sample does not fit what is remembered: device time did not advance, real and monotonic time drifted apart
      by more than the host limit, or the model is off by more than the model limit. */
  predicate BreaksWith(cfg: Config, m: Memory, s: TimeSample) {
    || s.mac <= m.lastMac
    || (m.lastMono != 0
        && !Between(-cfg.hostStepThreshold, (s.unix - m.lastUnix) - (s.mono - m.lastMono), cfg.hostStepThreshold))
    || !Between(-cfg.modelStepThreshold, ToUnix(m.status, s.mac) - s.unix, cfg.modelStepThreshold)
  }

  /** Before any fit, an acceptable sample either restarts the model at itself, which costs one rejection if there was
      a model before, or leaves it alone; it restarts exactly if there was no model or it does not fit. */
  lemma RestartLaw(cfg: Config, m: Memory, s: TimeSample)
    requires Consistent(cfg, m)
    ensures var r := Recorded(cfg, m, s).status;
      if !m.status.valid || BreaksWith(cfg, m, s) then
        && r.macOrigin == s.mac && r.unixOrigin == s.unix && r.scale == 1.0 && r.minimumLatency == s.latency
        && r.valid && r.state == OffsetOnly && !r.driftCalibrated && r.medianResidual == 0
        && r.rejectedSamples == m.status.rejectedSamples + if m.status.valid then 1 else 0
      else
        && r.macOrigin == m.status.macOrigin && r.unixOrigin == m.status.unixOrigin && r.scale == m.status.scale
        && r.valid && r.state == m.status.state && r.driftCalibrated == m.status.driftCalibrated
        && r.medianResidual == m.status.medianResidual && r.rejectedSamples == m.status.rejectedSamples
        && r.minimumLatency == if s.latency < m.status.minimumLatency then s.latency else m.status.minimumLatency
  {
    hide ToUnix, Evicted, Span;
    BreaksIffDiscontinuity(cfg, m, s);
    hide Discontinuity, BreaksWith;
  }

  lemma BreaksIffDiscontinuity(cfg: Config, m: Memory, s: TimeSample)
    ensures Discontinuity(cfg, m, s) <==> BreaksWith(cfg, m, s)
  {
    hide ToUnix;
  }

  /** `kept` is `all` without its oldest samples, exactly while these lie more than `window` back. */
  ghost predicate Trimmed(kept: seq<TimeSample>, all: seq<TimeSample>, window: int, now: int) {
    && |kept| <= |all| && kept == all[|all| - |kept|..]
    && (forall i :: 0 <= i < |all| - |kept| ==> now - all[i].mono > window)
    && (kept != [] ==> now - kept[0].mono <= window)
  }

  function Larger(a: nat, b: nat): nat {
    if a < b then b else a
  }

  /** A reset forgets everything but the rejections. */
  lemma ResetLaw(cfg: Config, m: Memory)
    ensures var a := Apply(cfg, m, Reset);
      && a.samples == [] && a.lastMac == a.lastUnix == a.lastMono == 0
      && a.status.rejectedSamples == m.status.rejectedSamples && a.status.state == WarmingUp
      && !a.status.valid && !a.status.driftCalibrated && a.status.scale == 1.0
      && a.status.macOrigin == a.status.unixOrigin == a.status.minimumLatency == a.status.medianResidual == 0
      && a.status.sampleCount == a.status.acceptedSamples == 0 && a.status.sampleSpan == 0
  {
  }

  /** The window: what was retained, or nothing after a restart, and the sample, without the oldest ones that lie more
      than the regression window back; and the counts that go with it. */
  lemma WindowLaw(cfg: Config, m: Memory, s: TimeSample)
    requires Consistent(cfg, m)
    ensures var r := Recorded(cfg, m, s);
      && Trimmed(r.samples, (if m.status.valid && !BreaksWith(cfg, m, s) then m.samples else []) + [s], cfg.regressionWindow, s.mono)
      && r.status.sampleCount == |r.samples|
      && r.status.acceptedSamples == Larger(|r.samples|, if m.status.valid && BreaksWith(cfg, m, s) then 0 else m.status.acceptedSamples)
      && r.status.sampleSpan == if r.samples == [] then 0 else s.mono - r.samples[0].mono
  {
    hide Evicted, Discontinuity, BreaksWith, Consistent, Admitted, Trimmed;
    BreaksIffDiscontinuity(cfg, m, s);
    AdmittedSamples(cfg, m, s);
    var all := (if m.status.valid && !BreaksWith(cfg, m, s) then m.samples else []) + [s];
    assert Admitted(cfg, m, s).samples == (if m.status.valid && !Discontinuity(cfg, m, s) then m.samples + [s] else [s]);
    assert [] + [s] == [s];
    assert Admitted(cfg, m, s).samples == all;
    AdmittedCounts(cfg, m, s);
    EvictedIsTrimmed(cfg.regressionWindow, s.mono, all);
    var kept := Evicted(cfg.regressionWindow, s.mono, all);
    if kept != [] {
      TrimmedLast(kept, all, cfg.regressionWindow, s.mono);
    }
  }

  lemma AdmittedCounts(cfg: Config, m: Memory, s: TimeSample)
    ensures Admitted(cfg, m, s).status.acceptedSamples
         == if m.status.valid && Discontinuity(cfg, m, s) then 0 else m.status.acceptedSamples
  {
    hide Discontinuity;
  }

  lemma TrimmedLast(kept: seq<TimeSample>, all: seq<TimeSample>, window: int, now: int)
    requires Trimmed(kept, all, window, now) && kept != []
    ensures kept[|kept| - 1] == all[|all| - 1]
  {
  }

  lemma EvictedIsTrimmed(window: int, now: int, all: seq<TimeSample>)
    ensures Trimmed(Evicted(window, now, all), all, window, now)
  {
    hide Evicted;
    EvictedKeepsNewest(window, now, all);
    EvictedAreOld(window, now, all);
  }

  lemma {:induction false} EvictedAreOld(window: int, now: int, samples: seq<TimeSample>)
    ensures var kept := Evicted(window, now, samples);
      |kept| <= |samples| && forall i :: 0 <= i < |samples| - |kept| ==> now - samples[i].mono > window
  {
    if samples != [] && now - samples[0].mono > window {
      EvictedAreOld(window, now, samples[1..]);
      var kept := Evicted(window, now, samples[1..]);
      forall i | 0 <= i < |samples| - |kept| ensures now - samples[i].mono > window {
        assert i > 0 ==> samples[i] == samples[1..][i - 1];
      }
    }
  }

  // ----- Fits ----------------------------------------------------------------------------

  ghost predicate HasLine(s: seq<TimeSample>) {
    s != [] && Denominator(Xs(s, s[0].mac)) != 0.0
  }

  lemma HasLineIff(s: seq<TimeSample>)
    ensures HasLine(s) <==> MacsDiffer(s)
    ensures |s| >= 2 ==> (HasLine(s) <==> FitOf(s, s[0].mac, s[0].unix).Line?)
    ensures |s| < 2 ==> !MacsDiffer(s)
  {
    hide Denominator;
    if s != [] {
      FitExistsIffMacsDiffer(s, s[0].mac, s[0].unix);
      if |s| < 2 {
        EqualMacsGiveZero(s, s[0].mac);
      }
    }
  }

  /** Slope of the least-squares line of s. */
  ghost function LineSlope(s: seq<TimeSample>): real
    requires HasLine(s)
  {
    Slope(Xs(s, s[0].mac), Ys(s, s[0].unix))
  }

  ghost function LineIntercept(s: seq<TimeSample>): real
    requires HasLine(s)
  {
    Intercept(Xs(s, s[0].mac), Ys(s, s[0].unix))
  }

  /** Unix time of each sample less its conversion by the rounded least-squares line of them all. */
  ghost function LineResiduals(w: seq<TimeSample>): (r: seq<int>)
    requires HasLine(w)
    ensures |r| == |w|
  {
    seq(|w|, i requires 0 <= i < |w| =>
      w[i].unix - (w[0].unix + LlRound(LineIntercept(w)) + LlRound((w[i].mac - w[0].mac) as real * LineSlope(w))))
  }

  ghost function Distances(r: seq<int>, center: int): (d: seq<int>)
    ensures |d| == |r|
  {
    seq(|r|, i requires 0 <= i < |r| => if r[i] < center then center - r[i] else r[i] - center)
  }

  /** A sample is an inlier if its residual is within 50 us of the median residual, or within six times the median
      distance from it. */
  ghost predicate IsInlier(w: seq<TimeSample>, i: nat)
    requires HasLine(w) && i < |w|
  {
    var d := Distances(LineResiduals(w), MedianOf(LineResiduals(w)));
    d[i] <= 50000 || d[i] <= 6 * MedianOf(d)
  }

  function Picked(w: seq<TimeSample>, keep: seq<bool>): seq<TimeSample>
    requires |w| == |keep|
  {
    if w == [] then []
    else Picked(w[..|w| - 1], keep[..|w| - 1]) + if keep[|w| - 1] then [w[|w| - 1]] else []
  }

  ghost function Inliers(w: seq<TimeSample>): seq<TimeSample>
    requires HasLine(w)
  {
    Picked(w, seq(|w|, i requires 0 <= i < |w| => IsInlier(w, i)))
  }

  lemma {:induction false} SelectPicks(w: seq<TimeSample>, d: seq<int>, threshold: int, keep: seq<bool>)
    requires |w| == |d| == |keep| && forall i :: 0 <= i < |d| ==> (keep[i] <==> d[i] <= threshold)
    ensures Select(w, d, threshold) == Picked(w, keep)
  {
    if w != [] {
      var n := |w| - 1;
      SelectPicks(w[..n], d[..n], threshold, keep[..n]);
    }
  }

  lemma InliersLaw(w: seq<TimeSample>)
    requires |w| >= 2 && HasLine(w)
    ensures FitOf(w, w[0].mac, w[0].unix).Line? && InliersOf(w, FitOf(w, w[0].mac, w[0].unix)) == Inliers(w)
  {
    hide MedianOf, Slope, Intercept, Denominator, LlRound, Picked, Select;
    var fit := FitOf(w, w[0].mac, w[0].unix);
    var r, d := LineResiduals(w), FirstPassDeviations(w, fit);
    assert r == ModelResiduals(w, w[0].mac, fit.unixOrigin, fit.scale);
    assert d == Distances(r, MedianOf(r));
    var keep := seq(|w|, i requires 0 <= i < |w| => IsInlier(w, i));
    hide LineResiduals, FirstPassDeviations, Distances;
    SelectPicks(w, d, Threshold(d), keep);
  }

  /** The distances of the samples from their conversion by the model. */
  ghost function ModelErrors(t: Status, s: seq<TimeSample>): (d: seq<int>)
    ensures |d| == |s|
  {
    seq(|s|, i requires 0 <= i < |s| =>
      if s[i].unix < ToUnix(t, s[i].mac) then ToUnix(t, s[i].mac) - s[i].unix else s[i].unix - ToUnix(t, s[i].mac))
  }

  /** The model is the least-squares line of s, up to a nanosecond of rounding, at every timestamp. */
  ghost predicate FittedTo(t: Status, s: seq<TimeSample>) {
    && HasLine(s) && t.valid && t.state == Tracking && t.driftCalibrated && t.scale == LineSlope(s)
    && (forall mac: int :: RAbs(ToUnix(t, mac) as real - LineAt(s, s[0].mac, s[0].unix, mac)) <= 1.0)
    && t.medianResidual == MedianOf(ModelErrors(t, s))
    && t.sampleCount == |s| && t.sampleSpan == s[|s| - 1].mono - s[0].mono
  }

  ghost predicate WithinDrift(cfg: Config, s: seq<TimeSample>)
    requires HasLine(s)
  {
    -cfg.maximumDriftPpm <= (LineSlope(s) - 1.0) * 1000000.0 <= cfg.maximumDriftPpm
  }

  /** The window admits a fit: device times differ, at least four inliers remain, theirs differ too, and the slope of
      their line is within the drift bound. */
  ghost predicate Fits(cfg: Config, w: seq<TimeSample>) {
    MacsDiffer(w) && HasLine(w) && |Inliers(w)| >= 4 && MacsDiffer(Inliers(w)) && HasLine(Inliers(w)) && WithinDrift(cfg, Inliers(w))
  }

  lemma SecondPassLaw(cfg: Config, s: seq<TimeSample>)
    ensures SecondPass(cfg, s).Fitted? <==> |s| >= 4 && HasLine(s) && WithinDrift(cfg, s)
    ensures SecondPass(cfg, s).Fitted? ==>
      var f := SecondPass(cfg, s);
      && f.inliers == s && f.macOrigin == s[0].mac && f.scale == LineSlope(s) && f.unixOrigin == s[0].unix + LlRound(LineIntercept(s))
      && f.medianResidual == MedianOf(Deviations(ModelResiduals(s, s[0].mac, f.unixOrigin, f.scale), 0))
  {
    hide MedianOf, Slope, Intercept, Denominator, LlRound, Deviations, ModelResiduals;
    HasLineIff(s);
  }

  lemma RefitLaw(cfg: Config, w: seq<TimeSample>)
    requires |w| >= 10
    ensures RefitOf(cfg, w).Fitted? <==> Fits(cfg, w)
    ensures RefitOf(cfg, w).Fitted? ==> HasLine(w) && RefitOf(cfg, w) == SecondPass(cfg, Inliers(w))
  {
    hide FitOf, InliersOf, SecondPass, HasLine, Inliers, WithinDrift;
    HasLineIff(w);
    if HasLine(w) {
      InliersLaw(w);
      HasLineIff(Inliers(w));
      SecondPassLaw(cfg, Inliers(w));
    }
  }

  /** Where the accepted line lies. */
  lemma FittedLine(t: Status, s: seq<TimeSample>, mac: int)
    requires HasLine(s) && t.macOrigin == s[0].mac && t.scale == LineSlope(s) && t.unixOrigin == s[0].unix + LlRound(LineIntercept(s))
    ensures RAbs(ToUnix(t, mac) as real - LineAt(s, s[0].mac, s[0].unix, mac)) <= 1.0
  {
    hide Times, Slope, Intercept, Denominator, LlRound;
    LlRoundNearest(LineIntercept(s));
    LlRoundNearest(Times((mac - s[0].mac) as real, t.scale));
    TimesRing(t.scale, (mac - s[0].mac) as real, 0.0);
  }

  lemma FittedStatus(cfg: Config, m: Memory)
    requires m.status.valid && m.samples != [] && RefitOf(cfg, m.samples).Fitted? && HasLine(m.samples)
    requires RefitOf(cfg, m.samples) == SecondPass(cfg, Inliers(m.samples))
    ensures FittedTo(Refitted(cfg, m).status, Inliers(m.samples))
  {
    hide Denominator, LineSlope, LineIntercept, LlRound, MedianOf, RefitOf, SecondPass, Inliers, LineAt;
    var s, t := Inliers(m.samples), Refitted(cfg, m).status;
    SecondPassLaw(cfg, s);
    forall mac: int ensures RAbs(ToUnix(t, mac) as real - LineAt(s, s[0].mac, s[0].unix, mac)) <= 1.0 {
      FittedLine(t, s, mac);
    }
    assert ModelErrors(t, s) == Deviations(ModelResiduals(s, s[0].mac, t.unixOrigin, t.scale), 0);
  }

  /** After an acceptable sample a fit is due exactly if at least ten samples are retained and span the minimum. A due
      fit that the window admits leaves the least-squares line of the inliers; otherwise the model stays what it was
      before the fit. Nothing else changes. */
  lemma FitLaw(cfg: Config, m: Memory, s: TimeSample)
    requires Consistent(cfg, m) && 0 <= s.latency <= cfg.maximumSampleLatency && s.mac > 0 && s.unix > 0
    ensures var r, a := Recorded(cfg, m, s), Added(cfg, m, s);
      var due := |r.samples| >= 10 && r.samples[|r.samples| - 1].mono - r.samples[0].mono >= cfg.minimumRegressionSpan;
      && a.samples == r.samples && a.status.rejectedSamples == r.status.rejectedSamples
      && a.status.minimumLatency == r.status.minimumLatency && a.status.acceptedSamples == r.status.acceptedSamples
      && if due && Fits(cfg, r.samples) then FittedTo(a.status, Inliers(r.samples)) else a == r
  {
    hide Recorded, RefitOf, Fits, FittedTo, Inliers, HasLine;
    RecordedConsistent(cfg, m, s);
    var r := Recorded(cfg, m, s);
    if DueForFit(cfg, r.samples) {
      RefitLaw(cfg, r.samples);
      if RefitOf(cfg, r.samples).Fitted? {
        FittedStatus(cfg, r);
      }
    }
  }

  // ----- Neighbours in the window --------------------------------------------------------

  predicate InRange(cfg: Config, s: TimeSample) {
    0 <= s.latency <= cfg.maximumSampleLatency && s.mac > 0 && s.unix > 0
  }

  /** How many samples were accepted since the last startup or reset. */
  function AddedSince(cfg: Config, run: seq<Event>): nat {
    if run == [] then 0
    else match run[|run| - 1]
      case AddSample(s) => AddedSince(cfg, run[..|run| - 1]) + if InRange(cfg, s) then 1 else 0
      case _ => 0
  }

  /** Device time advances from a to b, and between them real and monotonic time agree up to the host limit. */
  predicate Follows(cfg: Config, a: TimeSample, b: TimeSample) {
    && a.mac < b.mac
    && (a.mono == 0 || Between(-cfg.hostStepThreshold, (b.unix - a.unix) - (b.mono - a.mono), cfg.hostStepThreshold))
  }

  /** The newest `count` samples each follow the one before them, if that is retained. */
  ghost predicate NewestFollow(cfg: Config, w: seq<TimeSample>, count: nat) {
    forall i :: 0 < i < |w| && |w| - count <= i ==> Follows(cfg, w[i - 1], w[i])
  }

  lemma TrimmedFollow(cfg: Config, kept: seq<TimeSample>, all: seq<TimeSample>, window: int, now: int, count: nat)
    requires Trimmed(kept, all, window, now) && NewestFollow(cfg, all, count)
    ensures NewestFollow(cfg, kept, count)
  {
    var dropped := |all| - |kept|;
    forall i | 0 < i < |kept| && |kept| - count <= i ensures Follows(cfg, kept[i - 1], kept[i]) {
      assert kept[i] == all[dropped + i] && kept[i - 1] == all[dropped + i - 1];
    }
  }

  lemma AllFollow(cfg: Config, m: Memory, s: TimeSample, count: nat)
    requires Consistent(cfg, m) && NewestFollow(cfg, m.samples, count)
    ensures NewestFollow(cfg, (if m.status.valid && !BreaksWith(cfg, m, s) then m.samples else []) + [s], count + 1)
  {
    hide ToUnix, DriftTooLarge;
    if m.status.valid && !BreaksWith(cfg, m, s) && m.samples != [] {
      LastFollowed(cfg, m, s);
      hide Consistent, BreaksWith, Follows;
      var all := m.samples + [s];
      forall i | 0 < i < |all| && |all| - (count + 1) <= i ensures Follows(cfg, all[i - 1], all[i]) {
        if i < |all| - 1 {
          assert Follows(cfg, m.samples[i - 1], m.samples[i]);
        }
      }
    }
  }

  lemma LastFollowed(cfg: Config, m: Memory, s: TimeSample)
    requires Consistent(cfg, m) && !BreaksWith(cfg, m, s) && m.samples != []
    ensures Follows(cfg, m.samples[|m.samples| - 1], s)
  {
    hide ToUnix, DriftTooLarge;
  }

  lemma AddedFollow(cfg: Config, m: Memory, s: TimeSample, count: nat)
    requires Consistent(cfg, m) && InRange(cfg, s) && NewestFollow(cfg, m.samples, count)
    ensures NewestFollow(cfg, Added(cfg, m, s).samples, count + 1)
  {
    hide Added, Recorded, Consistent, Fits, FittedTo, BreaksWith, NewestFollow, Trimmed, Inliers;
    WindowLaw(cfg, m, s);
    FitLaw(cfg, m, s);
    var all := (if m.status.valid && !BreaksWith(cfg, m, s) then m.samples else []) + [s];
    AllFollow(cfg, m, s, count);
    TrimmedFollow(cfg, Recorded(cfg, m, s).samples, all, cfg.regressionWindow, s.mono, count + 1);
  }

  /** In every reachable window each sample that addSample appended has a larger device time than the retained one
      before it and agrees with it on elapsed host time. */
  lemma {:induction false} NeighboursFollow(cfg: Config, run: seq<Event>)
    requires PossibleRun(cfg, run)
    ensures NewestFollow(cfg, After(cfg, run).samples, AddedSince(cfg, run))
  {
    hide Added, Initialized, Consistent, Follows, Possible;
    if run != [] {
      var n := |run| - 1;
      NeighboursFollow(cfg, run[..n]);
      EveryRunConsistent(cfg, run[..n]);
      match run[n]
      case AddSample(s) =>
        if InRange(cfg, s) {
          AddedFollow(cfg, After(cfg, run[..n]), s, AddedSince(cfg, run[..n]));
        } else {
          RefusalLaw(cfg, After(cfg, run[..n]), s);
        }
      case _ =>
    }
  }

  // ----- Startup -------------------------------------------------------------------------

  lemma {:induction false} AcceptedLaw(cfg: Config, samples: seq<TimeSample>)
    ensures forall x :: multiset(Accepted(cfg, samples))[x] == if InRange(cfg, x) then multiset(samples)[x] else 0
  {
    if samples != [] {
      var n := |samples| - 1;
      AcceptedLaw(cfg, samples[..n]);
      assert samples == samples[..n] + [samples[n]];
    }
  }

  /** No sample in range that is not retained, or not as often as it was given, was read faster than a retained one. */
  ghost predicate Fastest(cfg: Config, samples: seq<TimeSample>, kept: seq<TimeSample>) {
    && (forall y :: y in kept ==> InRange(cfg, y) && multiset(kept)[y] <= multiset(samples)[y])
    && (forall x, y :: y in kept && InRange(cfg, x) && multiset(kept)[x] < multiset(samples)[x] ==> y.latency <= x.latency)
  }

  lemma BestAreFastest(order: seq<TimeSample>, count: nat, x: TimeSample, y: TimeSample)
    requires SortedByLatency(order) && y in Best(order, count) && multiset(Best(order, count))[x] < multiset(order)[x]
    ensures y.latency <= x.latency
  {
    assert order == order[..count] + order[count..];
    assert multiset(order)[x] == multiset(order[..count])[x] + multiset(order[count..])[x];
    assert x in order[count..];
    var i :| 0 <= i < count && order[i] == y;
    var j :| 0 <= j < |order| - count && order[count..][j] == x;
    assert order[i].latency <= order[count + j].latency;
  }

  lemma BestWithin(order: seq<TimeSample>, count: nat, x: TimeSample)
    ensures multiset(Best(order, count))[x] <= multiset(order)[x]
  {
    if |order| > count {
      assert order == order[..count] + order[count..];
    }
  }

  lemma StartupIsFastest(cfg: Config, e: Event)
    requires e.Initialize? && Possible(cfg, e)
    ensures Fastest(cfg, e.samples, e.byMono)
  {
    AcceptedLaw(cfg, e.samples);
    var best := Best(e.byLatency, STARTUP_BEST_SAMPLE_COUNT);
    hide Accepted, Best, InRange;
    SameMembers(e.byMono, best);
    forall y | y in e.byMono ensures InRange(cfg, y) && multiset(e.byMono)[y] <= multiset(e.samples)[y] {
      BestWithin(e.byLatency, STARTUP_BEST_SAMPLE_COUNT, y);
      assert y in multiset(best);
    }
    forall x, y | y in e.byMono && InRange(cfg, x) && multiset(e.byMono)[x] < multiset(e.samples)[x] ensures y.latency <= x.latency {
      BestAreFastest(e.byLatency, STARTUP_BEST_SAMPLE_COUNT, x, y);
    }
  }

  function InRangeCount(cfg: Config, samples: seq<TimeSample>): nat {
    if samples == [] then 0
    else InRangeCount(cfg, samples[..|samples| - 1]) + if InRange(cfg, samples[|samples| - 1]) then 1 else 0
  }

  lemma {:induction false} AcceptedCount(cfg: Config, samples: seq<TimeSample>)
    ensures |Accepted(cfg, samples)| == InRangeCount(cfg, samples)
  {
    if samples != [] {
      AcceptedCount(cfg, samples[..|samples| - 1]);
    }
  }

  lemma {:induction false} LeastLatencyLaw(s: seq<TimeSample>)
    requires s != []
    ensures forall i :: 0 <= i < |s| ==> s[LeastLatency(s)].latency <= s[i].latency
    ensures forall i :: 0 <= i < LeastLatency(s) ==> s[LeastLatency(s)].latency < s[i].latency
  {
    if |s| > 1 {
      LeastLatencyLaw(s[..|s| - 1]);
    }
  }

  lemma {:induction false} OffsetsPermutation(s: seq<TimeSample>, t: seq<TimeSample>)
    requires multiset(s) == multiset(t)
    ensures multiset(Offsets(s)) == multiset(Offsets(t))
    decreases |s|
  {
    hide Offsets;
    SameMembers(s, t);
    if s == [] {
      assert t == [];
    } else {
      var n := |s| - 1;
      assert s[n] in t;
      var j :| 0 <= j < |t| && t[j] == s[n];
      var a, b := s[..n] + s[n + 1..], t[..j] + t[j + 1..];
      OffsetsWithout(s, n);
      OffsetsWithout(t, j);
      Cancelled(multiset(a), multiset(b), s[n]);
      OffsetsPermutation(a, b);
    }
  }

  lemma Cancelled(a: multiset<TimeSample>, b: multiset<TimeSample>, x: TimeSample)
    requires a + multiset{x} == b + multiset{x}
    ensures a == b
  {
    assert a == a + multiset{x} - multiset{x};
    assert b == b + multiset{x} - multiset{x};
  }

  lemma OffsetsWithout(t: seq<TimeSample>, j: nat)
    requires j < |t|
    ensures multiset(Offsets(t)) == multiset(Offsets(t[..j] + t[j + 1..])) + multiset{t[j].unix - t[j].mac}
    ensures multiset(t) == multiset(t[..j] + t[j + 1..]) + multiset{t[j]}
  {
    assert t == t[..j] + ([t[j]] + t[j + 1..]);
    assert Offsets(t) == Offsets(t[..j]) + ([t[j].unix - t[j].mac] + Offsets(t[j + 1..]));
    assert Offsets(t[..j] + t[j + 1..]) == Offsets(t[..j]) + Offsets(t[j + 1..]);
  }

  /** The offset model of some samples: device time plus their median offset from it, at every timestamp. */
  ghost predicate OffsetTo(t: Status, s: seq<TimeSample>) {
    && t.valid && t.state == OffsetOnly && !t.driftCalibrated && t.scale == 1.0 && t.medianResidual == 0
    && (forall mac: int :: ToUnix(t, mac) == mac + MedianOf(Offsets(s)))
    && (exists x :: x in s && t.macOrigin == x.mac && t.minimumLatency == x.latency)
    && (forall x :: x in s ==> t.minimumLatency <= x.latency)
    && t.sampleCount == t.acceptedSamples == |s|
  }

  lemma OffsetModelLaw(status: Status, best: seq<TimeSample>, s: seq<TimeSample>)
    requires best != [] && multiset(best) == multiset(s) && status.acceptedSamples == 0
    ensures OffsetTo(OffsetModel(status, best), s)
  {
    hide MedianOf, LeastLatency, LlRound, Offsets;
    LeastLatencyLaw(best);
    OffsetsPermutation(best, s);
    MedianPermutation(Offsets(best), Offsets(s));
    SameMembers(best, s);
    var t := OffsetModel(status, best);
    forall mac: int ensures ToUnix(t, mac) == mac + MedianOf(Offsets(s)) {
      TimesOne((mac - t.macOrigin) as real);
      LlRoundOfInt(mac - t.macOrigin);
    }
    assert best[LeastLatency(best)] in s;
    forall x | x in s ensures t.minimumLatency <= x.latency {
      assert x in best;
    }
  }

  /** Startup forgets everything but the rejections, to which it adds the samples out of range. With at least four in
      range it retains the fastest of them, at most eight, in order of monotonic time, and their offset model. */
  lemma StartupLaw(cfg: Config, m: Memory, e: Event)
    requires e.Initialize? && Possible(cfg, e)
    ensures var a, count := Apply(cfg, m, e), InRangeCount(cfg, e.samples);
      && a.status.rejectedSamples == m.status.rejectedSamples + |e.samples| - count
      && (a.status.valid <==> count >= 4)
      && (count < 4 ==> a.samples == [] && a.status.state == WarmingUp && a.lastMac == a.lastUnix == a.lastMono == 0)
      && (count >= 4 ==>
            && |a.samples| == (if count < 8 then count else 8)
            && (forall i, j :: 0 <= i < j < |a.samples| ==> a.samples[i].mono <= a.samples[j].mono)
            && Fastest(cfg, e.samples, a.samples) && OffsetTo(a.status, a.samples)
            && var newest := a.samples[|a.samples| - 1];
               a.lastMac == newest.mac && a.lastUnix == newest.unix && a.lastMono == newest.mono)
  {
    hide Accepted, OffsetModel, Fastest, OffsetTo, InRangeCount;
    StartupMembers(cfg, e.samples, e.byLatency, e.byMono);
    AcceptedCount(cfg, e.samples);
    StartupIsFastest(cfg, e);
    var counted := InitialStatus(m.status.rejectedSamples + (|e.samples| - |Accepted(cfg, e.samples)|));
    if InRangeCount(cfg, e.samples) >= 4 {
      var best := Best(e.byLatency, STARTUP_BEST_SAMPLE_COUNT);
      OffsetModelLaw(counted, best, e.byMono);
      OffsetValid(counted, best, e.byMono);
    }
  }

  lemma OffsetValid(status: Status, best: seq<TimeSample>, s: seq<TimeSample>)
    requires best != []
    ensures OffsetModel(status, best).valid && OffsetModel(status, best).rejectedSamples == status.rejectedSamples
  {
  }
}
