/** The calibration object of Time.cpp: the operations of module Calibration, run in place. */
module ClockCalibration {
  import opened Wrappers
  import opened Numerics
  import opened OrderStatistics
  import opened LeastSquares
  import opened Calibration
  import CalibrationProperties

  ghost predicate Ordered(r: seq<TimeSample>, key: TimeSample -> int) {
    forall i, j :: 0 <= i < j < |r| ==> key(r[i]) <= key(r[j])
  }

  /** Splitting an ordered sequence where x belongs. */
  lemma OrderedInsert(r: seq<TimeSample>, p: nat, x: TimeSample, key: TimeSample -> int)
    requires Ordered(r, key) && p <= |r|
    requires (p > 0 ==> key(r[p - 1]) <= key(x)) && (p < |r| ==> key(x) <= key(r[p]))
    ensures Ordered(r[..p] + [x] + r[p..], key)
  {
    var front, back := r[..p], r[p..];
    forall i | 0 <= i < p ensures key(front[i]) <= key(x) {
      assert p > 1 && i < p - 1 ==> key(r[i]) <= key(r[p - 1]);
    }
    OrderedConcat(front, [x], key);
    forall i, j | 0 <= i <= p && 0 <= j < |back| ensures key((front + [x])[i]) <= key(back[j]) {
      assert j > 0 ==> key(r[p]) <= key(r[p + j]);
      assert i < p ==> key(r[i]) <= key(r[p + j]);
    }
    OrderedConcat(front + [x], back, key);
  }

  lemma OrderedConcat(s: seq<TimeSample>, t: seq<TimeSample>, key: TimeSample -> int)
    requires Ordered(s, key) && Ordered(t, key)
    requires forall i, j :: 0 <= i < |s| && 0 <= j < |t| ==> key(s[i]) <= key(t[j])
    ensures Ordered(s + t, key)
  {
    forall i, j | 0 <= i < j < |s + t| ensures key((s + t)[i]) <= key((s + t)[j]) {
      if i >= |s| {
        assert key(t[i - |s|]) <= key(t[j - |s|]);
      }
    }
  }

  method InsertInOrder(r: seq<TimeSample>, x: TimeSample, key: TimeSample -> int) returns (s: seq<TimeSample>)
    requires Ordered(r, key)
    ensures Ordered(s, key) && multiset(s) == multiset(r) + multiset{x}
  {
    hide Ordered;
    var p := |r|;
    while p > 0 && key(x) < key(r[p - 1])
      invariant 0 <= p <= |r| && (p < |r| ==> key(x) <= key(r[p]))
    {
      p := p - 1;
    }
    OrderedInsert(r, p, x, key);
    assert r == r[..p] + r[p..];
    s := r[..p] + [x] + r[p..];
  }

  /** `std::sort` by a key, here by insertion; callers use only that the result is ordered and a permutation. */
  method SortBy(s: seq<TimeSample>, key: TimeSample -> int) returns (r: seq<TimeSample>)
    ensures multiset(r) == multiset(s) && Ordered(r, key)
  {
    r := [];
    var i := 0;
    while i < |s|
      invariant i <= |s| && multiset(r) == multiset(s[..i]) && Ordered(r, key)
    {
      assert s[..i + 1] == s[..i] + [s[i]];
      r := InsertInOrder(r, s[i], key);
      i := i + 1;
    }
    assert s[..i] == s;
  }

  class ClockCalibration {
    const config: Config
    var samples: seq<TimeSample>
    var status: Status
    var lastMac: int
    var lastUnix: int
    var lastMono: int

    function State(): Memory
      reads this
    {
      Memory(samples, status, lastMac, lastUnix, lastMono)
    }

    constructor (config: Config)
      ensures this.config == config && State() == FRESH
    {
      this.config := config;
      samples, status := [], InitialStatus(0);
      lastMac, lastUnix, lastMono := 0, 0, 0;
    }

    method Clear()
      modifies this
      ensures State() == Cleared(old(State()))
    {
      var rejected := status.rejectedSamples;
      samples := [];
      status := InitialStatus(0);
      status := status.(rejectedSamples := rejected, state := WarmingUp);
      lastMac, lastUnix, lastMono := 0, 0, 0;
    }

    /** `initialize`; the ghost results are the arrangements its two sorts produced. */
    method Initialize(startup: seq<TimeSample>)
      returns (ok: bool, ghost byLatency: seq<TimeSample>, ghost byMono: seq<TimeSample>)
      modifies this
      ensures StartupOrders(config, startup, byLatency, byMono)
      ensures State() == Initialized(config, old(State()), startup, byLatency, byMono)
      ensures ok == status.valid
    {
      hide OffsetModel, Accepted;
      Clear();
      var accepted := Filter(startup);
      var sorted := SortBy(accepted, (s: TimeSample) => s.latency);
      byLatency := sorted;
      if |sorted| > STARTUP_BEST_SAMPLE_COUNT {
        sorted := sorted[..STARTUP_BEST_SAMPLE_COUNT];
      }
      assert sorted == Best(byLatency, STARTUP_BEST_SAMPLE_COUNT);
      hide Best;
      var ordered := SortBy(sorted, (s: TimeSample) => s.mono);
      byMono := ordered;
      CalibrationProperties.StartupMembers(config, startup, byLatency, byMono);
      if |accepted| < 4 {
        return false, byLatency, byMono;
      }
      SetOffsetModel(sorted);
      samples := ordered;
      var last := ordered[|ordered| - 1];
      lastMac, lastUnix, lastMono := last.mac, last.unix, last.mono;
      ok := true;
    }

    /** The acceptable samples; each other one is counted as rejected. */
    method Filter(startup: seq<TimeSample>) returns (accepted: seq<TimeSample>)
      modifies this`status
      ensures accepted == Accepted(config, startup)
      ensures status == old(status).(rejectedSamples := old(status.rejectedSamples) + (|startup| - |accepted|))
    {
      accepted := [];
      var i := 0;
      while i < |startup|
        invariant i <= |startup| && accepted == Accepted(config, startup[..i])
        invariant status == old(status).(rejectedSamples := old(status.rejectedSamples) + (i - |accepted|))
      {
        assert startup[..i + 1][..i] == startup[..i];
        if Acceptable(config, startup[i]) {
          accepted := accepted + [startup[i]];
        } else {
          status := status.(rejectedSamples := status.rejectedSamples + 1);
        }
        i := i + 1;
      }
      assert startup[..i] == startup;
    }

    method SetOffsetModel(best: seq<TimeSample>)
      requires best != []
      modifies this`status
      ensures status == OffsetModel(old(status), best) && status.valid
    {
      var offsets: seq<int>, k := [], 0;
      var i := 0;
      while i < |best|
        invariant i <= |best| && k <= i && k < |best|
        invariant offsets == Offsets(best)[..i]
        invariant i > 0 ==> k == LeastLatency(best[..i])
      {
        assert best[..i + 1][..i] == best[..i];
        offsets := offsets + [best[i].unix - best[i].mac];
        if best[i].latency < best[k].latency {
          k := i;
        }
        i := i + 1;
      }
      assert best[..i] == best && offsets == Offsets(best);
      var median := Median(offsets);
      status := status.(macOrigin := best[k].mac, unixOrigin := best[k].mac + median, minimumLatency := best[k].latency,
                        medianResidual := 0, scale := 1.0, sampleCount := |best|, valid := true, driftCalibrated := false,
                        acceptedSamples := status.acceptedSamples + |best|, state := OffsetOnly);
    }

    method Restart(s: TimeSample)
      modifies this`samples, this`status
      ensures State() == Restarted(old(State()), s)
    {
      status := status.(macOrigin := s.mac, unixOrigin := s.unix, minimumLatency := s.latency,
                        scale := 1.0, sampleCount := 1, valid := true, state := OffsetOnly);
      samples := samples + [s];
    }

    /** `addSample`: true exactly when the sample is acceptable. */
    method AddSample(s: TimeSample) returns (ok: bool)
      modifies this
      ensures ok <==> 0 <= s.latency <= config.maximumSampleLatency && s.mac > 0 && s.unix > 0
      ensures State() == Added(config, old(State()), s)
    {
      hide RefitOf;
      if s.latency < 0 || s.latency > config.maximumSampleLatency || s.mac <= 0 || s.unix <= 0 {
        status := status.(rejectedSamples := status.rejectedSamples + 1);
        return false;
      }
      Admit(s);
      Slide(s);
      if |samples| >= 10 && samples[|samples| - 1].mono - samples[0].mono >= config.minimumRegressionSpan {
        var _ := Fit();
      }
      ok := true;
    }

    method Admit(s: TimeSample)
      modifies this
      ensures State() == Admitted(config, old(State()), s)
    {
      if !status.valid {
        Restart(s);
      } else {
        var realtimeElapsed := s.unix - lastUnix;
        var monotonicElapsed := s.mono - lastMono;
        var macRollback := s.mac <= lastMac;
        var hostClockStep := lastMono != 0 && Abs(realtimeElapsed - monotonicElapsed) > config.hostStepThreshold;
        var converted := ToUnixNanoseconds(s.mac);
        var modelStep := Abs(converted.value - s.unix) > config.modelStepThreshold;
        if macRollback || hostClockStep || modelStep {
          var rejected := status.rejectedSamples + 1;
          Clear();
          status := status.(rejectedSamples := rejected);
          Restart(s);
        } else {
          samples := samples + [s];
          status := status.(minimumLatency := if s.latency < status.minimumLatency then s.latency else status.minimumLatency);
        }
      }
    }

    method Slide(s: TimeSample)
      modifies this
      ensures State() == Windowed(config, old(State()), s)
    {
      lastMac, lastUnix, lastMono := s.mac, s.unix, s.mono;
      while samples != [] && s.mono - samples[0].mono > config.regressionWindow
        invariant Evicted(config.regressionWindow, s.mono, samples) == Evicted(config.regressionWindow, s.mono, old(samples))
        invariant lastMac == s.mac && lastUnix == s.unix && lastMono == s.mono && status == old(status)
        decreases |samples|
      {
        samples := samples[1..];
      }
      status := status.(sampleCount := |samples|);
      status := status.(acceptedSamples := if status.acceptedSamples < status.sampleCount then status.sampleCount else status.acceptedSamples);
      status := status.(sampleSpan := if samples == [] then 0 else samples[|samples| - 1].mono - samples[0].mono);
    }

    /** `toUnixNanoseconds`, with its exception as a failure. */
    method ToUnixNanoseconds(mac: int) returns (unix: Result<int>)
      ensures unix == if status.valid then Success(ToUnix(status, mac)) else Failure(INVALID_CALIBRATION)
    {
      if !status.valid {
        return Failure(INVALID_CALIBRATION);
      }
      return Success(status.unixOrigin + LlRound(Times((mac - status.macOrigin) as real, status.scale)));
    }

    method Fit() returns (ok: bool)
      requires samples != []
      modifies this`status
      ensures State() == Refitted(config, old(State()))
      ensures ok == RefitOf(config, old(samples)).Fitted?
    {
      hide FitOf, MedianOf, ApplyModel, Times, SecondPass;
      var first := FitLine(samples, samples[0].mac, samples[0].unix);
      if first.NoFit? {
        return false;
      }
      var residuals := ResidualsUnder(samples, samples[0].mac, first.unixOrigin, first.scale);
      var center := Median(residuals);
      var deviations := DeviationsFrom(residuals, center);
      var mad := Median(deviations);
      var threshold := if mad * 6 > 50000 then mad * 6 else 50000;
      var inliers := CollectInliers(samples, deviations, threshold);
      var refit := FitInliers(inliers);
      if refit.Refused? {
        return false;
      }
      status := status.(macOrigin := refit.macOrigin, unixOrigin := refit.unixOrigin, scale := refit.scale,
                        medianResidual := refit.medianResidual, sampleCount := |inliers|, driftCalibrated := true,
                        sampleSpan := Span(inliers), state := Tracking);
      ok := true;
    }

    /** The second half of `fit`: the line through the inliers and the drift bound. */
    method FitInliers(inliers: seq<TimeSample>) returns (refit: Refit)
      ensures refit == SecondPass(config, inliers)
      ensures refit.Fitted? ==> refit.inliers == inliers
    {
      hide FitOf, MedianOf, ApplyModel;
      if |inliers| < 4 {
        return Refused;
      }
      var fit := FitLine(inliers, inliers[0].mac, inliers[0].unix);
      if fit.NoFit? || RAbs((fit.scale - 1.0) * 1000000.0) > config.maximumDriftPpm {
        return Refused;
      }
      var residuals := ResidualsUnder(inliers, inliers[0].mac, fit.unixOrigin, fit.scale);
      var sizes := DeviationsFrom(residuals, 0);
      var medianResidual := Median(sizes);
      refit := Fitted(inliers[0].mac, fit.unixOrigin, fit.scale, medianResidual, inliers);
    }
  }

  method ResidualsUnder(s: seq<TimeSample>, macOrigin: int, unixOrigin: int, scale: real) returns (r: seq<int>)
    ensures r == ModelResiduals(s, macOrigin, unixOrigin, scale)
  {
    hide ApplyModel;
    r := [];
    var i := 0;
    while i < |s|
      invariant i <= |s| && r == ModelResiduals(s, macOrigin, unixOrigin, scale)[..i]
    {
      r := r + [s[i].unix - ApplyModel(s[i].mac, macOrigin, unixOrigin, scale)];
      i := i + 1;
    }
  }

  method DeviationsFrom(r: seq<int>, center: int) returns (d: seq<int>)
    ensures d == Deviations(r, center)
  {
    d := [];
    var i := 0;
    while i < |r|
      invariant i <= |r| && d == Deviations(r, center)[..i]
    {
      d := d + [Abs(r[i] - center)];
      i := i + 1;
    }
  }

  method CollectInliers(s: seq<TimeSample>, d: seq<int>, threshold: int) returns (inliers: seq<TimeSample>)
    requires |s| == |d|
    ensures inliers == Select(s, d, threshold)
  {
    inliers := [];
    var i := 0;
    while i < |s|
      invariant i <= |s| && inliers == Select(s[..i], d[..i], threshold)
    {
      assert s[..i + 1][..i] == s[..i] && d[..i + 1][..i] == d[..i];
      if d[i] <= threshold {
        inliers := inliers + [s[i]];
      }
      i := i + 1;
    }
    assert s[..i] == s && d[..i] == d;
  }
}
