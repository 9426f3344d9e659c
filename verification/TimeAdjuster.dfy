/**
 * TimeAdjuster of Time.cpp: the sampler's publications feed the calibration, at startup in bulk and
 * afterwards one best sample per burst. End-to-end results about that composition.
 */
module TimeAdjuster {
  import opened Numerics
  import opened OrderStatistics
  import opened LeastSquares
  import opened Calibration
  import opened CalibrationProperties
  import ClockCalibration
  import ClockSampler

  type Publication = ClockSampler.PublicationSample

  function ToTimeSample(p: Publication): TimeSample {
    TimeSample(p.smartnic, p.realtime, p.mono, p.uncertainty)
  }

  function ToTimeSamples(p: seq<Publication>): (r: seq<TimeSample>)
    ensures |r| == |p|
  {
    seq(|p|, i requires 0 <= i < |p| => ToTimeSample(p[i]))
  }

  /** Startup keeps the samples of least uncertainty, in some order of equals. */
  ghost predicate StartupChoice(count: nat, publications: seq<Publication>, chosen: seq<TimeSample>) {
    exists order: seq<TimeSample> :: LatencyOrder(ToTimeSamples(publications), order) && chosen == Best(order, count)
  }

  // ----- Collecting publications ---------------------------------------------------------

  /** What the clock calls and the device read of one poll return. */
  datatype Reading = Reading(bounds: ClockSampler.Bounds, raw: ClockSampler.RawRead)

  function PollCalls(readings: seq<Reading>): (r: seq<ClockSampler.Call>)
    ensures |r| == |readings|
  {
    seq(|readings|, i requires 0 <= i < |readings| => ClockSampler.PollCall(readings[i].bounds, readings[i].raw))
  }

  /** All samples the sampler has emitted after the given calls, in order. */
  function Publications(maximumUncertainty: int, calls: seq<ClockSampler.Call>): (r: seq<Publication>)
    ensures |r| == |ClockSampler.After(maximumUncertainty, calls).emissions|
  {
    var e := ClockSampler.After(maximumUncertainty, calls).emissions;
    seq(|e|, i requires 0 <= i < |e| => e[i].sample)
  }

  /** The readings were polled in order until `count` samples had been emitted or no reading was left. */
  ghost predicate Polled(before: seq<ClockSampler.Call>, after: seq<ClockSampler.Call>, readings: seq<Reading>, emitted: nat, count: nat) {
    exists n :: 0 <= n <= |readings| && after == before + PollCalls(readings[..n]) && emitted <= count && (n < |readings| ==> emitted == count)
  }

  lemma PublicationsOfPoll(maximumUncertainty: int, calls: seq<ClockSampler.Call>, r: Reading)
    ensures var w, w' := ClockSampler.After(maximumUncertainty, calls), ClockSampler.After(maximumUncertainty, calls + PollCalls([r]));
      var observed := ClockSampler.Observed(w, r.raw);
      var o := ClockSampler.OutcomeOf(maximumUncertainty, w.sampler, r.bounds, observed);
      && w'.reader == ClockSampler.Read(w.reader, r.raw)
      && w'.sampler == ClockSampler.Poll(maximumUncertainty, w.sampler, r.bounds, observed)
      && Publications(maximumUncertainty, calls + PollCalls([r]))
         == Publications(maximumUncertainty, calls) + if o.Emitted? then [o.sample] else []
  {
    hide ClockSampler.Read, ClockSampler.Poll, ClockSampler.OutcomeOf, ClockSampler.Observed;
    var all := calls + PollCalls([r]);
    assert all[..|all| - 1] == calls;
    assert ClockSampler.After(maximumUncertainty, all)
        == ClockSampler.Step(maximumUncertainty, ClockSampler.After(maximumUncertainty, calls), PollCalls([r])[0]);
  }

  /** Startup's choice: each chosen sample carries the fields of a publication, its uncertainty as latency; there are
      as many as allowed; and a publication that was not chosen is no more certain than a chosen one. */
  lemma ChoiceLaw(count: nat, publications: seq<Publication>, chosen: seq<TimeSample>)
    requires StartupChoice(count, publications, chosen)
    ensures |chosen| == if |publications| < count then |publications| else count
    ensures forall x :: x in chosen ==>
              exists p :: p in publications && x == TimeSample(p.smartnic, p.realtime, p.mono, p.uncertainty)
    ensures forall p, x :: p in publications && TimeSample(p.smartnic, p.realtime, p.mono, p.uncertainty) !in chosen && x in chosen ==>
              x.latency <= p.uncertainty
  {
    var all := ToTimeSamples(publications);
    var order: seq<TimeSample> :| LatencyOrder(all, order) && chosen == Best(order, count);
    SameMembers(order, all);
    forall x | x in chosen ensures exists p :: p in publications && x == TimeSample(p.smartnic, p.realtime, p.mono, p.uncertainty) {
      assert x in order;
      assert x in all;
      var i :| 0 <= i < |all| && all[i] == x;
      assert publications[i] in publications;
    }
    forall p, x | p in publications && TimeSample(p.smartnic, p.realtime, p.mono, p.uncertainty) !in chosen && x in chosen
      ensures x.latency <= p.uncertainty
    {
      var y := TimeSample(p.smartnic, p.realtime, p.mono, p.uncertainty);
      var i :| 0 <= i < |publications| && publications[i] == p;
      assert all[i] == y;
      assert y in all;
      assert y in order;
      var j :| 0 <= j < |order| && order[j] == y;
      var k :| 0 <= k < |chosen| && chosen[k] == x;
      assert order[k] == x;
      assert forall i :: 0 <= i < |chosen| ==> order[i] in chosen;
    }
  }

  class TimeAdjuster {
    const reader: ClockSampler.MacClockReader
    const sampler: ClockSampler.ClockSampler
    const calibration: ClockCalibration.ClockCalibration
    const startupSampleCount: nat
    const startupBestSampleCount: nat
    const refreshBurstSize: nat

    // The history: all polls, all calls to the calibration, and which publications they used.
    ghost var calls: seq<ClockSampler.Call>
    ghost var run: seq<Event>
    ghost var startup: nat
    ghost var used: seq<nat>

    ghost function Emitted(): seq<Publication>
      reads this`calls
    {
      Publications(sampler.maximumUncertainty, calls)
    }

    ghost predicate Sampling()
      reads this`calls, sampler, reader
    {
      var w := ClockSampler.After(sampler.maximumUncertainty, calls);
      sampler.reader == reader && sampler.State() == w.sampler && reader.State() == w.reader
    }

    /** The calibration has been through a run that the sampler's publications fed. */
    ghost predicate Fed()
      reads this, calibration
    {
      && calibration.State() == After(calibration.config, run) && PossibleRun(calibration.config, run)
      && (run != [] ==> FedBy(Emitted(), startup, startupBestSampleCount, run, used))
    }

    ghost predicate Valid()
      reads this, sampler, reader, calibration
    {
      Sampling() && Fed()
    }

    constructor (config: Config, maximumUncertainty: int, startupSampleCount: nat, startupBestSampleCount: nat, refreshBurstSize: nat)
      ensures Valid() && fresh(reader) && fresh(sampler) && fresh(calibration) && run == [] && calls == []
      ensures calibration.config == config && sampler.maximumUncertainty == maximumUncertainty
      ensures this.startupSampleCount == startupSampleCount && this.startupBestSampleCount == startupBestSampleCount
      ensures this.refreshBurstSize == refreshBurstSize
    {
      var r := new ClockSampler.MacClockReader();
      var s := new ClockSampler.ClockSampler(r, maximumUncertainty);
      var c := new ClockCalibration.ClockCalibration(config);
      reader, sampler, calibration := r, s, c;
      this.startupSampleCount, this.startupBestSampleCount := startupSampleCount, startupBestSampleCount;
      this.refreshBurstSize := refreshBurstSize;
      calls, run, startup, used := [], [], 0, [];
    }

    /** `collectPublicationSamples`: polls until `count` samples are there or the readings up to the deadline are used up. */
    method CollectPublicationSamples(count: nat, readings: seq<Reading>) returns (samples: seq<Publication>)
      requires Valid()
      modifies this`calls, sampler, reader
      ensures Valid() && Emitted() == old(Emitted()) + samples && Polled(old(calls), calls, readings, |samples|, count)
    {
      hide ClockSampler.After, FedBy, ClockSampler.Read, ClockSampler.Poll, ClockSampler.OutcomeOf, ClockSampler.ReadIsValid, Publications;
      samples := [];
      var n := 0;
      while |samples| < count && n < |readings|
        invariant Sampling() && n <= |readings| && calls == old(calls) + PollCalls(readings[..n])
        invariant Emitted() == old(Emitted()) + samples && |samples| <= count
      {
        PublicationsOfPoll(sampler.maximumUncertainty, calls, readings[n]);
        assert PollCalls(readings[..n + 1]) == PollCalls(readings[..n]) + PollCalls([readings[n]]);
        var sample := sampler.PollOnce(readings[n].bounds, readings[n].raw);
        calls := calls + PollCalls([readings[n]]);
        if sample.Some? {
          samples := samples + [sample.value];
        }
        n := n + 1;
      }
      if run != [] {
        FedByMore(old(Emitted()), samples, startup, startupBestSampleCount, run, used);
      }
    }

    /** `initializeFromPublicationSamples`: the calibration makes one possible `initialize` step on a possible choice. */
    method InitializeFrom(publications: seq<Publication>) returns (ok: bool, ghost event: Event)
      modifies calibration
      ensures event.Initialize? && StartupChoice(startupBestSampleCount, publications, event.samples)
      ensures Possible(calibration.config, event)
      ensures calibration.State() == Apply(calibration.config, old(calibration.State()), event)
      ensures ok == calibration.status.valid
    {
      var samples: seq<TimeSample> := [];
      var i := 0;
      while i < |publications|
        invariant i <= |publications| && samples == ToTimeSamples(publications)[..i]
      {
        samples := samples + [ToTimeSample(publications[i])];
        i := i + 1;
      }
      assert samples == ToTimeSamples(publications);
      var sorted := ClockCalibration.SortBy(samples, (s: TimeSample) => s.latency);
      assert LatencyOrder(samples, sorted);
      var chosen := if |sorted| > startupBestSampleCount then sorted[..startupBestSampleCount] else sorted;
      assert chosen == Best(sorted, startupBestSampleCount);
      ghost var byLatency, byMono;
      ok, byLatency, byMono := calibration.Initialize(chosen);
      event := Event.Initialize(chosen, byLatency, byMono);
    }

    /** What the constructor does once its parts exist; it throws when the result is false. */
    method Start(readings: seq<Reading>) returns (ok: bool)
      requires Valid() && run == [] && calls == []
      modifies this`calls, this`run, this`startup, this`used, sampler, reader, calibration
      ensures Valid() && |run| == 1 && startup == |Emitted()| && used == []
      ensures Polled([], calls, readings, |Emitted()|, startupSampleCount)
      ensures ok == calibration.status.valid
    {
      hide ClockSampler.After, Apply, Publications, Sampling, StartupChoice, Possible, Polled;
      assert Emitted() == [] by { NothingEmitted(sampler.maximumUncertainty); }
      var samples := CollectPublicationSamples(startupSampleCount, readings);
      ghost var event;
      ok, event := InitializeFrom(samples);
      run, startup, used := [event], |samples|, [];
      assert run[..0] == [] && Emitted()[..startup] == samples;
      assert After(calibration.config, run) == Apply(calibration.config, FRESH, event);
    }

    /** `refresh`: polls for a burst and feeds its first sample of least uncertainty. */
    method Refresh(readings: seq<Reading>) returns (accepted: bool, ghost burst: seq<Publication>, ghost best: nat)
      requires Valid() && run != []
      modifies this`calls, this`run, this`used, sampler, reader, calibration
      ensures Valid() && Emitted() == old(Emitted()) + burst && Polled(old(calls), calls, readings, |burst|, refreshBurstSize)
      ensures burst == [] ==> !accepted && run == old(run) && used == old(used)
      ensures burst != [] ==>
        && FirstLeastUncertain(burst, best)
        && used == old(used) + [|old(Emitted())| + best]
        && var p := burst[best];
        && run == old(run) + [AddSample(TimeSample(p.smartnic, p.realtime, p.mono, p.uncertainty))]
        && (accepted <==> 0 <= p.uncertainty <= calibration.config.maximumSampleLatency && p.smartnic > 0 && p.realtime > 0)
    {
      hide ClockSampler.After, After, Added, Publications, Sampling, FedBy, PossibleRun, FirstLeastUncertain, Polled;
      ghost var before := Emitted();
      FedBounds(before, startup, startupBestSampleCount, run, used);
      var samples := CollectPublicationSamples(refreshBurstSize, readings);
      burst := samples;
      if samples == [] {
        return false, [], 0;
      }
      var least := LeastUncertain(samples);
      accepted := calibration.AddSample(ToTimeSample(samples[least]));
      best := least;
      FedByOneMore(Emitted(), startup, startupBestSampleCount, run, used, |before| + best);
      OneMoreSample(calibration.config, run, ToTimeSample(burst[best]));
      run, used := run + [AddSample(ToTimeSample(burst[best]))], used + [|before| + best];
    }
  }

  lemma OneMoreSample(cfg: Config, run: seq<Event>, s: TimeSample)
    requires PossibleRun(cfg, run)
    ensures PossibleRun(cfg, run + [AddSample(s)])
    ensures After(cfg, run + [AddSample(s)]) == Added(cfg, After(cfg, run), s)
  {
    hide Added;
    assert (run + [AddSample(s)])[..|run|] == run;
  }

  ghost predicate FirstLeastUncertain(burst: seq<Publication>, best: nat) {
    && best < |burst|
    && (forall i :: 0 <= i < |burst| ==> burst[best].uncertainty <= burst[i].uncertainty)
    && (forall i :: 0 <= i < best ==> burst[best].uncertainty < burst[i].uncertainty)
  }

  /** `std::min_element` by uncertainty: the first of the least. */
  method LeastUncertain(burst: seq<Publication>) returns (best: nat)
    requires burst != []
    ensures best < |burst| && FirstLeastUncertain(burst, best)
  {
    best := 0;
    var i := 1;
    while i < |burst|
      invariant best < i <= |burst|
      invariant forall k :: 0 <= k < i ==> burst[best].uncertainty <= burst[k].uncertainty
      invariant forall k :: 0 <= k < best ==> burst[best].uncertainty < burst[k].uncertainty
    {
      if burst[i].uncertainty < burst[best].uncertainty {
        best := i;
      }
      i := i + 1;
    }
  }

  lemma NothingEmitted(maximumUncertainty: int)
    ensures Publications(maximumUncertainty, []) == []
  {
  }

  // ----- Runs fed by the sampler ---------------------------------------------------------

  /** Publications in order of emission, both clocks strictly increasing. */
  ghost predicate Increasing(e: seq<Publication>) {
    forall i, j :: 0 <= i < j < |e| ==> e[i].smartnic < e[j].smartnic && e[i].mono < e[j].mono
  }

  /** The run starts from a choice among the first `startup` publications and then adds later ones in order;
      `used[i]` says which publication event i + 1 adds. */
  ghost predicate FedBy(e: seq<Publication>, startup: nat, count: nat, run: seq<Event>, used: seq<nat>) {
    && startup <= |e| && |run| == |used| + 1
    && run[0].Initialize? && StartupChoice(count, e[..startup], run[0].samples)
    && (forall i :: 0 <= i < |used| ==> startup <= used[i] < |e| && run[i + 1] == AddSample(ToTimeSample(e[used[i]])))
    && (forall i, j :: 0 <= i < j < |used| ==> used[i] < used[j])
  }

  /** Later publications do not disturb what has been fed. */
  lemma FedByMore(e: seq<Publication>, more: seq<Publication>, startup: nat, count: nat, run: seq<Event>, used: seq<nat>)
    requires FedBy(e, startup, count, run, used)
    ensures FedBy(e + more, startup, count, run, used)
  {
    hide StartupChoice, ToTimeSample;
    assert (e + more)[..startup] == e[..startup];
  }

  lemma FedBounds(e: seq<Publication>, startup: nat, count: nat, run: seq<Event>, used: seq<nat>)
    requires FedBy(e, startup, count, run, used)
    ensures startup <= |e| && forall i :: 0 <= i < |used| ==> used[i] < |e|
  {
    hide StartupChoice;
  }

  lemma FedByOneMore(e: seq<Publication>, startup: nat, count: nat, run: seq<Event>, used: seq<nat>, u: nat)
    requires FedBy(e, startup, count, run, used) && u < |e|
    requires if used == [] then startup <= u else used[|used| - 1] < u
    ensures FedBy(e, startup, count, run + [AddSample(ToTimeSample(e[u]))], used + [u])
  {
    hide StartupChoice, ToTimeSample;
  }

  ghost predicate BothIncrease(s: seq<TimeSample>) {
    forall i, j :: 0 <= i < j < |s| ==> s[i].mac < s[j].mac && s[i].mono < s[j].mono
  }

  ghost predicate IsAmong(x: TimeSample, e: seq<Publication>, n: nat)
    requires n <= |e|
  {
    exists k :: 0 <= k < n && x == ToTimeSample(e[k])
  }

  /** Every sample is among the first n publications. */
  ghost predicate Among(s: seq<TimeSample>, e: seq<Publication>, n: nat)
    requires n <= |e|
  {
    forall i :: 0 <= i < |s| ==> IsAmong(s[i], e, n)
  }

  // ----- No publication is retained twice ------------------------------------------------

  ghost predicate Distinct(s: seq<TimeSample>) {
    forall i, j :: 0 <= i < j < |s| ==> s[i] != s[j]
  }

  lemma {:induction false} DistinctCounts(s: seq<TimeSample>, x: TimeSample)
    requires Distinct(s)
    ensures multiset(s)[x] <= 1
  {
    if s != [] {
      var n := |s| - 1;
      assert s == s[..n] + [s[n]];
      DistinctCounts(s[..n], x);
      if x == s[n] {
        assert x !in s[..n];
        assert multiset(s[..n])[x] == 0;
      }
    }
  }

  lemma CountsDistinct(s: seq<TimeSample>)
    requires forall x :: multiset(s)[x] <= 1
    ensures Distinct(s)
  {
    forall i, j | 0 <= i < j < |s| ensures s[i] != s[j] {
      assert s == s[..j] + s[j..];
      assert s[i] in s[..j] && s[j] in s[j..];
      assert multiset(s)[s[i]] == multiset(s[..j])[s[i]] + multiset(s[j..])[s[i]];
    }
  }

  lemma DistinctPermutation(s: seq<TimeSample>, t: seq<TimeSample>)
    requires multiset(s) == multiset(t) && Distinct(s)
    ensures Distinct(t)
  {
    forall x ensures multiset(t)[x] <= 1 {
      DistinctCounts(s, x);
    }
    CountsDistinct(t);
  }

  lemma {:induction false} AcceptedDistinct(cfg: Config, s: seq<TimeSample>)
    requires Distinct(s)
    ensures Distinct(Accepted(cfg, s))
  {
    if s != [] {
      var n := |s| - 1;
      AcceptedDistinct(cfg, s[..n]);
      AcceptedMembers(cfg, s[..n], s[n]);
    }
  }

  lemma StartupDistinct(cfg: Config, e: seq<Publication>, startup: nat, count: nat, event: Event)
    requires Increasing(e) && startup <= |e| && event.Initialize? && Possible(cfg, event)
    requires StartupChoice(count, e[..startup], event.samples)
    ensures Distinct(event.byMono) && Among(event.byMono, e, startup)
  {
    var all := ToTimeSamples(e[..startup]);
    var order: seq<TimeSample> :| LatencyOrder(all, order) && event.samples == Best(order, count);
    assert Distinct(all);
    DistinctPermutation(all, order);
    AcceptedDistinct(cfg, event.samples);
    DistinctPermutation(Accepted(cfg, event.samples), event.byLatency);
    DistinctPermutation(Best(event.byLatency, STARTUP_BEST_SAMPLE_COUNT), event.byMono);
    StartupMembers(cfg, event.samples, event.byLatency, event.byMono);
    SameMembers(order, all);
    forall i | 0 <= i < |event.byMono| ensures IsAmong(event.byMono[i], e, startup) {
      assert event.byMono[i] in event.samples;
      assert event.byMono[i] in order;
      assert event.byMono[i] in all;
      var k :| 0 <= k < startup && all[k] == event.byMono[i];
    }
  }

  lemma StartupIncreases(cfg: Config, e: seq<Publication>, startup: nat, count: nat, event: Event)
    requires Increasing(e) && startup <= |e| && event.Initialize? && Possible(cfg, event)
    requires StartupChoice(count, e[..startup], event.samples)
    ensures BothIncrease(event.byMono) && Among(event.byMono, e, startup)
  {
    StartupDistinct(cfg, e, startup, count, event);
    forall i, j | 0 <= i < j < |event.byMono|
      ensures event.byMono[i].mac < event.byMono[j].mac && event.byMono[i].mono < event.byMono[j].mono
    {
      assert IsAmong(event.byMono[i], e, startup) && IsAmong(event.byMono[j], e, startup);
      var p :| 0 <= p < startup && event.byMono[i] == ToTimeSample(e[p]);
      var q :| 0 <= q < startup && event.byMono[j] == ToTimeSample(e[q]);
      assert event.byMono[i].mono <= event.byMono[j].mono && p != q;
      assert p < q;
    }
  }

  // ----- The window of a fed run ---------------------------------------------------------

  lemma AmongMore(s: seq<TimeSample>, e: seq<Publication>, n: nat, n': nat)
    requires n <= n' <= |e| && Among(s, e, n)
    ensures Among(s, e, n')
  {
    forall i | 0 <= i < |s| ensures IsAmong(s[i], e, n') {
      assert IsAmong(s[i], e, n);
    }
  }

  lemma RecordedIncreases(cfg: Config, m: Memory, e: seq<Publication>, n: nat, u: nat)
    requires Consistent(cfg, m) && Increasing(e) && n <= u < |e|
    requires BothIncrease(m.samples) && Among(m.samples, e, n)
    ensures var r := Recorded(cfg, m, ToTimeSample(e[u])); BothIncrease(r.samples) && Among(r.samples, e, u + 1)
  {
    hide Consistent, Recorded, BothIncrease, Among, ToTimeSample, Increasing, Discontinuity;
    var s := ToTimeSample(e[u]);
    RecordedIsSuffix(cfg, m, s);
    var kept := Recorded(cfg, m, s).samples;
    if m.status.valid && !Discontinuity(cfg, m, s) {
      NewestIncreases(m.samples, e, n, u);
      SuffixIncreases(m.samples + [s], e, u + 1, |m.samples| + 1 - |kept|);
    } else {
      NothingIncreases(e);
      NewestIncreases([], e, 0, u);
      SuffixIncreases([] + [s], e, u + 1, 1 - |kept|);
    }
  }

  lemma NothingIncreases(e: seq<Publication>)
    ensures BothIncrease([]) && Among([], e, 0)
  {
  }

  lemma RecordedIsSuffix(cfg: Config, m: Memory, s: TimeSample)
    requires Consistent(cfg, m)
    ensures var kept := Recorded(cfg, m, s).samples;
      var all := (if m.status.valid && !Discontinuity(cfg, m, s) then m.samples else []) + [s];
      |kept| <= |all| && kept == all[|all| - |kept|..]
  {
    hide Consistent, Admitted, Evicted, Discontinuity, Span;
    AdmittedSamples(cfg, m, s);
    var all := (if m.status.valid && !Discontinuity(cfg, m, s) then m.samples else []) + [s];
    assert Admitted(cfg, m, s).samples == all;
    EvictedKeepsNewest(cfg.regressionWindow, s.mono, all);
    assert Recorded(cfg, m, s).samples == Evicted(cfg.regressionWindow, s.mono, all);
  }

  lemma NewestIncreases(samples: seq<TimeSample>, e: seq<Publication>, n: nat, u: nat)
    requires Increasing(e) && n <= u < |e| && BothIncrease(samples) && Among(samples, e, n)
    ensures BothIncrease(samples + [ToTimeSample(e[u])]) && Among(samples + [ToTimeSample(e[u])], e, u + 1)
  {
    var s := ToTimeSample(e[u]);
    forall i | 0 <= i < |samples| ensures samples[i].mac < s.mac && samples[i].mono < s.mono {
      assert IsAmong(samples[i], e, n);
      var k :| 0 <= k < n && samples[i] == ToTimeSample(e[k]);
    }
    AmongMore(samples, e, n, u + 1);
    assert IsAmong(s, e, u + 1);
  }

  lemma SuffixIncreases(samples: seq<TimeSample>, e: seq<Publication>, n: nat, from: nat)
    requires n <= |e| && from <= |samples| && BothIncrease(samples) && Among(samples, e, n)
    ensures BothIncrease(samples[from..]) && Among(samples[from..], e, n)
  {
    var kept := samples[from..];
    forall i | 0 <= i < |kept| ensures kept[i] == samples[from + i] {}
  }

  lemma AddedKeepsRecorded(cfg: Config, m: Memory, s: TimeSample)
    ensures Added(cfg, m, s).samples == if Acceptable(cfg, s) then Recorded(cfg, m, s).samples else m.samples
  {
    hide Recorded, RefitOf;
  }

  lemma AddedIncreases(cfg: Config, m: Memory, e: seq<Publication>, n: nat, u: nat)
    requires Consistent(cfg, m) && Increasing(e) && n <= u < |e|
    requires BothIncrease(m.samples) && Among(m.samples, e, n)
    ensures var r := Added(cfg, m, ToTimeSample(e[u])); BothIncrease(r.samples) && Among(r.samples, e, u + 1)
  {
    hide Recorded, Added, Consistent;
    RecordedIncreases(cfg, m, e, n, u);
    AddedKeepsRecorded(cfg, m, ToTimeSample(e[u]));
    AmongMore(m.samples, e, n, u + 1);
  }

  function Bound(startup: nat, used: seq<nat>): nat {
    if used == [] then startup else used[|used| - 1] + 1
  }

  lemma FedStart(cfg: Config, e: seq<Publication>, startup: nat, count: nat, run: seq<Event>)
    requires |run| == 1 && PossibleRun(cfg, run) && Increasing(e) && FedBy(e, startup, count, run, [])
    ensures BothIncrease(After(cfg, run).samples) && Among(After(cfg, run).samples, e, startup)
  {
    hide OffsetModel;
    StartupIncreases(cfg, e, startup, count, run[0]);
    assert run[..0] == [];
    assert After(cfg, run) == Apply(cfg, FRESH, run[0]);
  }

  /** On any run fed by increasing publications, the window is strictly increasing on both clocks. */
  lemma {:induction false} FedWindowIncreases(cfg: Config, e: seq<Publication>, startup: nat, count: nat, run: seq<Event>, used: seq<nat>)
    requires PossibleRun(cfg, run)
    requires Increasing(e) && FedBy(e, startup, count, run, used)
    ensures Bound(startup, used) <= |e|
    ensures BothIncrease(After(cfg, run).samples) && Among(After(cfg, run).samples, e, Bound(startup, used))
    decreases |run|
  {
    hide Recorded, Added, Possible, StartupChoice, BothIncrease, Among, Consistent;
    if used == [] {
      FedStart(cfg, e, startup, count, run);
    } else {
      var n := |used|;
      var front, before, u := run[..n], used[..n - 1], used[n - 1];
      assert run[n] == AddSample(ToTimeSample(e[u]));
      forall i | 0 <= i < n - 1 ensures front[i + 1] == run[i + 1] && before[i] == used[i] {}
      EveryRunConsistent(cfg, front);
      FedWindowIncreases(cfg, e, startup, count, front, before);
      AddedIncreases(cfg, After(cfg, front), e, Bound(startup, before), u);
      assert After(cfg, run) == Added(cfg, After(cfg, front), ToTimeSample(e[u]));
    }
  }

  /** On such a run both line fits always exist and nothing but the drift bound makes `fit` refuse: each accepted
      sample that is due for a fit either has drift outside the bound or leaves a freshly fitted model. */
  lemma FedFitsRefuseOnlyForDrift(cfg: Config, e: seq<Publication>, startup: nat, count: nat, run: seq<Event>, used: seq<nat>)
    requires PossibleRun(cfg, run)
    requires Increasing(e) && FedBy(e, startup, count, run, used) && used != []
    requires run[|used|].AddSample? && Acceptable(cfg, run[|used|].sample) && DueForFit(cfg, After(cfg, run).samples)
    ensures var window, s := After(cfg, run).samples, After(cfg, run).status;
      && (RefitOf(cfg, window).Refused? <==> DriftTooLarge(cfg, FinalScale(window)))
      && (!DriftTooLarge(cfg, FinalScale(window)) ==>
            s.state == Tracking && s.scale == FinalScale(window) && 2 * s.sampleCount >= |window|)
  {
    hide Recorded, RefitOf, FinalScale, DriftTooLarge, Possible, StartupChoice;
    FedWindowIncreases(cfg, e, startup, count, run, used);
    AddedKeepsRecorded(cfg, After(cfg, run[..|used|]), run[|used|].sample);
    RefusesOnlyForDrift(cfg, After(cfg, run).samples);
  }

  /** The sampler provides such publications whenever the host clock strictly advances between polls. */
  lemma SamplerFeedsIncreasing(maximumUncertainty: int, calls: seq<ClockSampler.Call>)
    requires ClockSampler.HostAdvances(calls, true)
    ensures Increasing(Publications(maximumUncertainty, calls))
  {
    ClockSampler.EmissionsIncrease(maximumUncertainty, calls);
    var e := ClockSampler.After(maximumUncertainty, calls).emissions;
    assert forall i :: 0 <= i < |e| ==> Publications(maximumUncertainty, calls)[i] == e[i].sample;
  }

  /** From polls to fits: whatever the readings, if the host clock strictly advances from poll to poll, a due fit on
      the publications of these polls refuses exactly when the drift bound is exceeded. */
  lemma SampledFitsRefuseOnlyForDrift(cfg: Config, maximumUncertainty: int, calls: seq<ClockSampler.Call>,
                                      startup: nat, count: nat, run: seq<Event>, used: seq<nat>)
    requires ClockSampler.HostAdvances(calls, true) && PossibleRun(cfg, run)
    requires FedBy(Publications(maximumUncertainty, calls), startup, count, run, used) && used != []
    requires run[|used|].AddSample? && Acceptable(cfg, run[|used|].sample) && DueForFit(cfg, After(cfg, run).samples)
    ensures var window, s := After(cfg, run).samples, After(cfg, run).status;
      && BothIncrease(window)
      && (RefitOf(cfg, window).Refused? <==> DriftTooLarge(cfg, FinalScale(window)))
      && (!DriftTooLarge(cfg, FinalScale(window)) ==>
            s.state == Tracking && s.scale == FinalScale(window) && 2 * s.sampleCount >= |window|)
  {
    hide RefitOf, FinalScale, DriftTooLarge, Possible, StartupChoice, Increasing, BothIncrease, Apply, Publications;
    SamplerFeedsIncreasing(maximumUncertainty, calls);
    FedWindowIncreases(cfg, Publications(maximumUncertainty, calls), startup, count, run, used);
    FedFitsRefuseOnlyForDrift(cfg, Publications(maximumUncertainty, calls), startup, count, run, used);
  }

  // ----- Accuracy of the startup model ---------------------------------------------------

  /** A device whose clock is `offset` behind Unix time at every publication. */
  function OffsetHistory(published: iset<ClockSampler.DeviceState>, offset: int): ClockSampler.History {
    ClockSampler.History(published, (s: ClockSampler.DeviceState) => ClockSampler.StateTime(s) + offset)
  }

  /** The sample stems from an emission whose real-time bracket is at most `error` off. */
  ghost predicate TightSample(emissions: seq<ClockSampler.Emission>, s: TimeSample, error: int) {
    exists k :: 0 <= k < |emissions| && s == ToTimeSample(emissions[k].sample)
      && ClockSampler.BracketError(emissions[k].previous.bounds, emissions[k].current.bounds, ClockSampler.Realtime) <= error
  }

  ghost function TightCount(emissions: seq<ClockSampler.Emission>, s: seq<TimeSample>, error: int): nat {
    if s == [] then 0
    else TightCount(emissions, s[..|s| - 1], error) + if TightSample(emissions, s[|s| - 1], error) then 1 else 0
  }

  lemma TightOffset(maximumUncertainty: int, calls: seq<ClockSampler.Call>, published: iset<ClockSampler.DeviceState>,
                    s: TimeSample, error: int, offset: int)
    requires ClockSampler.TrueReads(maximumUncertainty, calls, OffsetHistory(published, offset), ClockSampler.Realtime)
    requires TightSample(ClockSampler.After(maximumUncertainty, calls).emissions, s, error)
    ensures offset - error <= s.unix - s.mac <= offset + error
  {
    hide ClockSampler.After, ClockSampler.TrueReads, ClockSampler.BracketError;
    var emissions := ClockSampler.After(maximumUncertainty, calls).emissions;
    var k :| 0 <= k < |emissions| && s == ToTimeSample(emissions[k].sample)
      && ClockSampler.BracketError(emissions[k].previous.bounds, emissions[k].current.bounds, ClockSampler.Realtime) <= error;
    ClockSampler.PublicationBracketed(maximumUncertainty, calls, k, OffsetHistory(published, offset), ClockSampler.Realtime);
    ClockSampler.PublicationError(maximumUncertainty, calls, k, OffsetHistory(published, offset), ClockSampler.Realtime);
  }

  lemma {:induction false} TightOffsets(maximumUncertainty: int, calls: seq<ClockSampler.Call>, published: iset<ClockSampler.DeviceState>,
                                        s: seq<TimeSample>, error: int, offset: int)
    requires ClockSampler.TrueReads(maximumUncertainty, calls, OffsetHistory(published, offset), ClockSampler.Realtime)
    ensures TightCount(ClockSampler.After(maximumUncertainty, calls).emissions, s, error) <= OffsetsWithin(s, offset - error, offset + error)
  {
    hide ClockSampler.After, ClockSampler.TrueReads, TightSample, OffsetHistory;
    if s != [] {
      var n := |s| - 1;
      TightOffsets(maximumUncertainty, calls, published, s[..n], error, offset);
      if TightSample(ClockSampler.After(maximumUncertainty, calls).emissions, s[n], error) {
        TightOffset(maximumUncertainty, calls, published, s[n], error, offset);
      }
    }
  }

  /** From reads to conversion: on any run of polls whose reads take effect between their real-time clock calls, if a
      strict majority of the retained startup samples has a bracket error of at most `error`, the startup model, for as
      long as no sample restarts or refits it, converts every device timestamp to within `error` of true Unix time. */
  lemma StartupErrorBound(cfg: Config, run: seq<Event>, p: nat, maximumUncertainty: int, calls: seq<ClockSampler.Call>,
                          published: iset<ClockSampler.DeviceState>, error: nat, offset: int, mac: int)
    requires PossibleRun(cfg, run) && ModelStands(cfg, run, p) && After(cfg, run[..p + 1]).status.valid
    requires ClockSampler.TrueReads(maximumUncertainty, calls, OffsetHistory(published, offset), ClockSampler.Realtime)
    requires var best := Best(run[p].byLatency, STARTUP_BEST_SAMPLE_COUNT);
      2 * TightCount(ClockSampler.After(maximumUncertainty, calls).emissions, best, error) > |best|
    ensures After(cfg, run).status.valid && Abs(ToUnix(After(cfg, run).status, mac) - (mac + offset)) <= error
  {
    hide ClockSampler.After, ClockSampler.TrueReads, ToUnix, OffsetHistory, Apply, Possible, KeepsModel;
    var best := Best(run[p].byLatency, STARTUP_BEST_SAMPLE_COUNT);
    assert run[..p + 1][..p] == run[..p];
    assert Possible(cfg, run[p]);
    TightOffsets(maximumUncertainty, calls, published, best, error, offset);
    StartupMajority(cfg, After(cfg, run[..p]), run[p], offset - error, offset + error, mac);
    StartupModelStands(cfg, run, p, mac);
  }
}
