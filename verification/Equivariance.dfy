/**
 * Translation equivariance: moving the device clock, the Unix clock and the monotonic clock by constants
 * changes no decision of the calibration and moves its conversions by exactly those constants.
 */
module Equivariance {
  import opened Numerics
  import opened OrderStatistics
  import opened LeastSquares
  import opened Calibration
  import CalibrationProperties

  datatype Offset = Offset(mac: int, unix: int, mono: int)

  function Move(s: TimeSample, d: Offset): TimeSample {
    TimeSample(s.mac + d.mac, s.unix + d.unix, s.mono + d.mono, s.latency)
  }

  function MoveAll(s: seq<TimeSample>, d: Offset): (r: seq<TimeSample>)
    ensures |r| == |s|
  {
    seq(|s|, i requires 0 <= i < |s| => Move(s[i], d))
  }

  /** The moved state: a valid one carries moved origins and lasts, an invalid one nothing to move. */
  function MoveMemory(m: Memory, d: Offset): Memory {
    if !m.status.valid then m.(samples := MoveAll(m.samples, d))
    else Memory(MoveAll(m.samples, d),
                m.status.(macOrigin := m.status.macOrigin + d.mac, unixOrigin := m.status.unixOrigin + d.unix),
                m.lastMac + d.mac, m.lastUnix + d.unix, m.lastMono + d.mono)
  }

  function MoveEvent(e: Event, d: Offset): Event {
    match e
    case Initialize(s, l, n) => Initialize(MoveAll(s, d), MoveAll(l, d), MoveAll(n, d))
    case AddSample(s) => AddSample(Move(s, d))
    case Reset => Reset
  }

  function MoveRun(run: seq<Event>, d: Offset): (r: seq<Event>)
    ensures |r| == |run|
  {
    seq(|run|, i requires 0 <= i < |run| => MoveEvent(run[i], d))
  }

  /** The move keeps the sign tests on device and Unix time, and the code's "no monotonic time yet" zero. */
  predicate Harmless(s: TimeSample, d: Offset) {
    (s.mac > 0 <==> s.mac + d.mac > 0) && (s.unix > 0 <==> s.unix + d.unix > 0) && (s.mono == 0 <==> s.mono + d.mono == 0)
  }

  predicate HarmlessEvent(e: Event, d: Offset) {
    match e
    case Initialize(samples, _, _) => forall s :: s in samples ==> Harmless(s, d)
    case AddSample(s) => Harmless(s, d)
    case Reset => true
  }

  // ----- Moved arrangements are arrangements of moved samples ----------------------------

  lemma {:induction false} MovePermutation(s: seq<TimeSample>, t: seq<TimeSample>, d: Offset)
    requires multiset(s) == multiset(t)
    ensures multiset(MoveAll(s, d)) == multiset(MoveAll(t, d))
    decreases |s|
  {
    hide Move, MoveAll;
    CalibrationProperties.SameMembers(s, t);
    if s == [] {
      assert t == [];
    } else {
      var n := |s| - 1;
      assert s[n] in t;
      var j :| 0 <= j < |t| && t[j] == s[n];
      Without(s, n);
      Without(t, j);
      MovePermutation(s[..n] + s[n + 1..], t[..j] + t[j + 1..], d);
      MoveWithout(s, n, d);
      MoveWithout(t, j, d);
    }
  }

  lemma Without(t: seq<TimeSample>, j: nat)
    requires j < |t|
    ensures multiset(t[..j] + t[j + 1..]) == multiset(t) - multiset{t[j]}
  {
    assert t == t[..j] + ([t[j]] + t[j + 1..]);
  }

  lemma MoveWithout(t: seq<TimeSample>, j: nat, d: Offset)
    requires j < |t|
    ensures multiset(MoveAll(t, d)) == multiset(MoveAll(t[..j] + t[j + 1..], d)) + multiset{Move(t[j], d)}
  {
    hide Move;
    var a, b := MoveAll(t[..j], d), MoveAll(t[j + 1..], d);
    assert MoveAll(t[..j] + t[j + 1..], d) == a + b;
    assert MoveAll(t, d) == a + ([Move(t[j], d)] + b);
  }

  lemma {:induction false} MoveAccepted(cfg: Config, s: seq<TimeSample>, d: Offset)
    requires forall x :: x in s ==> Harmless(x, d)
    ensures Accepted(cfg, MoveAll(s, d)) == MoveAll(Accepted(cfg, s), d)
  {
    if s != [] {
      var n := |s| - 1;
      MoveAccepted(cfg, s[..n], d);
      assert MoveAll(s, d)[..n] == MoveAll(s[..n], d);
      assert Harmless(s[n], d);
      assert MoveAll(Accepted(cfg, s[..n]) + [s[n]], d) == MoveAll(Accepted(cfg, s[..n]), d) + [Move(s[n], d)];
    }
  }

  lemma MoveBest(order: seq<TimeSample>, count: nat, d: Offset)
    ensures Best(MoveAll(order, d), count) == MoveAll(Best(order, count), d)
  {
  }

  /** If the sorts could produce these arrangements, they could produce the moved ones. */
  lemma MovePossible(cfg: Config, e: Event, d: Offset)
    requires Possible(cfg, e) && HarmlessEvent(e, d)
    ensures Possible(cfg, MoveEvent(e, d))
  {
    if e.Initialize? {
      MoveAccepted(cfg, e.samples, d);
      MovePermutation(e.byLatency, Accepted(cfg, e.samples), d);
      var best := Best(e.byLatency, STARTUP_BEST_SAMPLE_COUNT);
      MoveBest(e.byLatency, STARTUP_BEST_SAMPLE_COUNT, d);
      MovePermutation(e.byMono, best, d);
      assert SortedByLatency(MoveAll(e.byLatency, d));
      assert SortedByMono(MoveAll(e.byMono, d));
    }
  }

  // ----- Startup -------------------------------------------------------------------------

  lemma {:induction false} MoveLeastLatency(s: seq<TimeSample>, d: Offset)
    requires s != []
    ensures LeastLatency(MoveAll(s, d)) == LeastLatency(s)
  {
    if |s| > 1 {
      assert MoveAll(s, d)[..|s| - 1] == MoveAll(s[..|s| - 1], d);
      MoveLeastLatency(s[..|s| - 1], d);
    }
  }

  lemma MoveOffsetModel(status: Status, best: seq<TimeSample>, d: Offset)
    requires best != []
    ensures var p, q := OffsetModel(status, best), OffsetModel(status, MoveAll(best, d));
      q == p.(macOrigin := p.macOrigin + d.mac, unixOrigin := p.unixOrigin + d.unix)
  {
    hide MedianOf;
    MoveLeastLatency(best, d);
    MedianShift(Offsets(best), d.unix - d.mac);
    assert Offsets(MoveAll(best, d)) == Shift(Offsets(best), d.unix - d.mac);
  }

  lemma HarmlessSamples(e: Event, d: Offset)
    requires e.Initialize? && HarmlessEvent(e, d)
    ensures forall x :: x in e.samples ==> Harmless(x, d)
  {
  }

  lemma MoveInitialized(cfg: Config, m: Memory, e: Event, d: Offset)
    requires e.Initialize? && Possible(cfg, e) && HarmlessEvent(e, d)
    ensures Apply(cfg, MoveMemory(m, d), MoveEvent(e, d)) == MoveMemory(Apply(cfg, m, e), d)
  {
    hide OffsetModel, Accepted, HarmlessEvent;
    assert forall x :: x in e.samples ==> Harmless(x, d) by { HarmlessSamples(e, d); }
    MoveAccepted(cfg, e.samples, d);
    CalibrationProperties.StartupMembers(cfg, e.samples, e.byLatency, e.byMono);
    if |Accepted(cfg, e.samples)| >= 4 {
      var best := Best(e.byLatency, STARTUP_BEST_SAMPLE_COUNT);
      MoveBest(e.byLatency, STARTUP_BEST_SAMPLE_COUNT, d);
      var rejected := m.status.rejectedSamples + (|e.samples| - |Accepted(cfg, e.samples)|);
      MoveOffsetModel(InitialStatus(rejected), best, d);
      CalibrationProperties.OffsetModelIsValid(InitialStatus(rejected), best);
    }
  }

  // ----- Refit ---------------------------------------------------------------------------

  lemma MoveFit(s: seq<TimeSample>, macOrigin: int, unixOrigin: int, d: Offset)
    ensures FitOf(MoveAll(s, d), macOrigin + d.mac, unixOrigin + d.unix)
         == match FitOf(s, macOrigin, unixOrigin)
            case NoFit => NoFit
            case Line(k, u) => Line(k, u + d.unix)
  {
    hide Slope, Intercept, Denominator;
    assert Xs(MoveAll(s, d), macOrigin + d.mac) == Xs(s, macOrigin);
    assert Ys(MoveAll(s, d), unixOrigin + d.unix) == Ys(s, unixOrigin);
  }

  lemma MoveResiduals(s: seq<TimeSample>, macOrigin: int, unixOrigin: int, k: real, d: Offset)
    ensures ModelResiduals(MoveAll(s, d), macOrigin + d.mac, unixOrigin + d.unix, k)
         == ModelResiduals(s, macOrigin, unixOrigin, k)
  {
    hide Times;
  }

  lemma {:induction false} MoveSelect(s: seq<TimeSample>, dev: seq<int>, threshold: int, d: Offset)
    requires |s| == |dev|
    ensures Select(MoveAll(s, d), dev, threshold) == MoveAll(Select(s, dev, threshold), d)
  {
    if s != [] {
      var n := |s| - 1;
      MoveSelect(s[..n], dev[..n], threshold, d);
      assert MoveAll(s, d)[..n] == MoveAll(s[..n], d);
      var front := Select(s[..n], dev[..n], threshold);
      assert MoveAll(front + [s[n]], d) == MoveAll(front, d) + [Move(s[n], d)];
    }
  }

  lemma MoveSecondPass(cfg: Config, s: seq<TimeSample>, d: Offset)
    ensures SecondPass(cfg, MoveAll(s, d))
         == match SecondPass(cfg, s)
            case Refused => Refused
            case Fitted(m, u, k, r, inliers) => Fitted(m + d.mac, u + d.unix, k, r, MoveAll(inliers, d))
  {
    hide FitOf, ModelResiduals, DriftTooLarge, MedianOf;
    if |s| >= 4 {
      MoveFit(s, s[0].mac, s[0].unix, d);
      var fit := FitOf(s, s[0].mac, s[0].unix);
      if fit.Line? {
        MoveResiduals(s, s[0].mac, fit.unixOrigin, fit.scale, d);
      }
    }
  }

  lemma MoveRefit(cfg: Config, s: seq<TimeSample>, d: Offset)
    requires s != []
    ensures RefitOf(cfg, MoveAll(s, d))
         == match RefitOf(cfg, s)
            case Refused => Refused
            case Fitted(m, u, k, r, inliers) => Fitted(m + d.mac, u + d.unix, k, r, MoveAll(inliers, d))
  {
    hide FitOf, ModelResiduals, MedianOf, SecondPass, Select;
    MoveFit(s, s[0].mac, s[0].unix, d);
    var fit := FitOf(s, s[0].mac, s[0].unix);
    if fit.Line? {
      MoveResiduals(s, s[0].mac, fit.unixOrigin, fit.scale, d);
      var dev := FirstPassDeviations(s, fit);
      MoveSelect(s, dev, Threshold(dev), d);
      MoveSecondPass(cfg, InliersOf(s, fit), d);
    }
  }

  // ----- addSample -----------------------------------------------------------------------

  lemma {:induction false} MoveEvicted(window: int, now: int, s: seq<TimeSample>, d: Offset)
    ensures Evicted(window, now + d.mono, MoveAll(s, d)) == MoveAll(Evicted(window, now, s), d)
  {
    if s != [] && now - s[0].mono > window {
      assert MoveAll(s, d)[1..] == MoveAll(s[1..], d);
      MoveEvicted(window, now, s[1..], d);
    }
  }

  lemma MoveConversion(s: Status, mac: int, d: Offset)
    ensures ToUnix(s.(macOrigin := s.macOrigin + d.mac, unixOrigin := s.unixOrigin + d.unix), mac + d.mac)
         == ToUnix(s, mac) + d.unix
  {
    hide Times;
    assert mac + d.mac - (s.macOrigin + d.mac) == mac - s.macOrigin;
  }

  lemma MoveAdmitted(cfg: Config, m: Memory, s: TimeSample, d: Offset)
    requires m.status.valid ==> (m.lastMono == 0 <==> m.lastMono + d.mono == 0)
    ensures Admitted(cfg, MoveMemory(m, d), Move(s, d)).samples == MoveMemory(Admitted(cfg, m, s), d).samples
    ensures Admitted(cfg, MoveMemory(m, d), Move(s, d)).status == MoveMemory(Admitted(cfg, m, s), d).status
  {
    hide ToUnix;
    assert MoveAll(m.samples + [s], d) == MoveAll(m.samples, d) + [Move(s, d)];
    assert MoveAll([] + [s], d) == [] + [Move(s, d)];
    if m.status.valid {
      MoveConversion(m.status, s.mac, d);
      assert Discontinuity(cfg, MoveMemory(m, d), Move(s, d)) <==> Discontinuity(cfg, m, s);
    }
  }

  lemma MoveRecorded(cfg: Config, m: Memory, s: TimeSample, d: Offset)
    requires m.status.valid ==> (m.lastMono == 0 <==> m.lastMono + d.mono == 0)
    ensures Recorded(cfg, MoveMemory(m, d), Move(s, d)) == MoveMemory(Recorded(cfg, m, s), d)
  {
    hide Discontinuity, ModelStep, Evicted;
    MoveAdmitted(cfg, m, s, d);
    MoveEvicted(cfg.regressionWindow, s.mono, Admitted(cfg, m, s).samples, d);
    assert Admitted(cfg, m, s).status.valid;
  }

  lemma MoveAdded(cfg: Config, m: Memory, s: TimeSample, d: Offset)
    requires Harmless(s, d) && (m.status.valid ==> (m.lastMono == 0 <==> m.lastMono + d.mono == 0))
    ensures Added(cfg, MoveMemory(m, d), Move(s, d)) == MoveMemory(Added(cfg, m, s), d)
  {
    hide Discontinuity, ModelStep, Evicted, RefitOf;
    if Acceptable(cfg, s) {
      MoveRecorded(cfg, m, s, d);
      var r := Recorded(cfg, m, s);
      assert r.status.valid;
      if DueForFit(cfg, r.samples) {
        MoveRefit(cfg, r.samples, d);
        match RefitOf(cfg, r.samples)
        case Refused =>
        case Fitted(_, _, _, _, inliers) => assert Span(MoveAll(inliers, d)) == Span(inliers);
      }
    }
  }

  // ----- Whole runs ----------------------------------------------------------------------

  predicate ZeroKept(m: Memory, d: Offset) {
    m.status.valid ==> (m.lastMono == 0 <==> m.lastMono + d.mono == 0)
  }

  lemma MoveApplied(cfg: Config, m: Memory, e: Event, d: Offset)
    requires Possible(cfg, e) && HarmlessEvent(e, d) && ZeroKept(m, d)
    ensures Apply(cfg, MoveMemory(m, d), MoveEvent(e, d)) == MoveMemory(Apply(cfg, m, e), d)
    ensures ZeroKept(Apply(cfg, m, e), d)
  {
    hide RefitOf, Discontinuity, Evicted;
    match e
    case Initialize(samples, byLatency, byMono) =>
      MoveInitialized(cfg, m, e, d);
      CalibrationProperties.StartupMembers(cfg, samples, byLatency, byMono);
    case AddSample(s) =>
      MoveAdded(cfg, m, s, d);
    case Reset =>
  }

  /** Two runs whose inputs differ by a harmless move stay in step for ever: the moved run is possible, ends in
      the moved state, so with the same counters, mode, scale and window size, and converts moved timestamps to
      moved results. */
  lemma {:induction false} TranslationEquivariance(cfg: Config, run: seq<Event>, d: Offset)
    requires PossibleRun(cfg, run) && forall i :: 0 <= i < |run| ==> HarmlessEvent(run[i], d)
    ensures PossibleRun(cfg, MoveRun(run, d))
    ensures After(cfg, MoveRun(run, d)) == MoveMemory(After(cfg, run), d)
    ensures ZeroKept(After(cfg, run), d)
    ensures After(cfg, run).status.valid ==> forall mac ::
      ToUnix(After(cfg, MoveRun(run, d)).status, mac + d.mac) == ToUnix(After(cfg, run).status, mac) + d.unix
  {
    hide Apply, Possible, MoveMemory, ToUnix, HarmlessEvent, MoveEvent, ZeroKept;
    forall i | 0 <= i < |run| ensures Possible(cfg, MoveRun(run, d)[i]) {
      MovePossible(cfg, run[i], d);
    }
    if run != [] {
      var n := |run| - 1;
      assert MoveRun(run, d)[..n] == MoveRun(run[..n], d);
      TranslationEquivariance(cfg, run[..n], d);
      MoveApplied(cfg, After(cfg, run[..n]), run[n], d);
    } else {
      FreshUnmoved(d);
    }
    if After(cfg, run).status.valid {
      forall mac
        ensures ToUnix(MoveMemory(After(cfg, run), d).status, mac + d.mac) == ToUnix(After(cfg, run).status, mac) + d.unix
      {
        MoveMemoryConversion(After(cfg, run), mac, d);
      }
    }
  }

  lemma FreshUnmoved(d: Offset)
    ensures MoveMemory(FRESH, d) == FRESH && ZeroKept(FRESH, d)
  {
    assert MoveAll([], d) == [];
  }

  lemma MoveMemoryConversion(m: Memory, mac: int, d: Offset)
    requires m.status.valid
    ensures ToUnix(MoveMemory(m, d).status, mac + d.mac) == ToUnix(m.status, mac) + d.unix
  {
    MoveConversion(m.status, mac, d);
  }
}
