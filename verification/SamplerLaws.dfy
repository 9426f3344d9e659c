/**
 * What reader and sampler do with a sequence of calls, said in the calls' own fields: which reads are valid, which
 * polls step the host clock, from which earlier poll an emission is measured, and when a poll emits.
 */
module SamplerLaws {
  import opened Wrappers
  import opened Numerics
  import opened ClockSampler

  // ----- The calls -----------------------------------------------------------------------

  function DeviceTime(s: DeviceState): int {
    s.seconds * 1_000_000_000 + s.nanos
  }

  /** A read is valid if its fields are in range and no earlier valid read showed a later device time. */
  ghost predicate ValidRead(calls: seq<Call>, i: nat) {
    && i < |calls| && calls[i].PollCall? && calls[i].raw.Got?
    && var s := calls[i].raw.state;
    && s.nanos < 1_000_000_000 && s.convRshift < 32 && s.convMult != 0
    && forall k :: 0 <= k < i && ValidRead(calls, k) ==> DeviceTime(calls[k].raw.state) <= DeviceTime(s)
  }

  /** Neither host clock ran back during the poll. */
  predicate InTime(calls: seq<Call>, i: nat) {
    && i < |calls| && calls[i].PollCall?
    && var b := calls[i].bounds;
    b.realtimeBefore <= b.realtimeAfter && b.monoBefore <= b.monoAfter
  }

  ghost predicate Usable(calls: seq<Call>, i: nat) {
    ValidRead(calls, i) && InTime(calls, i)
  }

  function RealMiddle(b: Bounds): int {
    b.realtimeBefore + (b.realtimeAfter - b.realtimeBefore) / 2
  }

  function MonoMiddle(b: Bounds): int {
    b.monoBefore + (b.monoAfter - b.monoBefore) / 2
  }

  /** Poll p is the latest one before n during which the clocks ran forward, and no reset came since. */
  ghost predicate LatestInTime(calls: seq<Call>, n: nat, p: nat) {
    p < n <= |calls| && InTime(calls, p) && forall k :: p < k < n ==> calls[k].PollCall? && !InTime(calls, k)
  }

  /** Since that poll real and monotonic time drifted apart by more than half a millisecond. */
  predicate DriftsApart(p: Bounds, b: Bounds) {
    && MonoMiddle(p) != 0
    && var drift := (RealMiddle(b) - RealMiddle(p)) - (MonoMiddle(b) - MonoMiddle(p)); drift < -500000 || 500000 < drift
  }

  ghost predicate Steps(calls: seq<Call>, i: nat) {
    && InTime(calls, i)
    && exists p: nat :: p < i && LatestInTime(calls, i, p) && DriftsApart(calls[p].bounds, calls[i].bounds)
  }

  /** Poll j is the latest usable one before n, with neither a reset nor a host step since. */
  ghost predicate IsReference(calls: seq<Call>, n: nat, j: nat) {
    && j < n <= |calls| && Usable(calls, j)
    && forall k :: j < k < n ==> calls[k].PollCall? && !Usable(calls, k) && !Steps(calls, k)
  }

  /** What poll i is compared with. */
  ghost predicate IsBase(calls: seq<Call>, i: nat, j: nat) {
    Usable(calls, i) && !Steps(calls, i) && IsReference(calls, i, j)
  }

  predicate Advances(p: DeviceState, c: DeviceState) {
    c.convMult == p.convMult && c.convRshift == p.convRshift && DeviceTime(p) < DeviceTime(c)
  }

  /** The transition from one poll to another is narrow enough. */
  predicate Narrow(maximumUncertainty: int, p: Bounds, c: Bounds) {
    && p.monoAfter <= c.monoAfter
    && (c.monoAfter - p.monoAfter) + (c.monoAfter - c.monoBefore) <= maximumUncertainty
  }

  function Seen(c: Call): Observation
    requires c.PollCall? && c.raw.Got?
  {
    Observation(c.raw.state, c.bounds)
  }

  // ----- What the objects remember -------------------------------------------------------

  ghost predicate ReaderTracks(r: ReaderMemory, calls: seq<Call>, n: nat) {
    && (r.last.None? ==> forall k :: 0 <= k < n ==> !ValidRead(calls, k))
    && (r.last.Some? ==>
          && (exists k :: 0 <= k < n && ValidRead(calls, k) && calls[k].raw.state == r.last.value)
          && forall k :: 0 <= k < n && ValidRead(calls, k) ==> DeviceTime(calls[k].raw.state) <= DeviceTime(r.last.value))
  }

  ghost predicate NoLatest(calls: seq<Call>, n: nat) {
    forall p: nat :: p < n ==> !LatestInTime(calls, n, p)
  }

  ghost predicate ClockTracks(m: SamplerMemory, calls: seq<Call>, n: nat) {
    && (forall p: nat :: p < n && LatestInTime(calls, n, p) ==>
          m.previousRealtime == RealMiddle(calls[p].bounds) && m.previousMono == MonoMiddle(calls[p].bounds))
    && (NoLatest(calls, n) ==> m.previousMono == 0)
  }

  ghost predicate ReferenceTracks(m: SamplerMemory, calls: seq<Call>, n: nat) {
    && (m.last.None? ==> forall j: nat :: j < n ==> !IsReference(calls, n, j))
    && (m.last.Some? ==> exists j: nat :: j < n && IsReference(calls, n, j) && m.last.value == Seen(calls[j]))
  }

  ghost predicate Tracks(w: World, calls: seq<Call>, n: nat) {
    ReaderTracks(w.reader, calls, n) && ClockTracks(w.sampler, calls, n) && ReferenceTracks(w.sampler, calls, n)
  }

  // ----- One call ------------------------------------------------------------------------

  lemma ReadStep(r: ReaderMemory, calls: seq<Call>, n: nat)
    requires ReaderTracks(r, calls, n) && n < |calls| && calls[n].PollCall?
    ensures ReadIsValid(r, calls[n].raw) <==> ValidRead(calls, n)
    ensures ReaderTracks(Read(r, calls[n].raw), calls, n + 1)
  {
    if ReadIsValid(r, calls[n].raw) {
      assert ValidRead(calls, n);
    }
  }

  lemma MidpointForward(a: int, b: int)
    requires a <= b
    ensures Midpoint(a, b) == a + (b - a) / 2
  {
  }

  lemma StepsIff(m: SamplerMemory, calls: seq<Call>, n: nat)
    requires ClockTracks(m, calls, n) && InTime(calls, n)
    ensures HostStepped(m, calls[n].bounds) <==> Steps(calls, n)
  {
    hide Midpoint;
    var b := calls[n].bounds;
    MidpointForward(b.realtimeBefore, b.realtimeAfter);
    MidpointForward(b.monoBefore, b.monoAfter);
    if p: nat :| p < n && LatestInTime(calls, n, p) {
      assert forall q: nat :: q < n && LatestInTime(calls, n, q) ==> q == p;
    }
  }

  lemma ClockStep(maximumUncertainty: int, m: SamplerMemory, calls: seq<Call>, n: nat, observed: Option<DeviceState>)
    requires ClockTracks(m, calls, n) && n < |calls| && calls[n].PollCall?
    ensures ClockTracks(Poll(maximumUncertainty, m, calls[n].bounds, observed), calls, n + 1)
  {
    var b := calls[n].bounds;
    var m' := Poll(maximumUncertainty, m, b, observed);
    if InTime(calls, n) {
      MidpointForward(b.realtimeBefore, b.realtimeAfter);
      MidpointForward(b.monoBefore, b.monoAfter);
      assert m'.previousRealtime == RealMiddle(b) && m'.previousMono == MonoMiddle(b);
      LatestIsNew(calls, n, n);
    }
    hide Midpoint, Poll, InTime, LatestInTime;
    forall p: nat | p < n + 1 && LatestInTime(calls, n + 1, p)
      ensures m'.previousRealtime == RealMiddle(calls[p].bounds) && m'.previousMono == MonoMiddle(calls[p].bounds)
    {
      LatestIsNew(calls, n, p);
    }
    if NoLatest(calls, n + 1) {
      forall p: nat | p < n ensures !LatestInTime(calls, n, p) {
        LatestIsNew(calls, n, p);
        assert !LatestInTime(calls, n + 1, p);
      }
    }
  }

  lemma LatestIsNew(calls: seq<Call>, n: nat, p: nat)
    requires n < |calls| && calls[n].PollCall? && p <= n
    ensures LatestInTime(calls, n + 1, p) <==> if InTime(calls, n) then p == n else p < n && LatestInTime(calls, n, p)
    ensures LatestInTime(calls, n + 1, p) ==> calls[p].PollCall?
  {
  }

  /** Which poll is the reference after call n. */
  lemma ReferenceIsNew(calls: seq<Call>, n: nat, j: nat)
    requires n < |calls| && calls[n].PollCall? && j <= n
    ensures IsReference(calls, n + 1, j) <==>
              if Usable(calls, n) then j == n else j < n && !Steps(calls, n) && IsReference(calls, n, j)
  {
    hide ValidRead, InTime, Steps;
  }

  lemma ReferenceStep(maximumUncertainty: int, m: SamplerMemory, calls: seq<Call>, n: nat, observed: Option<DeviceState>)
    requires ReferenceTracks(m, calls, n) && n < |calls| && calls[n].PollCall?
    requires if ValidRead(calls, n) then observed == Some(calls[n].raw.state) else observed.None?
    requires InTime(calls, n) ==> (HostStepped(m, calls[n].bounds) <==> Steps(calls, n))
    ensures ReferenceTracks(Poll(maximumUncertainty, m, calls[n].bounds, observed), calls, n + 1)
  {
    var m' := Poll(maximumUncertainty, m, calls[n].bounds, observed);
    PollMemory(maximumUncertainty, m, calls, n, observed);
    hide Poll, ValidRead, InTime, Steps, IsReference, HostStepped;
    if m'.last.None? {
      var next := n + 1;
      forall j: nat | j < next ensures !IsReference(calls, next, j) {
        ReferenceIsNew(calls, n, j);
      }
    } else if Usable(calls, n) {
      ReferenceIsNew(calls, n, n);
    } else {
      var j: nat :| j < n && IsReference(calls, n, j) && m.last.value == Seen(calls[j]);
      ReferenceIsNew(calls, n, j);
    }
  }

  lemma PollMemory(maximumUncertainty: int, m: SamplerMemory, calls: seq<Call>, n: nat, observed: Option<DeviceState>)
    requires n < |calls| && calls[n].PollCall?
    requires if ValidRead(calls, n) then observed == Some(calls[n].raw.state) else observed.None?
    requires InTime(calls, n) ==> (HostStepped(m, calls[n].bounds) <==> Steps(calls, n))
    ensures Poll(maximumUncertainty, m, calls[n].bounds, observed).last
         == if Usable(calls, n) then Some(Seen(calls[n])) else if Steps(calls, n) then None else m.last
  {
    hide ValidRead, HostStepped, Midpoint, CountOutcome, LatestInTime, DriftsApart;
  }

  lemma {:induction false} RunTracks(maximumUncertainty: int, calls: seq<Call>, n: nat)
    requires n <= |calls|
    ensures Tracks(After(maximumUncertainty, calls[..n]), calls, n)
  {
    hide ReaderTracks, ClockTracks, ReferenceTracks;
    if n == 0 {
      StartTracks(maximumUncertainty, calls);
    } else {
      RunTracks(maximumUncertainty, calls, n - 1);
      var w := After(maximumUncertainty, calls[..n - 1]);
      AfterCall(maximumUncertainty, calls, n - 1);
      CallTracks(maximumUncertainty, w, calls, n - 1);
    }
  }

  lemma AfterCall(maximumUncertainty: int, calls: seq<Call>, i: nat)
    requires i < |calls|
    ensures After(maximumUncertainty, calls[..i + 1])
         == Step(maximumUncertainty, After(maximumUncertainty, calls[..i]), calls[i])
  {
    hide Step;
    assert calls[..i + 1][..i] == calls[..i];
  }

  lemma StartTracks(maximumUncertainty: int, calls: seq<Call>)
    ensures Tracks(After(maximumUncertainty, calls[..0]), calls, 0)
  {
  }

  lemma CallTracks(maximumUncertainty: int, w: World, calls: seq<Call>, n: nat)
    requires Tracks(w, calls, n) && n < |calls|
    ensures Tracks(Step(maximumUncertainty, w, calls[n]), calls, n + 1)
  {
    match calls[n]
    case ResetCall => ResetTracks(w, calls, n);
    case PollCall(b, raw) =>
      ReadStep(w.reader, calls, n);
      if InTime(calls, n) {
        StepsIff(w.sampler, calls, n);
      }
      ClockStep(maximumUncertainty, w.sampler, calls, n, Observed(w, raw));
      ReferenceStep(maximumUncertainty, w.sampler, calls, n, Observed(w, raw));
      hide ReaderTracks, ClockTracks, ReferenceTracks, Poll, Read, OutcomeOf;
  }

  lemma ResetTracks(w: World, calls: seq<Call>, n: nat)
    requires Tracks(w, calls, n) && n < |calls| && calls[n].ResetCall?
    ensures Tracks(w.(sampler := Forget(w.sampler), resets := w.resets + 1), calls, n + 1)
  {
    hide ReaderTracks, LatestInTime, IsReference;
    ReaderIdle(w.reader, calls, n);
    var next := n + 1;
    forall p: nat | p < next ensures !LatestInTime(calls, next, p) && !IsReference(calls, next, p) {
      NothingAcrossReset(calls, n, p);
    }
  }

  lemma ReaderIdle(r: ReaderMemory, calls: seq<Call>, n: nat)
    requires ReaderTracks(r, calls, n) && n < |calls| && calls[n].ResetCall?
    ensures ReaderTracks(r, calls, n + 1)
  {
    assert !ValidRead(calls, n);
    hide ValidRead;
  }

  lemma NothingAcrossReset(calls: seq<Call>, n: nat, p: nat)
    requires n < |calls| && calls[n].ResetCall? && p <= n
    ensures !LatestInTime(calls, n + 1, p) && !IsReference(calls, n + 1, p)
  {
    hide Steps;
  }

  // ----- Laws ----------------------------------------------------------------------------

  /** A read is accepted exactly if it is valid in the sense above; in particular an unchanged device time is. A
      refused one is counted under the first of its faults, a failed one under its reason. */
  lemma ReadLaw(maximumUncertainty: int, calls: seq<Call>, i: nat)
    requires i < |calls| && calls[i].PollCall?
    ensures ReadEffect(After(maximumUncertainty, calls[..i]).reader, calls[i].raw, ValidRead(calls, i),
                       After(maximumUncertainty, calls[..i + 1]).reader)
  {
    hide ReaderTracks, ClockTracks, ReferenceTracks, ValidRead, Poll, OutcomeOf, Read, ReadEffect, ReadIsValid;
    RunTracks(maximumUncertainty, calls, i);
    AfterCall(maximumUncertainty, calls, i);
    var r := After(maximumUncertainty, calls[..i]).reader;
    ReadStep(r, calls, i);
    ReadEffectOf(r, calls[i].raw);
    hide After;
  }

  lemma ReadEffectOf(r: ReaderMemory, raw: RawRead)
    ensures ReadEffect(r, raw, ReadIsValid(r, raw), Read(r, raw))
  {
  }

  predicate ReadEffect(r: ReaderMemory, raw: RawRead, valid: bool, r': ReaderMemory) {
    && (valid ==> raw.Got?)
    && r'.readAttempts == r.readAttempts + 1
    && if valid then
         && r'.last == Some(raw.state) && r'.validReads == r.validReads + 1
         && r'.readFailures == r.readFailures && r'.rejectReasons == r.rejectReasons
       else
         var reason :=
           if raw.Failed? then (if raw.reason == "" then "unknown" else raw.reason)
           else if raw.state.nanos >= 1_000_000_000 then "invalid-nanoseconds"
           else if raw.state.convRshift >= 32 then "invalid-rshift"
           else if raw.state.convMult == 0 then "invalid-conv-mult"
           else "mac-time-rollback";
         && r'.last == r.last && r'.validReads == r.validReads
         && r'.readFailures == r.readFailures + (if raw.Failed? then 1 else 0)
         && r'.rejectReasons == r.rejectReasons[reason := 1 + if reason in r.rejectReasons then r.rejectReasons[reason] else 0]
  }

  /** The sample measured from one observation to the next. */
  predicate Measures(s: PublicationSample, p: Observation, c: Observation)
  {
    && s.smartnic == DeviceTime(c.state)
    && s.realtime == (if p.bounds.realtimeAfter <= c.bounds.realtimeAfter
                      then p.bounds.realtimeAfter + (c.bounds.realtimeAfter - p.bounds.realtimeAfter) / 2
                      else p.bounds.realtimeAfter - (p.bounds.realtimeAfter - c.bounds.realtimeAfter) / 2)
    && s.startMono == p.bounds.monoAfter && s.endMono == c.bounds.monoAfter
    && s.mono == s.startMono + (s.endMono - s.startMono) / 2
    && s.uncertainty == (s.endMono - s.startMono) + (c.bounds.monoAfter - c.bounds.monoBefore)
    && s.meTime == c.state.meTime && s.convMult == c.state.convMult && s.convRshift == c.state.convRshift
  }

  /** What a poll does, given the observation it is compared with, if any. */
  ghost predicate PollEffect(maximumUncertainty: int, calls: seq<Call>, i: nat, base: Option<Observation>, w: World, w': World)
    requires i < |calls| && calls[i].PollCall? && (base.Some? ==> calls[i].raw.Got?)
  {
    var c, c' := w.sampler.counters, w'.sampler.counters;
    var same := base.Some? && base.value.state == calls[i].raw.state;
    var moved := base.Some? && Advances(base.value.state, calls[i].raw.state);
    var emits := moved && Narrow(maximumUncertainty, base.value.bounds, calls[i].bounds);
    && c'.observations == c.observations + 1
    && c'.invalid == c.invalid + (if Usable(calls, i) then 0 else 1)
    && c'.hostSteps == c.hostSteps + (if Steps(calls, i) then 1 else 0)
    && w'.seeds == w.seeds + (if Usable(calls, i) && base.None? then 1 else 0)
    && c'.duplicates == c.duplicates + (if same then 1 else 0)
    && c'.deviceResets == c.deviceResets + (if base.Some? && !same && !moved then 1 else 0)
    && c'.rejected == c.rejected + (if base.Some? && !same && !emits then 1 else 0)
    && c'.accepted == c.accepted + (if emits then 1 else 0)
    && if !emits then w'.emissions == w.emissions
       else |w'.emissions| == |w.emissions| + 1 && w'.emissions[..|w.emissions|] == w.emissions
            && var e := w'.emissions[|w.emissions|];
            e.previous == base.value && e.current == Seen(calls[i]) && Measures(e.sample, e.previous, e.current)
  }

  lemma PollLawFrom(maximumUncertainty: int, w: World, calls: seq<Call>, i: nat, base: Option<Observation>)
    requires i < |calls| && calls[i].PollCall? && (base.Some? ==> Usable(calls, i))
    requires ReadIsValid(w.reader, calls[i].raw) <==> ValidRead(calls, i)
    requires InTime(calls, i) ==> (HostStepped(w.sampler, calls[i].bounds) <==> Steps(calls, i))
    requires Usable(calls, i) ==> base == if Steps(calls, i) then None else w.sampler.last
    requires base.Some? ==> base.value.state.nanos < 1_000_000_000
    ensures PollEffect(maximumUncertainty, calls, i, base, w, Step(maximumUncertainty, w, calls[i]))
  {
    hide HostStepped, ReadIsValid, Read, Midpoint;
    if base.Some? {
      MeasuresMidpoints(base.value, Seen(calls[i]));
    }
  }

  lemma MeasuresMidpoints(p: Observation, c: Observation)
    ensures Width(p.bounds, c.bounds) >= 0 ==> Measures(SampleOf(p, c), p, c)
  {
  }

  /** Over every sequence of calls: a poll is compared with the latest usable poll before it, if no reset and no host
      step came between; it emits exactly if device time advances from there with an unchanged conversion, and the
      transition is narrow enough; and the sample is measured from that poll. Every poll is counted by the same test. */
  lemma PollLaw(maximumUncertainty: int, calls: seq<Call>, i: nat)
    requires i < |calls| && calls[i].PollCall?
    ensures var w, w' := After(maximumUncertainty, calls[..i]), After(maximumUncertainty, calls[..i + 1]);
      && (forall j: nat :: j < i && IsBase(calls, i, j) ==>
            PollEffect(maximumUncertainty, calls, i, Some(Seen(calls[j])), w, w'))
      && ((forall j: nat :: j < i ==> !IsBase(calls, i, j)) ==> PollEffect(maximumUncertainty, calls, i, None, w, w'))
  {
    RunTracks(maximumUncertainty, calls, i);
    AfterCall(maximumUncertainty, calls, i);
    var w := After(maximumUncertainty, calls[..i]);
    ReadStep(w.reader, calls, i);
    if InTime(calls, i) {
      StepsIff(w.sampler, calls, i);
    }
    hide ReaderTracks, ClockTracks, Step, PollEffect, After, ReadIsValid, HostStepped, Steps, InTime;
    forall j: nat | j < i && IsBase(calls, i, j)
      ensures PollEffect(maximumUncertainty, calls, i, Some(Seen(calls[j])), w, Step(maximumUncertainty, w, calls[i]))
    {
      OneReference(w.sampler, calls, i, j);
      PollLawFrom(maximumUncertainty, w, calls, i, Some(Seen(calls[j])));
    }
    if forall j: nat :: j < i ==> !IsBase(calls, i, j) {
      NoReference(w.sampler, calls, i);
      PollLawFrom(maximumUncertainty, w, calls, i, None);
    }
  }

  lemma OneReference(m: SamplerMemory, calls: seq<Call>, n: nat, j: nat)
    requires ReferenceTracks(m, calls, n) && j < n && IsReference(calls, n, j)
    ensures m.last == Some(Seen(calls[j]))
  {
    hide ValidRead, InTime, Steps;
  }

  lemma NoReference(m: SamplerMemory, calls: seq<Call>, n: nat)
    requires ReferenceTracks(m, calls, n) && forall j: nat :: j < n ==> !IsBase(calls, n, j)
    ensures Usable(calls, n) && !Steps(calls, n) ==> m.last.None?
  {
    if Usable(calls, n) && !Steps(calls, n) && m.last.Some? {
      SomeReference(m, calls, n);
    }
  }

  lemma SomeReference(m: SamplerMemory, calls: seq<Call>, n: nat)
    requires ReferenceTracks(m, calls, n) && Usable(calls, n) && !Steps(calls, n) && m.last.Some?
    ensures exists j: nat :: j < n && IsBase(calls, n, j)
  {
    hide Steps;
    var j: nat :| j < n && IsReference(calls, n, j) && m.last.value == Seen(calls[j]);
    assert IsBase(calls, n, j);
  }
}
