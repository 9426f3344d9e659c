/**
 * Reading the exported device clock (MacClockReader.cpp) and turning changes of its state into samples
 * (ClockSampler.cpp): value specification, the two objects, and what every run of polls guarantees.
 */
module ClockSampler {
  import opened Numerics
  import opened Wrappers

  datatype DeviceState = DeviceState(seconds: uint32, nanos: uint32, meTime: uint32, convMult: uint32, convRshift: uint32)

  /** What `readRaw` brings back: a decoded state, or the reason there is none. */
  datatype RawRead = Failed(reason: string) | Got(state: DeviceState)

  function StateTime(s: DeviceState): int {
    s.seconds * NANOS_PER_SECOND + s.nanos
  }

  // ----- MacClockReader ------------------------------------------------------------------

  datatype ReaderMemory = ReaderMemory(
    last: Option<DeviceState>, readAttempts: nat, readFailures: nat, validReads: nat, rejectReasons: map<string, nat>)

  const FRESH_READER := ReaderMemory(None, 0, 0, 0, map[])

  /** `validateState`: the reason for refusing a state, or "". */
  function Objection(last: Option<DeviceState>, s: DeviceState): string {
    if s.nanos >= NANOS_PER_SECOND then "invalid-nanoseconds"
    else if s.convRshift >= 32 then "invalid-rshift"
    else if s.convMult == 0 then "invalid-conv-mult"
    else if s.seconds == 0 && s.nanos == 0 && s.meTime == 0 && s.convMult == 0 && s.convRshift == 0 then "all-zero-state"
    else if last.Some? && StateTime(s) < StateTime(last.value) then "mac-time-rollback"
    else ""
  }

  function ReasonFor(r: ReaderMemory, raw: RawRead): string {
    match raw
    case Failed(reason) => if reason == "" then "unknown" else reason
    case Got(s) => Objection(r.last, s)
  }

  predicate ReadIsValid(r: ReaderMemory, raw: RawRead) {
    raw.Got? && Objection(r.last, raw.state) == ""
  }

  function Counted(reasons: map<string, nat>, reason: string): map<string, nat> {
    reasons[reason := 1 + if reason in reasons then reasons[reason] else 0]
  }

  /** `readState`. */
  function Read(r: ReaderMemory, raw: RawRead): ReaderMemory {
    if ReadIsValid(r, raw) then
      r.(readAttempts := r.readAttempts + 1, validReads := r.validReads + 1, last := Some(raw.state))
    else
      r.(readAttempts := r.readAttempts + 1, rejectReasons := Counted(r.rejectReasons, ReasonFor(r, raw)),
         readFailures := r.readFailures + if raw.Failed? then 1 else 0)
  }

  class MacClockReader {
    var last: Option<DeviceState>
    var readAttempts: nat
    var readFailures: nat
    var validReads: nat
    var rejectReasons: map<string, nat>

    function State(): ReaderMemory
      reads this
    {
      ReaderMemory(last, readAttempts, readFailures, validReads, rejectReasons)
    }

    constructor ()
      ensures State() == FRESH_READER
    {
      last, readAttempts, readFailures, validReads, rejectReasons := None, 0, 0, 0, map[];
    }

    method Reject(reason: string)
      modifies this`rejectReasons
      ensures rejectReasons == Counted(old(rejectReasons), if reason == "" then "unknown" else reason)
    {
      var key := if reason == "" then "unknown" else reason;
      rejectReasons := rejectReasons[key := 1 + if key in rejectReasons then rejectReasons[key] else 0];
    }

    /** `readState`: the result is the observed state, or None when the observation is invalid. */
    method ReadState(raw: RawRead) returns (observed: Option<DeviceState>)
      modifies this
      ensures State() == Read(old(State()), raw)
      ensures observed == if ReadIsValid(old(State()), raw) then Some(raw.state) else None
    {
      readAttempts := readAttempts + 1;
      if raw.Failed? {
        readFailures := readFailures + 1;
        Reject(raw.reason);
        return None;
      }
      var reason := Objection(last, raw.state);
      if reason != "" {
        Reject(reason);
        return None;
      }
      validReads := validReads + 1;
      last := Some(raw.state);
      return Some(raw.state);
    }
  }

  // ----- ClockSampler --------------------------------------------------------------------

  datatype Bounds = Bounds(realtimeBefore: int, realtimeAfter: int, monoBefore: int, monoAfter: int)

  /** A valid observation: the state and the host clock readings around its read. */
  datatype Observation = Observation(state: DeviceState, bounds: Bounds)

  datatype PublicationSample = PublicationSample(
    smartnic: int, realtime: int, mono: int, uncertainty: int, startMono: int, endMono: int,
    meTime: uint32, convMult: uint32, convRshift: uint32)

  datatype Counters = Counters(
    observations: nat, accepted: nat, duplicates: nat, invalid: nat, rejected: nat, hostSteps: nat, deviceResets: nat)

  datatype SamplerMemory = SamplerMemory(last: Option<Observation>, previousRealtime: int, previousMono: int, counters: Counters)

  const FRESH_SAMPLER := SamplerMemory(None, 0, 0, Counters(0, 0, 0, 0, 0, 0, 0))

  /** The eight ways a poll can end. */
  datatype Outcome =
    | ClockRollback | InvalidRead | Seeded | Duplicate | Implausible | BadTime | TooUncertain
    | Emitted(sample: PublicationSample)

  predicate PlausibleTransition(previous: DeviceState, current: DeviceState) {
    && current.convMult == previous.convMult && current.convRshift == previous.convRshift
    && previous.nanos < NANOS_PER_SECOND && current.nanos < NANOS_PER_SECOND
    && StateTime(previous) < StateTime(current)
  }

  function Width(previous: Bounds, current: Bounds): int {
    current.monoAfter - previous.monoAfter
  }

  function Latency(b: Bounds): int {
    b.monoAfter - b.monoBefore
  }

  function SampleOf(previous: Observation, current: Observation): PublicationSample {
    var p, c := previous.bounds, current.bounds;
    PublicationSample(StateTime(current.state), Midpoint(p.realtimeAfter, c.realtimeAfter), Midpoint(p.monoAfter, c.monoAfter),
                      Width(p, c) + Latency(c), p.monoAfter, c.monoAfter,
                      current.state.meTime, current.state.convMult, current.state.convRshift)
  }

  predicate HostRollback(b: Bounds) {
    b.realtimeAfter < b.realtimeBefore || b.monoAfter < b.monoBefore
  }

  /** The host clocks drifted apart between two polls: the sampler forgets its last observation. */
  predicate HostStepped(m: SamplerMemory, b: Bounds) {
    && m.previousMono != 0
    && Abs((Midpoint(b.realtimeBefore, b.realtimeAfter) - m.previousRealtime)
           - (Midpoint(b.monoBefore, b.monoAfter) - m.previousMono)) > 500000
  }

  function Transition(maximumUncertainty: int, previous: Observation, current: Observation): Outcome {
    if current.state == previous.state then Duplicate
    else if !PlausibleTransition(previous.state, current.state) then Implausible
    else if current.state.nanos >= NANOS_PER_SECOND then BadTime
    else if Width(previous.bounds, current.bounds) < 0
         || Width(previous.bounds, current.bounds) + Latency(current.bounds) > maximumUncertainty then TooUncertain
    else Emitted(SampleOf(previous, current))
  }

  function OutcomeOf(maximumUncertainty: int, m: SamplerMemory, b: Bounds, observed: Option<DeviceState>): Outcome {
    if HostRollback(b) then ClockRollback
    else if observed.None? then InvalidRead
    else if m.last.None? || HostStepped(m, b) then Seeded
    else Transition(maximumUncertainty, m.last.value, Observation(observed.value, b))
  }

  function CountOutcome(c: Counters, o: Outcome, stepped: bool): Counters {
    c.(observations := c.observations + 1,
       accepted := c.accepted + if o.Emitted? then 1 else 0,
       duplicates := c.duplicates + if o.Duplicate? then 1 else 0,
       invalid := c.invalid + if o.ClockRollback? || o.InvalidRead? then 1 else 0,
       rejected := c.rejected + if o.Implausible? || o.BadTime? || o.TooUncertain? then 1 else 0,
       hostSteps := c.hostSteps + if stepped then 1 else 0,
       deviceResets := c.deviceResets + if o.Implausible? then 1 else 0)
  }

  /** `poll`. */
  function Poll(maximumUncertainty: int, m: SamplerMemory, b: Bounds, observed: Option<DeviceState>): SamplerMemory {
    var o := OutcomeOf(maximumUncertainty, m, b, observed);
    if o.ClockRollback? then m.(counters := CountOutcome(m.counters, o, false))
    else
      var stepped := HostStepped(m, b);
      SamplerMemory(if observed.Some? then Some(Observation(observed.value, b)) else if stepped then None else m.last,
                    Midpoint(b.realtimeBefore, b.realtimeAfter), Midpoint(b.monoBefore, b.monoAfter),
                    CountOutcome(m.counters, o, stepped))
  }

  function Forget(m: SamplerMemory): SamplerMemory {
    m.(last := None, previousRealtime := 0, previousMono := 0)
  }

  class ClockSampler {
    const reader: MacClockReader
    const maximumUncertainty: int
    var last: Option<Observation>
    var previousRealtime: int
    var previousMono: int
    var counters: Counters

    function State(): SamplerMemory
      reads this
    {
      SamplerMemory(last, previousRealtime, previousMono, counters)
    }

    constructor (reader: MacClockReader, maximumUncertainty: int)
      ensures this.reader == reader && this.maximumUncertainty == maximumUncertainty && State() == FRESH_SAMPLER
    {
      this.reader, this.maximumUncertainty := reader, maximumUncertainty;
      last, previousRealtime, previousMono, counters := None, 0, 0, Counters(0, 0, 0, 0, 0, 0, 0);
    }

    method Reset()
      modifies this
      ensures State() == Forget(old(State()))
    {
      last := None;
      previousRealtime := 0;
      previousMono := 0;
    }

    /** `poll`, given what its four clock calls and the raw device read returned. */
    method PollOnce(b: Bounds, raw: RawRead) returns (sample: Option<PublicationSample>)
      modifies this, reader
      ensures reader.State() == Read(old(reader.State()), raw)
      ensures var observed := if ReadIsValid(old(reader.State()), raw) then Some(raw.state) else None;
        && State() == Poll(maximumUncertainty, old(State()), b, observed)
        && var o := OutcomeOf(maximumUncertainty, old(State()), b, observed);
           sample == if o.Emitted? then Some(o.sample) else None
    {
      hide Read, ReadIsValid, Midpoint, Abs, SampleOf, StateTime;
      counters := counters.(observations := counters.observations + 1);
      var observed := reader.ReadState(raw);
      if b.realtimeAfter < b.realtimeBefore || b.monoAfter < b.monoBefore {
        counters := counters.(invalid := counters.invalid + 1);
        return None;
      }
      var realtimeMidpoint := Midpoint(b.realtimeBefore, b.realtimeAfter);
      var monoMidpoint := Midpoint(b.monoBefore, b.monoAfter);
      if previousMono != 0 {
        var realtimeDelta := realtimeMidpoint - previousRealtime;
        var monoDelta := monoMidpoint - previousMono;
        if Abs(realtimeDelta - monoDelta) > 500000 {
          counters := counters.(hostSteps := counters.hostSteps + 1);
          Reset();
        }
      }
      previousRealtime := realtimeMidpoint;
      previousMono := monoMidpoint;
      if observed.None? {
        counters := counters.(invalid := counters.invalid + 1);
        return None;
      }
      var current := Observation(observed.value, b);
      if last.None? {
        last := Some(current);
        return None;
      }
      var previous := last.value;
      last := Some(current);
      if current.state == previous.state {
        counters := counters.(duplicates := counters.duplicates + 1);
        return None;
      }
      if !PlausibleTransition(previous.state, current.state) {
        counters := counters.(deviceResets := counters.deviceResets + 1, rejected := counters.rejected + 1);
        return None;
      }
      if current.state.nanos >= NANOS_PER_SECOND {
        assert false;  // `stateTimeNs` already succeeded inside the plausibility test
      }
      var width := b.monoAfter - previous.bounds.monoAfter;
      var uncertainty := width + (b.monoAfter - b.monoBefore);
      if width < 0 || uncertainty > maximumUncertainty {
        counters := counters.(rejected := counters.rejected + 1);
        return None;
      }
      counters := counters.(accepted := counters.accepted + 1);
      sample := Some(SampleOf(previous, current));
    }
  }

  // ----- Runs ----------------------------------------------------------------------------

  datatype Call = PollCall(bounds: Bounds, raw: RawRead) | ResetCall

  /** An emitted sample with the two observations it was made from. */
  datatype Emission = Emission(previous: Observation, current: Observation, sample: PublicationSample)

  datatype World = World(reader: ReaderMemory, sampler: SamplerMemory, emissions: seq<Emission>, seeds: nat, resets: nat)

  function Observed(w: World, raw: RawRead): Option<DeviceState> {
    if ReadIsValid(w.reader, raw) then Some(raw.state) else None
  }

  function Step(maximumUncertainty: int, w: World, call: Call): World {
    match call
    case ResetCall => w.(sampler := Forget(w.sampler), resets := w.resets + 1)
    case PollCall(b, raw) =>
      var observed := Observed(w, raw);
      var o := OutcomeOf(maximumUncertainty, w.sampler, b, observed);
      World(Read(w.reader, raw), Poll(maximumUncertainty, w.sampler, b, observed),
            if o.Emitted? then w.emissions + [Emission(w.sampler.last.value, Observation(observed.value, b), o.sample)]
            else w.emissions,
            w.seeds + if o.Seeded? then 1 else 0, w.resets)
  }

  function After(maximumUncertainty: int, calls: seq<Call>): World {
    if calls == [] then World(FRESH_READER, FRESH_SAMPLER, [], 0, 0)
    else Step(maximumUncertainty, After(maximumUncertainty, calls[..|calls| - 1]), calls[|calls| - 1])
  }

  /** Number of polls among the calls. */
  function Polls(calls: seq<Call>): nat {
    if calls == [] then 0 else Polls(calls[..|calls| - 1]) + if calls[|calls| - 1].PollCall? then 1 else 0
  }

  // ----- Accounting ----------------------------------------------------------------------

  /** Every poll is counted exactly once, and only resets make room for further seeding polls. */
  lemma {:induction false} Accounting(maximumUncertainty: int, calls: seq<Call>)
    ensures var w := After(maximumUncertainty, calls);
      var c := w.sampler.counters;
      && c.observations == Polls(calls) == c.accepted + c.duplicates + c.invalid + c.rejected + w.seeds
      && w.seeds + (if w.sampler.last.None? then 1 else 0) <= 1 + c.hostSteps + w.resets
      && c.deviceResets <= c.rejected && c.accepted == |w.emissions|
      && w.reader.readAttempts == Polls(calls)
  {
    if calls != [] {
      Accounting(maximumUncertainty, calls[..|calls| - 1]);
    }
  }

  ghost function AnyKey(m: map<string, nat>): string
    requires m != map[]
  {
    var k :| k in m; k
  }

  /** Sum of all counts in a map. */
  ghost function CountTotal(m: map<string, nat>): nat {
    if m == map[] then 0 else m[AnyKey(m)] + CountTotal(m - {AnyKey(m)})
  }

  lemma {:induction false} CountTotalSplit(m: map<string, nat>, k: string)
    requires k in m
    ensures CountTotal(m) == m[k] + CountTotal(m - {k})
    decreases |m|
  {
    var x := AnyKey(m);
    if x != k {
      CountTotalSplit(m - {x}, k);
      CountTotalSplit(m - {k}, x);
      assert m - {x} - {k} == m - {k} - {x};
    }
  }

  lemma CountedAddsOne(reasons: map<string, nat>, reason: string)
    ensures CountTotal(Counted(reasons, reason)) == CountTotal(reasons) + 1
  {
    CountTotalSplit(Counted(reasons, reason), reason);
    assert Counted(reasons, reason) - {reason} == reasons - {reason};
    if reason in reasons {
      CountTotalSplit(reasons, reason);
    } else {
      assert reasons - {reason} == reasons;
    }
  }

  /** Every read is either valid or counted under exactly one reason, and failed reads are among the latter. */
  lemma {:induction false} ReadAccounting(maximumUncertainty: int, calls: seq<Call>)
    ensures var r := After(maximumUncertainty, calls).reader;
      r.readAttempts == r.validReads + CountTotal(r.rejectReasons) && r.readFailures <= CountTotal(r.rejectReasons)
  {
    if calls != [] {
      var n := |calls| - 1;
      ReadAccounting(maximumUncertainty, calls[..n]);
      if calls[n].PollCall? {
        var r := After(maximumUncertainty, calls[..n]).reader;
        CountedAddsOne(r.rejectReasons, ReasonFor(r, calls[n].raw));
      }
      hide CountTotal, Poll, OutcomeOf;
    }
  }

  // ----- Device time only moves forward --------------------------------------------------

  /** `stateTimeNs` cannot fail after the plausibility test, and the reader never reports an all-zero state. */
  lemma UnreachableRefusals(maximumUncertainty: int, m: SamplerMemory, b: Bounds, observed: Option<DeviceState>,
                            last: Option<DeviceState>, s: DeviceState)
    ensures !OutcomeOf(maximumUncertainty, m, b, observed).BadTime?
    ensures Objection(last, s) != "all-zero-state"
  {
  }

  ghost predicate DeviceOrder(w: World) {
    && (w.sampler.last.Some? ==> w.reader.last.Some? && StateTime(w.sampler.last.value.state) <= StateTime(w.reader.last.value))
    && (forall i :: 0 <= i < |w.emissions| ==>
          && w.reader.last.Some? && w.emissions[i].sample.smartnic <= StateTime(w.reader.last.value)
          && (w.sampler.last.Some? ==> w.emissions[i].sample.smartnic <= StateTime(w.sampler.last.value.state)))
    && (forall i, j :: 0 <= i < j < |w.emissions| ==> w.emissions[i].sample.smartnic < w.emissions[j].sample.smartnic)
  }

  /** Emitted device times strictly increase over the whole run: across sampler resets, invalid reads,
      rejected transitions and host-clock rollbacks. */
  lemma {:induction false} EmittedDeviceTimesIncrease(maximumUncertainty: int, calls: seq<Call>)
    ensures DeviceOrder(After(maximumUncertainty, calls))
  {
    if calls != [] {
      EmittedDeviceTimesIncrease(maximumUncertainty, calls[..|calls| - 1]);
      DeviceOrderStep(maximumUncertainty, After(maximumUncertainty, calls[..|calls| - 1]), calls[|calls| - 1]);
    }
  }

  lemma DeviceOrderStep(maximumUncertainty: int, w: World, call: Call)
    requires DeviceOrder(w)
    ensures DeviceOrder(Step(maximumUncertainty, w, call))
  {
    ReaderNeverGoesBack(maximumUncertainty, w, call);
    SamplerFollowsReader(maximumUncertainty, w, call);
    EmissionIsNewest(maximumUncertainty, w, call);
    hide Step, StateTime;
    var w' := Step(maximumUncertainty, w, call);
    if w'.emissions != w.emissions {
      var e :| w'.emissions == w.emissions + [e]
            && w.sampler.last.Some? && w'.reader.last.Some? && w'.sampler.last.Some?
            && e.sample.smartnic == StateTime(w'.sampler.last.value.state) == StateTime(w'.reader.last.value)
            && StateTime(w.sampler.last.value.state) < e.sample.smartnic;
    }
  }

  lemma ReaderNeverGoesBack(maximumUncertainty: int, w: World, call: Call)
    ensures var r, r' := w.reader, Step(maximumUncertainty, w, call).reader;
      r.last.Some? ==> r'.last.Some? && StateTime(r.last.value) <= StateTime(r'.last.value)
  {
  }

  /** The sampler remembers what it did, what the reader saw last, or nothing. */
  lemma SamplerFollowsReader(maximumUncertainty: int, w: World, call: Call)
    ensures var w' := Step(maximumUncertainty, w, call);
      || w'.sampler.last.None? || w'.sampler.last == w.sampler.last
      || (w'.reader.last.Some? && w'.sampler.last.value.state == w'.reader.last.value
          && (w.reader.last.Some? ==> StateTime(w.reader.last.value) <= StateTime(w'.reader.last.value)))
  {
    hide HostRollback, HostStepped, Midpoint, CountOutcome;
  }

  lemma EmissionIsNewest(maximumUncertainty: int, w: World, call: Call)
    ensures var w' := Step(maximumUncertainty, w, call);
      || w'.emissions == w.emissions
      || (exists e :: w'.emissions == w.emissions + [e]
            && w.sampler.last.Some? && w'.reader.last.Some? && w'.sampler.last.Some?
            && e.sample.smartnic == StateTime(w'.sampler.last.value.state) == StateTime(w'.reader.last.value)
            && StateTime(w.sampler.last.value.state) < e.sample.smartnic)
  {
    hide HostRollback, HostStepped, Midpoint, CountOutcome, Width, Latency;
    var w' := Step(maximumUncertainty, w, call);
    if call.PollCall? && w'.emissions != w.emissions {
      assert w'.emissions == w.emissions + [w'.emissions[|w.emissions|]];
    }
  }

  // ----- Transition intervals ------------------------------------------------------------

  /** Monotonic readings at the end of successive polls never run back, or (strict) always advance. */
  ghost predicate HostAdvances(calls: seq<Call>, strict: bool) {
    forall i, j :: 0 <= i < j < |calls| && calls[i].PollCall? && calls[j].PollCall? ==>
      && calls[i].bounds.monoAfter <= calls[j].bounds.monoAfter
      && (strict ==> calls[i].bounds.monoAfter < calls[j].bounds.monoAfter)
  }

  /** Bounds of the latest poll. */
  function Latest(calls: seq<Call>): Option<Bounds> {
    if calls == [] then None
    else if calls[|calls| - 1].PollCall? then Some(calls[|calls| - 1].bounds)
    else Latest(calls[..|calls| - 1])
  }

  lemma {:induction false} LatestIsPoll(calls: seq<Call>)
    requires Latest(calls).Some?
    ensures exists k :: 0 <= k < |calls| && calls[k].PollCall? && calls[k].bounds == Latest(calls).value
  {
    var n := |calls| - 1;
    if calls[n].ResetCall? {
      LatestIsPoll(calls[..n]);
      var k :| 0 <= k < n && calls[..n][k].PollCall? && calls[..n][k].bounds == Latest(calls).value;
      assert calls[k].PollCall?;
    }
  }

  /** An emission's own interval: it holds its midpoint and ends no later than `now`. */
  predicate GoodInterval(s: PublicationSample, now: int, strict: bool) {
    s.startMono <= s.mono <= s.endMono <= now && (strict ==> s.mono < s.endMono)
  }

  ghost predicate InOrder(e: seq<Emission>) {
    forall i, j :: 0 <= i < j < |e| ==> e[i].sample.endMono <= e[j].sample.startMono
  }

  /** Nothing remembered or emitted is later than the latest poll, nothing emitted later than what is remembered. */
  ghost predicate IntervalOrder(w: World, latest: Option<Bounds>, strict: bool) {
    && (latest.None? ==> w.sampler.last.None? && w.emissions == [])
    && (latest.Some? ==>
          && (w.sampler.last.Some? ==> w.sampler.last.value.bounds.monoAfter <= latest.value.monoAfter)
          && forall i :: 0 <= i < |w.emissions| ==>
               GoodInterval(w.emissions[i].sample,
                            if w.sampler.last.Some? then w.sampler.last.value.bounds.monoAfter else latest.value.monoAfter, strict))
    && InOrder(w.emissions)
  }

  lemma MidpointBetween(a: int, b: int)
    requires a <= b
    ensures a <= Midpoint(a, b) <= b && (a < b ==> Midpoint(a, b) < b)
    ensures Midpoint(a, b) - a == (b - a) / 2 && b - Midpoint(a, b) == (b - a + 1) / 2
  {
  }

  lemma IntervalOrderPoll(maximumUncertainty: int, w: World, latest: Option<Bounds>, b: Bounds, raw: RawRead, strict: bool)
    requires IntervalOrder(w, latest, strict)
    requires latest.Some? ==> latest.value.monoAfter <= b.monoAfter && (strict ==> latest.value.monoAfter < b.monoAfter)
    ensures IntervalOrder(Step(maximumUncertainty, w, PollCall(b, raw)), Some(b), strict)
  {
    hide ReadIsValid, Read, PlausibleTransition, HostRollback, HostStepped, CountOutcome, Midpoint;
    if w.sampler.last.Some? {
      MidpointBetween(w.sampler.last.value.bounds.monoAfter, b.monoAfter);
    }
  }

  /** With a host clock that never runs back, transition intervals come in order and share at most endpoints;
      each holds its own midpoint. */
  lemma {:induction false} IntervalsOrdered(maximumUncertainty: int, calls: seq<Call>, strict: bool)
    requires HostAdvances(calls, strict)
    ensures IntervalOrder(After(maximumUncertainty, calls), Latest(calls), strict)
  {
    hide Step, IntervalOrder;
    if calls == [] {
      StartInOrder(maximumUncertainty, strict);
    } else {
      var n := |calls| - 1;
      IntervalsOrdered(maximumUncertainty, calls[..n], strict);
      var w, latest := After(maximumUncertainty, calls[..n]), Latest(calls[..n]);
      match calls[n]
      case PollCall(b, raw) =>
        if latest.Some? {
          LatestIsPoll(calls[..n]);
          var k :| 0 <= k < n && calls[..n][k].PollCall? && calls[..n][k].bounds == latest.value;
          assert calls[k] == calls[..n][k];
        }
        IntervalOrderPoll(maximumUncertainty, w, latest, b, raw, strict);
      case ResetCall => IntervalOrderReset(maximumUncertainty, w, latest, strict);
    }
  }

  lemma StartInOrder(maximumUncertainty: int, strict: bool)
    ensures IntervalOrder(After(maximumUncertainty, []), None, strict)
  {
  }

  lemma IntervalOrderReset(maximumUncertainty: int, w: World, latest: Option<Bounds>, strict: bool)
    requires IntervalOrder(w, latest, strict)
    ensures IntervalOrder(Step(maximumUncertainty, w, ResetCall), latest, strict)
  {
  }

  ghost predicate BothClocksIncrease(e: seq<Emission>) {
    forall i, j :: 0 <= i < j < |e| ==> e[i].sample.smartnic < e[j].sample.smartnic && e[i].sample.mono < e[j].sample.mono
  }

  /** With a strictly advancing host clock, device time and host time of the emitted samples both strictly increase. */
  lemma EmissionsIncrease(maximumUncertainty: int, calls: seq<Call>)
    requires HostAdvances(calls, true)
    ensures BothClocksIncrease(After(maximumUncertainty, calls).emissions)
  {
    EmittedDeviceTimesIncrease(maximumUncertainty, calls);
    IntervalsOrdered(maximumUncertainty, calls, true);
  }

  // ----- How far a publication can be from its sample ------------------------------------

  /** Each emission was made from two properly bracketed observations of increasing device time. */
  ghost predicate Bracketed(maximumUncertainty: int, e: Emission) {
    && e.sample == SampleOf(e.previous, e.current)
    && !HostRollback(e.previous.bounds) && !HostRollback(e.current.bounds)
    && StateTime(e.previous.state) < StateTime(e.current.state)
    && 0 <= Width(e.previous.bounds, e.current.bounds)
    && e.sample.uncertainty <= maximumUncertainty
  }

  lemma {:induction false} EveryEmissionBracketed(maximumUncertainty: int, calls: seq<Call>)
    ensures var w := After(maximumUncertainty, calls);
      && (w.sampler.last.Some? ==> !HostRollback(w.sampler.last.value.bounds))
      && forall i :: 0 <= i < |w.emissions| ==> Bracketed(maximumUncertainty, w.emissions[i])
  {
    if calls != [] {
      EveryEmissionBracketed(maximumUncertainty, calls[..|calls| - 1]);
    }
  }

  datatype HostClock = Realtime | Monotonic

  function Opens(b: Bounds, clock: HostClock): int {
    if clock.Realtime? then b.realtimeBefore else b.monoBefore
  }

  function Closes(b: Bounds, clock: HostClock): int {
    if clock.Realtime? then b.realtimeAfter else b.monoAfter
  }

  function SampleInstant(s: PublicationSample, clock: HostClock): int {
    if clock.Realtime? then s.realtime else s.mono
  }

  /** What the device did: the states it published, and when on one of the host's clocks. */
  datatype History = History(published: iset<DeviceState>, at: DeviceState -> int)

  /** A read that takes effect at `instant` may find s: no newer state was published before. One published in that
      very nanosecond may or may not be seen. */
  ghost predicate Shows(h: History, s: DeviceState, instant: int) {
    s in h.published && h.at(s) <= instant && forall q :: q in h.published && h.at(q) < instant ==> StateTime(q) <= StateTime(s)
  }

  /** The read of s took effect between its two clock calls. */
  ghost predicate ReadWithin(h: History, clock: HostClock, s: DeviceState, b: Bounds) {
    exists t :: Opens(b, clock) <= t <= Closes(b, clock) && Shows(h, s, t)
  }

  /** Every valid read of the run took effect between its two clock calls. */
  ghost predicate TrueReads(maximumUncertainty: int, calls: seq<Call>, h: History, clock: HostClock) {
    forall i :: 0 <= i < |calls| && calls[i].PollCall? && Observed(After(maximumUncertainty, calls[..i]), calls[i].raw).Some? ==>
      ReadWithin(h, clock, calls[i].raw.state, calls[i].bounds)
  }

  ghost predicate TrueObservation(h: History, clock: HostClock, o: Observation) {
    ReadWithin(h, clock, o.state, o.bounds)
  }

  /** The sampler remembers and emits only observations that were truly read. */
  ghost predicate TrueWorld(h: History, clock: HostClock, w: World) {
    && (w.sampler.last.Some? ==> TrueObservation(h, clock, w.sampler.last.value))
    && forall i :: 0 <= i < |w.emissions| ==>
         TrueObservation(h, clock, w.emissions[i].previous) && TrueObservation(h, clock, w.emissions[i].current)
  }

  lemma TrueStep(maximumUncertainty: int, w: World, call: Call, h: History, clock: HostClock)
    requires TrueWorld(h, clock, w)
    requires call.PollCall? && Observed(w, call.raw).Some? ==> ReadWithin(h, clock, call.raw.state, call.bounds)
    ensures TrueWorld(h, clock, Step(maximumUncertainty, w, call))
  {
    hide ReadWithin, HostRollback, HostStepped, CountOutcome, Midpoint, Transition, ReadIsValid, Read;
  }

  lemma {:induction false} OnlyTrueObservations(maximumUncertainty: int, calls: seq<Call>, h: History, clock: HostClock)
    requires TrueReads(maximumUncertainty, calls, h, clock)
    ensures TrueWorld(h, clock, After(maximumUncertainty, calls))
  {
    hide Step, ReadWithin;
    if calls != [] {
      var n := |calls| - 1;
      forall i | 0 <= i < n ensures calls[..n][..i] == calls[..i] {}
      OnlyTrueObservations(maximumUncertainty, calls[..n], h, clock);
      TrueStep(maximumUncertainty, After(maximumUncertainty, calls[..n]), calls[n], h, clock);
    }
  }

  predicate PublishedAt(before: int, after: int, instant: int) {
    before <= instant <= after
  }

  /** On every run whose reads take effect between their clock calls, the state behind an emission was published
      after the read behind the previous observation was begun and before its own read was finished. */
  lemma PublicationBracketed(maximumUncertainty: int, calls: seq<Call>, i: nat, h: History, clock: HostClock)
    requires TrueReads(maximumUncertainty, calls, h, clock) && i < |After(maximumUncertainty, calls).emissions|
    ensures var e := After(maximumUncertainty, calls).emissions[i];
      && e.current.state in h.published && e.sample.smartnic == StateTime(e.current.state)
      && PublishedAt(Opens(e.previous.bounds, clock), Closes(e.current.bounds, clock), h.at(e.current.state))
  {
    hide After;
    EveryEmissionBracketed(maximumUncertainty, calls);
    OnlyTrueObservations(maximumUncertainty, calls, h, clock);
    var e := After(maximumUncertainty, calls).emissions[i];
    assert Bracketed(maximumUncertainty, e) && TrueObservation(h, clock, e.previous) && TrueObservation(h, clock, e.current);
    var p :| Opens(e.previous.bounds, clock) <= p <= Closes(e.previous.bounds, clock) && Shows(h, e.previous.state, p);
    var c :| Opens(e.current.bounds, clock) <= c <= Closes(e.current.bounds, clock) && Shows(h, e.current.state, c);
  }

  /** Half the interval between the two reads' ends, rounded up, plus the latency of the previous read. */
  function BracketError(p: Bounds, c: Bounds, clock: HostClock): int {
    (if Closes(p, clock) <= Closes(c, clock) then (Closes(c, clock) - Closes(p, clock) + 1) / 2 else 0)
    + (Closes(p, clock) - Opens(p, clock))
  }

  lemma MidpointWithin(before: int, first: int, second: int, instant: int)
    requires before <= first && before <= instant <= second
    ensures Abs(instant - Midpoint(first, second)) <= (if first <= second then (second - first + 1) / 2 else 0) + (first - before)
  {
  }

  /** On every such run, on either clock, even if the real-time clock ran back between the two reads, a publication
      lies no further from its sample than that. */
  lemma PublicationError(maximumUncertainty: int, calls: seq<Call>, i: nat, h: History, clock: HostClock)
    requires TrueReads(maximumUncertainty, calls, h, clock) && i < |After(maximumUncertainty, calls).emissions|
    ensures var e := After(maximumUncertainty, calls).emissions[i];
      && Abs(h.at(e.current.state) - SampleInstant(e.sample, clock)) <= BracketError(e.previous.bounds, e.current.bounds, clock)
      && (clock.Monotonic? ==>
            BracketError(e.previous.bounds, e.current.bounds, clock)
            == (Width(e.previous.bounds, e.current.bounds) + 1) / 2 + Latency(e.previous.bounds))
  {
    hide After, Midpoint;
    EveryEmissionBracketed(maximumUncertainty, calls);
    PublicationBracketed(maximumUncertainty, calls, i, h, clock);
    var e := After(maximumUncertainty, calls).emissions[i];
    assert Bracketed(maximumUncertainty, e);
    MidpointWithin(Opens(e.previous.bounds, clock), Closes(e.previous.bounds, clock), Closes(e.current.bounds, clock), h.at(e.current.state));
  }

  /** The reported uncertainty alone is a bound exactly when the previous read was fast enough. */
  lemma UncertaintyBoundsErrorIff(maximumUncertainty: int, e: Emission)
    requires Bracketed(maximumUncertainty, e)
    ensures (forall t :: PublishedAt(e.previous.bounds.monoBefore, e.current.bounds.monoAfter, t) ==>
               Abs(t - e.sample.mono) <= e.sample.uncertainty)
       <==> Latency(e.previous.bounds) <= (Width(e.previous.bounds, e.current.bounds) + 1) / 2 + Latency(e.current.bounds)
  {
    MidpointBetween(e.previous.bounds.monoAfter, e.current.bounds.monoAfter);
    assert PublishedAt(e.previous.bounds.monoBefore, e.current.bounds.monoAfter, e.previous.bounds.monoBefore);
  }

  const EARLY_STATE := DeviceState(10, 0, 0, 16, 0)
  const LATE_STATE := DeviceState(10, 1, 0, 16, 0)
  const SLOW_READ := PollCall(Bounds(1000, 1100, 500, 600), Got(EARLY_STATE))
  const FAST_READ := PollCall(Bounds(1105, 1110, 605, 610), Got(LATE_STATE))

  lemma SlowThenFast()
    ensures var w := After(1000, [SLOW_READ, FAST_READ]);
      |w.emissions| == 1 && w.emissions[0].current.state == LATE_STATE && w.emissions[0].sample.uncertainty == 15
      && w.emissions[0].sample.mono == 605
  {
    var w1 := Step(1000, After(1000, []), SLOW_READ);
    assert w1.sampler.last == Some(Observation(EARLY_STATE, SLOW_READ.bounds));
    assert w1.sampler.previousMono == 550 && w1.sampler.previousRealtime == 1050;
    assert [SLOW_READ, FAST_READ][..1] == [SLOW_READ] && [SLOW_READ][..0] == [];
    assert After(1000, [SLOW_READ]) == w1;
    assert After(1000, [SLOW_READ, FAST_READ]) == Step(1000, w1, FAST_READ);
  }

  /** A slow read followed by a fast one: on this run, with both reads taking effect between their clock calls, the
      publication is 105 ns away from a sample whose reported uncertainty is 15 ns. */
  lemma UncertaintyCanBeTooSmall()
    ensures exists calls, h ::
      && TrueReads(1000, calls, h, Monotonic)
      && var w := After(1000, calls);
      && |w.emissions| == 1 && w.emissions[0].sample.uncertainty == 15
      && Abs(h.at(w.emissions[0].current.state) - w.emissions[0].sample.mono) == 105
  {
    hide After, Observed;
    SlowThenFast();
    var h := History(iset{EARLY_STATE, LATE_STATE}, (s: DeviceState) => if s == EARLY_STATE then 0 else 500);
    var calls := [SLOW_READ, FAST_READ];
    assert Shows(h, EARLY_STATE, 500) && Shows(h, LATE_STATE, 605);
    assert TrueReads(1000, calls, h, Monotonic);
  }
}
