/**
 * The pipeline as a whole: records published by the firmware are drained by the readers, grouped into batches by the
 * I/O thread, and handed to the transmit thread. How a slot's words encode an entry is a parameter.
 */
module Pipeline {
  import opened Wrappers
  import opened BankProtocol
  import BankGuarantees
  import opened BankReaders
  import opened Calibration
  import opened Aggregation
  import AggregationLaws
  import TimeAdjuster
  import HandOff

  datatype Batch = Batch(flows: map<Tuple, FlowRecord>, counters: map<CounterAgent, CounterRecord>)

  /** One completed iteration of the I/O thread: the entries it read, the calibration it used, the batch it made. */
  datatype Iteration = Iteration(entries: seq<Entry>, counterEntries: seq<Entry>, status: Status, batch: Batch)

  function Decoded(decode: Entry -> FlowEntry, entries: seq<Entry>): (r: seq<FlowEntry>)
    ensures |r| == |entries|
  {
    seq(|entries|, i requires 0 <= i < |entries| => decode(entries[i]))
  }

  ghost predicate Aggregated(decode: Entry -> FlowEntry, iterations: seq<Iteration>) {
    forall i :: 0 <= i < |iterations| ==>
      FaithfulMap(iterations[i].status, Decoded(decode, iterations[i].entries), iterations[i].batch.flows)
  }

  function DecodedCounters(decode: Entry -> CounterEntry, entries: seq<Entry>): (r: seq<CounterEntry>)
    ensures |r| == |entries|
  {
    seq(|entries|, i requires 0 <= i < |entries| => decode(entries[i]))
  }

  /** The counters hold exactly the agents and interfaces read, each with its last entry. */
  ghost predicate LastWins(entries: seq<CounterEntry>, counters: map<CounterAgent, CounterRecord>) {
    && (forall k :: k in counters ==> exists i :: 0 <= i < |entries| && entries[i].key == k)
    && (forall i :: 0 <= i < |entries| ==> entries[i].key in counters)
    && (forall i :: 0 <= i < |entries| && (forall j :: i < j < |entries| ==> entries[j].key != entries[i].key) ==>
          entries[i].key in counters && counters[entries[i].key] == entries[i].record)
  }

  ghost predicate Counted(decode: Entry -> CounterEntry, iterations: seq<Iteration>) {
    forall i :: 0 <= i < |iterations| ==>
      LastWins(DecodedCounters(decode, iterations[i].counterEntries), iterations[i].batch.counters)
  }

  /** Batches with neither flows nor counters are not pushed. */
  function Pushed(iterations: seq<Iteration>): seq<Batch> {
    if iterations == [] then []
    else
      var b := iterations[|iterations| - 1].batch;
      Pushed(iterations[..|iterations| - 1]) + if b.flows == map[] && b.counters == map[] then [] else [b]
  }

  function ReadCounters(iterations: seq<Iteration>): seq<Entry> {
    if iterations == [] then []
    else ReadCounters(iterations[..|iterations| - 1]) + iterations[|iterations| - 1].counterEntries
  }

  function Read(iterations: seq<Iteration>): seq<Entry> {
    if iterations == [] then [] else Read(iterations[..|iterations| - 1]) + iterations[|iterations| - 1].entries
  }

  predicate Worthwhile(b: Batch) {
    b.flows != map[] || b.counters != map[]
  }

  /** These are exactly the batches with flows or counters, in order: `from` says which iteration each stems from. */
  ghost predicate StemsFrom(batches: seq<Batch>, iterations: seq<Iteration>, from: seq<nat>) {
    && |from| == |batches|
    && (forall i, j :: 0 <= i < j < |from| ==> from[i] < from[j])
    && (forall i :: 0 <= i < |from| ==> from[i] < |iterations| && batches[i] == iterations[from[i]].batch)
    && (forall k: nat :: k < |iterations| ==> (k in from <==> Worthwhile(iterations[k].batch)))
  }

  lemma StemsFromMore(batches: seq<Batch>, iterations: seq<Iteration>, from: seq<nat>, it: Iteration)
    requires StemsFrom(batches, iterations, from)
    ensures if Worthwhile(it.batch) then StemsFrom(batches + [it.batch], iterations + [it], from + [|iterations|])
            else StemsFrom(batches, iterations + [it], from)
  {
    var all := iterations + [it];
    forall k: nat | k < |all| ensures all[k] == if k < |iterations| then iterations[k] else it {}
    assert |iterations| !in from;
    hide Worthwhile;
  }

  lemma {:induction false} PushedLaw(iterations: seq<Iteration>) returns (from: seq<nat>)
    ensures StemsFrom(Pushed(iterations), iterations, from)
  {
    if iterations == [] {
      from := [];
    } else {
      var n := |iterations| - 1;
      from := PushedLaw(iterations[..n]);
      StemsFromMore(Pushed(iterations[..n]), iterations[..n], from, iterations[n]);
      assert iterations[..n] + [iterations[n]] == iterations;
      var front := Pushed(iterations[..n]);
      assert Pushed(iterations) == if Worthwhile(iterations[n].batch) then front + [iterations[n].batch] else front;
      hide StemsFrom, Pushed, Worthwhile;
      if Worthwhile(iterations[n].batch) {
        from := from + [n];
      }
    }
  }

  // ----- Totals --------------------------------------------------------------------------

  ghost function BatchesTotal(batches: seq<Batch>, measure: Agent -> int): int {
    if batches == [] then 0
    else
      var flows := batches[|batches| - 1].flows;
      BatchesTotal(batches[..|batches| - 1], measure) + MapTotal(flows, flows.Keys, measure)
  }

  ghost function AnyRecord(b: multiset<Record>): Record
    requires b != multiset{}
  {
    var r :| r in b; r
  }

  /** Sum of a quantity over a bag of records. */
  ghost function BagTotal(b: multiset<Record>, weigh: Record -> int): int
    decreases |b|
  {
    if b == multiset{} then 0 else weigh(AnyRecord(b)) + BagTotal(b - multiset{AnyRecord(b)}, weigh)
  }

  lemma {:induction false} BagTotalSplit(b: multiset<Record>, r: Record, weigh: Record -> int)
    requires r in b
    ensures BagTotal(b, weigh) == weigh(r) + BagTotal(b - multiset{r}, weigh)
    decreases |b|
  {
    var x := AnyRecord(b);
    if x != r {
      BagTotalSplit(b - multiset{x}, r, weigh);
      BagTotalSplit(b - multiset{r}, x, weigh);
      assert b - multiset{x} - multiset{r} == b - multiset{r} - multiset{x};
    }
  }

  lemma {:induction false} BagTotalUnion(a: multiset<Record>, b: multiset<Record>, weigh: Record -> int)
    ensures BagTotal(a + b, weigh) == BagTotal(a, weigh) + BagTotal(b, weigh)
    decreases |b|
  {
    if b == multiset{} {
      assert a + b == a;
    } else {
      var x := AnyRecord(b);
      BagTotalUnion(a, b - multiset{x}, weigh);
      BagTotalSplit(a + b, x, weigh);
      assert a + b - multiset{x} == a + (b - multiset{x});
    }
  }

  lemma {:induction false} BatchesTotalConcat(a: seq<Batch>, b: seq<Batch>, measure: Agent -> int)
    ensures BatchesTotal(a + b, measure) == BatchesTotal(a, measure) + BatchesTotal(b, measure)
  {
    if b == [] {
      assert a + b == a;
    } else {
      assert (a + b)[..|a + b| - 1] == a + b[..|b| - 1];
      BatchesTotalConcat(a, b[..|b| - 1], measure);
    }
  }

  lemma {:induction false} TotalConcat(a: seq<FlowEntry>, b: seq<FlowEntry>, measure: Agent -> int)
    ensures Total(a + b, measure) == Total(a, measure) + Total(b, measure)
  {
    if b == [] {
      assert a + b == a;
    } else {
      assert (a + b)[..|a + b| - 1] == a + b[..|b| - 1];
      TotalConcat(a, b[..|b| - 1], measure);
    }
  }

  /** The measure does not depend on the slot an entry came from. */
  ghost predicate Weighs(decode: Entry -> FlowEntry, measure: Agent -> int, weigh: Record -> int) {
    forall e: Entry :: measure(AgentOf(decode(e))) == weigh(e.record)
  }

  lemma NothingWeighs(weigh: Record -> int)
    ensures BagTotal(multiset{}, weigh) == 0
  {
  }

  lemma {:induction false} RecordsTotal(decode: Entry -> FlowEntry, entries: seq<Entry>, measure: Agent -> int, weigh: Record -> int)
    requires Weighs(decode, measure, weigh)
    ensures Total(Decoded(decode, entries), measure) == BagTotal(multiset(Records(entries)), weigh)
  {
    hide BagTotal, AgentOf;
    if entries == [] {
      assert Records(entries) == [];
      NothingWeighs(weigh);
    } else {
      var n := |entries| - 1;
      RecordsTotal(decode, entries[..n], measure, weigh);
      assert Decoded(decode, entries)[..n] == Decoded(decode, entries[..n]);
      assert Records(entries) == Records(entries[..n]) + [entries[n].record];
      hide Records, Decoded;
      BagTotalSplit(multiset(Records(entries)), entries[n].record, weigh);
      assert multiset(Records(entries)) - multiset{entries[n].record} == multiset(Records(entries[..n]));
    }
  }

  lemma BatchTotal(b: Batch, measure: Agent -> int)
    ensures BatchesTotal([b], measure) == MapTotal(b.flows, b.flows.Keys, measure)
    ensures b.flows == map[] ==> MapTotal(b.flows, b.flows.Keys, measure) == 0
  {
    hide AgentTotal;
    assert [b][..0] == [];
    assert BatchesTotal([], measure) == 0;
    assert b.flows == map[] ==> b.flows.Keys == {};
  }

  /** The pushed batches hold as much of any quantity as the entries read. */
  lemma {:induction false} PushedTotal(decode: Entry -> FlowEntry, iterations: seq<Iteration>, measure: Agent -> int)
    requires Aggregated(decode, iterations)
    ensures BatchesTotal(Pushed(iterations), measure) == Total(Decoded(decode, Read(iterations)), measure)
  {
    if iterations != [] {
      var n := |iterations| - 1;
      var front, it := iterations[..n], iterations[n];
      assert Aggregated(decode, front) && FaithfulMap(it.status, Decoded(decode, it.entries), it.batch.flows);
      assert Decoded(decode, Read(iterations)) == Decoded(decode, Read(front)) + Decoded(decode, it.entries);
      var empty := it.batch.flows == map[] && it.batch.counters == map[];
      assert Pushed(iterations) == if empty then Pushed(front) else Pushed(front) + [it.batch];
      hide FaithfulMap, Aggregated, BatchesTotal, MapTotal, Total, Decoded, Pushed, Read;
      PushedTotal(decode, front, measure);
      TotalsConserved(it.status, Decoded(decode, it.entries), it.batch.flows, measure);
      TotalConcat(Decoded(decode, Read(front)), Decoded(decode, it.entries), measure);
      BatchTotal(it.batch, measure);
      BatchesTotalConcat(Pushed(front), [it.batch], measure);
    } else {
      assert Decoded(decode, Read(iterations)) == [];
    }
  }

  /** Of a quantity of flow records: published is what was transmitted, is in the transmit thread's hand or in its
      queue, was skipped after a failed slot read, or still waits in a bank or with the reader. */
  ghost predicate AccountedFor(s: State, q: HandOff.State<Batch>, measure: Agent -> int, weigh: Record -> int) {
    && |s.flow.banks| == 2
    && BagTotal(s.flow.published, weigh)
       == BatchesTotal(q.sent, measure) + BatchesTotal(HandOff.InHand(q.consumer), measure) + BatchesTotal(q.queue, measure)
          + BagTotal(s.flow.skipped, weigh) + BagTotal(PendingIn(s.flow), weigh) + BagTotal(InFlight(s.host, Flow), weigh)
  }

  /** Conservation in the banks, in aggregation and in the queue add up. */
  lemma TotalsAddUp(
    states: seq<State>, steps: seq<Step>, n: nat,
    handed: seq<HandOff.State<Batch>>, handSteps: seq<HandOff.Step<Batch>>, k: nat,
    iterations: seq<Iteration>, decode: Entry -> FlowEntry, measure: Agent -> int, weigh: Record -> int)
    requires IsRun(states, steps) && n < |states| && HandOff.IsRun(handed, handSteps) && k < |handed|
    requires Aggregated(decode, iterations) && Weighs(decode, measure, weigh)
    requires states[n].flow.delivered == multiset(Records(Read(iterations))) && handed[k].pushed == Pushed(iterations)
    ensures AccountedFor(states[n], handed[k], measure, weigh)
  {
    hide IsRun, HandOff.IsRun, HandOff.InHand, Aggregated, PendingIn, InFlight, BagTotal, BatchesTotal, Pushed, Read, Records, Total, Decoded;
    BankGuarantees.ExactlyOnce(states, steps, n, Flow);
    HandOff.EveryRunKeepsInvariant(handed, handSteps, k);
    var r, q := states[n].flow, handed[k];
    var flying := InFlight(states[n].host, Flow);
    assert r.published == r.delivered + r.skipped + PendingIn(r) + flying;
    BagTotalUnion(r.delivered + r.skipped + PendingIn(r), flying, weigh);
    BagTotalUnion(r.delivered + r.skipped, PendingIn(r), weigh);
    BagTotalUnion(r.delivered, r.skipped, weigh);
    RecordsTotal(decode, Read(iterations), measure, weigh);
    PushedTotal(decode, iterations, measure);
    BatchesTotalConcat(q.sent + HandOff.InHand(q.consumer), q.queue, measure);
    BatchesTotalConcat(q.sent, HandOff.InHand(q.consumer), measure);
  }

  // ----- The I/O thread ------------------------------------------------------------------

  class IoThread {
    const reader: SmartNicReader
    const counterReader: CounterReader
    const adjuster: TimeAdjuster.TimeAdjuster
    const queue: HandOff.SharedQueue<Batch>
    const decode: Entry -> FlowEntry
    const decodeCounter: Entry -> CounterEntry
    ghost var iterations: seq<Iteration>

    /** Between iterations: what was delivered is what the iterations read, and what was pushed is what they made of it. */
    ghost predicate Valid()
      reads this, reader.device, queue, adjuster, adjuster.sampler, adjuster.reader, adjuster.calibration
    {
      && reader.device == counterReader.device && reader.device.Valid() && reader.device.state.host.Resting?
      && adjuster.Valid() && adjuster.run != [] && queue.Valid() && queue.state.producer.AtLoop?
      && reader.device.state.flow.delivered == multiset(Records(Read(iterations)))
      && reader.device.state.counter.delivered == multiset(Records(ReadCounters(iterations)))
      && queue.state.pushed == Pushed(iterations) && Aggregated(decode, iterations) && Counted(decodeCounter, iterations)
    }

    constructor (reader: SmartNicReader, counterReader: CounterReader, adjuster: TimeAdjuster.TimeAdjuster,
                 queue: HandOff.SharedQueue<Batch>, decode: Entry -> FlowEntry, decodeCounter: Entry -> CounterEntry)
      requires reader.device == counterReader.device && reader.device.Valid() && reader.device.state.host.Resting?
      requires reader.device.state.flow.delivered == reader.device.state.counter.delivered == multiset{}
      requires adjuster.Valid() && adjuster.run != []
      requires queue.Valid() && queue.state == HandOff.Start()
      ensures Valid() && iterations == []
      ensures this.reader == reader && this.counterReader == counterReader && this.adjuster == adjuster && this.queue == queue
      ensures this.decode == decode && this.decodeCounter == decodeCounter
    {
      this.reader, this.counterReader, this.adjuster, this.queue := reader, counterReader, adjuster, queue;
      this.decode, this.decodeCounter := decode, decodeCounter;
      iterations := [];
      new;
      assert Records([]) == [];
    }

    /** Anything firmware, transmit thread and a shutdown may do between two iterations. */
    method Elapse()
      requires Valid()
      modifies reader.device, queue
      ensures Valid()
    {
      hide Device.Valid, IsExecution, Aggregated, Counted, Pushed, Read, ReadCounters, Records, BankReaders.Undisturbed;
      ghost var before := reader.device.state;
      reader.device.Interfere();
      SameDeliveries(before, reader.device.state);
      queue.Interfere();
    }

    /** One iteration of the loop: read both regions, refresh the calibration, aggregate, push. It goes on unless the
        program is shutting down, a reader still waits, or a timestamp cannot be converted, which ends the program. */
    method Iterate(readings: seq<TimeAdjuster.Reading>)
      returns (outcome: Result<()>, ghost flowsRead: seq<Entry>, ghost burst: seq<TimeAdjuster.Publication>, ghost best: nat)
      requires Valid()
      modifies this`iterations, reader`bufferState, reader.device, queue
      modifies adjuster`calls, adjuster`run, adjuster`used, adjuster.sampler, adjuster.reader, adjuster.calibration
      ensures outcome.Success? ==>
        && Valid() && |iterations| == |old(iterations)| + 1 && old(iterations) <= iterations
        && iterations[|old(iterations)|].status == adjuster.calibration.status
        && TimeAdjuster.Polled(old(adjuster.calls), adjuster.calls, readings, |burst|, adjuster.refreshBurstSize)
        && adjuster.Emitted() == old(adjuster.Emitted()) + burst
        && (if burst == [] then adjuster.run == old(adjuster.run)
            else best < |burst| && TimeAdjuster.FirstLeastUncertain(burst, best)
                 && adjuster.run == old(adjuster.run) + [AddSample(TimeAdjuster.ToTimeSample(burst[best]))])
      ensures reader.device.state.flow.delivered == old(reader.device.state.flow.delivered) + multiset(Records(flowsRead))
      ensures outcome.Failure? ==>
        && iterations == old(iterations) && queue.state.pushed == old(queue.state.pushed)
        && ((!queue.state.running && queue.state.producer.ProducerEnded?)
            || reader.device.state.host.Settling? || reader.device.state.host.Waiting?
            || exists i :: 0 <= i < |flowsRead| && !Convertible(adjuster.calibration.status, decode(flowsRead[i])))
    {
      hide Device.Valid, TimeAdjuster.TimeAdjuster.Valid, TimeAdjuster.Polled, HandOff.SharedQueue.Valid;
      hide Aggregated, Counted, Pushed, Read, ReadCounters, Records, Decoded, DecodedCounters, FaithfulMap, LastWins, SlotOrder;
      NoRecords();
      var running := queue.Begin();
      if !running {
        return Failure("shutting down"), [], [], 0;
      }
      var ending, entries, counterEntries := ReadBatch(reader, counterReader);
      flowsRead := entries;
      if ending.StillWaiting? {
        return Failure("waiting for the firmware"), flowsRead, [], 0;
      }
      var _, emitted, chosen := adjuster.Refresh(readings);
      burst, best := emitted, chosen;
      var status := adjuster.calibration.status;
      var flows := AggregateFlows(status, Decoded(decode, entries));
      if flows.Failure? {
        Unconvertible(status, decode, entries);
        return Failure(flows.reason), flowsRead, burst, best;
      }
      var counters := CountersOf(DecodedCounters(decodeCounter, counterEntries));
      var batch := Batch(flows.value, counters);
      ghost var iteration := Iteration(entries, counterEntries, status, batch);
      OneMoreIteration(decode, decodeCounter, iterations, iteration);
      queue.Finish(if batch.flows == map[] && batch.counters == map[] then None else Some(batch));
      iterations := iterations + [iteration];
      return Success(()), flowsRead, burst, best;
    }

    /** From publication to transmission: at any moment between two iterations, of any quantity of the flow records such
        as bytes or packets, all that was published is accounted for, on every execution without a harmful landing. */
    lemma PublishedIsTransmittedOrAccountedFor(measure: Agent -> int, weigh: Record -> int)
      requires Valid() && IsRun(reader.device.states, reader.device.steps) && Weighs(decode, measure, weigh)
      ensures AccountedFor(reader.device.state, queue.state, measure, weigh)
    {
      var d := reader.device;
      hide IsExecution, HandOff.IsRun, Aggregated, AccountedFor;
      d.IsWellFormed();
      HistoryLength(d.states, d.steps);
      QueueLength(queue.states, queue.steps);
      TotalsAddUp(d.states, d.steps, |d.steps|, queue.states, queue.steps, |queue.steps|, iterations, decode, measure, weigh);
    }

    /** The same for the bytes and packets of the entries themselves, where they depend on the record alone. */
    lemma BytesAndPacketsAccountedFor(bytes: Record -> int, packets: Record -> int)
      requires Valid() && IsRun(reader.device.states, reader.device.steps)
      requires forall e: Entry :: decode(e).byteCnt == bytes(e.record) && decode(e).packetCnt == packets(e.record)
      ensures AccountedFor(reader.device.state, queue.state, AggregationLaws.Bytes, bytes)
      ensures AccountedFor(reader.device.state, queue.state, AggregationLaws.Packets, packets)
    {
      hide Valid, AccountedFor, IsRun, Weighs;
      DecodedBytesWeigh(decode, bytes, packets);
      PublishedIsTransmittedOrAccountedFor(AggregationLaws.Bytes, bytes);
      PublishedIsTransmittedOrAccountedFor(AggregationLaws.Packets, packets);
    }

    /** Counters: at any moment between two iterations every published counter record was read by some iteration, was
        skipped after a failed slot read, or still waits; and of every entry read, the batch that holds its agent and
        interface, with the last entry of that iteration for them, was handed on. */
    lemma CountersAccountedFor()
      requires Valid() && IsRun(reader.device.states, reader.device.steps)
      ensures var r, h := reader.device.state.counter, reader.device.state.host;
        |r.banks| == 2 &&
        r.published == multiset(Records(ReadCounters(iterations))) + r.skipped + PendingIn(r) + InFlight(h, Counter)
      ensures forall i :: 0 <= i < |iterations| ==>
        && LastWins(DecodedCounters(decodeCounter, iterations[i].counterEntries), iterations[i].batch.counters)
        && (iterations[i].counterEntries != [] ==> HandedOn(iterations[i].batch, queue.state))
    {
      var d := reader.device;
      hide IsExecution, HandOff.IsRun, Aggregated, Pushed, ReadCounters, Read, LastWins, HandedOn, PendingIn, InFlight, Records;
      d.IsWellFormed();
      HistoryLength(d.states, d.steps);
      QueueLength(queue.states, queue.steps);
      BankGuarantees.ExactlyOnce(d.states, d.steps, |d.steps|, Counter);
      HandOff.EveryRunKeepsInvariant(queue.states, queue.steps, |queue.steps|);
      forall i: nat | i < |iterations| && iterations[i].counterEntries != [] ensures HandedOn(iterations[i].batch, queue.state) {
        SomeCounter(DecodedCounters(decodeCounter, iterations[i].counterEntries), iterations[i].batch.counters);
        PushedIsHandedOn(iterations, queue.state, i);
      }
    }
  }

  lemma DecodedBytesWeigh(decode: Entry -> FlowEntry, bytes: Record -> int, packets: Record -> int)
    requires forall e: Entry :: decode(e).byteCnt == bytes(e.record) && decode(e).packetCnt == packets(e.record)
    ensures Weighs(decode, AggregationLaws.Bytes, bytes) && Weighs(decode, AggregationLaws.Packets, packets)
  {
  }

  /** The batch of a completed iteration has been transmitted, is in the transmit thread's hand, or is queued. */
  ghost predicate HandedOn(b: Batch, q: HandOff.State<Batch>) {
    b in q.sent || b in HandOff.InHand(q.consumer) || b in q.queue
  }

  lemma SomeCounter(entries: seq<CounterEntry>, counters: map<CounterAgent, CounterRecord>)
    requires LastWins(entries, counters) && entries != []
    ensures counters != map[]
  {
    assert entries[0].key in counters;
  }

  lemma PushedIsHandedOn(iterations: seq<Iteration>, q: HandOff.State<Batch>, i: nat)
    requires HandOff.Invariant(q) && q.pushed == Pushed(iterations) && i < |iterations|
    requires Worthwhile(iterations[i].batch)
    ensures HandedOn(iterations[i].batch, q)
  {
    var from := PushedLaw(iterations);
    hide Pushed;
    assert i in from;
    var k :| 0 <= k < |from| && from[k] == i;
    assert q.pushed[k] == iterations[i].batch;
  }

  lemma HistoryLength(states: seq<State>, steps: seq<Step>)
    requires IsRun(states, steps)
    ensures |states| == |steps| + 1
  {
  }

  lemma QueueLength(states: seq<HandOff.State<Batch>>, steps: seq<HandOff.Step<Batch>>)
    requires HandOff.IsRun(states, steps)
    ensures |states| == |steps| + 1
  {
  }

  lemma SameDeliveries(s: State, t: State)
    requires BankReaders.Undisturbed(s, t)
    ensures t.flow.delivered == s.flow.delivered && t.counter.delivered == s.counter.delivered && t.host == s.host
  {
    assert RegionOf(t, Counter).delivered == RegionOf(s, Counter).delivered;
    assert RegionOf(t, Flow).delivered == RegionOf(s, Flow).delivered;
  }

  lemma NoRecords()
    ensures multiset(Records([])) == multiset{}
  {
    assert Records([]) == [];
  }

  lemma Unconvertible(status: Status, decode: Entry -> FlowEntry, entries: seq<Entry>)
    requires exists e :: e in Decoded(decode, entries) && !Convertible(status, e)
    ensures exists i :: 0 <= i < |entries| && !Convertible(status, decode(entries[i]))
  {
    hide Convertible;
    var e :| e in Decoded(decode, entries) && !Convertible(status, e);
    var i :| 0 <= i < |entries| && Decoded(decode, entries)[i] == e;
  }

  method CountersOf(entries: seq<CounterEntry>) returns (counters: map<CounterAgent, CounterRecord>)
    ensures LastWins(entries, counters)
  {
    counters := AggregateCounters(entries);
    forall i: nat | i < |entries| && (forall j :: i < j < |entries| ==> entries[j].key != entries[i].key)
      ensures entries[i].key in counters && counters[entries[i].key] == entries[i].record
    {
      assert IsLast(entries, |entries|, entries[i].key, i);
    }
  }

  lemma OneMoreIteration(decode: Entry -> FlowEntry, decodeCounter: Entry -> CounterEntry, iterations: seq<Iteration>, it: Iteration)
    requires Aggregated(decode, iterations) && FaithfulMap(it.status, Decoded(decode, it.entries), it.batch.flows)
    requires Counted(decodeCounter, iterations) && LastWins(DecodedCounters(decodeCounter, it.counterEntries), it.batch.counters)
    ensures var all := iterations + [it];
      && Aggregated(decode, all) && multiset(Records(Read(all))) == multiset(Records(Read(iterations))) + multiset(Records(it.entries))
      && Counted(decodeCounter, all)
      && multiset(Records(ReadCounters(all))) == multiset(Records(ReadCounters(iterations))) + multiset(Records(it.counterEntries))
      && Pushed(all) == Pushed(iterations) + if it.batch.flows == map[] && it.batch.counters == map[] then [] else [it.batch]
  {
    hide FaithfulMap, LastWins, Decoded, DecodedCounters;
    assert (iterations + [it])[..|iterations|] == iterations;
    assert Records(Read(iterations) + it.entries) == Records(Read(iterations)) + Records(it.entries);
    assert Records(ReadCounters(iterations) + it.counterEntries) == Records(ReadCounters(iterations)) + Records(it.counterEntries);
  }
}
