/** Grouping of one batch in main.cpp's I/O thread: flow records by five-tuple, counters by agent and interface. */
module Aggregation {
  import opened Wrappers
  import opened Numerics
  import opened Calibration
  import opened CalibrationProperties

  const INT64_MAX := 0x7fff_ffff_ffff_ffff
  const INT64_MIN := -0x8000_0000_0000_0000
  const NANOS_PER_MILLISECOND := 1_000_000

  type uint16 = x: int | 0 <= x < 0x1_0000
  type uint64 = x: int | 0 <= x < 0x1_0000_0000_0000_0000

  datatype MacTime = MacTime(sec: uint32, nsec: uint32)

  datatype FlowKey = FlowKey(srcIp: uint32, dstIp: uint32, samplingRate: uint32, agentIp: uint32, inIf: uint16, outIf: uint16,
                             srcPort: uint16, dstPort: uint16, protocol: uint32, tcpFlag: uint32)

  datatype FlowEntry = FlowEntry(key: FlowKey, byteCnt: uint64, packetCnt: uint64, start: MacTime, end: MacTime, index: uint32)

  datatype Tuple = Tuple(srcIp: uint32, dstIp: uint32, srcPort: uint16, dstPort: uint16, protocol: uint16)

  datatype Agent = Agent(aip: uint32, inIf: uint32, outIf: uint32, byteCnt: uint64, packetCnt: uint64,
                         samplingRate: uint32, tcpFlag: uint16, index: uint32)

  datatype FlowRecord = FlowRecord(agents: seq<Agent>, startTime: int, endTime: int, startNs: int, endNs: int)

  /** A record as `localFlowMap[key]` creates it. */
  const EMPTY_RECORD := FlowRecord([], INT64_MAX, INT64_MIN, INT64_MAX, INT64_MIN)

  /** The code swaps ports and interfaces when it projects an entry, and narrows protocol and TCP flags to 16 bits. */
  function TupleOf(e: FlowEntry): Tuple {
    Tuple(e.key.srcIp, e.key.dstIp, e.key.dstPort, e.key.srcPort, e.key.protocol % 0x1_0000)
  }

  function AgentOf(e: FlowEntry): Agent {
    Agent(e.key.agentIp, e.key.outIf, e.key.inIf, e.byteCnt, e.packetCnt, e.key.samplingRate, e.key.tcpFlag % 0x1_0000, e.index)
  }

  // ----- Conversion of device timestamps -------------------------------------------------

  function DeviceNs(t: MacTime): int {
    t.sec * NANOS_PER_SECOND + t.nsec
  }

  /** `TimeAdjuster::toUnixNanoseconds` with its two exceptions. */
  function Convert(s: Status, t: MacTime): Result<int> {
    if t.nsec >= NANOS_PER_SECOND then Failure("SmartNIC timestamp nanoseconds are invalid")
    else if !s.valid then Failure(INVALID_CALIBRATION)
    else Success(ToUnix(s, DeviceNs(t)))
  }

  function StartNs(s: Status, e: FlowEntry): int {
    ToUnix(s, DeviceNs(e.start))
  }

  function EndNs(s: Status, e: FlowEntry): int {
    ToUnix(s, DeviceNs(e.end))
  }

  predicate Convertible(s: Status, e: FlowEntry) {
    Convert(s, e.start).Success? && Convert(s, e.end).Success?
  }

  predicate InInt64(x: int) {
    INT64_MIN <= x <= INT64_MAX
  }

  // ----- What a record must hold ---------------------------------------------------------

  /** The entries of one tuple, in order. */
  function Group(entries: seq<FlowEntry>, k: Tuple): (r: seq<FlowEntry>)
    ensures forall i :: 0 <= i < |r| ==> r[i] in entries && TupleOf(r[i]) == k
  {
    if entries == [] then []
    else
      var front := Group(entries[..|entries| - 1], k);
      if TupleOf(entries[|entries| - 1]) == k then front + [entries[|entries| - 1]] else front
  }

  function Agents(g: seq<FlowEntry>): (r: seq<Agent>)
    ensures |r| == |g|
  {
    seq(|g|, i requires 0 <= i < |g| => AgentOf(g[i]))
  }

  /** Agents in order, minimum and maximum of the converted times and a new record's own, milliseconds truncated. */
  ghost predicate Faithful(s: Status, g: seq<FlowEntry>, r: FlowRecord) {
    && r.agents == Agents(g)
    && (forall e :: e in g ==> r.startNs <= StartNs(s, e) && EndNs(s, e) <= r.endNs)
    && r.startNs <= INT64_MAX && (r.startNs == INT64_MAX || exists e :: e in g && StartNs(s, e) == r.startNs)
    && INT64_MIN <= r.endNs && (r.endNs == INT64_MIN || exists e :: e in g && EndNs(s, e) == r.endNs)
    && r.startTime == TruncDiv(r.startNs, NANOS_PER_MILLISECOND) && r.endTime == TruncDiv(r.endNs, NANOS_PER_MILLISECOND)
  }

  ghost predicate FaithfulMap(s: Status, entries: seq<FlowEntry>, m: map<Tuple, FlowRecord>) {
    && (forall k :: k in m <==> exists e :: e in entries && TupleOf(e) == k)
    && (forall k :: k in m ==> Faithful(s, Group(entries, k), m[k]))
  }

  function Extended(r: FlowRecord, e: FlowEntry, startNs: int, endNs: int): FlowRecord {
    var start := if startNs < r.startNs then startNs else r.startNs;
    var end := if r.endNs < endNs then endNs else r.endNs;
    FlowRecord(r.agents + [AgentOf(e)], TruncDiv(start, NANOS_PER_MILLISECOND), TruncDiv(end, NANOS_PER_MILLISECOND), start, end)
  }

  lemma ExtendFaithful(s: Status, g: seq<FlowEntry>, r: FlowRecord, e: FlowEntry)
    requires if g == [] then r == EMPTY_RECORD else Faithful(s, g, r)
    ensures Faithful(s, g + [e], Extended(r, e, StartNs(s, e), EndNs(s, e)))
  {
    hide ToUnix;
    var h := g + [e];
    assert Agents(h) == Agents(g) + [AgentOf(e)];
    assert h[|g|] == e;
    forall x | x in g ensures x in h {}
    assert e in h;
  }

  /** When converted times fit 64 bits, as the code's own integers do, minimum and maximum are those of the entries. */
  lemma ExactTimes(s: Status, g: seq<FlowEntry>, r: FlowRecord)
    requires Faithful(s, g, r) && g != [] && forall e :: e in g ==> InInt64(StartNs(s, e)) && InInt64(EndNs(s, e))
    ensures exists e :: e in g && StartNs(s, e) == r.startNs
    ensures exists e :: e in g && EndNs(s, e) == r.endNs
  {
    hide ToUnix;
    assert g[0] in g;
  }

  lemma {:induction false} GroupEmpty(entries: seq<FlowEntry>, k: Tuple)
    ensures Group(entries, k) == [] <==> forall e :: e in entries ==> TupleOf(e) != k
  {
    if entries != [] {
      var n := |entries| - 1;
      assert entries == entries[..n] + [entries[n]];
      GroupEmpty(entries[..n], k);
    }
  }

  lemma AddEntry(s: Status, entries: seq<FlowEntry>, e: FlowEntry, m: map<Tuple, FlowRecord>)
    requires FaithfulMap(s, entries, m)
    ensures var k := TupleOf(e);
      var r := if k in m then m[k] else EMPTY_RECORD;
      FaithfulMap(s, entries + [e], m[k := Extended(r, e, StartNs(s, e), EndNs(s, e))])
  {
    hide ToUnix, Extended, Faithful;
    var all, k := entries + [e], TupleOf(e);
    assert all[..|all| - 1] == entries && all[|all| - 1] == e;
    GroupEmpty(entries, k);
    forall x ensures x in all <==> x in entries || x == e {}
    ExtendFaithful(s, Group(entries, k), if k in m then m[k] else EMPTY_RECORD, e);
  }

  /** The flow loop of `smartNicIoThread`; an unconvertible timestamp ends the thread with an exception. */
  method AggregateFlows(s: Status, entries: seq<FlowEntry>) returns (outcome: Result<map<Tuple, FlowRecord>>)
    ensures outcome.Success? <==> forall e :: e in entries ==> Convertible(s, e)
    ensures outcome.Success? ==> FaithfulMap(s, entries, outcome.value)
  {
    hide ToUnix, Faithful, FaithfulMap;
    var flows: map<Tuple, FlowRecord> := map[];
    assert FaithfulMap(s, [], flows) by { NoEntries(s); }
    var i := 0;
    while i < |entries|
      invariant i <= |entries| && forall e :: e in entries[..i] ==> Convertible(s, e)
      invariant FaithfulMap(s, entries[..i], flows)
    {
      var entry := entries[i];
      assert entries[..i + 1] == entries[..i] + [entry];
      assert entry in entries;
      var key := TupleOf(entry);
      var startNs := Convert(s, entry.start);
      if startNs.Failure? {
        assert !Convertible(s, entry);
        return Failure(startNs.reason);
      }
      var endNs := Convert(s, entry.end);
      if endNs.Failure? {
        assert !Convertible(s, entry);
        return Failure(endNs.reason);
      }
      AddEntry(s, entries[..i], entry, flows);
      var record := if key in flows then flows[key] else EMPTY_RECORD;
      flows := flows[key := Extended(record, entry, startNs.value, endNs.value)];
      i := i + 1;
    }
    assert entries[..i] == entries;
    outcome := Success(flows);
  }

  lemma NoEntries(s: Status)
    ensures FaithfulMap(s, [], map[])
  {
  }

  // ----- Exported times are ordered ------------------------------------------------------

  /** If every entry starts no later than it ends on the device, every exported record does in Unix milliseconds,
      for any model whose slope is not negative: in every reachable state, if the drift bound is at most 10^6. */
  lemma ExportedTimesOrdered(s: Status, entries: seq<FlowEntry>, flows: map<Tuple, FlowRecord>, k: Tuple)
    requires 0.0 <= s.scale
    requires forall e :: e in entries ==> DeviceNs(e.start) <= DeviceNs(e.end)
    requires FaithfulMap(s, entries, flows) && k in flows
    ensures flows[k].startNs <= flows[k].endNs && flows[k].startTime <= flows[k].endTime
  {
    hide ToUnix;
    var g := Group(entries, k);
    GroupEmpty(entries, k);
    var e := g[0];
    assert e in g;
    MonotoneIff(s);
    TruncDivMonotone(flows[k].startNs, flows[k].endNs, NANOS_PER_MILLISECOND);
  }

  // ----- Totals are conserved ------------------------------------------------------------

  function Total(g: seq<FlowEntry>, measure: Agent -> int): int {
    if g == [] then 0 else Total(g[..|g| - 1], measure) + measure(AgentOf(g[|g| - 1]))
  }

  function AgentTotal(a: seq<Agent>, measure: Agent -> int): int {
    if a == [] then 0 else AgentTotal(a[..|a| - 1], measure) + measure(a[|a| - 1])
  }

  ghost function Pick(keys: set<Tuple>): Tuple
    requires keys != {}
  {
    var k :| k in keys; k
  }

  ghost function MapTotal(m: map<Tuple, FlowRecord>, keys: set<Tuple>, measure: Agent -> int): int
    requires keys <= m.Keys
  {
    if keys == {} then 0
    else var k := Pick(keys); AgentTotal(m[k].agents, measure) + MapTotal(m, keys - {k}, measure)
  }

  ghost function GroupsTotal(entries: seq<FlowEntry>, keys: set<Tuple>, measure: Agent -> int): int {
    if keys == {} then 0
    else var k := Pick(keys); Total(Group(entries, k), measure) + GroupsTotal(entries, keys - {k}, measure)
  }

  lemma {:induction false} AgentsTotal(g: seq<FlowEntry>, measure: Agent -> int)
    ensures AgentTotal(Agents(g), measure) == Total(g, measure)
  {
    if g != [] {
      AgentsTotal(g[..|g| - 1], measure);
      assert Agents(g)[..|g| - 1] == Agents(g[..|g| - 1]);
    }
  }

  lemma {:induction false} GroupsTotalStep(entries: seq<FlowEntry>, e: FlowEntry, keys: set<Tuple>, measure: Agent -> int)
    ensures GroupsTotal(entries + [e], keys, measure)
         == GroupsTotal(entries, keys, measure) + if TupleOf(e) in keys then measure(AgentOf(e)) else 0
    decreases keys
  {
    if keys != {} {
      var k := Pick(keys);
      GroupsTotalStep(entries, e, keys - {k}, measure);
      assert (entries + [e])[..|entries|] == entries;
    }
  }

  lemma {:induction false} NoGroups(keys: set<Tuple>, measure: Agent -> int)
    ensures GroupsTotal([], keys, measure) == 0
    decreases keys
  {
    if keys != {} {
      NoGroups(keys - {Pick(keys)}, measure);
    }
  }

  lemma {:induction false} GroupsTotalAll(entries: seq<FlowEntry>, keys: set<Tuple>, measure: Agent -> int)
    requires forall e :: e in entries ==> TupleOf(e) in keys
    ensures GroupsTotal(entries, keys, measure) == Total(entries, measure)
    decreases |entries|
  {
    if entries == [] {
      NoGroups(keys, measure);
    } else {
      var n := |entries| - 1;
      assert entries == entries[..n] + [entries[n]];
      GroupsTotalAll(entries[..n], keys, measure);
      GroupsTotalStep(entries[..n], entries[n], keys, measure);
    }
  }

  lemma {:induction false} MapTotalIsGroups(s: Status, entries: seq<FlowEntry>, m: map<Tuple, FlowRecord>, keys: set<Tuple>, measure: Agent -> int)
    requires FaithfulMap(s, entries, m) && keys <= m.Keys
    ensures MapTotal(m, keys, measure) == GroupsTotal(entries, keys, measure)
    decreases keys
  {
    hide ToUnix;
    if keys != {} {
      var k := Pick(keys);
      AgentsTotal(Group(entries, k), measure);
      MapTotalIsGroups(s, entries, m, keys - {k}, measure);
    }
  }

  /** Grouping loses and invents nothing: any per-agent quantity, bytes and packets among them, has the same total
      over the exported map as over the entries. */
  lemma TotalsConserved(s: Status, entries: seq<FlowEntry>, m: map<Tuple, FlowRecord>, measure: Agent -> int)
    requires FaithfulMap(s, entries, m)
    ensures MapTotal(m, m.Keys, measure) == Total(entries, measure)
  {
    hide ToUnix, Faithful;
    MapTotalIsGroups(s, entries, m, m.Keys, measure);
    GroupsTotalAll(entries, m.Keys, measure);
  }

  // ----- Counters ------------------------------------------------------------------------

  datatype CounterAgent = CounterAgent(agentIp: uint32, ifIdx: uint32)

  datatype CounterRecord = CounterRecord(inOctets: uint64, outOctets: uint64, ifSpeed: uint64)

  datatype CounterEntry = CounterEntry(key: CounterAgent, record: CounterRecord)

  /** `i` is the last of the first n entries with key k. */
  predicate IsLast(entries: seq<CounterEntry>, n: nat, k: CounterAgent, i: nat)
    requires n <= |entries|
  {
    i < n && entries[i].key == k && forall j :: i < j < n ==> entries[j].key != k
  }

  /** The counter loop: for each agent and interface the last entry wins. */
  method AggregateCounters(entries: seq<CounterEntry>) returns (counters: map<CounterAgent, CounterRecord>)
    ensures forall k :: k in counters <==> exists i :: 0 <= i < |entries| && entries[i].key == k
    ensures forall k, i: nat :: IsLast(entries, |entries|, k, i) ==> k in counters && counters[k] == entries[i].record
  {
    counters := map[];
    var n := 0;
    while n < |entries|
      invariant n <= |entries|
      invariant forall k :: k in counters <==> exists i :: 0 <= i < n && entries[i].key == k
      invariant forall k, i: nat :: IsLast(entries, n, k, i) ==> k in counters && counters[k] == entries[i].record
    {
      forall k, i: nat | IsLast(entries, n + 1, k, i) && i < n ensures IsLast(entries, n, k, i) && k != entries[n].key {}
      counters := counters[entries[n].key := entries[n].record];
      n := n + 1;
    }
  }
}
