/** What aggregation exports, field by field, in terms of the entries read. */
module AggregationLaws {
  import opened Wrappers
  import opened Numerics
  import opened Calibration
  import opened Aggregation

  function DeviceTime(t: MacTime): int {
    t.sec * 1_000_000_000 + t.nsec
  }

  /** The entry belongs to the record of this five-tuple; the code swaps the ports and narrows the protocol. */
  predicate Matches(e: FlowEntry, k: Tuple) {
    && e.key.srcIp == k.srcIp && e.key.dstIp == k.dstIp && e.key.dstPort == k.srcPort && e.key.srcPort == k.dstPort
    && e.key.protocol % 65536 == k.protocol
  }

  function Matching(entries: seq<FlowEntry>, k: Tuple): seq<FlowEntry> {
    if entries == [] then []
    else Matching(entries[..|entries| - 1], k) + if Matches(entries[|entries| - 1], k) then [entries[|entries| - 1]] else []
  }

  /** The agent record of an entry; the code swaps the interfaces and narrows the flags. */
  predicate CopiedFrom(a: Agent, e: FlowEntry) {
    && a.aip == e.key.agentIp && a.inIf == e.key.outIf && a.outIf == e.key.inIf
    && a.byteCnt == e.byteCnt && a.packetCnt == e.packetCnt
    && a.samplingRate == e.key.samplingRate && a.tcpFlag == e.key.tcpFlag % 65536 && a.index == e.index
  }

  /** Whole milliseconds, truncated toward zero. */
  predicate InMilliseconds(ms: int, ns: int) {
    if ns >= 0 then ms * 1_000_000 <= ns < ms * 1_000_000 + 1_000_000 else ms * 1_000_000 - 1_000_000 < ns <= ms * 1_000_000
  }

  ghost predicate RecordOf(s: Status, g: seq<FlowEntry>, r: FlowRecord) {
    && |r.agents| == |g| && (forall i :: 0 <= i < |g| ==> CopiedFrom(r.agents[i], g[i]))
    && (forall e :: e in g ==> r.startNs <= ToUnix(s, DeviceTime(e.start)) && ToUnix(s, DeviceTime(e.end)) <= r.endNs)
    && (r.startNs == 0x7fff_ffff_ffff_ffff || exists e :: e in g && ToUnix(s, DeviceTime(e.start)) == r.startNs)
    && (r.endNs == -0x8000_0000_0000_0000 || exists e :: e in g && ToUnix(s, DeviceTime(e.end)) == r.endNs)
    && InMilliseconds(r.startTime, r.startNs) && InMilliseconds(r.endTime, r.endNs)
  }

  /** Conversion succeeds exactly on a valid time under a valid model. */
  lemma ConvertLaw(s: Status, t: MacTime)
    ensures Convert(s, t).Success? <==> t.nsec < 1_000_000_000 && s.valid
    ensures Convert(s, t).Success? ==> Convert(s, t).value == ToUnix(s, DeviceTime(t))
  {
    hide ToUnix;
  }

  lemma TupleMatches(e: FlowEntry, k: Tuple)
    ensures TupleOf(e) == k <==> Matches(e, k)
  {
  }

  lemma {:induction false} GroupMatches(entries: seq<FlowEntry>, k: Tuple)
    ensures Group(entries, k) == Matching(entries, k)
  {
    hide TupleOf, Matches;
    if entries != [] {
      var n := |entries| - 1;
      GroupMatches(entries[..n], k);
      TupleMatches(entries[n], k);
    }
  }

  lemma Truncated(ns: int)
    ensures InMilliseconds(TruncDiv(ns, 1_000_000), ns)
  {
  }

  lemma FaithfulIsRecord(s: Status, g: seq<FlowEntry>, r: FlowRecord)
    requires Faithful(s, g, r)
    ensures RecordOf(s, g, r)
  {
    hide ToUnix, InMilliseconds, TruncDiv;
    Truncated(r.startNs);
    Truncated(r.endNs);
    forall i | 0 <= i < |g| ensures CopiedFrom(r.agents[i], g[i]) {}
  }

  /** The exported map has a record for exactly the five-tuples of the entries, and each record holds the matching
      entries' agents in order, with every field from its place, and their least start and greatest end. */
  lemma RecordLaw(s: Status, entries: seq<FlowEntry>, m: map<Tuple, FlowRecord>, k: Tuple)
    requires FaithfulMap(s, entries, m)
    ensures k in m <==> exists e :: e in entries && Matches(e, k)
    ensures k in m ==> RecordOf(s, Matching(entries, k), m[k])
  {
    hide Faithful, RecordOf, TupleOf, Matches;
    forall e ensures TupleOf(e) == k <==> Matches(e, k) {
      TupleMatches(e, k);
    }
    if k in m {
      GroupMatches(entries, k);
      FaithfulIsRecord(s, Group(entries, k), m[k]);
    }
  }

  // ----- Bytes and packets ---------------------------------------------------------------

  function Bytes(a: Agent): int {
    a.byteCnt
  }

  function Packets(a: Agent): int {
    a.packetCnt
  }

  function BytesIn(entries: seq<FlowEntry>): int {
    if entries == [] then 0 else BytesIn(entries[..|entries| - 1]) + entries[|entries| - 1].byteCnt
  }

  function PacketsIn(entries: seq<FlowEntry>): int {
    if entries == [] then 0 else PacketsIn(entries[..|entries| - 1]) + entries[|entries| - 1].packetCnt
  }

  lemma {:induction false} TotalsOfEntries(entries: seq<FlowEntry>)
    ensures Total(entries, Bytes) == BytesIn(entries) && Total(entries, Packets) == PacketsIn(entries)
  {
    if entries != [] {
      TotalsOfEntries(entries[..|entries| - 1]);
    }
  }

  /** The exported bytes and packets are those of the entries. */
  lemma BytesAndPacketsConserved(s: Status, entries: seq<FlowEntry>, m: map<Tuple, FlowRecord>)
    requires FaithfulMap(s, entries, m)
    ensures MapTotal(m, m.Keys, Bytes) == BytesIn(entries) && MapTotal(m, m.Keys, Packets) == PacketsIn(entries)
  {
    hide FaithfulMap, Total;
    TotalsConserved(s, entries, m, Bytes);
    TotalsConserved(s, entries, m, Packets);
    TotalsOfEntries(entries);
  }
}
