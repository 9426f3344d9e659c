/**
 * The double-bank drain protocol: the host of Reader.cpp and CounterReader.cpp interleaved with any number of
 * firmware contexts. One labelled step is one access to shared memory; every fallible access may fail.
 */
module BankProtocol {
  import opened Wrappers

  const SEM_FREE := 0
  const SEM_DATA_READY := 3

  type Word = int
  /** A record as the columns it is stored in: key and data for flows, data alone for counters. */
  type Record = seq<Word>

  /** One bank of one region; `tag` is a history variable: the record published in a ready slot. */
  datatype Bank = Bank(sem: seq<int>, cell: seq<Record>, tag: seq<Option<Record>>)

  /** A copied record with the slot it came from. */
  datatype Entry = Entry(record: Record, index: nat)

  /** Flow or counter memory, and the history of what went through it. */
  datatype Region = Region(width: nat, slots: nat, banks: seq<Bank>,
                           published: multiset<Record>, delivered: multiset<Record>, skipped: multiset<Record>)

  datatype Which = Flow | Counter

  /** Firmware context: outside, between reading `cur_state` and entering, inside a bank, or filling a slot there. */
  datatype Context =
    | Outside
    | Loaded(bank: nat)
    | Inside(bank: nat)
    | Filling(bank: nat, which: Which, slot: nat, record: Record, done: nat)

  /** The host's program counter, with its live local variables. */
  datatype Host =
    | Resting
    | ReadingState
    | Flipping(retiring: nat)
    | Settling(retired: nat)
    | CounterReadingState
    | Waiting(which: Which, bank: nat)
    | Scanning(which: Which, bank: nat)
    | Opening(which: Which, bank: nat, ready: seq<nat>)
    | Copying(which: Which, bank: nat, ready: seq<nat>, at: nat, buffer: Record, out: seq<Entry>, lost: seq<Record>)
    | Clearing(which: Which, bank: nat, out: seq<Entry>, lost: seq<Record>, column: nat)
    | Returning(which: Which, out: seq<Entry>)

  /** `flipped` is a history variable: the bank retired by this cycle's flow drain, if it flipped. */
  datatype State = State(curState: nat, processing: seq<nat>, flow: Region, counter: Region,
                         contexts: seq<Context>, host: Host, flipped: Option<nat>)

  datatype FirmwareStep = Load | Enter | Claim(which: Which, slot: nat, record: Record) | Write | Publish | Exit

  /** A step of a firmware context; a step of the host, whose access succeeds or fails without effect; or a write of
      `cur_state` that takes effect and is nevertheless reported as failed. */
  datatype Step = Firmware(context: nat, move: FirmwareStep) | HostStep(ok: bool) | LandedFlip

  // ----- Memory --------------------------------------------------------------------------

  function RegionOf(s: State, w: Which): Region {
    if w.Flow? then s.flow else s.counter
  }

  function WithRegion(s: State, w: Which, r: Region): State {
    if w.Flow? then s.(flow := r) else s.(counter := r)
  }

  function WithBank(r: Region, b: nat, bank: Bank): Region
    requires b < |r.banks|
  {
    r.(banks := r.banks[b := bank])
  }

  ghost predicate GoodBank(r: Region, b: Bank) {
    && |b.sem| == |b.cell| == |b.tag| == r.slots
    && forall i :: 0 <= i < r.slots ==> |b.cell[i]| == r.width
  }

  ghost predicate GoodRegion(r: Region) {
    |r.banks| == 2 && GoodBank(r, r.banks[0]) && GoodBank(r, r.banks[1])
  }

  /** Slots whose semaphore says ready, in order: `haveData`. */
  function ReadySlots(sem: seq<int>): (r: seq<nat>)
    ensures forall k :: 0 <= k < |r| ==> r[k] < |sem| && sem[r[k]] == 3
    ensures forall i :: 0 <= i < |sem| && sem[i] == 3 ==> i in r
    ensures forall j, k :: 0 <= j < k < |r| ==> r[j] < r[k]
  {
    if sem == [] then []
    else
      var front := ReadySlots(sem[..|sem| - 1]);
      if sem[|sem| - 1] == SEM_DATA_READY then front + [|sem| - 1] else front
  }

  function ZeroColumn(cell: seq<Record>, column: nat): (r: seq<Record>)
    ensures |r| == |cell|
  {
    seq(|cell|, i requires 0 <= i < |cell| => if column < |cell[i]| then cell[i][column := 0] else cell[i])
  }

  function FreeSem(slots: nat): (r: seq<int>)
    ensures |r| == slots
  {
    seq(slots, i => SEM_FREE)
  }

  function NoTags(slots: nat): (r: seq<Option<Record>>)
    ensures |r| == slots
  {
    seq(slots, i => None)
  }

  // ----- Counting contexts ---------------------------------------------------------------

  predicate InBank(c: Context, b: nat) {
    (c.Inside? || c.Filling?) && c.bank == b
  }

  function CountInside(contexts: seq<Context>, b: nat): nat {
    if contexts == [] then 0
    else CountInside(contexts[..|contexts| - 1], b) + if InBank(contexts[|contexts| - 1], b) then 1 else 0
  }

  // ----- Firmware ------------------------------------------------------------------------

  predicate SlotFree(s: State, w: Which, b: nat, slot: nat) {
    && b < |RegionOf(s, w).banks| && slot < |RegionOf(s, w).banks[b].sem|
    && RegionOf(s, w).banks[b].sem[slot] == SEM_FREE
    && forall i :: 0 <= i < |s.contexts| ==>
         Apart(s.contexts[i], Filling(b, w, slot, [], 0))
  }

  predicate FirmwareEnabled(s: State, i: nat, move: FirmwareStep) {
    i < |s.contexts| &&
    var c := s.contexts[i];
    match move
    case Load => c.Outside?
    case Enter => c.Loaded?
    case Claim(w, slot, record) => c.Inside? && |record| == RegionOf(s, w).width && SlotFree(s, w, c.bank, slot)
    case Write => c.Filling? && c.done < |c.record|
    case Publish => c.Filling? && c.done == |c.record|
    case Exit => c.Inside?
  }

  /** A context filling a slot: the slot exists, is free, and holds the columns written so far. */
  ghost predicate GoodFiller(r: Region, c: Context)
    requires GoodRegion(r) && c.Filling?
  {
    && c.bank < 2 && c.slot < r.slots && |c.record| == r.width && c.done <= r.width
    && r.banks[c.bank].sem[c.slot] == SEM_FREE
    && forall k :: 0 <= k < c.done ==> r.banks[c.bank].cell[c.slot][k] == c.record[k]
  }

  ghost predicate GoodContext(s: State, c: Context)
    requires GoodMemory(s)
  {
    (!c.Outside? ==> c.bank < 2) && (c.Filling? ==> GoodFiller(RegionOf(s, c.which), c))
  }

  /** A context refers only to banks, slots and columns that exist. */
  predicate WellFormedContext(s: State, c: Context) {
    && (!c.Outside? ==> c.bank < 2)
    && (c.Filling? ==> c.slot < RegionOf(s, c.which).slots && |c.record| == RegionOf(s, c.which).width && c.done <= |c.record|)
  }

  /** Two contexts never fill the same slot. */
  predicate Apart(c: Context, d: Context) {
    c.Filling? && d.Filling? ==> !(c.which == d.which && c.bank == d.bank && c.slot == d.slot)
  }

  ghost predicate GoodContexts(s: State)
    requires GoodMemory(s)
  {
    && (forall i :: 0 <= i < |s.contexts| ==> GoodContext(s, s.contexts[i]))
    && (forall i, j :: 0 <= i < |s.contexts| && 0 <= j < |s.contexts| && i != j ==> Apart(s.contexts[i], s.contexts[j]))
  }

  ghost predicate GoodMemory(s: State) {
    && GoodRegion(s.flow) && GoodRegion(s.counter) && s.flow.width > 0 && s.counter.width > 0
    && |s.processing| == 2
  }

  ghost predicate GoodShape(s: State) {
    GoodMemory(s) && GoodContexts(s)
  }

  function WrittenBank(bank: Bank, c: Context): Bank
    requires c.Filling? && c.slot < |bank.cell| && c.done < |bank.cell[c.slot]| && c.done < |c.record|
  {
    bank.(cell := bank.cell[c.slot := bank.cell[c.slot][c.done := c.record[c.done]]])
  }

  function WrittenRegion(r: Region, c: Context): Region
    requires GoodRegion(r) && c.Filling? && c.bank < 2 && c.slot < r.slots && c.done < |c.record| == r.width
  {
    WithBank(r, c.bank, WrittenBank(r.banks[c.bank], c))
  }

  function PublishedBank(bank: Bank, c: Context): Bank
    requires c.Filling? && c.slot < |bank.sem| && c.slot < |bank.tag|
  {
    bank.(sem := bank.sem[c.slot := SEM_DATA_READY], tag := bank.tag[c.slot := Some(c.record)])
  }

  function PublishedRegion(r: Region, c: Context): Region
    requires c.Filling? && c.bank < |r.banks| && c.slot < |r.banks[c.bank].sem| && c.slot < |r.banks[c.bank].tag|
  {
    WithBank(r, c.bank, PublishedBank(r.banks[c.bank], c)).(published := r.published + multiset{c.record})
  }

  function PublishIn(s: State, c: Context): State
    requires GoodMemory(s) && c.Filling? && c.bank < 2 && c.slot < RegionOf(s, c.which).slots
  {
    WithRegion(s, c.which, PublishedRegion(RegionOf(s, c.which), c))
  }

  function WriteIn(s: State, c: Context): State
    requires GoodMemory(s) && c.Filling? && c.bank < 2 && c.slot < RegionOf(s, c.which).slots
    requires c.done < |c.record| == RegionOf(s, c.which).width
  {
    WithRegion(s, c.which, WrittenRegion(RegionOf(s, c.which), c))
  }

  function FirmwareMove(s: State, i: nat, move: FirmwareStep): State
    requires GoodMemory(s) && FirmwareEnabled(s, i, move) && WellFormedContext(s, s.contexts[i])
  {
    var c := s.contexts[i];
    match move
    case Load => s.(contexts := s.contexts[i := Loaded(s.curState % 2)])
    case Enter =>
      s.(contexts := s.contexts[i := Inside(c.bank)], processing := s.processing[c.bank := s.processing[c.bank] + 1])
    case Claim(w, slot, record) => s.(contexts := s.contexts[i := Filling(c.bank, w, slot, record, 0)])
    case Write => WriteIn(s, c).(contexts := s.contexts[i := c.(done := c.done + 1)])
    case Publish => PublishIn(s, c).(contexts := s.contexts[i := Inside(c.bank)])
    case Exit =>
      s.(contexts := s.contexts[i := Outside],
         processing := s.processing[c.bank := if s.processing[c.bank] > 0 then s.processing[c.bank] - 1 else 0])
  }

  // ----- Host ----------------------------------------------------------------------------

  /** After the flow reader returns comes the counter reader; a reader with no slots returns at once. */
  function AfterDrain(s: State, w: Which): State {
    if w.Flow? && s.counter.slots > 0 then s.(host := CounterReadingState) else s.(host := Resting, flipped := None)
  }

  function BeginCycle(s: State): State {
    if s.flow.slots > 0 then s.(host := ReadingState) else AfterDrain(s, Flow)
  }

  /** The 1 ms sleep after the flip: no context is still between reading the old `cur_state` and entering. */
  predicate Settled(s: State, b: nat) {
    forall i :: 0 <= i < |s.contexts| ==> s.contexts[i] != Loaded(b)
  }

  predicate HostEnabled(s: State) {
    s.host.Settling? ==> Settled(s, s.host.retired)
  }

  function CopyStep(s: State, h: Host, ok: bool): State
    requires h.Copying? && h.bank < |RegionOf(s, h.which).banks|
  {
    var r := RegionOf(s, h.which);
    var bank := r.banks[h.bank];
    if h.at >= |h.ready| then s.(host := Clearing(h.which, h.bank, h.out, h.lost, 0))
    else
      var slot := h.ready[h.at];
      if slot >= |bank.cell| || slot >= |bank.tag| || |h.buffer| >= |bank.cell[slot]| then s
      else if !ok then
        s.(host := h.(at := h.at + 1, buffer := [],
                      lost := h.lost + if bank.tag[slot].Some? then [bank.tag[slot].value] else []))
      else
        var buffer := h.buffer + [bank.cell[slot][|h.buffer|]];
        if |buffer| < r.width then s.(host := h.(buffer := buffer))
        else s.(host := h.(at := h.at + 1, buffer := [], out := h.out + [Entry(buffer, slot)]))
  }

  function ClearStep(s: State, h: Host): State
    requires h.Clearing? && h.bank < |RegionOf(s, h.which).banks|
  {
    var r := RegionOf(s, h.which);
    var bank := r.banks[h.bank];
    if h.column < r.width then
      WithRegion(s, h.which, WithBank(r, h.bank, bank.(cell := ZeroColumn(bank.cell, h.column))))
      .(host := h.(column := h.column + 1))
    else
      WithRegion(s, h.which,
        WithBank(r, h.bank, bank.(sem := FreeSem(r.slots), tag := NoTags(r.slots)))
        .(skipped := r.skipped + multiset(h.lost)))
      .(host := Returning(h.which, h.out))
  }

  function Records(out: seq<Entry>): (r: seq<Record>)
    ensures |r| == |out|
  {
    seq(|out|, i requires 0 <= i < |out| => out[i].record)
  }

  predicate BankInRange(h: Host) {
    h.Waiting? || h.Scanning? || h.Opening? || h.Copying? || h.Clearing? ==> h.bank < 2
  }

  function HostMove(s: State, ok: bool): State
    requires GoodMemory(s) && BankInRange(s.host)
  {
    match s.host
    case Resting => BeginCycle(s)
    case ReadingState => if ok then s.(host := Flipping(s.curState % 2)) else AfterDrain(s, Flow)
    case Flipping(b) =>
      if ok && b < 2 then s.(curState := 1 - b, host := Settling(b), flipped := Some(b)) else AfterDrain(s, Flow)
    case Settling(b) => s.(host := Waiting(Flow, b))
    case CounterReadingState => if ok then s.(host := Waiting(Counter, 1 - s.curState % 2)) else AfterDrain(s, Counter)
    case Waiting(w, b) =>
      if !ok then AfterDrain(s, w) else if s.processing[b] == 0 then s.(host := Scanning(w, b)) else s
    case Scanning(w, b) =>
      if ok then s.(host := Opening(w, b, ReadySlots(RegionOf(s, w).banks[b].sem))) else AfterDrain(s, w)
    case Opening(w, b, ready) => if ok then s.(host := Copying(w, b, ready, 0, [], [], [])) else AfterDrain(s, w)
    case Copying(_, _, _, _, _, _, _) => CopyStep(s, s.host, ok)
    case Clearing(_, _, _, _, _) => ClearStep(s, s.host)
    case Returning(w, out) =>
      var r := RegionOf(s, w);
      AfterDrain(WithRegion(s, w, r.(delivered := r.delivered + multiset(Records(out)))), w)
  }

  /** The write of `cur_state` takes effect, but the flow reader returns as if it had failed. */
  function LandFlip(s: State): State
    requires s.host.Flipping?
  {
    AfterDrain(s.(curState := 1 - s.host.retiring % 2), Flow)
  }

  // ----- Runs ----------------------------------------------------------------------------

  /** The bank the firmware is not directed to. */
  function Retired(s: State): nat {
    1 - s.curState % 2
  }

  /** The host's bank while it has seen that bank idle and has not yet freed its semaphores. */
  function Draining(h: Host): Option<(Which, nat)> {
    match h
    case Scanning(w, b) => Some((w, b))
    case Opening(w, b, _) => Some((w, b))
    case Copying(w, b, _, _, _, _, _) => Some((w, b))
    case Clearing(w, b, _, _, _) => Some((w, b))
    case _ => None
  }

  function TagBag(t: Option<Record>): multiset<Record> {
    if t.Some? then multiset{t.value} else multiset{}
  }

  function Pending(tag: seq<Option<Record>>): multiset<Record> {
    if tag == [] then multiset{} else Pending(tag[..|tag| - 1]) + TagBag(tag[|tag| - 1])
  }

  function PendingIn(r: Region): multiset<Record>
    requires |r.banks| == 2
  {
    Pending(r.banks[0].tag) + Pending(r.banks[1].tag)
  }

  /** Copied out and cleared, but not yet handed to the caller. */
  function InFlight(h: Host, w: Which): multiset<Record> {
    if h.Returning? && h.which == w then multiset(Records(h.out)) else multiset{}
  }

  /** Every published record is delivered, skipped by a failed slot read, pending in a bank, or in flight: once. */
  ghost predicate Conserved(r: Region, w: Which, h: Host) {
    |r.banks| == 2 && r.published == r.delivered + r.skipped + PendingIn(r) + InFlight(h, w)
  }

  /** Without counters a flip that landed unsettled leaves nothing to drain until the next flip retires the other bank. */
  predicate Lenient(s: State) {
    s.counter.slots == 0 && (s.host.Resting? || s.host.ReadingState? || s.host.Flipping?)
  }

  /** Which banks are in use by whom. */
  ghost predicate Control(s: State) {
    && |s.processing| == 2 && s.processing[0] == CountInside(s.contexts, 0) && s.processing[1] == CountInside(s.contexts, 1)
    && (!s.host.Settling? && !Lenient(s) ==> Settled(s, Retired(s)))
    && (s.host.Flipping? ==> s.host.retiring == s.curState % 2)
    && (s.host.Settling? ==> s.host.retired == Retired(s) && s.flipped == Some(s.host.retired))
    && (s.host.Waiting? ==> s.host.bank == Retired(s))
    && (Draining(s.host).Some? ==> Draining(s.host).value.1 == Retired(s) && CountInside(s.contexts, Retired(s)) == 0)
    && (s.flipped.Some? ==> s.flipped.value == Retired(s))
    && (s.host.Resting? || s.host.ReadingState? || s.host.Flipping? ==> s.flipped.None?)
  }

  /** Semaphores, tags and, unless the host is just clearing them, cells tell the same story. */
  ghost predicate LinkedBank(r: Region, b: Bank, clearing: bool) {
    GoodBank(r, b) && forall i :: 0 <= i < r.slots ==>
      && (b.sem[i] == SEM_DATA_READY <==> b.tag[i].Some?)
      && (b.sem[i] == SEM_DATA_READY || b.sem[i] == SEM_FREE)
      && (b.tag[i].Some? ==> |b.tag[i].value| == r.width && (!clearing ==> b.cell[i] == b.tag[i].value))
  }

  predicate ClearingHere(h: Host, w: Which, b: nat) {
    h.Clearing? && h.which == w && h.bank == b
  }

  ghost predicate Linked(r: Region, w: Which, h: Host) {
    |r.banks| == 2 && LinkedBank(r, r.banks[0], ClearingHere(h, w, 0)) && LinkedBank(r, r.banks[1], ClearingHere(h, w, 1))
  }

  /** The records published in the given slots. */
  function TagsAt(tag: seq<Option<Record>>, slots: seq<nat>): multiset<Record> {
    if slots == [] then multiset{}
    else
      var i := slots[|slots| - 1];
      TagsAt(tag, slots[..|slots| - 1]) + (if i < |tag| then TagBag(tag[i]) else multiset{})
  }

  /** Every copied entry is the record published in its slot, and no slot was copied twice. */
  ghost predicate FaithfulEntries(out: seq<Entry>, tag: seq<Option<Record>>) {
    && (forall k :: 0 <= k < |out| ==> out[k].index < |tag| && tag[out[k].index] == Some(out[k].record))
    && (forall j, k :: 0 <= j < k < |out| ==> out[j].index < out[k].index)
  }

  ghost predicate CopyProgress(r: Region, b: Bank, h: Host)
    requires h.Copying?
  {
    && h.ready == ReadySlots(b.sem) && h.at <= |h.ready|
    && FaithfulEntries(h.out, b.tag)
    && (h.at < |h.ready| ==>
          && h.ready[h.at] < |b.tag| && b.tag[h.ready[h.at]].Some?
          && |h.buffer| < r.width && h.buffer <= b.tag[h.ready[h.at]].value
          && (h.out == [] || h.out[|h.out| - 1].index < h.ready[h.at]))
    && multiset(Records(h.out)) + multiset(h.lost) == TagsAt(b.tag, h.ready[..h.at])
  }

  /** What the host's local variables say about the bank it drains. */
  ghost predicate HostLocals(r: Region, w: Which, h: Host)
    requires |r.banks| == 2
  {
    match h
    case Opening(v, b, ready) => v == w ==> b < 2 && ready == ReadySlots(r.banks[b].sem)
    case Copying(v, b, _, _, _, _, _) => v == w ==> b < 2 && CopyProgress(r, r.banks[b], h)
    case Clearing(v, b, out, lost, column) => v == w ==>
      && b < 2 && column <= r.width && FaithfulEntries(out, r.banks[b].tag)
      && multiset(Records(out)) + multiset(lost) == Pending(r.banks[b].tag)
    case _ => true
  }

  ghost predicate RegionInvariant(r: Region, w: Which, h: Host) {
    Linked(r, w, h) && Conserved(r, w, h) && HostLocals(r, w, h)
  }

  ghost predicate Invariant(s: State) {
    GoodShape(s) && Control(s) && RegionInvariant(s.flow, Flow, s.host) && RegionInvariant(s.counter, Counter, s.host)
  }

  /** Nothing has been handed out yet; ready records count as published. */
  ghost predicate Untouched(r: Region) {
    |r.banks| == 2 && r.delivered == r.skipped == multiset{} && r.published == PendingIn(r)
  }

  /** The host starts between cycles, while the firmware may already be running and records may be waiting. */
  ghost predicate Initial(s: State) {
    && GoodShape(s) && s.host.Resting? && s.flipped.None? && Settled(s, Retired(s))
    && s.processing == [CountInside(s.contexts, 0), CountInside(s.contexts, 1)]
    && Linked(s.flow, Flow, s.host) && Linked(s.counter, Counter, s.host) && Untouched(s.flow) && Untouched(s.counter)
  }

  /** Contexts and host refer only to what exists. */
  ghost predicate WellFormed(s: State) {
    && GoodMemory(s) && (forall i :: 0 <= i < |s.contexts| ==> WellFormedContext(s, s.contexts[i]))
    && BankInRange(s.host) && (s.host.Settling? ==> s.host.retired < 2)
  }

  /** One step of firmware or host. Well-formedness is kept by every step, so asking for it excludes nothing. */
  ghost predicate Next(s: State, step: Step, s': State) {
    WellFormed(s) &&
    match step
    case Firmware(i, move) => FirmwareEnabled(s, i, move) && s' == FirmwareMove(s, i, move)
    case HostStep(ok) => HostEnabled(s) && s' == HostMove(s, ok)
    case LandedFlip => s.host.Flipping? && s' == LandFlip(s)
  }

  /** Any interleaving with any failures. */
  ghost predicate IsExecution(states: seq<State>, steps: seq<Step>) {
    && |states| == |steps| + 1 && Initial(states[0])
    && forall i :: 0 <= i < |steps| ==> Next(states[i], steps[i], states[i + 1])
  }

  /** After a reported failure the flow reader does not sleep. A flip that lands anyway does no harm if no context is on
      its way into the retired bank, or if there are no counters to drain from it. */
  predicate HarmlessStep(s: State, step: Step) {
    step.LandedFlip? && s.host.Flipping? ==> Settled(s, s.host.retiring) || s.counter.slots == 0
  }

  /** An execution all of whose landed flips are harmless. */
  ghost predicate IsRun(states: seq<State>, steps: seq<Step>) {
    IsExecution(states, steps) && forall i :: 0 <= i < |steps| ==> HarmlessStep(states[i], steps[i])
  }
}
