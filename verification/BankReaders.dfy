/**
 * `readFlowData` and `readCounterData` as the sequential programs they are, run against a device that other
 * contexts keep changing. Every access is preceded by arbitrary firmware activity and may fail; what the programs
 * do is shown to be an execution of the protocol, with every failure it knows, so all that is proved about
 * executions and runs applies to them.
 */
module BankReaders {
  import opened Wrappers
  import opened BankProtocol
  import opened BankSafety
  import opened BankGuarantees

  lemma ExecutionExtends(states: seq<State>, steps: seq<Step>, step: Step, next: State)
    requires IsExecution(states, steps) && Next(states[|steps|], step, next)
    ensures IsExecution(states + [next], steps + [step])
  {
    hide Initial, Next;
    var states', steps' := states + [next], steps + [step];
    forall i | 0 <= i < |steps'| ensures Next(states'[i], steps'[i], states'[i + 1]) {
      if i < |steps| {
        assert Next(states[i], steps[i], states[i + 1]);
      }
    }
  }

  // ----- Every step keeps well-formedness ------------------------------------------------

  lemma WrittenWellFormed(r: Region, c: Context)
    requires GoodRegion(r) && c.Filling? && c.bank < 2 && c.slot < r.slots && |c.record| == r.width
    ensures c.done < |c.record| ==> GoodRegion(WrittenRegion(r, c))
    ensures GoodRegion(PublishedRegion(r, c))
  {
  }

  lemma FirmwareMemory(s: State, i: nat, move: FirmwareStep)
    requires GoodMemory(s) && FirmwareEnabled(s, i, move) && WellFormedContext(s, s.contexts[i])
    ensures var t := FirmwareMove(s, i, move);
      && GoodMemory(t) && WellFormedContext(t, t.contexts[i]) && t.contexts == s.contexts[i := t.contexts[i]]
      && t.flow.slots == s.flow.slots && t.flow.width == s.flow.width
      && t.counter.slots == s.counter.slots && t.counter.width == s.counter.width
  {
    var c := s.contexts[i];
    if c.Filling? {
      WrittenWellFormed(RegionOf(s, c.which), c);
    }
    hide GoodRegion, SlotFree;
  }

  lemma FirmwareWellFormed(s: State, i: nat, move: FirmwareStep)
    requires WellFormed(s) && FirmwareEnabled(s, i, move)
    ensures WellFormed(FirmwareMove(s, i, move)) && Undisturbed(s, FirmwareMove(s, i, move))
  {
    FirmwareMemory(s, i, move);
    FirmwareLeavesHistory(s, i, move, Flow);
    FirmwareLeavesHistory(s, i, move, Counter);
    hide FirmwareMove, FirmwareEnabled, GoodMemory;
    var t := FirmwareMove(s, i, move);
    forall k | 0 <= k < |t.contexts| ensures WellFormedContext(t, t.contexts[k]) {
      if k != i {
        assert WellFormedContext(s, s.contexts[k]);
      }
    }
  }

  lemma HostWellFormed(s: State, ok: bool)
    requires WellFormed(s)
    ensures WellFormed(HostMove(s, ok))
  {
    HostMemory(s, ok);
    HostRange(s, ok);
    hide HostMove, GoodMemory;
    forall k | 0 <= k < |s.contexts| ensures WellFormedContext(HostMove(s, ok), s.contexts[k]) {
      assert WellFormedContext(s, s.contexts[k]);
    }
  }

  lemma HostMemory(s: State, ok: bool)
    requires GoodMemory(s) && BankInRange(s.host)
    ensures var t := HostMove(s, ok);
      && GoodMemory(t) && t.contexts == s.contexts && t.flow.slots == s.flow.slots && t.flow.width == s.flow.width
      && t.counter.slots == s.counter.slots && t.counter.width == s.counter.width
  {
    hide HostMove, GoodRegion;
    if Quiet(s.host) {
      QuietFrame(s, ok);
    } else {
      ClearKeepsMemory(s, ok);
    }
  }

  lemma HostRange(s: State, ok: bool)
    requires GoodMemory(s) && BankInRange(s.host) && (s.host.Settling? ==> s.host.retired < 2)
    ensures var h := HostMove(s, ok).host; BankInRange(h) && (h.Settling? ==> h.retired < 2)
  {
    hide HostMove, GoodMemory;
    if s.host.Copying? || s.host.Clearing? {
      DrainRange(s, ok);
    } else if s.host.Returning? {
      ReturnRange(s, ok);
    } else {
      ControlRange(s, ok);
    }
  }

  lemma DrainRange(s: State, ok: bool)
    requires GoodMemory(s) && BankInRange(s.host) && (s.host.Copying? || s.host.Clearing?)
    ensures var h := HostMove(s, ok).host; BankInRange(h) && !h.Settling?
  {
    hide GoodRegion, FreeSem, NoTags, ZeroColumn;
    MemoryBanks(s);
  }

  lemma ReturnRange(s: State, ok: bool)
    requires GoodMemory(s) && s.host.Returning?
    ensures var h := HostMove(s, ok).host; BankInRange(h) && !h.Settling?
  {
    hide GoodMemory, Records;
  }

  lemma ControlRange(s: State, ok: bool)
    requires GoodMemory(s) && BankInRange(s.host) && (s.host.Settling? ==> s.host.retired < 2)
    requires !s.host.Copying? && !s.host.Clearing? && !s.host.Returning?
    ensures var h := HostMove(s, ok).host; BankInRange(h) && (h.Settling? ==> h.retired < 2)
  {
    hide GoodRegion, ReadySlots;
    MemoryBanks(s);
  }

  lemma LandedWellFormed(s: State)
    requires WellFormed(s) && s.host.Flipping?
    ensures WellFormed(LandFlip(s))
  {
    hide GoodRegion;
    var t := LandFlip(s);
    forall k | 0 <= k < |t.contexts| ensures WellFormedContext(t, t.contexts[k]) {
      assert WellFormedContext(s, s.contexts[k]);
    }
  }

  /** What firmware activity leaves alone: the host's own state and the history of deliveries. */
  ghost predicate Undisturbed(s: State, t: State) {
    && t.host == s.host && t.curState == s.curState && t.flipped == s.flipped
    && (forall w :: var p, q := RegionOf(s, w), RegionOf(t, w);
          q.delivered == p.delivered && q.skipped == p.skipped && q.slots == p.slots && q.width == p.width)
  }

  lemma FirmwareLeavesHistory(s: State, i: nat, move: FirmwareStep, w: Which)
    requires GoodMemory(s) && FirmwareEnabled(s, i, move) && WellFormedContext(s, s.contexts[i])
    ensures var t := FirmwareMove(s, i, move);
      var p, q := RegionOf(s, w), RegionOf(t, w);
      && t.host == s.host && t.curState == s.curState && t.flipped == s.flipped
      && q.delivered == p.delivered && q.skipped == p.skipped && q.slots == p.slots && q.width == p.width
  {
    hide GoodRegion, SlotFree, WrittenBank, PublishedBank;
  }

  class Device {
    var state: State
    ghost var states: seq<State>
    ghost var steps: seq<Step>

    /** The device has been through an execution of the protocol and is in its last state. */
    ghost predicate Valid()
      reads this
    {
      IsExecution(states, steps) && states[|steps|] == state && WellFormed(state)
    }

    lemma IsWellFormed()
      requires Valid()
      ensures WellFormed(state) && states != [] && states[|states| - 1] == state
    {
      hide WellFormed;
    }

    constructor (initial: State)
      requires Initial(initial)
      ensures Valid() && state == initial
    {
      state := initial;
      states, steps := [initial], [];
      InitialInvariant(initial);
      InvariantWellFormed(initial);
    }

    ghost method Record(step: Step)
      requires IsExecution(states, steps) && Next(states[|steps|], step, state) && WellFormed(state)
      modifies this`states, this`steps
      ensures Valid() && states == old(states) + [state] && steps == old(steps) + [step]
    {
      hide WellFormed, Next;
      ExecutionExtends(states, steps, step, state);
      states, steps := states + [state], steps + [step];
    }

    method Move(i: nat, move: FirmwareStep)
      requires Valid() && FirmwareEnabled(state, i, move)
      modifies this
      ensures Valid() && old(states) <= states && Undisturbed(old(state), state)
    {
      hide IsExecution, FirmwareMove, SlotFree, Undisturbed, GoodMemory;
      assert WellFormedContext(state, state.contexts[i]);
      FirmwareWellFormed(state, i, move);
      state := FirmwareMove(state, i, move);
      Record(Firmware(i, move));
    }

    /** Any finite amount of activity by any firmware contexts. */
    method Interfere()
      requires Valid()
      modifies this
      ensures Valid() && old(states) <= states && Undisturbed(old(state), state)
    {
      hide IsExecution, WellFormed, FirmwareEnabled;
      var moves: nat := *;
      while moves > 0
        invariant Valid() && old(states) <= states && Undisturbed(old(state), state)
      {
        var i: nat, move: FirmwareStep := *, *;
        if FirmwareEnabled(state, i, move) {
          Move(i, move);
        }
        moves := moves - 1;
      }
    }

    /** One step of the host: `seen` is the device at that instant, `ok` whether the access succeeded. */
    method Access() returns (ok: bool, seen: State)
      requires Valid() && !state.host.Settling?
      modifies this
      ensures Valid() && old(states) <= states
      ensures Undisturbed(old(state), seen) && WellFormed(seen) && state == HostMove(seen, ok)
    {
      hide IsExecution, HostMove, Undisturbed, GoodMemory, WellFormedContext;
      Interfere();
      assert state.host == old(state.host) by { SameHost(old(state), state); }
      seen := state;
      ok := *;
      HostWellFormed(state, ok);
      state := HostMove(state, ok);
      Record(HostStep(ok));
    }

    /** The write of `cur_state`. A failed one may take effect all the same. */
    method WriteState() returns (ok: bool, seen: State)
      requires Valid() && state.host.Flipping?
      modifies this
      ensures Valid() && old(states) <= states
      ensures Undisturbed(old(state), seen) && WellFormed(seen) && seen.host.Flipping?
      ensures state == HostMove(seen, ok) || (!ok && state == LandFlip(seen))
    {
      hide IsExecution, HostMove, LandFlip, Undisturbed, GoodMemory, WellFormedContext;
      var landed: bool := *;
      if landed {
        Interfere();
        assert state.host == old(state.host) by { SameHost(old(state), state); }
        ok, seen := false, state;
        LandedWellFormed(state);
        state := LandFlip(state);
        Record(LandedFlip);
      } else {
        ok, seen := Access();
        assert seen.host == old(state.host) by { SameHost(old(state), seen); }
      }
    }

    /** The sleep after the flip. It stands for the time any context needs between reading the old `cur_state` and
        entering; `slept` is false while that time has not passed. */
    method Sleep() returns (slept: bool)
      requires Valid() && state.host.Settling?
      modifies this
      ensures Valid() && old(states) <= states
      ensures slept ==> exists seen :: Undisturbed(old(state), seen) && WellFormed(seen) && state == HostMove(seen, true)
      ensures !slept ==> Undisturbed(old(state), state)
    {
      hide IsExecution, HostMove, Undisturbed, GoodMemory, WellFormedContext, Settled;
      Interfere();
      assert state.host == old(state.host) by { SameHost(old(state), state); }
      slept := Settled(state, state.host.retired);
      if slept {
        ghost var seen := state;
        HostWellFormed(state, true);
        state := HostMove(state, true);
        Record(HostStep(true));
        assert state == HostMove(seen, true);
      }
    }
  }

  lemma SameHost(s: State, t: State)
    requires Undisturbed(s, t)
    ensures t.host == s.host
  {
  }

  // ----- What one host step does at each program point -----------------------------------

  function After(s: State, w: Which): Host {
    AfterDrain(s, w).host
  }

  /** The readers' results: nothing of region w delivered since `olds` but `out`, and nothing of the other region. */
  ghost predicate DeliveredSince(olds: State, s: State, w: Which, out: seq<Entry>) {
    && RegionOf(s, w).delivered == RegionOf(olds, w).delivered + multiset(Records(out))
    && RegionOf(s, Other(w)).delivered == RegionOf(olds, Other(w)).delivered
    && (forall v :: RegionOf(s, v).slots == RegionOf(olds, v).slots && RegionOf(s, v).width == RegionOf(olds, v).width)
  }

  lemma NothingDelivered(s: State, w: Which)
    ensures DeliveredSince(s, s, w, [])
  {
    assert Records([]) == [];
  }

  /** Firmware activity and a step of the host that does not return records deliver nothing. */
  lemma StillDelivered(olds: State, s: State, seen: State, ok: bool, w: Which, out: seq<Entry>)
    requires DeliveredSince(olds, s, w, out) && Undisturbed(s, seen) && WellFormed(seen)
    requires !seen.host.Returning?
    ensures DeliveredSince(olds, HostMove(seen, ok), w, out)
  {
    hide HostMove, Records, GoodMemory;
    forall v ensures
      && RegionOf(HostMove(seen, ok), v).delivered == RegionOf(s, v).delivered
      && RegionOf(HostMove(seen, ok), v).slots == RegionOf(s, v).slots
      && RegionOf(HostMove(seen, ok), v).width == RegionOf(s, v).width
    {
      KeepsHistory(seen, ok, v);
    }
    hide RegionOf, Undisturbed;
  }

  lemma LandedDelivers(olds: State, s: State, seen: State)
    requires DeliveredSince(olds, s, Flow, []) && Undisturbed(s, seen) && seen.host.Flipping?
    ensures DeliveredSince(olds, LandFlip(seen), Flow, []) && LandFlip(seen).host == After(LandFlip(seen), Flow)
  {
    hide Records;
    forall v ensures
      && RegionOf(LandFlip(seen), v).delivered == RegionOf(s, v).delivered
      && RegionOf(LandFlip(seen), v).slots == RegionOf(s, v).slots
      && RegionOf(LandFlip(seen), v).width == RegionOf(s, v).width
    {
      assert RegionOf(LandFlip(seen), v) == RegionOf(seen, v);
    }
  }

  lemma KeepsHistory(s: State, ok: bool, w: Which)
    requires GoodMemory(s) && BankInRange(s.host) && !s.host.Returning?
    ensures var r, r' := RegionOf(s, w), RegionOf(HostMove(s, ok), w);
      r'.delivered == r.delivered && r'.slots == r.slots && r'.width == r.width
  {
    hide GoodBank, ReadySlots, FreeSem, NoTags, ZeroColumn;
  }

  /** The scan of the semaphores. */
  method ScanSemaphores(sem: seq<int>) returns (haveData: seq<nat>)
    ensures haveData == ReadySlots(sem)
  {
    haveData := [];
    var i := 0;
    while i < |sem|
      invariant i <= |sem| && haveData == ReadySlots(sem[..i])
    {
      assert sem[..i + 1][..i] == sem[..i];
      if sem[i] == SEM_DATA_READY {
        haveData := haveData + [i];
      }
      i := i + 1;
    }
    assert sem[..i] == sem;
  }

  /** Waits until no context is inside the bank; gives up after a failed read, or stays `waiting` for ever. */
  method WaitUntilIdle(d: Device, w: Which, b: nat) returns (waiting: bool, idle: bool)
    requires d.Valid() && d.state.host == Waiting(w, b)
    modifies d
    ensures d.Valid() && old(d.states) <= d.states && DeliveredSince(old(d.state), d.state, w, [])
    ensures if waiting then d.state.host == Waiting(w, b) && !idle
            else if idle then d.state.host == Scanning(w, b) else d.state.host == After(d.state, w)
  {
    hide WellFormed, Undisturbed, DeliveredSince, IsExecution, Device.Valid;
    NothingDelivered(d.state, w);
    waiting, idle := true, false;
    var patience: nat := *;
    while waiting && patience > 0
      invariant d.Valid() && old(d.states) <= d.states && DeliveredSince(old(d.state), d.state, w, [])
      invariant if waiting then d.state.host == Waiting(w, b) && !idle
                else if idle then d.state.host == Scanning(w, b) else d.state.host == After(d.state, w)
    {
      ghost var before := d.state;
      var ok, seen := d.Access();
      WaitStep(before, seen, ok);
      StillDelivered(old(d.state), before, seen, ok, w, []);
      if !ok {
        waiting := false;
      } else if seen.processing[b] == 0 {
        waiting, idle := false, true;
      }
      patience := patience - 1;
    }
  }

  lemma WaitStep(s: State, seen: State, ok: bool)
    requires Undisturbed(s, seen) && WellFormed(seen) && s.host.Waiting?
    ensures seen.host == s.host && |seen.processing| == 2 && s.host.bank < 2
    ensures HostMove(seen, ok).host
         == if !ok then After(HostMove(seen, ok), s.host.which)
            else if seen.processing[s.host.bank] == 0 then Scanning(s.host.which, s.host.bank) else s.host
  {
    hide GoodRegion, WellFormedContext;
  }

  lemma ScanStep(s: State, seen: State, ok: bool)
    requires Undisturbed(s, seen) && WellFormed(seen) && (s.host.Scanning? || s.host.Opening?)
    ensures seen.host == s.host && |RegionOf(seen, s.host.which).banks| == 2 && s.host.bank < 2
    ensures HostMove(seen, ok).host
         == if !ok then After(HostMove(seen, ok), s.host.which)
            else if s.host.Scanning? then
              Opening(s.host.which, s.host.bank, ReadySlots(RegionOf(seen, s.host.which).banks[s.host.bank].sem))
            else Copying(s.host.which, s.host.bank, s.host.ready, 0, [], [], [])
  {
    hide GoodBank, ReadySlots, WellFormedContext;
  }

  lemma CopyReadStep(s: State, seen: State, ok: bool)
    requires Undisturbed(s, seen) && WellFormed(seen) && ReadsSlot(s.host)
    requires s.host.ready[s.host.at] < RegionOf(s, s.host.which).slots && |s.host.buffer| < RegionOf(s, s.host.which).width
    ensures seen.host == s.host && |RegionOf(seen, s.host.which).banks| == 2 && s.host.bank < 2
    ensures var h, slot := s.host, s.host.ready[s.host.at];
      var cell := RegionOf(seen, h.which).banks[h.bank].cell;
      var h' := HostMove(seen, ok).host;
      && slot < |cell| && |h.buffer| < |cell[slot]|
      && var buffer := h.buffer + [cell[slot][|h.buffer|]];
      if !ok then h'.Copying? && h' == h.(at := h.at + 1, buffer := [], lost := h'.lost)
      else if |buffer| < RegionOf(seen, h.which).width then h' == h.(buffer := buffer)
      else h' == h.(at := h.at + 1, buffer := [], out := h.out + [Entry(buffer, slot)])
  {
    hide GoodMemory, Undisturbed, WellFormedContext;
    assert seen.host == s.host by { SameHost(s, seen); }
    SeenSizes(s, seen, s.host.which);
    SlotExists(seen, s.host.which, s.host.bank, s.host.ready[s.host.at]);
  }

  lemma SlotExists(s: State, w: Which, b: nat, slot: nat)
    requires GoodMemory(s) && b < 2 && slot < RegionOf(s, w).slots
    ensures var r := RegionOf(s, w);
      |r.banks| == 2 && slot < |r.banks[b].cell| && slot < |r.banks[b].tag| && |r.banks[b].cell[slot]| == r.width
  {
  }

  lemma ClearingStep(s: State, seen: State, ok: bool)
    requires Undisturbed(s, seen) && WellFormed(seen)
    requires s.host.Clearing? || (s.host.Copying? && s.host.at == |s.host.ready|)
    ensures seen.host == s.host
    ensures var h := s.host;
      HostMove(seen, ok).host
      == if h.Copying? then Clearing(h.which, h.bank, h.out, h.lost, 0)
         else if h.column < RegionOf(seen, h.which).width then h.(column := h.column + 1)
         else Returning(h.which, h.out)
  {
    hide GoodBank, ZeroColumn, FreeSem, NoTags, WellFormedContext;
  }

  lemma ReturnStep(olds: State, s: State, seen: State, ok: bool, w: Which)
    requires DeliveredSince(olds, s, w, []) && Undisturbed(s, seen) && GoodMemory(seen) && s.host.Returning? && s.host.which == w
    ensures HostMove(seen, ok).host == After(HostMove(seen, ok), w)
    ensures DeliveredSince(olds, HostMove(seen, ok), w, s.host.out)
  {
    assert Records([]) == [];
    assert RegionOf(seen, w).delivered == RegionOf(olds, w).delivered;
    assert RegionOf(seen, Other(w)).delivered == RegionOf(olds, Other(w)).delivered;
    hide Records, GoodBank;
  }

  /** Copies one ready slot, column by column; a failed read skips the slot. */
  method CopySlot(d: Device, w: Which, b: nat, haveData: seq<nat>, k: nat, result: seq<Entry>, ghost olds: State)
    returns (result': seq<Entry>)
    requires d.Valid() && k < |haveData| && haveData[k] < RegionOf(d.state, w).slots && DeliveredSince(olds, d.state, w, [])
    requires RegionOf(d.state, w).width > 0
    requires d.state.host.Copying? && d.state.host == Copying(w, b, haveData, k, [], result, d.state.host.lost)
    modifies d
    ensures d.Valid() && old(d.states) <= d.states && DeliveredSince(olds, d.state, w, [])
    ensures d.state.host.Copying? && d.state.host == Copying(w, b, haveData, k + 1, [], result', d.state.host.lost)
    ensures RegionOf(d.state, w).width == old(RegionOf(d.state, w).width) && RegionOf(d.state, w).slots == old(RegionOf(d.state, w).slots)
    ensures result' == result || exists record :: result' == result + [Entry(record, haveData[k])]
  {
    hide WellFormed, Undisturbed, DeliveredSince, IsExecution, HostMove, RegionOf, Device.Valid;
    var width := RegionOf(d.state, w).width;
    ghost var slots := RegionOf(d.state, w).slots;
    SizesKept(olds, d.state, w);
    var entry: Record := [];
    var good := true;
    while good && |entry| < width
      invariant d.Valid() && old(d.states) <= d.states && DeliveredSince(olds, d.state, w, [])
      invariant |entry| <= width && RegionOf(d.state, w).width == width && RegionOf(d.state, w).slots == slots
      invariant d.state.host.Copying?
      invariant if good && |entry| < width then d.state.host == Copying(w, b, haveData, k, entry, result, d.state.host.lost)
                else if good then d.state.host == Copying(w, b, haveData, k + 1, [], result + [Entry(entry, haveData[k])], d.state.host.lost)
                else d.state.host == Copying(w, b, haveData, k + 1, [], result, d.state.host.lost)
      decreases good, width - |entry|
    {
      ghost var before := d.state;
      var ok, seen := d.Access();
      CopyReadStep(before, seen, ok);
      StillDelivered(olds, before, seen, ok, w, []);
      SizesKept(olds, d.state, w);
      SeenSizes(before, seen, w);
      if ok {
        entry := entry + [RegionOf(seen, w).banks[b].cell[haveData[k]][|entry|]];
      } else {
        good := false;
      }
    }
    result' := if good then result + [Entry(entry, haveData[k])] else result;
  }

  lemma SizesKept(olds: State, s: State, w: Which)
    requires DeliveredSince(olds, s, w, [])
    ensures RegionOf(s, w).width == RegionOf(olds, w).width && RegionOf(s, w).slots == RegionOf(olds, w).slots
  {
  }

  lemma SeenSizes(s: State, seen: State, w: Which)
    requires Undisturbed(s, seen)
    ensures RegionOf(seen, w).width == RegionOf(s, w).width && RegionOf(seen, w).slots == RegionOf(s, w).slots
  {
  }

  /** In one of the states since `before` the host was about to hand over exactly this result. */
  ghost predicate HandedOver(before: seq<State>, states: seq<State>, w: Which, result: seq<Entry>) {
    exists k :: 0 <= |before| - 1 <= k < |states| && states[k].host == Returning(w, result)
  }

  lemma HandedOverSince(before: seq<State>, states: seq<State>, states': seq<State>, w: Which, result: seq<Entry>)
    requires before != [] && before <= states <= states' && states != [] && states[|states| - 1].host == Returning(w, result)
    ensures HandedOver(before, states', w, result)
  {
    assert states'[|states| - 1] == states[|states| - 1];
  }

  lemma HandedOverEarlier(before: seq<State>, later: seq<State>, states: seq<State>, w: Which, result: seq<Entry>)
    requires HandedOver(later, states, w, result) && before != [] && before <= later
    ensures HandedOver(before, states, w, result)
  {
  }

  /** The loop over the ready slots. */
  method CopyReady(d: Device, w: Which, b: nat, haveData: seq<nat>, ghost olds: State) returns (result: seq<Entry>)
    requires d.Valid() && DeliveredSince(olds, d.state, w, []) && RegionOf(d.state, w).width > 0
    requires forall k :: 0 <= k < |haveData| ==> haveData[k] < RegionOf(d.state, w).slots
    requires forall j, k :: 0 <= j < k < |haveData| ==> haveData[j] < haveData[k]
    requires d.state.host == Copying(w, b, haveData, 0, [], [], [])
    modifies d
    ensures d.Valid() && old(d.states) <= d.states && DeliveredSince(olds, d.state, w, []) && SlotOrder(result)
    ensures RegionOf(d.state, w).width == old(RegionOf(d.state, w).width)
    ensures d.state.host.Copying? && d.state.host == Copying(w, b, haveData, |haveData|, [], result, d.state.host.lost)
  {
    hide WellFormed, Undisturbed, DeliveredSince, IsExecution, HostMove, RegionOf, Device.Valid;
    result := [];
    var k := 0;
    while k < |haveData|
      invariant d.Valid() && old(d.states) <= d.states && DeliveredSince(olds, d.state, w, [])
      invariant k <= |haveData| && RegionOf(d.state, w).width == old(RegionOf(d.state, w).width)
      invariant RegionOf(d.state, w).slots == old(RegionOf(d.state, w).slots)
      invariant SlotOrder(result) && (result != [] ==> k > 0 && result[|result| - 1].index <= haveData[k - 1])
      invariant d.state.host.Copying? && d.state.host == Copying(w, b, haveData, k, [], result, d.state.host.lost)
    {
      result := CopySlot(d, w, b, haveData, k, result, olds);
      k := k + 1;
    }
  }

  /** The fills: payload column by column, then the semaphores. */
  method ClearBank(d: Device, w: Which, b: nat, width: nat, result: seq<Entry>, ghost olds: State)
    requires d.Valid() && DeliveredSince(olds, d.state, w, []) && RegionOf(d.state, w).width == width
    requires d.state.host.Clearing? && d.state.host == Clearing(w, b, result, d.state.host.lost, 0)
    modifies d
    ensures d.Valid() && old(d.states) <= d.states && DeliveredSince(olds, d.state, w, []) && d.state.host == Returning(w, result)
  {
    hide WellFormed, Undisturbed, DeliveredSince, IsExecution, HostMove, RegionOf, Device.Valid;
    SizesKept(olds, d.state, w);
    var column := 0;
    while column <= width
      invariant d.Valid() && old(d.states) <= d.states && DeliveredSince(olds, d.state, w, []) && column <= width + 1
      invariant if column <= width then d.state.host.Clearing? && d.state.host == Clearing(w, b, result, d.state.host.lost, column)
                else d.state.host == Returning(w, result)
    {
      ghost var before := d.state;
      var ok, seen := d.Access();
      ClearingStep(before, seen, ok);
      StillDelivered(olds, before, seen, ok, w, []);
      SizesKept(olds, before, w);
      SeenSizes(before, seen, w);
      column := column + 1;
    }
  }

  /** From the semaphore read to the return: scan, open, copy, clear payload, free semaphores, hand over. */
  method Drain(d: Device, w: Which, b: nat) returns (drained: bool, result: seq<Entry>)
    requires d.Valid() && d.state.host == Scanning(w, b) && RegionOf(d.state, w).width > 0
    modifies d
    ensures d.Valid() && old(d.states) <= d.states
    ensures d.state.host == After(d.state, w) && DeliveredSince(old(d.state), d.state, w, result) && SlotOrder(result)
    ensures if drained then HandedOver(old(d.states), d.states, w, result) else result == []
  {
    hide WellFormed, Undisturbed, DeliveredSince, IsExecution, HostMove, After, Device.Valid, ReadySlots;
    ghost var olds, before := d.state, d.state;
    NothingDelivered(olds, w);
    var width := RegionOf(d.state, w).width;
    drained, result := false, [];
    d.IsWellFormed();
    var ok, seen := d.Access();
    ScanStep(before, seen, ok);
    StillDelivered(olds, before, seen, ok, w, []);
    if !ok {
      return false, [];
    }
    var haveData := ScanSemaphores(RegionOf(seen, w).banks[b].sem);
    SemaphoreCount(seen, w, b);
    SeenSizes(before, seen, w);
    before := d.state;
    ok, seen := d.Access();
    ScanStep(before, seen, ok);
    StillDelivered(olds, before, seen, ok, w, []);
    SizesKept(olds, d.state, w);
    if !ok {
      return false, [];
    }
    result := CopyReady(d, w, b, haveData, olds);
    before := d.state;
    ok, seen := d.Access();
    ClearingStep(before, seen, ok);
    StillDelivered(olds, before, seen, ok, w, []);
    SizesKept(olds, d.state, w);
    ClearBank(d, w, b, width, result, olds);
    before := d.state;
    ghost var returning := d.states;
    d.IsWellFormed();
    ok, seen := d.Access();
    assert GoodMemory(seen) by { MemoryOf(seen); }
    ReturnStep(olds, before, seen, ok, w);
    drained := true;
    HandedOverSince(old(d.states), returning, d.states, w, result);
  }

  /** Slots appear at most once, in increasing order. */
  ghost predicate SlotOrder(out: seq<Entry>) {
    forall j, k :: 0 <= j < k < |out| ==> out[j].index < out[k].index
  }

  lemma MemoryOf(s: State)
    requires WellFormed(s)
    ensures GoodMemory(s)
  {
  }

  lemma SemaphoreCount(s: State, w: Which, b: nat)
    requires WellFormed(s) && b < 2
    ensures |RegionOf(s, w).banks| == 2 && |RegionOf(s, w).banks[b].sem| == RegionOf(s, w).slots
  {
    hide WellFormedContext;
  }

  // ----- The two readers -----------------------------------------------------------------

  lemma DeliveredChain(a: State, b: State, c: State, w: Which, out: seq<Entry>)
    requires DeliveredSince(a, b, w, []) && DeliveredSince(b, c, w, out)
    ensures DeliveredSince(a, c, w, out)
  {
    assert Records([]) == [];
  }

  /** The steps up to and including the flip, and the counter reader's own first read. */
  lemma FlipStep(s: State, seen: State, ok: bool)
    requires Undisturbed(s, seen) && WellFormed(seen)
    requires s.host.Resting? || s.host.ReadingState? || (s.host.Flipping? && s.host.retiring < 2) || s.host.CounterReadingState?
    ensures seen.host == s.host && seen.curState == s.curState
    ensures var h, s' := s.host, HostMove(seen, ok);
      && (h.Resting? ==> s'.curState == s.curState && s'.host == if s.flow.slots > 0 then ReadingState else After(s', Flow))
      && (h.ReadingState? ==> s'.curState == s.curState
                              && s'.host == if ok then Flipping(s.curState % 2) else After(s', Flow))
      && (h.Flipping? ==> s'.host == if ok then Settling(h.retiring) else After(s', Flow))
      && (h.CounterReadingState? ==> s'.host == if ok then Waiting(Counter, 1 - s.curState % 2) else After(s', Counter))
  {
    hide Undisturbed, GoodMemory, WellFormedContext;
    SameControls(s, seen);
  }

  lemma SameControls(s: State, t: State)
    requires Undisturbed(s, t)
    ensures t.host == s.host && t.curState == s.curState && t.flow.slots == s.flow.slots
  {
    assert RegionOf(t, Flow).slots == RegionOf(s, Flow).slots;
  }

  lemma SleepStep(olds: State, s: State, t: State, slept: bool)
    requires s.host.Settling? && DeliveredSince(olds, s, Flow, [])
    requires slept ==> exists seen :: Undisturbed(s, seen) && WellFormed(seen) && t == HostMove(seen, true)
    requires !slept ==> Undisturbed(s, t)
    ensures t.host == if slept then Waiting(Flow, s.host.retired) else s.host
    ensures DeliveredSince(olds, t, Flow, [])
  {
    if slept {
      var seen :| Undisturbed(s, seen) && WellFormed(seen) && t == HostMove(seen, true);
      StillDelivered(olds, s, seen, true, Flow, []);
      hide GoodMemory, WellFormedContext, DeliveredSince;
    }
  }

  lemma WidthSince(olds: State, s: State, w: Which, v: Which)
    requires DeliveredSince(olds, s, w, [])
    ensures RegionOf(s, v).width == RegionOf(olds, v).width
  {
  }

  lemma HasColumns(s: State)
    requires WellFormed(s)
    ensures s.flow.width > 0 && s.counter.width > 0
  {
  }

  lemma RestsAfterCounters(s: State)
    ensures After(s, Counter) == Resting
  {
  }

  /** How a reader's call ends: it may still wait for the firmware, have returned early, or have drained its bank. */
  datatype Ending = StillWaiting | ReturnedEarly | Drained

  class SmartNicReader {
    const device: Device
    var bufferState: nat

    constructor (device: Device)
      ensures this.device == device && bufferState == 0
    {
      this.device, bufferState := device, 0;
    }

    /** `readFlowData`, whatever fails, a failed write of `cur_state` that takes effect included. What it returns is exactly what the device counts as newly delivered. Every early return is
        empty, and a bank it drained was handed over as a whole. */
    method ReadFlowData() returns (ending: Ending, result: seq<Entry>)
      requires device.Valid() && device.state.host.Resting?
      modifies this`bufferState, device
      ensures device.Valid() && old(device.states) <= device.states && SlotOrder(result)
      ensures DeliveredSince(old(device.state), device.state, Flow, result)
      ensures if ending.Drained? then HandedOver(old(device.states), device.states, Flow, result) else result == []
      ensures if ending.StillWaiting? then device.state.host.Settling? || device.state.host.Waiting?
              else device.state.host == After(device.state, Flow)
      ensures if ending.ReturnedEarly? then bufferState == old(bufferState) || bufferState == 1 - old(device.state).curState % 2
              else bufferState == 1 - old(device.state).curState % 2
    {
      hide WellFormed, Undisturbed, DeliveredSince, IsExecution, HostMove, LandFlip, After, HandedOver, Device.Valid;
      var d := device;
      ghost var olds, before := d.state, d.state;
      NothingDelivered(olds, Flow);
      d.IsWellFormed();
      HasColumns(olds);
      ending, result := ReturnedEarly, [];
      var slotCount := d.state.flow.slots;
      var ok, seen := d.Access();
      FlipStep(before, seen, ok);
      StillDelivered(olds, before, seen, ok, Flow, []);
      if slotCount == 0 {
        return;
      }
      before := d.state;
      ok, seen := d.Access();
      FlipStep(before, seen, ok);
      StillDelivered(olds, before, seen, ok, Flow, []);
      if !ok {
        return;
      }
      var retiring := seen.curState % 2;
      before := d.state;
      ok, seen := d.WriteState();
      FlipStep(before, seen, ok);
      StillDelivered(olds, before, seen, ok, Flow, []);
      LandedDelivers(olds, before, seen);
      if !ok {
        return;
      }
      bufferState := 1 - retiring;
      before := d.state;
      var slept := d.Sleep();
      SleepStep(olds, before, d.state, slept);
      if !slept {
        return StillWaiting, [];
      }
      before := d.state;
      var waiting, idle := WaitUntilIdle(d, Flow, retiring);
      DeliveredChain(olds, before, d.state, Flow, []);
      if !idle {
        return if waiting then StillWaiting else ReturnedEarly, [];
      }
      before := d.state;
      ghost var mid := d.states;
      WidthSince(olds, before, Flow, Flow);
      var drained;
      drained, result := Drain(d, Flow, retiring);
      DeliveredChain(olds, before, d.state, Flow, result);
      if drained {
        HandedOverEarlier(old(d.states), mid, d.states, Flow, result);
        ending := Drained;
      }
    }
  }

  class CounterReader {
    const device: Device

    constructor (device: Device)
      ensures this.device == device
    {
      this.device := device;
    }

    /** `readCounterData`: drains the bank opposite to the current one, without flipping. */
    method ReadCounterData() returns (ending: Ending, result: seq<Entry>)
      requires device.Valid()
      requires if device.state.counter.slots > 0 then device.state.host.CounterReadingState? else device.state.host.Resting?
      modifies device
      ensures device.Valid() && old(device.states) <= device.states && SlotOrder(result)
      ensures DeliveredSince(old(device.state), device.state, Counter, result)
      ensures if ending.Drained? then HandedOver(old(device.states), device.states, Counter, result) else result == []
      ensures if ending.StillWaiting? then device.state.host == Waiting(Counter, 1 - old(device.state).curState % 2)
              else device.state.host == After(device.state, Counter)
    {
      hide WellFormed, Undisturbed, DeliveredSince, IsExecution, HostMove, After, HandedOver, Device.Valid;
      var d := device;
      ghost var olds, before := d.state, d.state;
      NothingDelivered(olds, Counter);
      d.IsWellFormed();
      HasColumns(olds);
      ending, result := ReturnedEarly, [];
      if d.state.counter.slots == 0 {
        RestsAfterCounters(d.state);
        return;
      }
      var ok, seen := d.Access();
      FlipStep(before, seen, ok);
      StillDelivered(olds, before, seen, ok, Counter, []);
      if !ok {
        return;
      }
      var bank: nat := 1 - seen.curState % 2;
      before := d.state;
      var waiting, idle := WaitUntilIdle(d, Counter, bank);
      DeliveredChain(olds, before, d.state, Counter, []);
      if !idle {
        return if waiting then StillWaiting else ReturnedEarly, [];
      }
      before := d.state;
      ghost var mid := d.states;
      WidthSince(olds, before, Counter, Counter);
      var drained;
      drained, result := Drain(d, Counter, bank);
      DeliveredChain(olds, before, d.state, Counter, result);
      if drained {
        HandedOverEarlier(old(d.states), mid, d.states, Counter, result);
        ending := Drained;
      }
    }
  }

  /** One iteration of the I/O thread's reading: the flow reader, then the counter reader on the same device. */
  method ReadBatch(reader: SmartNicReader, counterReader: CounterReader)
    returns (ending: Ending, flows: seq<Entry>, counters: seq<Entry>)
    requires reader.device == counterReader.device && reader.device.Valid() && reader.device.state.host.Resting?
    modifies reader`bufferState, reader.device
    ensures var d := reader.device;
      && d.Valid() && old(d.states) <= d.states && SlotOrder(flows) && SlotOrder(counters)
      && d.state.flow.delivered == old(d.state).flow.delivered + multiset(Records(flows))
      && d.state.counter.delivered == old(d.state).counter.delivered + multiset(Records(counters))
      && (if ending.StillWaiting? then d.state.host.Settling? || d.state.host.Waiting? else d.state.host.Resting?)
  {
    hide WellFormed, IsExecution, Device.Valid, SlotOrder, Records;
    ghost var olds := reader.device.state;
    assert Records([]) == [];
    counters := [];
    NothingOrdered();
    ending, flows := reader.ReadFlowData();
    ghost var between := reader.device.state;
    if ending.StillWaiting? {
      return;
    }
    ending, counters := counterReader.ReadCounterData();
    RestsAfterCounters(reader.device.state);
    assert DeliveredSince(olds, between, Flow, flows) && DeliveredSince(between, reader.device.state, Counter, counters);
  }

  lemma NothingOrdered()
    ensures SlotOrder([])
  {
  }
}
