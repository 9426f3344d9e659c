/** What the invariant of the drain protocol means for its users: one theorem per promise, over all runs. */
module BankGuarantees {
  import opened Wrappers
  import opened BankProtocol
  import opened BankSafety

  /** At every moment of every run, each published record is in exactly one place: delivered, skipped because its
      slot could not be read, pending in one of the banks, or in flight to the caller. Nothing is delivered twice. */
  lemma ExactlyOnce(states: seq<State>, steps: seq<Step>, n: nat, w: Which)
    requires IsRun(states, steps) && n < |states|
    ensures var r := RegionOf(states[n], w);
      && |r.banks| == 2
      && r.published == r.delivered + r.skipped + PendingIn(r) + InFlight(states[n].host, w)
      && r.delivered <= r.published
  {
    hide GoodShape, Control, Linked, HostLocals, PendingIn, InFlight;
    EveryRunSafe(states, steps, n);
  }

  /** From the read that found the retired bank idle until its semaphores are freed, no context is in that bank or
      on its way into it. */
  lemma Quiescence(states: seq<State>, steps: seq<Step>, n: nat)
    requires IsRun(states, steps) && n < |states| && Draining(states[n].host).Some?
    ensures var s, b := states[n], Draining(states[n].host).value.1;
      && b == Retired(s)
      && forall i :: 0 <= i < |s.contexts| ==> !InBank(s.contexts[i], b) && s.contexts[i] != Loaded(b)
  {
    hide GoodShape, RegionInvariant;
    EveryRunSafe(states, steps, n);
    CountZero(states[n].contexts, Retired(states[n]));
  }

  /** While a bank is drained the firmware changes nothing in it: what the host copies is not torn, and what it
      clears was written by no one since the scan. */
  lemma DrainUndisturbed(states: seq<State>, steps: seq<Step>, n: nat)
    requires IsRun(states, steps) && n < |steps| && steps[n].Firmware? && Draining(states[n].host).Some?
    ensures var b := Draining(states[n].host).value.1;
      && states[n + 1].host == states[n].host && b < 2
      && forall w :: |RegionOf(states[n], w).banks| == |RegionOf(states[n + 1], w).banks| == 2
                     && RegionOf(states[n + 1], w).banks[b] == RegionOf(states[n], w).banks[b]
  {
    EveryRunSafe(states, steps, n);
    assert Next(states[n], steps[n], states[n + 1]);
    FirmwareLeavesDrainedBank(states[n], steps[n].context, steps[n].move);
  }

  lemma FirmwareLeavesDrainedBank(s: State, i: nat, move: FirmwareStep)
    requires GoodShape(s) && Control(s) && FirmwareEnabled(s, i, move) && Draining(s.host).Some?
    ensures var s', b := FirmwareMove(s, i, move), Draining(s.host).value.1;
      && s'.host == s.host && b < 2
      && forall w :: |RegionOf(s, w).banks| == |RegionOf(s', w).banks| == 2 && RegionOf(s', w).banks[b] == RegionOf(s, w).banks[b]
  {
    FirmwareFrames(s, i, move);
    hide Control, GoodContexts, GoodBank, FirmwareMove;
    assert Draining(s.host).value.1 < 2 by { DrainBankInRange(s); }
    if !Silent(move) {
      FillerIsOutsideDrain(s, i);
      if move.Write? {
        WriteChanges(s, i);
      } else {
        PublishChanges(s, i);
      }
    }
  }

  lemma DrainBankInRange(s: State)
    requires Control(s) && Draining(s.host).Some?
    ensures Draining(s.host).value.1 < 2
  {
  }

  /** Whatever fails and wherever a reader returns early, the host never writes the bank the firmware is directed to. */
  lemma ActiveBankUntouched(states: seq<State>, steps: seq<Step>, n: nat, w: Which)
    requires IsRun(states, steps) && n < |steps| && !steps[n].Firmware?
    ensures var r, r', active := RegionOf(states[n], w), RegionOf(states[n + 1], w), states[n].curState % 2;
      |r.banks| == |r'.banks| == 2 && r'.banks[active] == r.banks[active]
  {
    EveryRunSafe(states, steps, n);
    assert Next(states[n], steps[n], states[n + 1]);
    if steps[n].HostStep? {
      HostLeavesActiveBank(states[n], steps[n].ok);
    } else {
      hide Control, GoodContexts, RegionInvariant, GoodBank;
    }
  }

  lemma HostLeavesActiveBank(s: State, ok: bool)
    requires GoodMemory(s) && Control(s) && BankInRange(s.host)
    ensures var s', active := HostMove(s, ok), s.curState % 2;
      && |s.flow.banks| == |s.counter.banks| == |s'.flow.banks| == |s'.counter.banks| == 2
      && s'.flow.banks[active] == s.flow.banks[active] && s'.counter.banks[active] == s.counter.banks[active]
  {
    if Quiet(s.host) {
      QuietFrame(s, ok);
    } else {
      ClearKeepsMemory(s, ok);
    }
    hide GoodBank, HostMove;
  }

  /** The counter reader works on the retired bank in every case, and after a successful flip on the one just retired. */
  lemma CounterBank(states: seq<State>, steps: seq<Step>, n: nat)
    requires IsRun(states, steps) && n < |states|
    requires var h := states[n].host; (h.Waiting? && h.which.Counter?) || (Draining(h).Some? && Draining(h).value.0.Counter?)
    ensures var s := states[n];
      var b := if s.host.Waiting? then s.host.bank else Draining(s.host).value.1;
      b == Retired(s) && (s.flipped.Some? ==> s.flipped.value == b)
  {
    hide GoodShape, RegionInvariant;
    EveryRunSafe(states, steps, n);
  }

  /** Every copied entry is a whole record, published in the very slot the entry names, and slots are copied in
      strictly increasing order; once copying ends, copied and skipped records are exactly the bank's pending ones. */
  lemma CopiesFaithful(states: seq<State>, steps: seq<Step>, n: nat)
    requires IsRun(states, steps) && n < |states| && (states[n].host.Copying? || states[n].host.Clearing?)
    ensures var s, h := states[n], states[n].host;
      && h.bank < 2 && |RegionOf(s, h.which).banks| == 2
      && var tag := RegionOf(s, h.which).banks[h.bank].tag;
      && FaithfulEntries(h.out, tag)
      && (h.Clearing? ==> multiset(Records(h.out)) + multiset(h.lost) == Pending(tag))
  {
    hide GoodShape, Control, FaithfulEntries;
    EveryRunSafe(states, steps, n);
  }

  // ----- Loss happens only through failed slot reads -------------------------------------

  predicate ReadsSlot(h: Host) {
    h.Copying? && h.at < |h.ready|
  }

  /** The records of region w that the host has given up on in the current drain. */
  function GivenUp(h: Host, w: Which): seq<Record> {
    match h
    case Copying(v, _, _, _, _, _, lost) => if v == w then lost else []
    case Clearing(v, _, _, lost, _) => if v == w then lost else []
    case _ => []
  }

  lemma ReadySlotReadable(s: State)
    requires Invariant(s) && BankInRange(s.host) && ReadsSlot(s.host)
    ensures var h := s.host;
      && |RegionOf(s, h.which).banks| == 2
      && var bank, slot := RegionOf(s, h.which).banks[h.bank], h.ready[h.at];
      && slot < |bank.cell| && slot < |bank.tag| && |h.buffer| < |bank.cell[slot]| && bank.tag[slot].Some?
  {
    hide GoodShape, Control, Conserved, CopyProgress, LinkedBank;
    var h := s.host;
    SlotReadable(RegionOf(s, h.which), RegionOf(s, h.which).banks[h.bank], h);
  }

  /** A failed read of a ready slot, of whichever column, gives up exactly that slot's record. */
  lemma LossAtSlot(s: State, ok: bool)
    requires Invariant(s) && ReadsSlot(s.host)
    ensures |RegionOf(s, s.host.which).banks| == 2 && s.host.bank < 2
    ensures var s', h := HostMove(s, ok), s.host;
      var tag := RegionOf(s, h.which).banks[h.bank].tag;
      && s'.flow == s.flow && s'.counter == s.counter && s'.host.Copying? && s'.host.which == h.which
      && h.ready[h.at] < |tag| && tag[h.ready[h.at]].Some?
      && s'.host.lost == if ok then h.lost else h.lost + [tag[h.ready[h.at]].value]
  {
    HostBankInRange(s);
    ReadySlotReadable(s);
    hide GoodContexts, Control, RegionInvariant, GoodBank, HostMove;
    CopyGivesUp(s, ok);
  }

  lemma CopyGivesUp(s: State, ok: bool)
    requires GoodMemory(s) && BankInRange(s.host) && ReadsSlot(s.host)
    requires var bank, slot := RegionOf(s, s.host.which).banks[s.host.bank], s.host.ready[s.host.at];
      slot < |bank.cell| && slot < |bank.tag| && |s.host.buffer| < |bank.cell[slot]| && bank.tag[slot].Some?
    ensures var s', h := HostMove(s, ok), s.host;
      var tag := RegionOf(s, h.which).banks[h.bank].tag;
      && s'.flow == s.flow && s'.counter == s.counter && s'.host.Copying? && s'.host.which == h.which
      && s'.host.lost == if ok then h.lost else h.lost + [tag[h.ready[h.at]].value]
  {
    hide GoodBank;
  }

  /** The host frees region w's semaphores in this step. */
  predicate Frees(h: Host, h': Host, w: Which) {
    h.Clearing? && h.which == w && h'.Returning?
  }

  /** No other step gives anything up or takes it back; what was given up is skipped for good exactly when the
      drain completes. */
  lemma LossElsewhere(s: State, ok: bool, w: Which)
    requires GoodMemory(s) && BankInRange(s.host) && !ReadsSlot(s.host)
    ensures var s', h := HostMove(s, ok), s.host;
      && GivenUp(s'.host, w) == (if Frees(h, s'.host, w) then [] else GivenUp(h, w))
      && RegionOf(s', w).skipped
         == RegionOf(s, w).skipped + (if Frees(h, s'.host, w) then multiset(GivenUp(h, w)) else multiset{})
  {
    hide HostMove, GoodMemory, ZeroColumn, FreeSem, NoTags;
    if Quiet(s.host) {
      QuietFrame(s, ok);
      QuietGivesNothingUp(s, ok, w);
    } else if s.host.Clearing? {
      assert |RegionOf(s, s.host.which).banks| == 2 by { MemoryBanks(s); }
      ClearMoves(s, ok);
    } else {
      ReturningGivesNothingUp(s, ok, w);
    }
  }

  lemma ReturningGivesNothingUp(s: State, ok: bool, w: Which)
    requires GoodMemory(s) && s.host.Returning?
    ensures var s' := HostMove(s, ok);
      !s'.host.Returning? && GivenUp(s'.host, w) == [] && RegionOf(s', w).skipped == RegionOf(s, w).skipped
  {
    hide GoodMemory, Records;
  }

  lemma QuietGivesNothingUp(s: State, ok: bool, w: Which)
    requires GoodMemory(s) && BankInRange(s.host) && !ReadsSlot(s.host) && Quiet(s.host)
    ensures var h' := HostMove(s, ok).host; !h'.Returning? && GivenUp(h', w) == GivenUp(s.host, w)
  {
    hide GoodBank, ReadySlots;
  }

  /** Nothing of region w is skipped, nor going to be when the current drain completes. */
  ghost predicate NothingLost(s: State, w: Which) {
    RegionOf(s, w).skipped == multiset{} && GivenUp(s.host, w) == []
  }

  predicate FailedSlotRead(s: State, step: Step, w: Which) {
    step == HostStep(false) && ReadsSlot(s.host) && s.host.which == w
  }

  lemma LossStep(s: State, step: Step, s': State, w: Which)
    requires Invariant(s) && Next(s, step, s')
    ensures NothingLost(s', w) <==> NothingLost(s, w) && !FailedSlotRead(s, step, w)
  {
    hide GoodShape, RegionInvariant, Control, WellFormed, HostMove, FirmwareMove, FirmwareEnabled;
    match step
    case Firmware(i, move) => FirmwareSkipsNothing(s, i, move, w);
    case LandedFlip =>
    case HostStep(ok) =>
      HostBankInRange(s);
      LossHostStep(s, ok, w);
  }

  lemma LossHostStep(s: State, ok: bool, w: Which)
    requires Invariant(s) && HostEnabled(s) && BankInRange(s.host)
    ensures GoodMemory(s) && (NothingLost(HostMove(s, ok), w) <==> NothingLost(s, w) && !FailedSlotRead(s, HostStep(ok), w))
  {
    hide GoodContexts, Control, RegionInvariant, HostMove, GoodMemory;
    if ReadsSlot(s.host) {
      LossAtSlot(s, ok);
      hide Invariant, RegionOf;
      assert RegionOf(HostMove(s, ok), w) == RegionOf(s, w) by { SameRegions(s, HostMove(s, ok), w); }
    } else {
      LossElsewhere(s, ok, w);
      hide Invariant, RegionOf;
    }
  }

  lemma SameRegions(s: State, s': State, w: Which)
    requires s'.flow == s.flow && s'.counter == s.counter
    ensures RegionOf(s', w) == RegionOf(s, w)
  {
  }

  lemma FirmwareSkipsNothing(s: State, i: nat, move: FirmwareStep, w: Which)
    requires GoodShape(s) && FirmwareEnabled(s, i, move)
    ensures var s' := FirmwareMove(s, i, move);
      s'.host == s.host && RegionOf(s', w).skipped == RegionOf(s, w).skipped
  {
    hide GoodBank, GoodFiller, SlotFree;
    FirmwareFrames(s, i, move);
  }

  lemma NothingLostAtStart(s: State, w: Which)
    requires Initial(s)
    ensures NothingLost(s, w)
  {
    hide GoodShape, Linked, PendingIn;
  }

  /** At every moment of every run, a region has lost nothing exactly if none of its slot reads has failed so far.
      All other failures, at whatever access and after whatever flip, lose nothing; a loss is never made good. */
  lemma {:induction false} NothingLostIff(states: seq<State>, steps: seq<Step>, n: nat, w: Which)
    requires IsRun(states, steps) && n < |states|
    ensures NothingLost(states[n], w) <==> forall i :: 0 <= i < n ==> !FailedSlotRead(states[i], steps[i], w)
  {
    hide Invariant, Next, NothingLost, Initial, FailedSlotRead, HarmlessStep;
    if n == 0 {
      NothingLostAtStart(states[0], w);
    } else {
      NothingLostIff(states, steps, n - 1, w);
      EveryRunSafe(states, steps, n - 1);
      assert Next(states[n - 1], steps[n - 1], states[n]);
      LossStep(states[n - 1], steps[n - 1], states[n], w);
    }
  }

  /** As long as no read of one of its ready slots has failed, every record published in a region is delivered,
      pending or in flight. */
  lemma NoLossWithoutFailedSlotReads(states: seq<State>, steps: seq<Step>, n: nat, w: Which)
    requires IsRun(states, steps) && n < |states| && forall i :: 0 <= i < n ==> !FailedSlotRead(states[i], steps[i], w)
    ensures var r := RegionOf(states[n], w);
      |r.banks| == 2 && r.published == r.delivered + PendingIn(r) + InFlight(states[n].host, w)
  {
    NothingLostIff(states, steps, n, w);
    ExactlyOnce(states, steps, n, w);
    hide IsRun, FailedSlotRead, PendingIn, InFlight;
  }
}
