/**
 * Executions on which the drain protocol falls short, each with one firmware context and one slot in each bank: a
 * failed slot read loses a record, and a flip that lands unsettled lets a context into the bank being drained.
 */
module BankCounterexamples {
  import opened Wrappers
  import opened BankProtocol
  import opened BankSafety
  import opened BankGuarantees

  const RECORD: Record := [7]

  function OneSlot(sem: int, word: Word, tag: Option<Record>): Bank {
    Bank([sem], [[word]], [tag])
  }

  const EMPTY_BANK: Bank := OneSlot(SEM_FREE, 0, None)
  const WRITTEN_BANK: Bank := OneSlot(SEM_FREE, 7, None)
  const READY_BANK: Bank := OneSlot(SEM_DATA_READY, 7, Some(RECORD))
  const ZEROED_BANK: Bank := OneSlot(SEM_DATA_READY, 0, Some(RECORD))

  function OneSlotRegion(b: Bank, published: multiset<Record>, skipped: multiset<Record>): Region {
    Region(1, 1, [b, EMPTY_BANK], published, multiset{}, skipped)
  }

  const EMPTY_REGION: Region := OneSlotRegion(EMPTY_BANK, multiset{}, multiset{})

  /** One context; `inside` of them in bank 0. */
  function Toy(curState: nat, inside: nat, flow: Region, counter: Region, c: Context, h: Host, flipped: Option<nat>): State {
    State(curState, [inside, 0], flow, counter, [c], h, flipped)
  }

  const PUBLISHED: Region := OneSlotRegion(READY_BANK, multiset{RECORD}, multiset{})
  const ZEROED: Region := OneSlotRegion(ZEROED_BANK, multiset{RECORD}, multiset{})
  const WRITTEN: Region := OneSlotRegion(WRITTEN_BANK, multiset{}, multiset{})
  const SKIPPED: Region := OneSlotRegion(EMPTY_BANK, multiset{RECORD}, multiset{RECORD})
  const VANISHED: Region := OneSlotRegion(EMPTY_BANK, multiset{RECORD}, multiset{})

  ghost predicate GoodToyRegion(r: Region) {
    r.width == 1 && r.slots == 1 && GoodRegion(r)
  }

  lemma RegionsGood()
    ensures GoodToyRegion(EMPTY_REGION) && GoodToyRegion(PUBLISHED) && GoodToyRegion(ZEROED)
    ensures GoodToyRegion(WRITTEN) && GoodToyRegion(SKIPPED) && GoodToyRegion(VANISHED)
  {
  }

  lemma ToyShape(s: State)
    requires GoodToyRegion(s.flow) && GoodToyRegion(s.counter) && |s.processing| == 2 && |s.contexts| == 1
    requires s.contexts[0].Outside? || s.contexts[0] == Loaded(0) || s.contexts[0] == Inside(0)
    requires BankInRange(s.host) && !(s.host.Settling? && s.host.retired >= 2)
    ensures WellFormed(s)
  {
    hide GoodRegion;
  }

  lemma ToyFillingShape(s: State, w: Which, done: nat)
    requires GoodToyRegion(s.flow) && GoodToyRegion(s.counter) && |s.processing| == 2
    requires s.contexts == [Filling(0, w, 0, RECORD, done)] && done <= 1
    requires BankInRange(s.host) && !s.host.Settling?
    ensures WellFormed(s)
  {
    hide GoodRegion;
  }

  lemma ToyMemory(w: Which, lost: seq<Record>)
    ensures WrittenRegion(EMPTY_REGION, Filling(0, w, 0, RECORD, 0)) == WRITTEN
    ensures PublishedRegion(WRITTEN, Filling(0, w, 0, RECORD, 1)) == PUBLISHED
    ensures ClearedColumn(PUBLISHED, Clearing(w, 0, [], lost, 0)) == ZEROED
    ensures FreedRegion(ZEROED, Clearing(w, 0, [], lost, 1)) == OneSlotRegion(EMPTY_BANK, multiset{RECORD}, multiset(lost))
    ensures ReadySlots([SEM_DATA_READY]) == [0]
  {
    assert [0][0 := 7] == [7] && [[0]][0 := [7]] == [[7]];
    assert [SEM_FREE][0 := SEM_DATA_READY] == [SEM_DATA_READY];
    var none: Option<Record> := None;
    assert [none][0 := Some(RECORD)] == [Some(RECORD)];
    assert forall a: Bank, b: Bank, c: Bank :: [a, b][0 := c] == [c, b];
    assert RECORD[0 := 0] == [0];
    assert ZeroColumn([RECORD], 0) == [[0]];
    assert FreeSem(1) == [SEM_FREE] && NoTags(1) == [None];
    assert [SEM_DATA_READY][..0] == [];
  }

  // ----- Steps on any memory -------------------------------------------------------------

  /** Reading `cur_state`, entering, leaving. */
  lemma ToyLoad(cur: nat, f: Region, g: Region, h: Host, fl: Option<nat>)
    requires GoodToyRegion(f) && GoodToyRegion(g) && BankInRange(h) && !h.Settling?
    ensures Next(Toy(cur, 0, f, g, Outside, h, fl), Firmware(0, Load), Toy(cur, 0, f, g, Loaded(cur % 2), h, fl))
    ensures Next(Toy(cur, 0, f, g, Loaded(0), h, fl), Firmware(0, Enter), Toy(cur, 1, f, g, Inside(0), h, fl))
    ensures Next(Toy(cur, 1, f, g, Inside(0), h, fl), Firmware(0, Exit), Toy(cur, 0, f, g, Outside, h, fl))
  {
    hide GoodRegion, WellFormed;
    ToyShape(Toy(cur, 0, f, g, Outside, h, fl));
    ToyShape(Toy(cur, 0, f, g, Loaded(0), h, fl));
    ToyShape(Toy(cur, 1, f, g, Inside(0), h, fl));
    assert forall c: Context, d: Context :: [c][0 := d] == [d];
    assert forall a: nat, b: nat :: [a, 0][0 := b] == [b, 0];
  }

  lemma ToyClaim(cur: nat, f: Region, g: Region, w: Which, h: Host, fl: Option<nat>)
    requires GoodToyRegion(f) && GoodToyRegion(g) && BankInRange(h) && !h.Settling?
    requires (if w.Flow? then f else g).banks[0].sem[0] == SEM_FREE
    ensures Next(Toy(cur, 1, f, g, Inside(0), h, fl), Firmware(0, Claim(w, 0, RECORD)),
                 Toy(cur, 1, f, g, Filling(0, w, 0, RECORD, 0), h, fl))
  {
    hide WellFormed;
    ToyShape(Toy(cur, 1, f, g, Inside(0), h, fl));
    assert forall c: Context, d: Context :: [c][0 := d] == [d];
  }

  /** The write of the only column, then publication; r is the filled region before, written and published. */
  lemma ToyFill(s: State, w: Which, written: Region, published: Region, done: nat)
    requires WellFormed(s) && done <= 1 && s.contexts == [Filling(0, w, 0, RECORD, done)]
    requires done == 0 ==> WrittenRegion(RegionOf(s, w), s.contexts[0]) == written
    requires done == 1 ==> PublishedRegion(RegionOf(s, w), s.contexts[0]) == published
    ensures done == 0 ==>
      Next(s, Firmware(0, FirmwareStep.Write), WithRegion(s, w, written).(contexts := [Filling(0, w, 0, RECORD, 1)]))
    ensures done == 1 ==>
      Next(s, Firmware(0, FirmwareStep.Publish), WithRegion(s, w, published).(contexts := [Inside(0)]))
  {
    assert WellFormedContext(s, s.contexts[0]);
    hide GoodContexts, GoodRegion, WrittenRegion, PublishedRegion;
    assert forall c: Context, d: Context :: [c][0 := d] == [d];
  }

  /** One step of clearing. */
  lemma ToyClear(s: State, cleared: Region)
    requires WellFormed(s) && s.host.Clearing? && s.host.bank < 2
    requires var r := RegionOf(s, s.host.which);
      |r.banks| == 2 && cleared == if s.host.column < r.width then ClearedColumn(r, s.host) else FreedRegion(r, s.host)
    ensures Next(s, HostStep(true), WithRegion(s, s.host.which, cleared).(
      host := if s.host.column < RegionOf(s, s.host.which).width then s.host.(column := s.host.column + 1)
              else Returning(s.host.which, s.host.out)))
  {
    hide GoodContexts, GoodRegion, ClearedColumn, FreedRegion;
    ClearMoves(s, true);
    DrainFrame(s, true);
    hide HostMove;
  }

  // ----- A record lost to one failed read ------------------------------------------------

  function Losing(k: nat): State
    requires k < 19
  {
    match k
    case 0 => Toy(0, 0, EMPTY_REGION, EMPTY_REGION, Outside, Resting, None)
    case 1 => Toy(0, 0, EMPTY_REGION, EMPTY_REGION, Loaded(0), Resting, None)
    case 2 => Toy(0, 1, EMPTY_REGION, EMPTY_REGION, Inside(0), Resting, None)
    case 3 => Toy(0, 1, EMPTY_REGION, EMPTY_REGION, Filling(0, Flow, 0, RECORD, 0), Resting, None)
    case 4 => Toy(0, 1, WRITTEN, EMPTY_REGION, Filling(0, Flow, 0, RECORD, 1), Resting, None)
    case 5 => Toy(0, 1, PUBLISHED, EMPTY_REGION, Inside(0), Resting, None)
    case 6 => Toy(0, 0, PUBLISHED, EMPTY_REGION, Outside, Resting, None)
    case 7 => Toy(0, 0, PUBLISHED, EMPTY_REGION, Outside, ReadingState, None)
    case 8 => Toy(0, 0, PUBLISHED, EMPTY_REGION, Outside, Flipping(0), None)
    case 9 => Toy(1, 0, PUBLISHED, EMPTY_REGION, Outside, Settling(0), Some(0))
    case 10 => Toy(1, 0, PUBLISHED, EMPTY_REGION, Outside, Waiting(Flow, 0), Some(0))
    case 11 => Toy(1, 0, PUBLISHED, EMPTY_REGION, Outside, Scanning(Flow, 0), Some(0))
    case 12 => Toy(1, 0, PUBLISHED, EMPTY_REGION, Outside, Opening(Flow, 0, [0]), Some(0))
    case 13 => Toy(1, 0, PUBLISHED, EMPTY_REGION, Outside, Copying(Flow, 0, [0], 0, [], [], []), Some(0))
    case 14 => Toy(1, 0, PUBLISHED, EMPTY_REGION, Outside, Copying(Flow, 0, [0], 1, [], [], [RECORD]), Some(0))
    case 15 => Toy(1, 0, PUBLISHED, EMPTY_REGION, Outside, Clearing(Flow, 0, [], [RECORD], 0), Some(0))
    case 16 => Toy(1, 0, ZEROED, EMPTY_REGION, Outside, Clearing(Flow, 0, [], [RECORD], 1), Some(0))
    case 17 => Toy(1, 0, SKIPPED, EMPTY_REGION, Outside, Returning(Flow, []), Some(0))
    case 18 => Toy(1, 0, SKIPPED, EMPTY_REGION, Outside, CounterReadingState, Some(0))
  }

  function LosingStep(k: nat): Step
    requires k < 18
  {
    match k
    case 0 => Firmware(0, Load)
    case 1 => Firmware(0, Enter)
    case 2 => Firmware(0, Claim(Flow, 0, RECORD))
    case 3 => Firmware(0, FirmwareStep.Write)
    case 4 => Firmware(0, FirmwareStep.Publish)
    case 5 => Firmware(0, Exit)
    case 13 => HostStep(false)
    case _ => HostStep(true)
  }

  lemma LosingFirmware(k: nat)
    requires k < 6
    ensures Next(Losing(k), LosingStep(k), Losing(k + 1))
  {
    if k == 3 || k == 4 {
      LosingFill(k);
    } else {
      RegionsGood();
      ToyClaim(0, EMPTY_REGION, EMPTY_REGION, Flow, Resting, None);
      hide Next, GoodRegion, OneSlotRegion;
      ToyLoad(0, EMPTY_REGION, EMPTY_REGION, Resting, None);
      ToyLoad(0, PUBLISHED, EMPTY_REGION, Resting, None);
    }
  }

  lemma LosingFill(k: nat)
    requires k == 3 || k == 4
    ensures Next(Losing(k), LosingStep(k), Losing(k + 1))
  {
    if k == 3 {
      LosingWrite();
    } else {
      LosingPublish();
    }
  }

  lemma LosingWrite()
    ensures Next(Losing(3), LosingStep(3), Losing(4))
  {
    var s, s' := Toy(0, 1, EMPTY_REGION, EMPTY_REGION, Filling(0, Flow, 0, RECORD, 0), Resting, None), Toy(0, 1, WRITTEN, EMPTY_REGION, Filling(0, Flow, 0, RECORD, 1), Resting, None);
    assert Losing(3) == s && Losing(4) == s' && LosingStep(3) == Firmware(0, FirmwareStep.Write);
    hide Losing, LosingStep;
    hide Next, GoodRegion, WellFormed, OneSlotRegion, WrittenRegion, PublishedRegion;
    RegionsGood();
    ToyMemory(Flow, [RECORD]);
    ToyFillingShape(s, Flow, 0);
    ToyFill(s, Flow, WRITTEN, PUBLISHED, 0);
  }

  lemma LosingPublish()
    ensures Next(Losing(4), LosingStep(4), Losing(5))
  {
    var s, s' := Toy(0, 1, WRITTEN, EMPTY_REGION, Filling(0, Flow, 0, RECORD, 1), Resting, None), Toy(0, 1, PUBLISHED, EMPTY_REGION, Inside(0), Resting, None);
    assert Losing(4) == s && Losing(5) == s' && LosingStep(4) == Firmware(0, FirmwareStep.Publish);
    hide Losing, LosingStep;
    hide Next, GoodRegion, WellFormed, OneSlotRegion, WrittenRegion, PublishedRegion;
    RegionsGood();
    ToyMemory(Flow, [RECORD]);
    ToyFillingShape(s, Flow, 1);
    ToyFill(s, Flow, WRITTEN, PUBLISHED, 1);
  }

  lemma LosingWait(k: nat)
    requires 6 <= k < 12
    ensures Next(Losing(k), LosingStep(k), Losing(k + 1))
  {
    hide WellFormed, GoodRegion, ReadySlots;
    RegionsGood();
    ToyMemory(Flow, [RECORD]);
    ToyShape(Losing(k));
  }

  lemma LosingCopy(k: nat)
    requires 12 <= k < 15
    ensures Next(Losing(k), LosingStep(k), Losing(k + 1))
  {
    hide WellFormed, GoodRegion;
    RegionsGood();
    ToyShape(Losing(k));
    var nothing: seq<Record> := [];
    assert nothing + [RECORD] == [RECORD];
  }

  lemma LosingClear(k: nat)
    requires k == 15 || k == 16
    ensures Next(Losing(k), LosingStep(k), Losing(k + 1))
  {
    if k == 15 {
      LosingZero();
    } else {
      LosingFree();
    }
  }

  lemma LosingZero()
    ensures Next(Losing(15), LosingStep(15), Losing(16))
  {
    var s, s' := Toy(1, 0, PUBLISHED, EMPTY_REGION, Outside, Clearing(Flow, 0, [], [RECORD], 0), Some(0)), Toy(1, 0, ZEROED, EMPTY_REGION, Outside, Clearing(Flow, 0, [], [RECORD], 1), Some(0));
    assert Losing(15) == s && Losing(16) == s' && LosingStep(15) == HostStep(true);
    hide Losing, LosingStep;
    hide WellFormed, GoodRegion, Next, ClearedColumn, FreedRegion;
    RegionsGood();
    ToyMemory(Flow, [RECORD]);
    ToyShape(s);
    ToyClear(s, ZEROED);
  }

  lemma LosingFree()
    ensures Next(Losing(16), LosingStep(16), Losing(17))
  {
    var s, s' := Toy(1, 0, ZEROED, EMPTY_REGION, Outside, Clearing(Flow, 0, [], [RECORD], 1), Some(0)), Toy(1, 0, SKIPPED, EMPTY_REGION, Outside, Returning(Flow, []), Some(0));
    assert Losing(16) == s && Losing(17) == s' && LosingStep(16) == HostStep(true);
    hide Losing, LosingStep;
    hide WellFormed, GoodRegion, Next, ClearedColumn, FreedRegion;
    RegionsGood();
    ToyMemory(Flow, [RECORD]);
    ToyShape(s);
    ToyClear(s, SKIPPED);
    assert s' == s.(flow := SKIPPED, host := Returning(Flow, []));
  }

  lemma LosingReturn()
    ensures Next(Losing(17), LosingStep(17), Losing(18))
  {
    hide WellFormed, GoodRegion, Records;
    RegionsGood();
    ToyShape(Losing(17));
    assert Records([]) == [];
  }

  lemma LosingInitial()
    ensures Initial(Losing(0))
  {
    RegionsGood();
    ToyShape(Losing(0));
    hide WellFormed, GoodRegion;
    NothingPending(EMPTY_REGION);
    assert Losing(0).contexts[..0] == [];
  }

  lemma NothingPending(r: Region)
    requires r == EMPTY_REGION
    ensures PendingIn(r) == multiset{}
  {
    var none: Option<Record> := None;
    assert [none][..0] == [];
  }

  lemma LosingNext(k: nat)
    requires k < 18
    ensures Next(Losing(k), LosingStep(k), Losing(k + 1)) && HarmlessStep(Losing(k), LosingStep(k))
  {
    hide Next, Losing;
    if k < 6 {
      LosingFirmware(k);
    } else if k < 12 {
      LosingWait(k);
    } else if k < 15 {
      LosingCopy(k);
    } else if k < 17 {
      LosingClear(k);
    } else {
      LosingReturn();
    }
  }

  lemma OnlyReadFails(k: nat)
    requires k < 18
    ensures LosingStep(k) == HostStep(false) <==> k == 13
    ensures FailedSlotRead(Losing(k), LosingStep(k), Flow) <==> k == 13
  {
  }

  lemma LosingEnd()
    ensures var s := Losing(18);
      && s.flow.published == s.flow.skipped == multiset{RECORD} && s.flow.delivered == multiset{}
      && |s.flow.banks| == 2 && PendingIn(s.flow) == InFlight(s.host, Flow) == multiset{}
  {
    assert Losing(18).flow == SKIPPED && Losing(18).host == CounterReadingState;
    hide Losing, PendingIn;
    NothingStillPending(Losing(18).flow);
  }

  /** On this run, whose only failure is the read of one ready slot, the published record ends up skipped: it is
      neither delivered nor pending nor in flight. */
  lemma FailedSlotReadLosesRecord()
    ensures exists states: seq<State>, steps: seq<Step> ::
      && IsRun(states, steps) && (exists i :: 0 <= i < |steps| && FailedSlotRead(states[i], steps[i], Flow))
      && (forall i :: 0 <= i < |steps| && steps[i] == HostStep(false) ==> FailedSlotRead(states[i], steps[i], Flow))
      && var s := states[|steps|];
      && s.flow.published == s.flow.skipped == multiset{RECORD} && s.flow.delivered == multiset{}
      && |s.flow.banks| == 2 && PendingIn(s.flow) == InFlight(s.host, Flow) == multiset{}
  {
    hide Next, Initial, Losing, LosingStep, HarmlessStep, FailedSlotRead, PendingIn, InFlight;
    var states, steps := seq(19, i requires 0 <= i < 19 => Losing(i)), seq(18, i requires 0 <= i < 18 => LosingStep(i));
    LosingInitial();
    LosingEnd();
    forall i | 0 <= i < 18
      ensures Next(states[i], steps[i], states[i + 1]) && HarmlessStep(states[i], steps[i])
      ensures steps[i] == HostStep(false) <==> i == 13
      ensures FailedSlotRead(states[i], steps[i], Flow) <==> i == 13
    {
      LosingNext(i);
      OnlyReadFails(i);
    }
    assert IsRun(states, steps) && FailedSlotRead(states[13], steps[13], Flow);
  }

  lemma NothingStillPending(r: Region)
    requires r == SKIPPED
    ensures |r.banks| == 2 && PendingIn(r) == r.delivered == multiset{} && r.published == r.skipped == multiset{RECORD}
  {
    NothingPending(EMPTY_REGION);
  }

  // ----- A flip that lands unsettled -----------------------------------------------------

  function Unsettled(k: nat): State
    requires k < 16
  {
    match k
    case 0 => Toy(0, 0, EMPTY_REGION, EMPTY_REGION, Outside, Resting, None)
    case 1 => Toy(0, 0, EMPTY_REGION, EMPTY_REGION, Loaded(0), Resting, None)
    case 2 => Toy(0, 0, EMPTY_REGION, EMPTY_REGION, Loaded(0), ReadingState, None)
    case 3 => Toy(0, 0, EMPTY_REGION, EMPTY_REGION, Loaded(0), Flipping(0), None)
    case 4 => Toy(1, 0, EMPTY_REGION, EMPTY_REGION, Loaded(0), CounterReadingState, None)
    case 5 => Toy(1, 0, EMPTY_REGION, EMPTY_REGION, Loaded(0), Waiting(Counter, 0), None)
    case 6 => Toy(1, 0, EMPTY_REGION, EMPTY_REGION, Loaded(0), Scanning(Counter, 0), None)
    case 7 => Toy(1, 0, EMPTY_REGION, EMPTY_REGION, Loaded(0), Opening(Counter, 0, []), None)
    case 8 => Toy(1, 0, EMPTY_REGION, EMPTY_REGION, Loaded(0), Copying(Counter, 0, [], 0, [], [], []), None)
    case 9 => Toy(1, 0, EMPTY_REGION, EMPTY_REGION, Loaded(0), Clearing(Counter, 0, [], [], 0), None)
    case 10 => Toy(1, 1, EMPTY_REGION, EMPTY_REGION, Inside(0), Clearing(Counter, 0, [], [], 0), None)
    case 11 => Toy(1, 1, EMPTY_REGION, EMPTY_REGION, Filling(0, Counter, 0, RECORD, 0), Clearing(Counter, 0, [], [], 0), None)
    case 12 => Toy(1, 1, EMPTY_REGION, WRITTEN, Filling(0, Counter, 0, RECORD, 1), Clearing(Counter, 0, [], [], 0), None)
    case 13 => Toy(1, 1, EMPTY_REGION, PUBLISHED, Inside(0), Clearing(Counter, 0, [], [], 0), None)
    case 14 => Toy(1, 1, EMPTY_REGION, ZEROED, Inside(0), Clearing(Counter, 0, [], [], 1), None)
    case 15 => Toy(1, 1, EMPTY_REGION, VANISHED, Inside(0), Returning(Counter, []), None)
  }

  function UnsettledStep(k: nat): Step
    requires k < 15
  {
    match k
    case 0 => Firmware(0, Load)
    case 3 => LandedFlip
    case 9 => Firmware(0, Enter)
    case 10 => Firmware(0, Claim(Counter, 0, RECORD))
    case 11 => Firmware(0, FirmwareStep.Write)
    case 12 => Firmware(0, FirmwareStep.Publish)
    case _ => HostStep(true)
  }

  lemma UnsettledHost(k: nat)
    requires 1 <= k < 9
    ensures Next(Unsettled(k), UnsettledStep(k), Unsettled(k + 1))
  {
    hide WellFormed, GoodRegion, ReadySlots, Settled;
    RegionsGood();
    NothingReady();
    ToyShape(Unsettled(k));
  }

  lemma NothingReady()
    ensures ReadySlots(EMPTY_BANK.sem) == []
  {
    assert [SEM_FREE][..0] == [];
  }

  lemma UnsettledEnter(k: nat)
    requires k == 0 || k == 9 || k == 10
    ensures Next(Unsettled(k), UnsettledStep(k), Unsettled(k + 1))
  {
    RegionsGood();
    var clearing := Clearing(Counter, 0, [], [], 0);
    ToyClaim(1, EMPTY_REGION, EMPTY_REGION, Counter, clearing, None);
    hide Next, GoodRegion, OneSlotRegion;
    ToyLoad(0, EMPTY_REGION, EMPTY_REGION, Resting, None);
    ToyLoad(1, EMPTY_REGION, EMPTY_REGION, clearing, None);
  }

  lemma UnsettledFill(k: nat)
    requires k == 11 || k == 12
    ensures Next(Unsettled(k), UnsettledStep(k), Unsettled(k + 1))
  {
    hide Next, GoodRegion, WellFormed, OneSlotRegion, WrittenRegion, PublishedRegion;
    RegionsGood();
    ToyMemory(Counter, []);
    ToyFillingShape(Unsettled(k), Counter, k - 11);
    ToyFill(Unsettled(k), Counter, WRITTEN, PUBLISHED, k - 11);
  }

  lemma UnsettledClear(k: nat)
    requires k == 13 || k == 14
    ensures Next(Unsettled(k), UnsettledStep(k), Unsettled(k + 1))
  {
    hide WellFormed, GoodRegion, Next, ClearedColumn, FreedRegion;
    RegionsGood();
    ToyMemory(Counter, []);
    ToyShape(Unsettled(k));
    if k == 13 {
      ToyClear(Unsettled(13), ZEROED);
    } else {
      ToyClear(Unsettled(14), VANISHED);
      assert Unsettled(15) == Unsettled(14).(counter := VANISHED, host := Returning(Counter, []));
    }
  }

  lemma UnsettledNext(k: nat)
    requires k < 15
    ensures Next(Unsettled(k), UnsettledStep(k), Unsettled(k + 1))
  {
    hide Next, Unsettled;
    if k == 0 || k == 9 || k == 10 {
      UnsettledEnter(k);
    } else if k < 9 {
      UnsettledHost(k);
    } else if k < 13 {
      UnsettledFill(k);
    } else {
      UnsettledClear(k);
    }
  }

  /** On this execution a flip is reported as failed but lands while a context is on its way into the bank it retires.
      The counter reader finds that bank idle, the context enters it all the same, and a record it publishes there is
      cleared away: neither delivered nor skipped nor pending nor in flight. */
  lemma UnsettledFlipLosesQuiescence()
    ensures exists states: seq<State>, steps: seq<Step> ::
      && IsExecution(states, steps) && (forall i :: 0 <= i < |steps| ==> steps[i] != HostStep(false))
      && (exists k :: 0 <= k < |states| && Draining(states[k].host) == Some((Counter, 0)) && states[k].contexts == [Inside(0)])
      && var s := states[|steps|];
      && s.counter.published == multiset{RECORD} && s.counter.delivered == s.counter.skipped == multiset{}
      && |s.counter.banks| == 2 && PendingIn(s.counter) == InFlight(s.host, Counter) == multiset{}
  {
    hide Next, Initial, UnsettledStep, PendingIn;
    var states, steps := seq(16, i requires 0 <= i < 16 => Unsettled(i)), seq(15, i requires 0 <= i < 15 => UnsettledStep(i));
    assert Losing(0) == Unsettled(0);
    LosingInitial();
    UnsettledEnd();
    assert states[10] == Unsettled(10) && Draining(states[10].host) == Some((Counter, 0)) && states[10].contexts == [Inside(0)];
    hide Losing, Unsettled, InFlight;
    forall i | 0 <= i < 15 ensures Next(states[i], steps[i], states[i + 1]) && steps[i] != HostStep(false) {
      UnsettledNext(i);
      NoAccessFails(i);
    }
    assert IsExecution(states, steps);
  }

  lemma NoAccessFails(k: nat)
    requires k < 15
    ensures UnsettledStep(k) != HostStep(false)
  {
  }

  lemma UnsettledEnd()
    ensures var s := Unsettled(15);
      && s.counter.published == multiset{RECORD} && s.counter.delivered == s.counter.skipped == multiset{}
      && |s.counter.banks| == 2 && PendingIn(s.counter) == InFlight(s.host, Counter) == multiset{}
  {
    assert Unsettled(15).counter == VANISHED && Unsettled(15).host == Returning(Counter, []);
    hide Unsettled;
    assert Records([]) == [];
    NothingPending(EMPTY_REGION);
    assert VANISHED.banks == EMPTY_REGION.banks;
    hide PendingIn;
  }
}
