/**
 * What the readers achieve when nothing fails: a drain hands over everything pending in its bank and leaves the bank
 * cleared, and a whole cycle does so for both regions of the bank it retires.
 */
module BankProgress {
  import opened Wrappers
  import opened BankProtocol
  import opened BankSafety
  import opened BankGuarantees
  import opened BankLandings

  /** The host alone acts, and every access succeeds. */
  ghost predicate Undelayed(s: State, states: seq<State>, steps: seq<Step>) {
    |states| == |steps| + 1 && states[0] == s && IsContinuation(s, states, steps) && forall i :: 0 <= i < |steps| ==> steps[i] == HostStep(true)
  }

  lemma One(s: State)
    requires WellFormed(s) && HostEnabled(s)
    ensures Undelayed(s, [s, HostMove(s, true)], [HostStep(true)])
  {
    hide WellFormed, HostMove;
  }

  lemma Join(s: State, states: seq<State>, steps: seq<Step>, states': seq<State>, steps': seq<Step>)
    requires Undelayed(s, states, steps) && Undelayed(states[|steps|], states', steps')
    ensures Undelayed(s, states + states'[1..], steps + steps')
    ensures (states + states'[1..])[|steps + steps'|] == states'[|steps'|]
  {
    hide Next, HarmlessStep;
    var all, moves := states + states'[1..], steps + steps';
    forall i | 0 <= i < |moves| ensures Next(all[i], moves[i], all[i + 1]) && HarmlessStep(all[i], moves[i]) {
      if i < |steps| {
        assert Next(states[i], steps[i], states[i + 1]) && HarmlessStep(states[i], steps[i]);
      } else {
        assert Next(states'[i - |steps|], steps'[i - |steps|], states'[i - |steps| + 1]);
        assert all[i] == states'[i - |steps|] && all[i + 1] == states'[i - |steps| + 1];
      }
    }
  }

  // ----- One drain -----------------------------------------------------------------------

  /** Where a drain of region w's bank b can be: nothing given up, and after clearing nothing left. */
  ghost predicate OnCourse(s: State, w: Which, b: nat) {
    && Invariant(s) && b < 2 && |RegionOf(s, w).banks| == 2 && GivenUp(s.host, w) == []
    && if s.host.Returning? then s.host.which == w && Cleared(RegionOf(s, w).banks[b])
       else Draining(s.host) == Some((w, b)) && Zeroed(RegionOf(s, w).banks[b], s.host)
  }

  /** All words and all semaphores of the bank are 0. */
  ghost predicate Cleared(b: Bank) {
    && (forall i :: 0 <= i < |b.sem| ==> b.sem[i] == 0)
    && (forall i, k :: 0 <= i < |b.cell| && 0 <= k < |b.cell[i]| ==> b.cell[i][k] == 0)
    && (forall i :: 0 <= i < |b.tag| ==> b.tag[i].None?)
  }

  /** The columns already filled hold 0. */
  ghost predicate Zeroed(b: Bank, h: Host) {
    h.Clearing? ==> forall i, k :: 0 <= i < |b.cell| && 0 <= k < |b.cell[i]| && k < h.column ==> b.cell[i][k] == 0
  }

  /** What the drain of region w's bank b leaves alone. */
  ghost predicate Aside(s: State, t: State, w: Which, b: nat) {
    && b < 2 && t.curState == s.curState && t.contexts == s.contexts && t.processing == s.processing && t.flipped == s.flipped
    && RegionOf(t, Other(w)) == RegionOf(s, Other(w))
    && var r, q := RegionOf(s, w), RegionOf(t, w);
    && q.slots == r.slots && q.width == r.width && q.published == r.published && q.delivered == r.delivered && q.skipped == r.skipped
    && |r.banks| == |q.banks| == 2 && q.banks[1 - b] == r.banks[1 - b]
  }

  function Stage(h: Host): nat {
    match h
    case Scanning(_, _) => 5
    case Opening(_, _, _) => 4
    case Copying(_, _, _, _, _, _, _) => 3
    case Clearing(_, _, _, _, _) => 2
    case _ => 1
  }

  function SlotsLeft(h: Host, width: nat): int {
    match h
    case Copying(_, _, ready, at, _, _, _) => |ready| - at
    case Clearing(_, _, _, _, column) => width + 1 - column
    case _ => 0
  }

  function WordsLeft(h: Host, width: nat): int {
    if h.Copying? then width - |h.buffer| else 0
  }

  /** Reading the semaphores, opening the payload areas. */
  lemma ScanCourse(s: State, w: Which, b: nat)
    requires OnCourse(s, w, b) && (s.host.Scanning? || s.host.Opening?)
    ensures GoodMemory(s) && BankInRange(s.host)
    ensures var t := HostMove(s, true);
      && t == s.(host := t.host) && GivenUp(t.host, w) == [] && Draining(t.host) == Some((w, b)) && !t.host.Clearing?
      && Stage(t.host) < Stage(s.host)
  {
    hide GoodContexts, Control, RegionInvariant, GoodRegion, ReadySlots;
    MemoryBanks(s);
  }

  /** Copying a word, finishing a slot, or coming to the end of the ready slots. */
  lemma CopyCourse(s: State, w: Which, b: nat)
    requires OnCourse(s, w, b) && s.host.Copying?
    ensures GoodMemory(s) && BankInRange(s.host)
    ensures var t, width := HostMove(s, true), RegionOf(s, w).width;
      && t == s.(host := t.host) && GivenUp(t.host, w) == [] && Draining(t.host) == Some((w, b))
      && (t.host.Clearing? ==> t.host.column == 0)
      && (Stage(t.host) < Stage(s.host)
          || (t.host.Copying? && 0 <= SlotsLeft(t.host, width) < SlotsLeft(s.host, width))
          || (t.host.Copying? && SlotsLeft(t.host, width) == SlotsLeft(s.host, width)
              && 0 <= WordsLeft(t.host, width) < WordsLeft(s.host, width)))
  {
    hide Conserved, Linked, GoodContexts, GoodBank, TagsAt, Records, FaithfulEntries, ReadySlots, Pending;
    if ReadsSlot(s.host) {
      ReadySlotReadable(s);
      BufferShort(s);
    }
    hide Control, HostLocals, CopyProgress;
  }

  lemma BufferShort(s: State)
    requires Invariant(s) && BankInRange(s.host) && ReadsSlot(s.host)
    ensures |s.host.buffer| < RegionOf(s, s.host.which).width && s.host.at < |s.host.ready|
  {
    hide GoodShape, Control, Conserved, Linked, TagsAt, Records, FaithfulEntries, ReadySlots;
  }

  lemma ZeroedMore(r: Region, h: Host)
    requires h.Clearing? && h.bank < 2 == |r.banks| && Zeroed(r.banks[h.bank], h) && h.column < r.width
    ensures Zeroed(ClearedColumn(r, h).banks[h.bank], h.(column := h.column + 1))
  {
  }

  lemma FreedIsCleared(r: Region, h: Host)
    requires GoodRegion(r) && h.Clearing? && h.bank < 2 && Zeroed(r.banks[h.bank], h) && h.column >= r.width
    ensures Cleared(FreedRegion(r, h).banks[h.bank])
  {
  }

  lemma ClearedAside(r: Region, h: Host)
    requires |r.banks| == 2 && h.Clearing? && h.bank < 2 && h.lost == []
    ensures forall q :: q == ClearedColumn(r, h) || q == FreedRegion(r, h) ==>
      && q.slots == r.slots && q.width == r.width && q.published == r.published && q.delivered == r.delivered && q.skipped == r.skipped
      && |q.banks| == 2 && q.banks[1 - h.bank] == r.banks[1 - h.bank]
  {
    hide ZeroColumn, FreeSem, NoTags;
  }

  /** Filling a column, or freeing the semaphores at last. */
  lemma ClearCourse(s: State, w: Which, b: nat)
    requires OnCourse(s, w, b) && s.host.Clearing?
    ensures GoodMemory(s) && BankInRange(s.host)
    ensures var t := HostMove(s, true);
      && Aside(s, t, w, b) && GivenUp(t.host, w) == []
      && if s.host.column < RegionOf(s, w).width
         then t.host == s.host.(column := s.host.column + 1) && Zeroed(RegionOf(t, w).banks[b], t.host)
         else t.host.Returning? && t.host.which == w && Cleared(RegionOf(t, w).banks[b])
  {
    hide Control, GoodContexts, RegionInvariant, GoodBank, Zeroed, Cleared, ClearedColumn, FreedRegion;
    var r := RegionOf(s, w);
    ClearMoves(s, true);
    DrainFrame(s, true);
    hide HostMove;
    ClearedAside(r, s.host);
    if s.host.column < r.width {
      ZeroedMore(r, s.host);
    } else {
      FreedIsCleared(r, s.host);
    }
  }

  ghost predicate Advanced(s: State, t: State, width: nat) {
    || Stage(t.host) < Stage(s.host)
    || (Stage(t.host) == Stage(s.host) && 0 <= SlotsLeft(t.host, width) < SlotsLeft(s.host, width))
    || (Stage(t.host) == Stage(s.host) && SlotsLeft(t.host, width) == SlotsLeft(s.host, width)
        && 0 <= WordsLeft(t.host, width) < WordsLeft(s.host, width))
  }

  lemma SameMemory(s: State, t: State, w: Which, b: nat)
    requires OnCourse(s, w, b) && t == s.(host := t.host) && Invariant(t) && GivenUp(t.host, w) == []
    requires Draining(t.host) == Some((w, b)) && (t.host.Clearing? ==> t.host.column == 0)
    ensures OnCourse(t, w, b) && Aside(s, t, w, b)
  {
    hide Invariant, Cleared;
    assert RegionOf(t, w) == RegionOf(s, w);
  }

  /** One successful step of a drain that is not yet at its end. */
  lemma CourseStep(s: State, w: Which, b: nat)
    requires OnCourse(s, w, b) && !s.host.Returning?
    ensures WellFormed(s) && HostEnabled(s)
    ensures var t := HostMove(s, true); OnCourse(t, w, b) && Aside(s, t, w, b) && Advanced(s, t, RegionOf(s, w).width)
  {
    hide Invariant, Zeroed, Cleared, GoodMemory, HostMove, WellFormedContext, Aside, RegionOf;
    InvariantWellFormed(s);
    HostKeepsInvariant(s, true);
    if s.host.Scanning? || s.host.Opening? {
      ScanCourse(s, w, b);
      SameMemory(s, HostMove(s, true), w, b);
    } else if s.host.Copying? {
      CopyCourse(s, w, b);
      SameMemory(s, HostMove(s, true), w, b);
    } else {
      ClearStepCourse(s, w, b);
    }
  }

  lemma ClearStepCourse(s: State, w: Which, b: nat)
    requires OnCourse(s, w, b) && s.host.Clearing?
    ensures GoodMemory(s) && BankInRange(s.host)
    ensures var t := HostMove(s, true); OnCourse(t, w, b) && Aside(s, t, w, b) && Advanced(s, t, RegionOf(s, w).width)
  {
    hide Invariant, Zeroed, Cleared, HostMove, RegionOf, GoodMemory, WellFormedContext;
    InvariantWellFormed(s);
    HostKeepsInvariant(s, true);
    ColumnInRange(s);
    ClearCourse(s, w, b);
  }

  lemma ColumnInRange(s: State)
    requires Invariant(s) && s.host.Clearing?
    ensures s.host.column <= RegionOf(s, s.host.which).width
  {
    hide GoodShape, Control, Linked, Conserved, FaithfulEntries, Records, Pending;
  }

  lemma AsideTwice(s: State, t: State, u: State, w: Which, b: nat)
    requires Aside(s, t, w, b) && Aside(t, u, w, b)
    ensures Aside(s, u, w, b)
  {
  }

  /** From any point of a drain on which nothing was given up, without failures, to its end. */
  lemma {:induction false} Finish(s: State, w: Which, b: nat) returns (states: seq<State>, steps: seq<Step>)
    requires OnCourse(s, w, b)
    ensures Undelayed(s, states, steps)
    ensures var t := states[|steps|]; OnCourse(t, w, b) && t.host.Returning? && Aside(s, t, w, b)
    decreases Stage(s.host), SlotsLeft(s.host, RegionOf(s, w).width), WordsLeft(s.host, RegionOf(s, w).width)
  {
    hide Invariant, Zeroed, Cleared, HostMove, GoodMemory, WellFormedContext, Next;
    if s.host.Returning? {
      states, steps := [s], [];
    } else {
      CourseStep(s, w, b);
      var t := HostMove(s, true);
      hide OnCourse, Undelayed, HostEnabled;
      assert RegionOf(t, w).width == RegionOf(s, w).width;
      var rest, moves := Finish(t, w, b);
      One(s);
      Join(s, [s, t], [HostStep(true)], rest, moves);
      states, steps := [s, t] + rest[1..], [HostStep(true)] + moves;
      AsideTwice(s, t, rest[|moves|], w, b);
    }
  }

  /** By conservation, what is about to be returned is what was pending at the start. */
  lemma ReturnsPending(s: State, t: State, w: Which, b: nat)
    requires Invariant(s) && s.host == Scanning(w, b) && OnCourse(t, w, b) && t.host.Returning? && Aside(s, t, w, b)
    ensures |RegionOf(s, w).banks| == 2 && multiset(Records(t.host.out)) == Pending(RegionOf(s, w).banks[b].tag)
  {
    hide Invariant, Pending, Records, Cleared, Conserved;
    var r, q := RegionOf(s, w), RegionOf(t, w);
    TagsCleared(q.banks[b]);
    ConservedNow(s, w, b);
    ConservedNow(t, w, b);
    Balance(r.delivered, r.skipped, Pending(r.banks[b].tag), Pending(r.banks[1 - b].tag), multiset(Records(t.host.out)));
  }

  lemma TagsCleared(bank: Bank)
    requires Cleared(bank)
    ensures Pending(bank.tag) == multiset{}
  {
    PendingNone(bank.tag);
  }

  lemma ConservedNow(s: State, w: Which, b: nat)
    requires Invariant(s) && b < 2
    ensures var r := RegionOf(s, w);
      |r.banks| == 2 && r.published == r.delivered + r.skipped + (Pending(r.banks[b].tag) + Pending(r.banks[1 - b].tag)) + InFlight(s.host, w)
  {
    hide GoodShape, Control, Linked, HostLocals, Pending, InFlight;
    var r := RegionOf(s, w);
    assert Conserved(r, w, s.host);
    if b == 1 {
      assert Pending(r.banks[0].tag) + Pending(r.banks[1].tag) == Pending(r.banks[1].tag) + Pending(r.banks[0].tag);
    }
  }

  lemma Balance(delivered: multiset<Record>, skipped: multiset<Record>, pending: multiset<Record>, rest: multiset<Record>, out: multiset<Record>)
    requires delivered + skipped + (pending + rest) + multiset{} == delivered + skipped + (multiset{} + rest) + out
    ensures out == pending
  {
    var others := delivered + skipped + rest;
    assert delivered + skipped + (pending + rest) + multiset{} == others + pending;
    assert delivered + skipped + (multiset{} + rest) + out == others + out;
    assert pending == others + pending - others && out == others + out - others;
  }

  /** Region w's bank b was drained between s and u: everything pending in it has been delivered, every word and every
      semaphore of it is 0, and nothing else has changed. */
  ghost predicate DrainedFrom(s: State, u: State, w: Which, b: nat) {
    && b < 2 && u.curState == s.curState && u.contexts == s.contexts && u.processing == s.processing
    && RegionOf(u, Other(w)) == RegionOf(s, Other(w))
    && var r, q := RegionOf(s, w), RegionOf(u, w);
    && q.slots == r.slots && q.width == r.width && q.published == r.published && q.skipped == r.skipped
    && |r.banks| == |q.banks| == 2 && q.banks[1 - b] == r.banks[1 - b] && Cleared(q.banks[b])
    && q.delivered == r.delivered + Pending(r.banks[b].tag)
  }

  lemma ReturnCourse(s: State, t: State, w: Which, b: nat)
    requires OnCourse(t, w, b) && t.host.Returning? && Aside(s, t, w, b)
    requires multiset(Records(t.host.out)) == Pending(RegionOf(s, w).banks[b].tag)
    ensures GoodMemory(t) && DrainedFrom(s, HostMove(t, true), w, b) && HostMove(t, true).host == AfterDrain(t, w).host
  {
    hide Invariant, GoodMemory, Records, Pending, Cleared, WellFormedContext, HostMove, RegionOf;
    InvariantWellFormed(t);
    ReturnMoves(t, true, w);
    ReturnMoves(t, true, Other(w));
    ReturnFrame(t);
  }

  lemma ReturnFrame(t: State)
    requires GoodMemory(t) && t.host.Returning?
    ensures var u := HostMove(t, true);
      && u.curState == t.curState && u.contexts == t.contexts && u.processing == t.processing
      && u.host == AfterDrain(t, t.host.which).host
  {
    hide GoodMemory, Records;
  }

  /** Once the bank has been found idle, a drain that nothing interrupts delivers exactly what was pending in it. */
  lemma DrainDelivers(s: State, w: Which, b: nat) returns (states: seq<State>, steps: seq<Step>)
    requires Invariant(s) && s.host == Scanning(w, b)
    ensures Undelayed(s, states, steps)
    ensures var u := states[|steps|]; Invariant(u) && DrainedFrom(s, u, w, b) && u.host == AfterDrain(s, w).host
  {
    StartsOnCourse(s, w, b);
    hide Invariant, WellFormed, HostMove, DrainedFrom, Pending, Records, GoodMemory;
    states, steps := Finish(s, w, b);
    var t := states[|steps|];
    ReturnsPending(s, t, w, b);
    ReturnCourse(s, t, w, b);
    InvariantWellFormed(t);
    HostKeepsInvariant(t, true);
    One(t);
    Join(s, states, steps, [t, HostMove(t, true)], [HostStep(true)]);
    states, steps := states + [t, HostMove(t, true)][1..], steps + [HostStep(true)];
    SameNext(s, t, w, b);
  }

  lemma SameNext(s: State, t: State, w: Which, b: nat)
    requires Aside(s, t, w, b)
    ensures AfterDrain(t, w).host == AfterDrain(s, w).host
  {
  }

  lemma StartsOnCourse(s: State, w: Which, b: nat)
    requires Invariant(s) && s.host == Scanning(w, b)
    ensures OnCourse(s, w, b)
  {
    HostBankInRange(s);
    InvariantWellFormed(s);
    MemoryBanks(s);
  }

  // ----- One cycle -----------------------------------------------------------------------

  lemma StepTo(s: State, t: State)
    requires Invariant(s) && HostEnabled(s) && WellFormed(s) && t == HostMove(s, true)
    ensures Undelayed(s, [s, t], [HostStep(true)]) && Invariant(t)
  {
    hide Invariant, WellFormed, HostMove;
    HostKeepsInvariant(s, true);
    One(s);
  }

  /** No context is inside the bank or on its way into it. */
  ghost predicate Deserted(s: State, b: nat) {
    forall i :: 0 <= i < |s.contexts| ==> !InBank(s.contexts[i], b) && s.contexts[i] != Loaded(b)
  }

  lemma DesertedIdle(s: State, b: nat)
    requires Invariant(s) && b < 2 && Deserted(s, b)
    ensures |s.processing| == 2 && s.processing[b] == 0 && Settled(s, b)
  {
    hide GoodShape, RegionInvariant;
    CountZero(s.contexts, b);
  }

  /** From rest to the flip. */
  lemma Flip(s: State) returns (states: seq<State>, steps: seq<Step>)
    requires Invariant(s) && s.host.Resting? && s.flow.slots > 0
    ensures Undelayed(s, states, steps) && Invariant(states[|steps|])
    ensures var a := s.curState % 2; states[|steps|] == s.(curState := 1 - a, host := Settling(a), flipped := Some(a))
  {
    var a := s.curState % 2;
    InvariantWellFormed(s);
    hide Invariant, GoodMemory, WellFormedContext, Next;
    var s1 := s.(host := ReadingState);
    var s2 := s.(host := Flipping(a));
    var s3 := s.(curState := 1 - a, host := Settling(a), flipped := Some(a));
    StepTo(s, s1);
    InvariantWellFormed(s1);
    StepTo(s1, s2);
    InvariantWellFormed(s2);
    StepTo(s2, s3);
    hide WellFormed, HostMove, IsContinuation;
    Join(s, [s, s1], [HostStep(true)], [s1, s2], [HostStep(true)]);
    states, steps := [s, s1] + [s1, s2][1..], [HostStep(true)] + [HostStep(true)];
    Join(s, states, steps, [s2, s3], [HostStep(true)]);
    states, steps := states + [s2, s3][1..], steps + [HostStep(true)];
  }

  /** From the sleep to the scan. */
  lemma Settle(s: State) returns (states: seq<State>, steps: seq<Step>)
    requires Invariant(s) && s.host.Settling? && s.host.retired < 2 && Deserted(s, s.host.retired)
    ensures Undelayed(s, states, steps) && Invariant(states[|steps|])
    ensures states[|steps|] == s.(host := Scanning(Flow, s.host.retired))
  {
    var b := s.host.retired;
    DesertedIdle(s, b);
    InvariantWellFormed(s);
    hide Invariant, GoodMemory, WellFormedContext, Deserted, Settled, Next;
    var s1 := s.(host := Waiting(Flow, b));
    var s2 := s.(host := Scanning(Flow, b));
    StepTo(s, s1);
    InvariantWellFormed(s1);
    StepTo(s1, s2);
    hide WellFormed, HostMove, IsContinuation;
    Join(s, [s, s1], [HostStep(true)], [s1, s2], [HostStep(true)]);
    states, steps := [s, s1] + [s1, s2][1..], [HostStep(true)] + [HostStep(true)];
  }

  /** From rest to the scan of the flow region of the bank that was current. */
  lemma Retire(s: State) returns (states: seq<State>, steps: seq<Step>)
    requires Invariant(s) && s.host.Resting? && s.flow.slots > 0 && Deserted(s, s.curState % 2)
    ensures Undelayed(s, states, steps) && Invariant(states[|steps|])
    ensures var a := s.curState % 2;
      states[|steps|] == s.(curState := 1 - a, host := Scanning(Flow, a), flipped := Some(a))
  {
    hide Invariant, Deserted, IsContinuation;
    states, steps := Flip(s);
    var t := states[|steps|];
    SameDeserted(s, t, s.curState % 2);
    var more, moves := Settle(t);
    Join(s, states, steps, more, moves);
    states, steps := states + more[1..], steps + moves;
  }

  /** From the end of the flow drain to the scan of the counter region. */
  lemma GoOn(s: State) returns (states: seq<State>, steps: seq<Step>)
    requires Invariant(s) && s.host.CounterReadingState? && Deserted(s, 1 - s.curState % 2)
    ensures Undelayed(s, states, steps) && Invariant(states[|steps|])
    ensures states[|steps|] == s.(host := Scanning(Counter, 1 - s.curState % 2))
  {
    var b := 1 - s.curState % 2;
    DesertedIdle(s, b);
    InvariantWellFormed(s);
    hide Invariant, GoodMemory, WellFormedContext, Deserted, Settled, Next;
    var s1 := s.(host := Waiting(Counter, b));
    var s2 := s.(host := Scanning(Counter, b));
    StepTo(s, s1);
    InvariantWellFormed(s1);
    StepTo(s1, s2);
    hide WellFormed, HostMove, IsContinuation;
    Join(s, [s, s1], [HostStep(true)], [s1, s2], [HostStep(true)]);
    states, steps := [s, s1] + [s1, s2][1..], [HostStep(true)] + [HostStep(true)];
  }

  /** A whole cycle without failures, while no context is inside the current bank or on its way there: the bank is
      retired, everything pending in it, flows and counters, is delivered, and it is left cleared. */
  lemma CycleDelivers(s: State) returns (states: seq<State>, steps: seq<Step>)
    requires Invariant(s) && s.host.Resting? && s.flow.slots > 0 && s.counter.slots > 0 && Deserted(s, s.curState % 2)
    ensures Undelayed(s, states, steps)
    ensures var a, t := s.curState % 2, states[|steps|];
      && Invariant(t) && t.host.Resting? && t.curState == 1 - a && t.contexts == s.contexts
      && |s.flow.banks| == |s.counter.banks| == |t.flow.banks| == |t.counter.banks| == 2
      && t.flow.delivered == s.flow.delivered + Pending(s.flow.banks[a].tag)
      && t.counter.delivered == s.counter.delivered + Pending(s.counter.banks[a].tag)
      && Cleared(t.flow.banks[a]) && Cleared(t.counter.banks[a])
      && t.flow.banks[1 - a] == s.flow.banks[1 - a] && t.counter.banks[1 - a] == s.counter.banks[1 - a]
  {
    hide Invariant, IsContinuation, Pending, Cleared, Deserted, AfterDrain;
    var a := s.curState % 2;
    states, steps := Retire(s);
    var s1 := states[|steps|];
    var more, moves := DrainDelivers(s1, Flow, a);
    var s2 := more[|moves|];
    Join(s, states, steps, more, moves);
    states, steps := states + more[1..], steps + moves;
    assert Deserted(s2, a) by { SameDeserted(s, s2, a); }
    CountersNext(s1);
    more, moves := GoOn(s2);
    var s3 := more[|moves|];
    Join(s, states, steps, more, moves);
    states, steps := states + more[1..], steps + moves;
    more, moves := DrainDelivers(s3, Counter, a);
    RestNext(s3);
    Join(s, states, steps, more, moves);
    states, steps := states + more[1..], steps + moves;
  }

  lemma CountersNext(s: State)
    requires s.counter.slots > 0
    ensures AfterDrain(s, Flow).host.CounterReadingState?
  {
  }

  lemma RestNext(s: State)
    ensures AfterDrain(s, Counter).host.Resting?
  {
  }

  lemma SameDeserted(s: State, t: State, b: nat)
    requires Deserted(s, b) && t.contexts == s.contexts
    ensures Deserted(t, b)
  {
  }

  // ----- Clearing and failing in any run -------------------------------------------------

  lemma FirmwareZeroed(s: State, i: nat, move: FirmwareStep)
    requires Invariant(s) && FirmwareEnabled(s, i, move) && s.host.Clearing?
    requires |RegionOf(s, s.host.which).banks| == 2 && s.host.bank < 2
    ensures GoodMemory(s) && WellFormedContext(s, s.contexts[i])
    ensures var t := FirmwareMove(s, i, move);
      t.host == s.host && |RegionOf(t, t.host.which).banks| == 2
      && RegionOf(t, t.host.which).banks[t.host.bank] == RegionOf(s, s.host.which).banks[s.host.bank]
  {
    hide RegionInvariant, GoodMemory, GoodContexts, Control, RegionOf, FirmwareMove, SlotFree;
    InvariantWellFormed(s);
    assert WellFormedContext(s, s.contexts[i]);
    FirmwareLeavesDrainedBank(s, i, move);
  }

  lemma HostZeroed(s: State, ok: bool)
    requires GoodMemory(s) && BankInRange(s.host) && HostMove(s, ok).host.Clearing?
    requires s.host.Clearing? ==> |RegionOf(s, s.host.which).banks| == 2 && Zeroed(RegionOf(s, s.host.which).banks[s.host.bank], s.host)
    ensures var t := HostMove(s, ok);
      |RegionOf(t, t.host.which).banks| == 2 && t.host.bank < 2 && Zeroed(RegionOf(t, t.host.which).banks[t.host.bank], t.host)
  {
    hide HostMove, GoodMemory, Zeroed, ClearedColumn, FreedRegion;
    if s.host.Clearing? {
      ClearMoves(s, ok);
      ZeroedMore(RegionOf(s, s.host.which), s.host);
      ClearedBanks(RegionOf(s, s.host.which), s.host);
    } else {
      EntersClearing(s, ok);
    }
  }

  lemma ClearedBanks(r: Region, h: Host)
    requires |r.banks| == 2 && h.Clearing? && h.bank < 2
    ensures |ClearedColumn(r, h).banks| == |FreedRegion(r, h).banks| == 2
  {
    hide ZeroColumn, FreeSem, NoTags;
  }

  lemma ZeroedStep(s: State, step: Step, t: State)
    requires Invariant(s) && Next(s, step, t) && t.host.Clearing? && t.host.bank < 2
    requires s.host.Clearing? ==> s.host.bank < 2 && |RegionOf(s, s.host.which).banks| == 2
                                  && Zeroed(RegionOf(s, s.host.which).banks[s.host.bank], s.host)
    ensures |RegionOf(t, t.host.which).banks| == 2 && Zeroed(RegionOf(t, t.host.which).banks[t.host.bank], t.host)
  {
    hide Invariant, GoodMemory, WellFormedContext, Zeroed, HostMove, FirmwareMove, FirmwareEnabled, RegionOf;
    match step
    case Firmware(i, move) =>
      FirmwareSameHost(s, i, move);
      FirmwareZeroed(s, i, move);
    case LandedFlip => LandsElsewhere(s);
    case HostStep(ok) => HostZeroed(s, ok);
  }

  lemma LandsElsewhere(s: State)
    requires s.host.Flipping?
    ensures !LandFlip(s).host.Clearing? && !LandFlip(s).host.Returning?
  {
  }

  lemma FirmwareSameHost(s: State, i: nat, move: FirmwareStep)
    requires Invariant(s) && FirmwareEnabled(s, i, move)
    ensures GoodMemory(s) && WellFormedContext(s, s.contexts[i]) && FirmwareMove(s, i, move).host == s.host
  {
    hide Invariant, GoodMemory, SlotFree;
    InvariantWellFormed(s);
    assert WellFormedContext(s, s.contexts[i]);
    hide FirmwareEnabled;
    FirmwareKeepsHost(s, i, move);
  }

  lemma EntersClearing(s: State, ok: bool)
    requires GoodMemory(s) && BankInRange(s.host) && !s.host.Clearing? && HostMove(s, ok).host.Clearing?
    ensures var t := HostMove(s, ok);
      |RegionOf(t, t.host.which).banks| == 2 && t.host.bank < 2 && Zeroed(RegionOf(t, t.host.which).banks[t.host.bank], t.host)
  {
    hide GoodRegion, ReadySlots, Records;
    MemoryBanks(s);
  }

  lemma {:induction false} ZeroedAlong(states: seq<State>, steps: seq<Step>, n: nat)
    requires IsRun(states, steps) && n < |states| && states[n].host.Clearing?
    ensures var s := states[n];
      s.host.bank < 2 && |RegionOf(s, s.host.which).banks| == 2 && Zeroed(RegionOf(s, s.host.which).banks[s.host.bank], s.host)
  {
    hide Invariant, Next, HarmlessStep, Zeroed;
    EveryRunSafe(states, steps, n);
    InvariantWellFormed(states[n]);
    if n > 0 {
      assert Next(states[n - 1], steps[n - 1], states[n]);
      EveryRunSafe(states, steps, n - 1);
      if states[n - 1].host.Clearing? {
        ZeroedAlong(states, steps, n - 1);
      }
      hide WellFormed;
      ZeroedStep(states[n - 1], steps[n - 1], states[n]);
    }
  }

  /** In every run, when the host frees a bank's semaphores, every word and every semaphore of that bank is 0. */
  lemma ClearedOnReturn(states: seq<State>, steps: seq<Step>, n: nat)
    requires IsRun(states, steps) && n < |steps| && states[n].host.Clearing? && states[n + 1].host.Returning?
    ensures var b, r := states[n].host.bank, RegionOf(states[n + 1], states[n].host.which);
      b < 2 && |r.banks| == 2 && Cleared(r.banks[b])
  {
    hide Invariant, HarmlessStep, Zeroed, Cleared, HostMove, FirmwareMove, FirmwareEnabled, GoodMemory, WellFormedContext;
    ZeroedAlong(states, steps, n);
    assert Next(states[n], steps[n], states[n + 1]);
    EveryRunSafe(states, steps, n);
    match steps[n]
    case Firmware(i, move) => FirmwareSameHost(states[n], i, move);
    case LandedFlip =>
    case HostStep(ok) => Frees(states[n], ok);
  }

  lemma Frees(s: State, ok: bool)
    requires GoodMemory(s) && s.host.Clearing? && s.host.bank < 2 == |RegionOf(s, s.host.which).banks|
    requires Zeroed(RegionOf(s, s.host.which).banks[s.host.bank], s.host) && HostMove(s, ok).host.Returning?
    ensures var r := RegionOf(HostMove(s, ok), s.host.which); |r.banks| == 2 && Cleared(r.banks[s.host.bank])
  {
    hide HostMove, Zeroed, Cleared, ClearedColumn, FreedRegion, GoodRegion;
    var r := RegionOf(s, s.host.which);
    ClearMoves(s, ok);
    FreedIsCleared(r, s.host);
    ClearedBanks(r, s.host);
  }

  lemma FirmwareKeepsHost(s: State, i: nat, move: FirmwareStep)
    requires GoodMemory(s) && FirmwareEnabled(s, i, move) && WellFormedContext(s, s.contexts[i])
    ensures FirmwareMove(s, i, move).host == s.host
  {
    hide GoodRegion, SlotFree;
  }

  /** A failed access other than a slot read ends the reader's call at once and changes no memory. */
  lemma FailedAccessReturns(s: State, t: State)
    requires Next(s, HostStep(false), t)
    requires s.host.ReadingState? || s.host.Flipping? || s.host.CounterReadingState? || s.host.Waiting? || s.host.Scanning? || s.host.Opening?
    ensures t.flow == s.flow && t.counter == s.counter && t.curState == s.curState
    ensures var w := if s.host.ReadingState? || s.host.Flipping? then Flow else if s.host.CounterReadingState? then Counter else s.host.which;
      t.host == if w.Flow? && s.counter.slots > 0 then CounterReadingState else Resting
  {
    hide GoodMemory, WellFormedContext;
  }
}
