/**
 * Flips that land although they were reported as failed, and the exact condition under which they break the promise
 * of the drain protocol: that no context is inside a bank while the host drains it.
 */
module BankLandings {
  import opened Wrappers
  import opened BankProtocol
  import opened BankSafety

  /** The promise: while the host drains a bank, no context is inside it. */
  ghost predicate Quiescent(s: State) {
    Draining(s.host).Some? ==> forall i :: 0 <= i < |s.contexts| ==> !InBank(s.contexts[i], Draining(s.host).value.1)
  }

  /** What may follow state s, with any failures but no further harmful landing. */
  ghost predicate IsContinuation(s: State, states: seq<State>, steps: seq<Step>) {
    && |states| == |steps| + 1 && states[0] == s
    && forall i :: 0 <= i < |steps| ==> Next(states[i], steps[i], states[i + 1]) && HarmlessStep(states[i], steps[i])
  }

  /** Whatever follows s, the promise is kept. */
  ghost predicate Safe(s: State) {
    forall states, steps :: IsContinuation(s, states, steps) ==> forall k :: 0 <= k < |states| ==> Quiescent(states[k])
  }

  // ----- The invariant implies the promise -----------------------------------------------

  lemma InvariantQuiescent(s: State)
    requires Invariant(s)
    ensures Quiescent(s)
  {
    hide GoodShape, RegionInvariant;
    CountZero(s.contexts, Retired(s));
  }

  lemma {:induction false} ContinuationInvariant(s: State, states: seq<State>, steps: seq<Step>, k: nat)
    requires Invariant(s) && IsContinuation(s, states, steps) && k < |states|
    ensures Invariant(states[k])
  {
    hide Invariant, Next, HarmlessStep;
    if k > 0 {
      ContinuationInvariant(s, states, steps, k - 1);
      NextKeepsInvariant(states[k - 1], steps[k - 1], states[k]);
    }
  }

  lemma InvariantSafe(s: State)
    requires Invariant(s)
    ensures Safe(s)
  {
    hide Invariant, IsContinuation, Quiescent;
    forall states, steps, k | IsContinuation(s, states, steps) && 0 <= k < |states| ensures Quiescent(states[k]) {
      ContinuationInvariant(s, states, steps, k);
      InvariantQuiescent(states[k]);
    }
  }

  // ----- After a harmful landing ---------------------------------------------------------

  /** The state with the sleep after a flip still to come. Firmware cannot tell the difference. */
  function Masked(s: State): State {
    s.(host := Settling(Retired(s)), flipped := Some(Retired(s)))
  }

  /** The counter reader is about to read `cur_state`, and all is well but that contexts may be on their way. */
  ghost predicate Exposed(s: State) {
    Invariant(Masked(s)) && s.host.CounterReadingState?
  }

  /** How much firmware the contexts inside a bank have ahead of them until they leave it. */
  function Weight(c: Context, b: nat): nat {
    if !InBank(c, b) then 0
    else if c.Inside? then 1
    else 2 + if c.done < |c.record| then |c.record| - c.done else 0
  }

  function Ahead(contexts: seq<Context>, b: nat): nat {
    if contexts == [] then 0 else Ahead(contexts[..|contexts| - 1], b) + Weight(contexts[|contexts| - 1], b)
  }

  lemma {:induction false} AheadUpdate(contexts: seq<Context>, i: nat, c: Context, b: nat)
    requires i < |contexts|
    ensures Ahead(contexts[i := c], b) + Weight(contexts[i], b) == Ahead(contexts, b) + Weight(c, b)
  {
    hide Weight;
    var n := |contexts| - 1;
    if i == n {
      assert contexts[i := c][..n] == contexts[..n];
    } else {
      assert contexts[i := c][..n] == contexts[..n][i := c];
      AheadUpdate(contexts[..n], i, c, b);
    }
  }

  lemma ExposedWellFormed(s: State)
    requires Exposed(s)
    ensures WellFormed(s) && GoodShape(s)
  {
    hide Control, RegionInvariant, GoodRegion;
    assert forall i :: 0 <= i < |s.contexts| ==> GoodContext(Masked(s), s.contexts[i]);
    assert forall i :: 0 <= i < |s.contexts| ==> GoodContext(s, s.contexts[i]);
  }

  /** What a context inside the bank does next on its way out. */
  function WayOut(c: Context): FirmwareStep {
    if c.Inside? then Exit else if c.Filling? && c.done < |c.record| then FirmwareStep.Write else FirmwareStep.Publish
  }

  lemma WayOutEnabled(s: State, i: nat)
    requires Exposed(s) && i < |s.contexts| && InBank(s.contexts[i], Retired(s))
    ensures GoodMemory(s) && WellFormedContext(s, s.contexts[i]) && FirmwareEnabled(s, i, WayOut(s.contexts[i]))
    ensures s.contexts[i].Filling? ==> s.contexts[i].done <= |s.contexts[i].record|
  {
    hide GoodMemory, Exposed, GoodShape, SlotFree;
    ExposedWellFormed(s);
    assert WellFormedContext(s, s.contexts[i]);
  }

  /** Firmware steps leave alone what the mask hides. */
  lemma MaskedCommutes(s: State, i: nat, move: FirmwareStep)
    requires GoodMemory(s) && FirmwareEnabled(s, i, move) && WellFormedContext(s, s.contexts[i])
    ensures FirmwareEnabled(Masked(s), i, move) && FirmwareMove(Masked(s), i, move) == Masked(FirmwareMove(s, i, move))
    ensures FirmwareMove(s, i, move).host == s.host && Retired(FirmwareMove(s, i, move)) == Retired(s)
    ensures FirmwareMove(s, i, move).contexts == s.contexts[i := FirmwareMove(s, i, move).contexts[i]]
  {
    hide GoodRegion, WrittenRegion, PublishedRegion;
  }

  lemma WayOutContext(s: State, i: nat)
    requires GoodMemory(s) && i < |s.contexts| && WellFormedContext(s, s.contexts[i]) && FirmwareEnabled(s, i, WayOut(s.contexts[i]))
    requires InBank(s.contexts[i], Retired(s))
    ensures Weight(FirmwareMove(s, i, WayOut(s.contexts[i])).contexts[i], Retired(s)) < Weight(s.contexts[i], Retired(s))
  {
    hide GoodRegion, WrittenRegion, PublishedRegion, SlotFree;
  }

  /** A context inside the bank comes closer to leaving it. */
  lemma WayOutStep(s: State, i: nat) returns (s': State)
    requires Exposed(s) && i < |s.contexts| && InBank(s.contexts[i], Retired(s))
    ensures Next(s, Firmware(i, WayOut(s.contexts[i])), s') && Exposed(s')
    ensures Retired(s') == Retired(s) && Ahead(s'.contexts, Retired(s)) < Ahead(s.contexts, Retired(s))
    ensures |s'.contexts| == |s.contexts| && forall j :: 0 <= j < |s.contexts| && j != i ==> s'.contexts[j] == s.contexts[j]
  {
    var move := WayOut(s.contexts[i]);
    WayOutEnabled(s, i);
    ExposedWellFormed(s);
    s' := FirmwareMove(s, i, move);
    MaskedCommutes(s, i, move);
    WayOutContext(s, i);
    hide GoodMemory, WellFormedContext, FirmwareEnabled, FirmwareMove, WellFormed, Invariant, Weight, WayOut;
    FirmwareKeepsInvariant(Masked(s), i, move);
    AheadUpdate(s.contexts, i, s'.contexts[i], Retired(s));
  }

  lemma Prepend(s: State, step: Step, s': State, states: seq<State>, steps: seq<Step>)
    requires Next(s, step, s') && HarmlessStep(s, step) && IsContinuation(s', states, steps)
    ensures IsContinuation(s, [s] + states, [step] + steps)
  {
    hide Next, HarmlessStep;
    var states', steps' := [s] + states, [step] + steps;
    forall i | 0 <= i < |steps'| ensures Next(states'[i], steps'[i], states'[i + 1]) && HarmlessStep(states'[i], steps'[i]) {
      if i > 0 {
        assert Next(states[i - 1], steps[i - 1], states[i]) && HarmlessStep(states[i - 1], steps[i - 1]);
      }
    }
  }

  /** With the bank idle the counter reader starts to drain it, and the context on its way enters all the same. */
  lemma BreachNow(s: State, j: nat) returns (states: seq<State>, steps: seq<Step>)
    requires Exposed(s) && j < |s.contexts| && s.contexts[j] == Loaded(Retired(s))
    requires forall i :: 0 <= i < |s.contexts| ==> !InBank(s.contexts[i], Retired(s))
    ensures IsContinuation(s, states, steps) && !Quiescent(states[|steps|])
  {
    var b := Retired(s);
    CountZero(s.contexts, b);
    IdleBank(s);
    ExposedWellFormed(s);
    hide Exposed, GoodShape, GoodRegion, WellFormedContext, CountInside;
    var s1 := s.(host := Waiting(Counter, b));
    var s2 := s.(host := Scanning(Counter, b));
    var s3 := s2.(contexts := s.contexts[j := Inside(b)], processing := s.processing[b := s.processing[b] + 1]);
    Relocated(s, s1);
    Relocated(s, s2);
    assert Next(s, HostStep(true), s1) && Next(s1, HostStep(true), s2);
    assert WellFormedContext(s2, s2.contexts[j]);
    assert FirmwareMove(s2, j, Enter) == s3;
    assert InBank(s3.contexts[j], b);
    states, steps := [s, s1, s2, s3], [HostStep(true), HostStep(true), Firmware(j, Enter)];
  }

  lemma IdleBank(s: State)
    requires Exposed(s) && CountInside(s.contexts, Retired(s)) == 0
    ensures Retired(s) < 2 == |s.processing| && s.processing[Retired(s)] == 0
  {
    hide GoodShape, RegionInvariant;
  }

  /** Well-formedness asks little of the host. */
  lemma Relocated(s: State, s': State)
    requires WellFormed(s) && s' == s.(host := s'.host) && BankInRange(s'.host) && !s'.host.Settling?
    ensures WellFormed(s')
  {
    hide GoodRegion;
    forall i | 0 <= i < |s'.contexts| ensures WellFormedContext(s', s'.contexts[i]) {
      assert WellFormedContext(s, s.contexts[i]);
    }
  }

  /** Every context inside the bank leaves it, and then the promise is broken. */
  lemma {:induction false} Breach(s: State, j: nat) returns (states: seq<State>, steps: seq<Step>)
    requires Exposed(s) && j < |s.contexts| && s.contexts[j] == Loaded(Retired(s))
    ensures IsContinuation(s, states, steps) && !Quiescent(states[|steps|])
    decreases Ahead(s.contexts, Retired(s))
  {
    hide Exposed, Next, HarmlessStep, Quiescent, Ahead, Retired, IsContinuation;
    if i :| 0 <= i < |s.contexts| && InBank(s.contexts[i], Retired(s)) {
      var s' := WayOutStep(s, i);
      var rest, moves := Breach(s', j);
      FirmwareHarmless(s, i, WayOut(s.contexts[i]));
      Prepend(s, Firmware(i, WayOut(s.contexts[i])), s', rest, moves);
      ContinuationLength(s', rest, moves);
      states, steps := [s] + rest, [Firmware(i, WayOut(s.contexts[i]))] + moves;
      assert states[|steps|] == rest[|moves|];
    } else {
      states, steps := BreachNow(s, j);
    }
  }

  lemma FirmwareHarmless(s: State, i: nat, move: FirmwareStep)
    ensures HarmlessStep(s, Firmware(i, move))
  {
  }

  lemma ContinuationLength(s: State, states: seq<State>, steps: seq<Step>)
    requires IsContinuation(s, states, steps)
    ensures |states| == |steps| + 1
  {
  }

  // ----- The exact condition -------------------------------------------------------------

  lemma LandingExposes(s: State)
    requires Invariant(s) && s.host.Flipping? && s.counter.slots > 0
    ensures Exposed(LandFlip(s)) && Retired(LandFlip(s)) == s.host.retiring && LandFlip(s).contexts == s.contexts
  {
    hide GoodContexts, GoodRegion, LinkedBank, PendingIn, Settled;
    LandFlipFrame(s);
    var m := Masked(LandFlip(s));
    assert GoodShape(m) by { MaskedShape(LandFlip(s)); }
    forall w: Which ensures RegionInvariant(RegionOf(m, w), w, m.host) {
      assert RegionInvariant(RegionOf(s, w), w, s.host);
    }
    assert RegionOf(m, Flow) == m.flow && RegionOf(m, Counter) == m.counter;
  }

  lemma MaskedShape(s: State)
    requires GoodShape(s)
    ensures GoodShape(Masked(s))
  {
    hide GoodRegion, GoodFiller;
    forall i | 0 <= i < |s.contexts| ensures GoodContext(Masked(s), s.contexts[i]) {
      assert GoodContext(s, s.contexts[i]);
    }
  }

  /** A flip that lands although it was reported as failed leaves the promise safe, whatever follows, exactly if no
      context is on its way into the bank it retires or there are no counters to drain from that bank. */
  lemma LandedFlipSafeIff(s: State)
    requires Invariant(s) && s.host.Flipping?
    ensures Safe(LandFlip(s)) <==> Settled(s, s.host.retiring) || s.counter.slots == 0
  {
    hide Invariant, IsContinuation, Quiescent, Exposed;
    if Settled(s, s.host.retiring) || s.counter.slots == 0 {
      LandedFlipKeepsInvariant(s);
      InvariantSafe(LandFlip(s));
    } else {
      var j: nat :| j < |s.contexts| && s.contexts[j] == Loaded(s.host.retiring);
      LandingExposes(s);
      var states, steps := Breach(LandFlip(s), j);
      ContinuationLength(LandFlip(s), states, steps);
    }
  }

  /** An execution is safe in each of its states exactly if all its landed flips are harmless. */
  lemma {:induction false} SafeIffHarmless(states: seq<State>, steps: seq<Step>, n: nat)
    requires IsExecution(states, steps) && n < |states|
    ensures (forall k :: 0 <= k <= n ==> Safe(states[k])) <==> (forall i :: 0 <= i < n ==> HarmlessStep(states[i], steps[i]))
    ensures (forall i :: 0 <= i < n ==> HarmlessStep(states[i], steps[i])) ==> Invariant(states[n])
  {
    hide Invariant, Initial, HarmlessStep, Safe;
    if n == 0 {
      InitialInvariant(states[0]);
      InvariantSafe(states[0]);
    } else {
      SafeIffHarmless(states, steps, n - 1);
      assert Next(states[n - 1], steps[n - 1], states[n]);
      if Invariant(states[n - 1]) {
        SafeStep(states[n - 1], steps[n - 1], states[n]);
      }
    }
  }

  lemma SafeStep(s: State, step: Step, s': State)
    requires Invariant(s) && Next(s, step, s')
    ensures Safe(s') <==> HarmlessStep(s, step)
    ensures HarmlessStep(s, step) ==> Invariant(s')
  {
    hide Invariant, WellFormed, Safe, HostMove, FirmwareMove, FirmwareEnabled;
    if HarmlessStep(s, step) {
      NextKeepsInvariant(s, step, s');
      InvariantSafe(s');
    } else {
      LandedFlipSafeIff(s);
    }
  }
}
