/**
 * The batch queue between the I/O thread and the transmit thread of main.cpp, with the shutdown flag, as a transition
 * system over all interleavings. Waiting, popping and the two exit tests happen under the queue's mutex: one step each.
 */
module HandOff {
  import opened Wrappers

  /** I/O thread: at its loop test, in an iteration, or past the loop. */
  datatype Producer = AtLoop | Working | ProducerEnded

  /** Transmit thread: about to wait, holding a popped batch, or past its loop. */
  datatype Consumer<T> = AtWait | Holding(batch: T) | ConsumerEnded

  /** `pushed` and `sent` are histories. */
  datatype State<T> = State(running: bool, queue: seq<T>, producer: Producer, consumer: Consumer<T>,
                            pushed: seq<T>, sent: seq<T>)

  datatype Step<T> = StartIteration | Push(batch: T) | SkipEmptyBatch | EndProducer | Pop | Send | EndConsumer | ShutDown

  /** After the UDP sender is set up and both threads run. */
  function Start<T>(): State<T> {
    State(true, [], AtLoop, AtWait, [], [])
  }

  predicate Enabled<T>(s: State<T>, step: Step<T>) {
    match step
    case StartIteration => s.producer.AtLoop? && s.running
    case Push(_) => s.producer.Working?
    case SkipEmptyBatch => s.producer.Working?
    case EndProducer => s.producer.AtLoop? && !s.running
    case Pop => s.consumer.AtWait? && s.queue != []
    case Send => s.consumer.Holding?
    case EndConsumer => s.consumer.AtWait? && !s.running && s.queue == []
    case ShutDown => true
  }

  function Take<T>(s: State<T>, step: Step<T>): State<T>
    requires Enabled(s, step)
  {
    match step
    case StartIteration => s.(producer := Working)
    case Push(b) => s.(producer := AtLoop, queue := s.queue + [b], pushed := s.pushed + [b])
    case SkipEmptyBatch => s.(producer := AtLoop)
    case EndProducer => s.(producer := ProducerEnded)
    case Pop => s.(consumer := Holding(s.queue[0]), queue := s.queue[1..])
    case Send => s.(consumer := AtWait, sent := s.sent + [s.consumer.batch])
    case EndConsumer => s.(consumer := ConsumerEnded)
    case ShutDown => s.(running := false)
  }

  ghost predicate IsRun<T>(states: seq<State<T>>, steps: seq<Step<T>>) {
    && |states| == |steps| + 1 && states[0] == Start()
    && forall i :: 0 <= i < |steps| ==> Enabled(states[i], steps[i]) && states[i + 1] == Take(states[i], steps[i])
  }

  function InHand<T>(c: Consumer<T>): seq<T> {
    if c.Holding? then [c.batch] else []
  }

  /** Once the transmit thread has ended, the flag is down, so at most the batch then in the making is pushed. */
  ghost predicate Invariant<T>(s: State<T>) {
    && s.pushed == s.sent + InHand(s.consumer) + s.queue
    && (s.consumer.ConsumerEnded? ==> !s.running && |s.queue| <= 1 && (s.producer.Working? ==> s.queue == []))
  }

  lemma StepKeepsInvariant<T>(s: State<T>, step: Step<T>)
    requires Invariant(s) && Enabled(s, step)
    ensures Invariant(Take(s, step))
  {
    var s' := Take(s, step);
    match step
    case Push(b) => assert s'.pushed == s'.sent + InHand(s'.consumer) + s'.queue;
    case Pop => assert s.queue == [s.queue[0]] + s.queue[1..];
    case Send => assert s'.sent + InHand(s'.consumer) + s'.queue == s.sent + InHand(s.consumer) + s.queue;
    case _ =>
  }

  lemma {:induction false} EveryRunKeepsInvariant<T>(states: seq<State<T>>, steps: seq<Step<T>>, n: nat)
    requires IsRun(states, steps) && n < |states|
    ensures Invariant(states[n])
  {
    if n > 0 {
      EveryRunKeepsInvariant(states, steps, n - 1);
      StepKeepsInvariant(states[n - 1], steps[n - 1]);
    }
  }

  /** At every moment the transmitted batches are a prefix of the pushed ones, in order: none is duplicated,
      reordered or skipped. */
  lemma TransmittedIsPrefix<T>(states: seq<State<T>>, steps: seq<Step<T>>, n: nat)
    requires IsRun(states, steps) && n < |states|
    ensures states[n].sent <= states[n].pushed
  {
    EveryRunKeepsInvariant(states, steps, n);
  }

  /** A batch is pushed although the transmit thread has already ended. */
  predicate LatePush<T>(s: State<T>, step: Step<T>) {
    step.Push? && s.consumer.ConsumerEnded?
  }

  lemma {:induction false} LeftoverIffLatePush<T>(states: seq<State<T>>, steps: seq<Step<T>>, n: nat)
    requires IsRun(states, steps) && n < |states| && states[n].consumer.ConsumerEnded?
    ensures states[n].queue != [] <==> exists i :: 0 <= i < n && LatePush(states[i], steps[i])
  {
    var s, step := states[n - 1], steps[n - 1];
    EveryRunKeepsInvariant(states, steps, n - 1);
    assert Enabled(s, step) && states[n] == Take(s, step);
    if s.consumer.ConsumerEnded? {
      LeftoverIffLatePush(states, steps, n - 1);
      assert step.Push? ==> LatePush(s, step);
    } else {
      forall i | 0 <= i < n ensures !LatePush(states[i], steps[i]) {
        if LatePush(states[i], steps[i]) {
          EndedStaysEnded(states, steps, i, n - 1);
        }
      }
    }
  }

  lemma {:induction false} EndedStaysEnded<T>(states: seq<State<T>>, steps: seq<Step<T>>, i: nat, n: nat)
    requires IsRun(states, steps) && i <= n < |states| && states[i].consumer.ConsumerEnded?
    ensures states[n].consumer.ConsumerEnded?
  {
    if i < n {
      EndedStaysEnded(states, steps, i, n - 1);
      assert Enabled(states[n - 1], steps[n - 1]);
    }
  }

  /** When both threads have ended, everything was transmitted except, possibly, the last pushed batch; and that one is
      missing exactly when it was pushed after the transmit thread had ended. */
  lemma AtMostLastBatchMissing<T>(states: seq<State<T>>, steps: seq<Step<T>>, n: nat)
    requires IsRun(states, steps) && n < |states|
    requires states[n].producer.ProducerEnded? && states[n].consumer.ConsumerEnded?
    ensures var s := states[n];
      && (s.sent == s.pushed || (s.pushed != [] && s.sent == s.pushed[..|s.pushed| - 1]))
      && (s.sent != s.pushed <==> exists i :: 0 <= i < n && LatePush(states[i], steps[i]))
  {
    EveryRunKeepsInvariant(states, steps, n);
    LeftoverIffLatePush(states, steps, n);
    hide LatePush, IsRun;
    var s := states[n];
    assert s.pushed == s.sent + s.queue;
  }

  /** The loss does occur: shutdown in mid-iteration, the transmit thread leaves, then the batch is pushed. */
  lemma LastBatchCanBeMissing<T>(batch: T)
    ensures exists states: seq<State<T>>, steps: seq<Step<T>> ::
      && IsRun(states, steps)
      && var s := states[|states| - 1];
         s.producer.ProducerEnded? && s.consumer.ConsumerEnded? && s.pushed == [batch] && s.sent == []
  {
    var s0: State<T> := Start();
    var s1 := Take(s0, StartIteration);
    var s2 := Take(s1, ShutDown);
    var s3 := Take(s2, EndConsumer);
    var s4 := Take(s3, Push(batch));
    var s5 := Take(s4, EndProducer);
    var states, steps := [s0, s1, s2, s3, s4, s5], [StartIteration, ShutDown, EndConsumer, Push(batch), EndProducer];
    assert IsRun(states, steps);
    assert s5.pushed == [batch];
  }

  // ----- The queue as the I/O thread sees it ---------------------------------------------

  class SharedQueue<T> {
    var state: State<T>
    ghost var states: seq<State<T>>
    ghost var steps: seq<Step<T>>

    /** The queue has been through a run and is in its last state. */
    ghost predicate Valid()
      reads this
    {
      IsRun(states, steps) && states[|steps|] == state
    }

    constructor ()
      ensures Valid() && state == Start()
    {
      state := Start();
      states, steps := [Start()], [];
    }

    method Perform(step: Step<T>)
      requires Valid() && Enabled(state, step)
      modifies this
      ensures Valid() && state == Take(old(state), step) && old(states) <= states
    {
      RunExtends(states, steps, step);
      state := Take(state, step);
      states, steps := states + [state], steps + [step];
    }

    /** Anything the transmit thread and a shutdown may do meanwhile. */
    method Interfere()
      requires Valid()
      modifies this
      ensures Valid() && old(states) <= states && state.producer == old(state).producer && state.pushed == old(state).pushed
    {
      var moves: nat := *;
      while moves > 0
        invariant Valid() && old(states) <= states && state.producer == old(state).producer && state.pushed == old(state).pushed
      {
        var choice: nat := *;
        var step := if choice == 0 then Pop else if choice == 1 then Send else if choice == 2 then EndConsumer else ShutDown;
        if Enabled(state, step) {
          Perform(step);
        }
        moves := moves - 1;
      }
    }

    /** The loop test of the I/O thread. */
    method Begin() returns (running: bool)
      requires Valid() && state.producer.AtLoop?
      modifies this
      ensures Valid() && old(states) <= states && state.pushed == old(state).pushed
      ensures running == state.running && state.producer == if running then Working else ProducerEnded
    {
      Interfere();
      running := state.running;
      Perform(if running then StartIteration else EndProducer);
    }

    /** The end of an iteration, with a batch to push or none. */
    method Finish(batch: Option<T>)
      requires Valid() && state.producer.Working?
      modifies this
      ensures Valid() && old(states) <= states && state.producer.AtLoop?
      ensures state.pushed == old(state).pushed + if batch.Some? then [batch.value] else []
    {
      Interfere();
      Perform(if batch.Some? then Push(batch.value) else SkipEmptyBatch);
    }
  }

  lemma RunExtends<T>(states: seq<State<T>>, steps: seq<Step<T>>, step: Step<T>)
    requires IsRun(states, steps) && Enabled(states[|steps|], step)
    ensures IsRun(states + [Take(states[|steps|], step)], steps + [step])
  {
    hide Take;
    var states', steps' := states + [Take(states[|steps|], step)], steps + [step];
    forall i | 0 <= i < |steps'| ensures Enabled(states'[i], steps'[i]) && states'[i + 1] == Take(states'[i], steps'[i]) {
      if i < |steps| {
        assert Enabled(states[i], steps[i]);
      }
    }
  }
}
