/** Quiescence, faithful copies and exactly-once conservation of the drain protocol, for every interleaving. */
module BankSafety {
  import opened Wrappers
  import opened BankProtocol

  // ----- Counting contexts ---------------------------------------------------------------

  lemma {:induction false} CountUpdate(contexts: seq<Context>, i: nat, c: Context, b: nat)
    requires i < |contexts|
    ensures CountInside(contexts[i := c], b)
         == CountInside(contexts, b) - (if InBank(contexts[i], b) then 1 else 0) + (if InBank(c, b) then 1 else 0)
  {
    var n := |contexts| - 1;
    if i == n {
      assert contexts[i := c][..n] == contexts[..n];
    } else {
      assert contexts[i := c][..n] == contexts[..n][i := c];
      CountUpdate(contexts[..n], i, c, b);
    }
  }

  lemma {:induction false} CountZero(contexts: seq<Context>, b: nat)
    ensures CountInside(contexts, b) == 0 <==> forall i :: 0 <= i < |contexts| ==> !InBank(contexts[i], b)
  {
    if contexts != [] {
      CountZero(contexts[..|contexts| - 1], b);
      var n := |contexts| - 1;
      assert forall i :: 0 <= i < n ==> contexts[..n][i] == contexts[i];
    }
  }

  // ----- Counting records ----------------------------------------------------------------

  lemma PendingLast(tag: seq<Option<Record>>)
    requires tag != []
    ensures Pending(tag) == Pending(tag[..|tag| - 1]) + TagBag(tag[|tag| - 1])
  {
  }

  lemma Rearranged(a: multiset<Record>, b: multiset<Record>, c: multiset<Record>)
    ensures a + b + c == a + c + b
  {
  }

  lemma BagOf(r: Record)
    ensures TagBag(Some(r)) == multiset{r} && TagBag(None) == multiset{}
  {
  }

  lemma {:induction false} PendingUpdate(tag: seq<Option<Record>>, i: nat, r: Record)
    requires i < |tag| && tag[i].None?
    ensures Pending(tag[i := Some(r)]) == Pending(tag) + multiset{r}
  {
    hide Pending, TagBag;
    var n, tag' := |tag| - 1, tag[i := Some(r)];
    PendingLast(tag);
    PendingLast(tag');
    if i == n {
      assert tag'[..n] == tag[..n];
      BagOf(r);
      assert Pending(tag) == Pending(tag[..n]);
    } else {
      assert tag'[..n] == tag[..n][i := Some(r)];
      PendingUpdate(tag[..n], i, r);
      Rearranged(Pending(tag[..n]), multiset{r}, TagBag(tag[n]));
    }
  }

  lemma {:induction false} PendingNone(tag: seq<Option<Record>>)
    requires forall i :: 0 <= i < |tag| ==> tag[i].None?
    ensures Pending(tag) == multiset{}
  {
    if tag != [] {
      PendingNone(tag[..|tag| - 1]);
    }
  }

  lemma {:induction false} TagsAtPrefix(tag: seq<Option<Record>>, n: nat, slots: seq<nat>)
    requires n <= |tag| && forall k :: 0 <= k < |slots| ==> slots[k] < n
    ensures TagsAt(tag[..n], slots) == TagsAt(tag, slots)
  {
    if slots != [] {
      TagsAtPrefix(tag, n, slots[..|slots| - 1]);
    }
  }

  lemma TagsAtAppend(tag: seq<Option<Record>>, slots: seq<nat>, n: nat)
    requires n < |tag|
    ensures TagsAt(tag, slots + [n]) == TagsAt(tag, slots) + TagBag(tag[n])
  {
    hide TagBag;
    assert (slots + [n])[..|slots|] == slots;
  }

  /** The ready slots hold exactly what is pending. */
  lemma {:induction false} ReadySlotsArePending(sem: seq<int>, tag: seq<Option<Record>>)
    requires |sem| == |tag| && forall i :: 0 <= i < |sem| ==> (sem[i] == SEM_DATA_READY <==> tag[i].Some?)
    ensures TagsAt(tag, ReadySlots(sem)) == Pending(tag)
  {
    if sem != [] {
      var n := |sem| - 1;
      hide TagBag;
      ReadySlotsArePending(sem[..n], tag[..n]);
      var front := ReadySlots(sem[..n]);
      TagsAtPrefix(tag, n, front);
      if sem[n] == SEM_DATA_READY {
        TagsAtAppend(tag, front, n);
      } else {
        BagOf([]);
      }
    }
  }

  lemma RecordsAppend(out: seq<Entry>, e: Entry)
    ensures multiset(Records(out + [e])) == multiset(Records(out)) + multiset{e.record}
  {
    assert Records(out + [e]) == Records(out) + [e.record];
  }

  // ----- Firmware steps ------------------------------------------------------------------

  /** Steps that touch no record memory: reading `cur_state`, entering, claiming, leaving. */
  predicate Silent(move: FirmwareStep) {
    !move.Write? && !move.Publish?
  }

  lemma ContextBank(s: State, i: nat)
    requires GoodShape(s) && i < |s.contexts| && !s.contexts[i].Outside?
    ensures s.contexts[i].bank < 2
  {
  }

  /** What a firmware step does outside record memory. */
  ghost predicate FirmwareFrame(s: State, s': State, i: nat, move: FirmwareStep)
    requires i < |s.contexts|
  {
    && s'.curState == s.curState && s'.host == s.host && s'.flipped == s.flipped && s'.counter.slots == s.counter.slots
    && |s'.contexts| == |s.contexts| && s'.contexts == s.contexts[i := s'.contexts[i]]
    && (Silent(move) ==> s'.flow == s.flow && s'.counter == s.counter)
    && var c, c' := s.contexts[i], s'.contexts[i];
    && (c'.Loaded? ==> c'.bank == s.curState % 2)
    && (move.Load? ==> c.Outside? && c'.Loaded? && s'.processing == s.processing)
    && (move.Enter? ==> c.Loaded? && c' == Inside(c.bank) && c.bank < 2 <= |s.processing|
                        && s'.processing == s.processing[c.bank := s.processing[c.bank] + 1])
    && (move.Exit? ==> c.Inside? && c' == Outside && c.bank < 2 <= |s.processing|
                       && s'.processing == s.processing[c.bank := if s.processing[c.bank] > 0 then s.processing[c.bank] - 1 else 0])
    && (move.Claim? || move.Write? || move.Publish? ==>
          (forall b :: InBank(c', b) == InBank(c, b)) && !c'.Loaded? && s'.processing == s.processing)
  }

  lemma FirmwareFrames(s: State, i: nat, move: FirmwareStep)
    requires GoodShape(s) && FirmwareEnabled(s, i, move)
    ensures FirmwareFrame(s, FirmwareMove(s, i, move), i, move)
  {
    hide GoodContexts, GoodRegion, SlotFree;
    if !s.contexts[i].Outside? {
      ContextBank(s, i);
    }
  }

  lemma FirmwareControl(s: State, s': State, i: nat, move: FirmwareStep)
    requires Control(s) && i < |s.contexts| && FirmwareFrame(s, s', i, move)
    ensures Control(s')
  {
    var c' := s'.contexts[i];
    CountUpdate(s.contexts, i, c', 0);
    CountUpdate(s.contexts, i, c', 1);
    CountZero(s.contexts, 0);
    CountZero(s.contexts, 1);
    forall k | 0 <= k < |s'.contexts| && !s.host.Settling? && !Lenient(s) ensures s'.contexts[k] != Loaded(Retired(s)) {
      assert k != i ==> s'.contexts[k] == s.contexts[k];
    }
  }

  /** A context about to write or publish fills a free slot of its bank; when the host drains, that is the other bank. */
  lemma FillerIsOutsideDrain(s: State, i: nat)
    requires GoodShape(s) && Control(s) && i < |s.contexts| && s.contexts[i].Filling?
    ensures GoodFiller(RegionOf(s, s.contexts[i].which), s.contexts[i])
    ensures Draining(s.host).Some? ==> s.contexts[i].bank != Draining(s.host).value.1
  {
    assert GoodContext(s, s.contexts[i]);
    CountZero(s.contexts, Retired(s));
    assert InBank(s.contexts[i], s.contexts[i].bank);
  }

  /** The contexts stay good when the acting one is good afterwards and the others are unaffected. */
  lemma ContextsKept(s: State, s': State, i: nat)
    requires GoodShape(s) && GoodMemory(s') && i < |s.contexts| == |s'.contexts| && s'.contexts == s.contexts[i := s'.contexts[i]]
    requires GoodContext(s', s'.contexts[i])
    requires forall k :: 0 <= k < |s.contexts| && k != i ==> GoodContext(s', s.contexts[k]) && Apart(s'.contexts[i], s.contexts[k])
    ensures GoodShape(s')
  {
    hide GoodContext, GoodMemory;
    forall k | 0 <= k < |s'.contexts| && k != i ensures s'.contexts[k] == s.contexts[k] {}
    forall j, k | 0 <= j < |s'.contexts| && 0 <= k < |s'.contexts| && j != k ensures Apart(s'.contexts[j], s'.contexts[k]) {
      if k == i {
        assert Apart(s'.contexts[i], s.contexts[j]);
      }
    }
  }

  lemma SilentKeepsShape(s: State, i: nat, move: FirmwareStep)
    requires GoodShape(s) && FirmwareEnabled(s, i, move) && Silent(move)
    ensures GoodShape(FirmwareMove(s, i, move))
  {
    FirmwareFrames(s, i, move);
    assert GoodContext(s, s.contexts[i]);
    ContextsKept(s, FirmwareMove(s, i, move), i);
  }

  lemma WrittenGood(r: Region, c: Context)
    requires GoodRegion(r) && c.Filling? && GoodFiller(r, c) && c.done < |c.record|
    ensures GoodRegion(WrittenRegion(r, c)) && GoodFiller(WrittenRegion(r, c), c.(done := c.done + 1))
  {
  }

  lemma WrittenFiller(r: Region, c: Context, d: Context)
    requires GoodRegion(r) && c.Filling? && GoodFiller(r, c) && c.done < |c.record| && GoodRegion(WrittenRegion(r, c))
    requires d.Filling? && GoodFiller(r, d) && !(c.bank == d.bank && c.slot == d.slot)
    ensures GoodFiller(WrittenRegion(r, c), d)
  {
  }

  lemma WriteKeepsOthers(s: State, c: Context, d: Context)
    requires GoodMemory(s) && GoodContext(s, c) && c.Filling? && c.done < |c.record|
    requires GoodContext(s, d) && Apart(c, d)
    ensures GoodMemory(WriteIn(s, c)) && GoodContext(WriteIn(s, c), d) && GoodContext(WriteIn(s, c), c.(done := c.done + 1))
  {
    var r := RegionOf(s, c.which);
    WrittenGood(r, c);
    if d.Filling? && d.which == c.which {
      WrittenFiller(r, c, d);
    }
    hide GoodRegion, GoodFiller, WrittenBank;
  }

  lemma PublishedFiller(r: Region, c: Context, d: Context)
    requires GoodRegion(r) && c.Filling? && GoodFiller(r, c) && GoodRegion(PublishedRegion(r, c))
    requires d.Filling? && GoodFiller(r, d) && !(c.bank == d.bank && c.slot == d.slot)
    ensures GoodFiller(PublishedRegion(r, c), d)
  {
  }

  lemma PublishKeepsOthers(s: State, c: Context, d: Context)
    requires GoodMemory(s) && GoodContext(s, c) && c.Filling?
    requires GoodContext(s, d) && Apart(c, d)
    ensures GoodMemory(PublishIn(s, c)) && GoodContext(PublishIn(s, c), d)
  {
    var r := RegionOf(s, c.which);
    assert GoodRegion(PublishedRegion(r, c));
    if d.Filling? && d.which == c.which {
      PublishedFiller(r, c, d);
    }
    hide GoodRegion, GoodFiller, PublishedBank;
  }

  lemma WriteKeepsShape(s: State, i: nat)
    requires GoodShape(s) && FirmwareEnabled(s, i, FirmwareStep.Write)
    ensures GoodShape(FirmwareMove(s, i, FirmwareStep.Write))
  {
    FirmwareFrames(s, i, FirmwareStep.Write);
    var s', c := FirmwareMove(s, i, FirmwareStep.Write), s.contexts[i];
    hide GoodContext, WriteIn, GoodMemory;
    WriteKeepsOthers(s, c, Outside);
    forall k | 0 <= k < |s.contexts| && k != i ensures GoodContext(s', s.contexts[k]) && Apart(s'.contexts[i], s.contexts[k]) {
      WriteKeepsOthers(s, c, s.contexts[k]);
    }
    ContextsKept(s, s', i);
  }

  lemma PublishKeepsShape(s: State, i: nat)
    requires GoodShape(s) && FirmwareEnabled(s, i, FirmwareStep.Publish)
    ensures GoodShape(FirmwareMove(s, i, FirmwareStep.Publish))
  {
    FirmwareFrames(s, i, FirmwareStep.Publish);
    var s', c := FirmwareMove(s, i, FirmwareStep.Publish), s.contexts[i];
    PublishKeepsOthers(s, c, Inside(c.bank));
    forall k | 0 <= k < |s.contexts| && k != i ensures GoodContext(s', s.contexts[k]) && Apart(s'.contexts[i], s.contexts[k]) {
      PublishKeepsOthers(s, c, s.contexts[k]);
    }
    ContextsKept(s, s', i);
  }

  // ----- Firmware steps and record memory ------------------------------------------------

  lemma WriteLinked(r: Region, bank: Bank, c: Context, clearing: bool)
    requires LinkedBank(r, bank, clearing) && c.Filling? && c.slot < r.slots && c.done < |c.record| == r.width
    requires bank.sem[c.slot] == SEM_FREE
    ensures LinkedBank(r, WrittenBank(bank, c), clearing)
  {
  }

  lemma PublishLinked(r: Region, bank: Bank, c: Context)
    requires LinkedBank(r, bank, false) && c.Filling? && c.slot < r.slots && |c.record| == r.width && c.done == r.width
    requires bank.sem[c.slot] == SEM_FREE && forall k :: 0 <= k < c.done ==> bank.cell[c.slot][k] == c.record[k]
    ensures LinkedBank(r, PublishedBank(bank, c), false)
  {
    hide Pending;
    assert bank.cell[c.slot] == c.record;
  }

  lemma WriteKeepsRegion(r: Region, w: Which, h: Host, c: Context)
    requires RegionInvariant(r, w, h) && GoodRegion(r) && c.Filling? && GoodFiller(r, c) && c.done < |c.record|
    requires Draining(h) != Some((w, c.bank))
    ensures RegionInvariant(WrittenRegion(r, c), w, h)
  {
    hide LinkedBank, HostLocals, Conserved, ClearingHere, Draining;
    var bank' := WrittenBank(r.banks[c.bank], c);
    WriteLinked(r, r.banks[c.bank], c, ClearingHere(h, w, c.bank));
    WriteConserved(r, w, h, c.bank, bank');
    BankReplaced(r, WrittenRegion(r, c), w, h, c.bank, bank');
  }

  lemma PublishKeepsRegion(r: Region, w: Which, h: Host, c: Context)
    requires RegionInvariant(r, w, h) && GoodRegion(r) && c.Filling? && GoodFiller(r, c) && c.done == |c.record|
    requires Draining(h) != Some((w, c.bank))
    ensures RegionInvariant(PublishedRegion(r, c), w, h)
  {
    var bank' := PublishedBank(r.banks[c.bank], c);
    PublishLinked(r, r.banks[c.bank], c);
    assert r.banks[c.bank].tag[c.slot].None?;
    PendingUpdate(r.banks[c.bank].tag, c.slot, c.record);
    PublishConserved(r, w, h, c.bank, bank', c.record);
    hide LinkedBank, HostLocals, GoodFiller, PublishedBank, Pending, Conserved;
    BankReplaced(r, PublishedRegion(r, c), w, h, c.bank, bank');
  }

  lemma WriteConserved(r: Region, w: Which, h: Host, b: nat, bank: Bank)
    requires Conserved(r, w, h) && b < 2 && bank.tag == r.banks[b].tag
    ensures Conserved(WithBank(r, b, bank), w, h)
  {
    hide Pending, InFlight;
    if b == 0 {
      assert WithBank(r, b, bank).banks[1] == r.banks[1];
    }
  }

  lemma PublishConserved(r: Region, w: Which, h: Host, b: nat, bank: Bank, record: Record)
    requires Conserved(r, w, h) && b < 2 && Pending(bank.tag) == Pending(r.banks[b].tag) + multiset{record}
    ensures Conserved(WithBank(r, b, bank).(published := r.published + multiset{record}), w, h)
  {
    hide Pending, InFlight;
    if b == 0 {
      assert WithBank(r, b, bank).banks[1] == r.banks[1];
    }
  }

  /** Replacing a bank the host is not draining. */
  lemma BankReplaced(r: Region, r': Region, w: Which, h: Host, b: nat, bank: Bank)
    requires RegionInvariant(r, w, h) && b < 2 && r'.banks == r.banks[b := bank] && r'.width == r.width && r'.slots == r.slots
    requires LinkedBank(r, bank, ClearingHere(h, w, b)) && Conserved(r', w, h) && Draining(h) != Some((w, b))
    ensures RegionInvariant(r', w, h)
  {
    hide LinkedBank, HostLocals, Conserved, ClearingHere, Draining;
    LocalsKept(r, r', w, h);
    OtherBankLinked(r, r', bank, ClearingHere(h, w, b));
    if b == 0 {
      OtherBankLinked(r, r', r.banks[1], ClearingHere(h, w, 1));
    } else {
      OtherBankLinked(r, r', r.banks[0], ClearingHere(h, w, 0));
    }
  }

  lemma OtherBankLinked(r: Region, r': Region, bank: Bank, clearing: bool)
    requires LinkedBank(r, bank, clearing) && r'.width == r.width && r'.slots == r.slots
    ensures LinkedBank(r', bank, clearing)
  {
  }

  /** The host's locals speak only of the bank it drains. */
  lemma LocalsKept(r: Region, r': Region, w: Which, h: Host)
    requires |r.banks| == |r'.banks| == 2 && HostLocals(r, w, h) && r'.width == r.width
    requires forall b :: 0 <= b < 2 && Draining(h) == Some((w, b)) ==> r'.banks[b] == r.banks[b]
    ensures HostLocals(r', w, h)
  {
  }

  function Other(w: Which): Which {
    if w.Flow? then Counter else Flow
  }

  /** A step that changes region w only. */
  lemma OneRegionChanged(s: State, s': State, w: Which)
    requires GoodShape(s') && Control(s') && s'.host == s.host && RegionInvariant(RegionOf(s', w), w, s.host)
    requires Invariant(s) && RegionOf(s', Other(w)) == RegionOf(s, Other(w))
    ensures Invariant(s')
  {
    hide GoodShape, Control, RegionInvariant;
  }

  lemma WriteChanges(s: State, i: nat)
    requires GoodShape(s) && FirmwareEnabled(s, i, FirmwareStep.Write)
    ensures var c, s' := s.contexts[i], FirmwareMove(s, i, FirmwareStep.Write);
      var r := RegionOf(s, c.which);
      && GoodContext(s, c)
      && RegionOf(s', c.which) == WrittenRegion(r, c)
      && RegionOf(s', Other(c.which)) == RegionOf(s, Other(c.which))
  {
    assert GoodContext(s, s.contexts[i]);
  }

  lemma PublishChanges(s: State, i: nat)
    requires GoodShape(s) && FirmwareEnabled(s, i, FirmwareStep.Publish)
    ensures var c, s' := s.contexts[i], FirmwareMove(s, i, FirmwareStep.Publish);
      && GoodContext(s, c)
      && RegionOf(s', c.which) == PublishedRegion(RegionOf(s, c.which), c)
      && RegionOf(s', Other(c.which)) == RegionOf(s, Other(c.which))
  {
    assert GoodContext(s, s.contexts[i]);
  }

  lemma FirmwareKeepsShapeAndControl(s: State, i: nat, move: FirmwareStep)
    requires GoodShape(s) && Control(s) && FirmwareEnabled(s, i, move)
    ensures var s' := FirmwareMove(s, i, move); GoodShape(s') && Control(s') && s'.host == s.host
  {
    FirmwareFrames(s, i, move);
    FirmwareControl(s, FirmwareMove(s, i, move), i, move);
    hide Control, FirmwareFrame;
    if move.Write? {
      WriteKeepsShape(s, i);
    } else if move.Publish? {
      PublishKeepsShape(s, i);
    } else {
      SilentKeepsShape(s, i, move);
    }
  }

  lemma FillersRegion(s: State, i: nat, move: FirmwareStep)
    requires Invariant(s) && FirmwareEnabled(s, i, move) && !Silent(move)
    ensures var c := s.contexts[i]; RegionInvariant(RegionOf(FirmwareMove(s, i, move), c.which), c.which, s.host)
  {
    hide Invariant, PublishedRegion, WrittenRegion, FirmwareMove, GoodShape, GoodFiller, GoodRegion, SlotFree, RegionInvariant, Control;
    var c := s.contexts[i];
    FillerFacts(s, i);
    if move.Write? {
      WriteChanges(s, i);
      WriteKeepsRegion(RegionOf(s, c.which), c.which, s.host, c);
    } else {
      PublishChanges(s, i);
      PublishKeepsRegion(RegionOf(s, c.which), c.which, s.host, c);
    }
  }

  lemma FillerFacts(s: State, i: nat)
    requires Invariant(s) && i < |s.contexts| && s.contexts[i].Filling?
    ensures GoodShape(s)
    ensures var c := s.contexts[i];
      && GoodRegion(RegionOf(s, c.which)) && GoodFiller(RegionOf(s, c.which), c)
      && RegionInvariant(RegionOf(s, c.which), c.which, s.host) && Draining(s.host) != Some((c.which, c.bank))
  {
    hide Control, RegionInvariant, GoodFiller, GoodRegion, GoodContexts;
    FillerIsOutsideDrain(s, i);
  }

  /** No firmware step, by whichever context, breaks the invariant. */
  lemma FirmwareKeepsInvariant(s: State, i: nat, move: FirmwareStep)
    requires Invariant(s) && FirmwareEnabled(s, i, move)
    ensures Invariant(FirmwareMove(s, i, move))
  {
    hide GoodShape, Control, RegionInvariant, FirmwareMove;
    FirmwareKeepsShapeAndControl(s, i, move);
    if Silent(move) {
      FirmwareFrames(s, i, move);
    } else {
      ActingContext(s, i);
      FillersRegion(s, i, move);
      OtherRegionKept(s, i, move);
      OneRegionChanged(s, FirmwareMove(s, i, move), s.contexts[i].which);
    }
  }

  lemma ActingContext(s: State, i: nat)
    requires GoodShape(s) && i < |s.contexts|
    ensures GoodMemory(s) && WellFormedContext(s, s.contexts[i])
  {
    assert GoodContext(s, s.contexts[i]);
  }

  lemma OtherRegionKept(s: State, i: nat, move: FirmwareStep)
    requires GoodShape(s) && FirmwareEnabled(s, i, move) && !Silent(move)
    ensures var w := Other(s.contexts[i].which); RegionOf(FirmwareMove(s, i, move), w) == RegionOf(s, w)
  {
    if move.Write? {
      WriteChanges(s, i);
    } else {
      PublishChanges(s, i);
    }
  }

  // ----- Host steps ----------------------------------------------------------------------

  lemma HostBankInRange(s: State)
    requires Control(s)
    ensures BankInRange(s.host)
  {
  }

  /** Steps of the host that touch no record memory. */
  predicate Quiet(h: Host) {
    !h.Clearing? && !h.Returning?
  }

  lemma QuietFrame(s: State, ok: bool)
    requires GoodMemory(s) && BankInRange(s.host) && Quiet(s.host)
    ensures var s' := HostMove(s, ok);
      s'.flow == s.flow && s'.counter == s.counter && s'.contexts == s.contexts && s'.processing == s.processing
  {
  }

  lemma AfterDrainControl(s: State, w: Which)
    requires Control(s) && !s.host.Settling?
    ensures Control(AfterDrain(s, w))
  {
  }

  /** Steps inside a drain: nothing but the host and the drained region changes. */
  lemma DrainControl(s: State, s': State)
    requires Control(s) && Draining(s.host).Some? && s'.curState == s.curState && s'.contexts == s.contexts
    requires s'.processing == s.processing && s'.flipped == s.flipped
    requires Draining(s'.host).Some? || s'.host.Returning?
    requires Draining(s'.host).Some? ==> Draining(s'.host) == Draining(s.host)
    ensures Control(s')
  {
  }

  lemma SwitchControl(s: State, ok: bool)
    requires GoodMemory(s) && Control(s) && HostEnabled(s)
    requires s.host.Resting? || s.host.ReadingState? || s.host.Flipping? || s.host.Settling? || s.host.CounterReadingState? || s.host.Waiting?
    ensures Control(HostMove(s, ok))
  {
    hide GoodRegion, GoodMemory;
  }

  lemma DrainFrame(s: State, ok: bool)
    requires GoodMemory(s) && BankInRange(s.host) && (s.host.Copying? || s.host.Clearing?)
    ensures var s' := HostMove(s, ok);
      && s'.curState == s.curState && s'.contexts == s.contexts && s'.processing == s.processing && s'.flipped == s.flipped
      && (Draining(s'.host) == Draining(s.host) || s'.host.Returning?)
  {
  }

  lemma HostControl(s: State, ok: bool)
    requires GoodMemory(s) && Control(s) && HostEnabled(s)
    ensures Control(HostMove(s, ok))
  {
    hide GoodMemory, CopyStep, ClearStep;
    if s.host.Copying? || s.host.Clearing? {
      DrainFrame(s, ok);
      DrainControl(s, HostMove(s, ok));
    } else if s.host.Returning? {
      hide Control;
      AfterDrainControl(s, s.host.which);
      AfterDrainIgnoresRegions(s, s.host.which, s.host.out);
    } else if s.host.Scanning? || s.host.Opening? {
      if ok {
        DrainControl(s, HostMove(s, ok));
      } else {
        AfterDrainControl(s, s.host.which);
      }
    } else {
      SwitchControl(s, ok);
    }
  }

  lemma AfterDrainIgnoresRegions(s: State, w: Which, out: seq<Entry>)
    requires Control(AfterDrain(s, w))
    ensures var r := RegionOf(s, w);
      Control(AfterDrain(WithRegion(s, w, r.(delivered := r.delivered + multiset(Records(out)))), w))
  {
  }

  lemma SlotReadable(r: Region, b: Bank, h: Host)
    requires h.Copying? && CopyProgress(r, b, h) && LinkedBank(r, b, false)
    ensures h.at <= |h.ready|
    ensures h.at < |h.ready| ==>
      var slot := h.ready[h.at];
      && slot < |b.cell| && slot < |b.tag| && |h.buffer| < |b.cell[slot]| == r.width
      && b.tag[slot].Some? && b.cell[slot] == b.tag[slot].value && h.buffer <= b.cell[slot]
      && FaithfulEntries(h.out, b.tag) && (h.out == [] || h.out[|h.out| - 1].index < slot)
  {
    hide TagsAt, Records, FaithfulEntries;
  }

  lemma CopyWord(r: Region, b: Bank, h: Host)
    requires h.Copying? && CopyProgress(r, b, h) && LinkedBank(r, b, false) && h.at < |h.ready|
    requires |h.buffer| + 1 < r.width
    ensures CopyProgress(r, b, h.(buffer := h.buffer + [b.cell[h.ready[h.at]][|h.buffer|]]))
  {
    hide LinkedBank, TagsAt, Records, ReadySlots, FaithfulEntries;
    SlotReadable(r, b, h);
    hide Pending;
    assert h.buffer + [b.cell[h.ready[h.at]][|h.buffer|]] == b.cell[h.ready[h.at]][..|h.buffer| + 1];
  }

  lemma CopySlot(r: Region, b: Bank, h: Host)
    requires h.Copying? && CopyProgress(r, b, h) && LinkedBank(r, b, false) && h.at < |h.ready|
    requires |h.buffer| + 1 == r.width
    ensures var e := Entry(h.buffer + [b.cell[h.ready[h.at]][|h.buffer|]], h.ready[h.at]);
      CopyProgress(r, b, h.(at := h.at + 1, buffer := [], out := h.out + [e]))
  {
    hide TagsAt, Records, ReadySlots, LinkedBank, FaithfulEntries;
    SlotReadable(r, b, h);
    var slot := h.ready[h.at];
    var record := h.buffer + [b.cell[slot][|h.buffer|]];
    assert record == b.cell[slot];
    NextSlot(r, b, h);
    RecordsAppend(h.out, Entry(record, slot));
    FaithfulAppend(h.out, Entry(record, slot), b.tag);
  }

  lemma FaithfulAppend(out: seq<Entry>, e: Entry, tag: seq<Option<Record>>)
    requires FaithfulEntries(out, tag) && e.index < |tag| && tag[e.index] == Some(e.record)
    requires out == [] || out[|out| - 1].index < e.index
    ensures FaithfulEntries(out + [e], tag)
  {
  }

  lemma NextSlot(r: Region, b: Bank, h: Host)
    requires h.Copying? && CopyProgress(r, b, h) && LinkedBank(r, b, false) && h.at < |h.ready|
    ensures h.ready[..h.at + 1][..h.at] == h.ready[..h.at]
    ensures h.at + 1 < |h.ready| ==> h.ready[h.at] < h.ready[h.at + 1] < |b.tag| && b.tag[h.ready[h.at + 1]].Some?
    ensures TagsAt(b.tag, h.ready[..h.at + 1]) == TagsAt(b.tag, h.ready[..h.at]) + multiset{b.tag[h.ready[h.at]].value}
  {
    hide TagsAt, Records, FaithfulEntries;
    assert h.ready[..h.at + 1][..h.at] == h.ready[..h.at];
    assert h.ready[..h.at + 1] == h.ready[..h.at] + [h.ready[h.at]];
    TagsAtAppend(b.tag, h.ready[..h.at], h.ready[h.at]);
  }

  lemma SkipSlot(r: Region, b: Bank, h: Host)
    requires h.Copying? && CopyProgress(r, b, h) && LinkedBank(r, b, false) && h.at < |h.ready|
    ensures CopyProgress(r, b, h.(at := h.at + 1, buffer := [], lost := h.lost + [b.tag[h.ready[h.at]].value]))
  {
    hide TagsAt, Records, ReadySlots, LinkedBank, FaithfulEntries;
    SlotReadable(r, b, h);
    NextSlot(r, b, h);
  }

  lemma CopyDone(r: Region, b: Bank, h: Host)
    requires h.Copying? && CopyProgress(r, b, h) && LinkedBank(r, b, false) && h.at == |h.ready|
    ensures multiset(Records(h.out)) + multiset(h.lost) == Pending(b.tag) && FaithfulEntries(h.out, b.tag)
  {
    hide Records, FaithfulEntries, TagsAt, Pending, ReadySlots;
    ReadySlotsArePending(b.sem, b.tag);
    assert h.ready[..h.at] == h.ready;
  }

  lemma StartCopy(r: Region, b: Bank, w: Which, k: nat)
    requires LinkedBank(r, b, false) && r.width > 0
    ensures CopyProgress(r, b, Copying(w, k, ReadySlots(b.sem), 0, [], [], []))
  {
    assert Records([]) == [];
  }

  lemma QuietLinked(r: Region, w: Which, h: Host, h': Host)
    requires Linked(r, w, h) && !h.Clearing?
    ensures Linked(r, w, h')
  {
  }

  lemma CopyLocals(s: State, ok: bool)
    requires GoodMemory(s) && s.host.Copying? && BankInRange(s.host)
    requires RegionInvariant(RegionOf(s, s.host.which), s.host.which, s.host)
    ensures HostLocals(RegionOf(s, s.host.which), s.host.which, HostMove(s, ok).host)
  {
    hide CopyProgress, LinkedBank, TagsAt, Records, Pending, FaithfulEntries, GoodMemory, Conserved, ReadySlots;
    var h := s.host;
    var r := RegionOf(s, h.which);
    assert |r.banks| == 2;
    var b := r.banks[h.bank];
    assert LinkedBank(r, b, false) && CopyProgress(r, b, h);
    SlotReadable(r, b, h);
    if h.at == |h.ready| {
      CopyDone(r, b, h);
    } else if !ok {
      SkipSlot(r, b, h);
    } else if |h.buffer| + 1 < r.width {
      CopyWord(r, b, h);
    } else {
      CopySlot(r, b, h);
    }
  }

  /** Where the drain of a region can be after a quiet step. */
  lemma QuietHost(s: State, ok: bool, w: Which)
    requires GoodMemory(s) && Quiet(s.host) && BankInRange(s.host)
    ensures var h, h' := s.host, HostMove(s, ok).host;
      && !h'.Returning?
      && (h'.Opening? ==> h' == h || (h.Scanning? && h'.ready == ReadySlots(RegionOf(s, h'.which).banks[h.bank].sem)
                                      && h'.bank == h.bank))
      && (h'.Copying? || h'.Clearing? ==> (h.Opening? || h.Copying?) && h'.which == h.which)
      && (h.Opening? && h'.Copying? ==> h' == Copying(h.which, h.bank, h.ready, 0, [], [], []))
      && (h.Opening? ==> !h'.Clearing?)
  {
  }

  lemma QuietLocals(s: State, ok: bool, w: Which)
    requires GoodMemory(s) && Quiet(s.host) && BankInRange(s.host) && RegionInvariant(RegionOf(s, w), w, s.host)
    ensures HostLocals(RegionOf(s, w), w, HostMove(s, ok).host)
  {
    var h, r := s.host, RegionOf(s, w);
    hide CopyProgress, LinkedBank, HostMove, TagsAt, Records, Pending, FaithfulEntries, ReadySlots;
    QuietHost(s, ok, w);
    if h.Copying? && h.which == w {
      CopyLocals(s, ok);
    } else if h.Opening? && h.which == w {
      StartCopy(r, r.banks[h.bank], w, h.bank);
    }
  }

  /** Quiet steps keep what is known about a region under the host's new program counter. */
  lemma QuietKeepsRegion(s: State, ok: bool, w: Which)
    requires GoodMemory(s) && Quiet(s.host) && BankInRange(s.host) && RegionInvariant(RegionOf(s, w), w, s.host)
    ensures RegionInvariant(RegionOf(s, w), w, HostMove(s, ok).host)
  {
    hide HostLocals, Linked, HostMove, GoodMemory;
    QuietLinked(RegionOf(s, w), w, s.host, HostMove(s, ok).host);
    QuietHost(s, ok, w);
    QuietLocals(s, ok, w);
  }

  // ----- Clearing and returning ----------------------------------------------------------

  function ClearedColumn(r: Region, h: Host): Region
    requires h.Clearing? && h.bank < |r.banks|
  {
    var bank := r.banks[h.bank];
    WithBank(r, h.bank, bank.(cell := ZeroColumn(bank.cell, h.column)))
  }

  function FreedRegion(r: Region, h: Host): Region
    requires h.Clearing? && h.bank < |r.banks|
  {
    var bank := r.banks[h.bank];
    WithBank(r, h.bank, bank.(sem := FreeSem(r.slots), tag := NoTags(r.slots))).(skipped := r.skipped + multiset(h.lost))
  }

  lemma ColumnKeepsRegion(r: Region, w: Which, h: Host)
    requires RegionInvariant(r, w, h) && h.Clearing? && h.which == w && h.bank < 2 && h.column < r.width
    ensures RegionInvariant(ClearedColumn(r, h), w, h.(column := h.column + 1))
  {
    hide LinkedBank, FaithfulEntries, Pending, ZeroColumn, Records;
    var r', h' := ClearedColumn(r, h), h.(column := h.column + 1);
    ZeroLinked(r, r.banks[h.bank], h.column);
    OtherBankLinked(r, r', r'.banks[h.bank], true);
    OtherBankLinked(r, r', r.banks[1 - h.bank], false);
    assert PendingIn(r') == PendingIn(r);
  }

  lemma ZeroLinked(r: Region, bank: Bank, column: nat)
    requires LinkedBank(r, bank, true)
    ensures LinkedBank(r, bank.(cell := ZeroColumn(bank.cell, column)), true)
  {
  }

  lemma FreedLinked(r: Region, bank: Bank)
    requires LinkedBank(r, bank, true)
    ensures LinkedBank(r, bank.(sem := FreeSem(r.slots), tag := NoTags(r.slots)), false)
    ensures Pending(NoTags(r.slots)) == multiset{}
  {
    PendingNone(NoTags(r.slots));
  }

  lemma FreedConserved(r: Region, w: Which, h: Host)
    requires Conserved(r, w, h) && h.Clearing? && h.which == w && h.bank < 2 && Pending(NoTags(r.slots)) == multiset{}
    requires multiset(Records(h.out)) + multiset(h.lost) == Pending(r.banks[h.bank].tag)
    ensures Conserved(FreedRegion(r, h), w, Returning(w, h.out))
  {
    hide Pending, Records, NoTags, FreeSem;
    if h.bank == 0 {
      assert FreedRegion(r, h).banks[1] == r.banks[1];
    }
  }

  lemma FreedLinkedRegion(r: Region, w: Which, h: Host)
    requires Linked(r, w, h) && h.Clearing? && h.which == w && h.bank < 2
    ensures Linked(FreedRegion(r, h), w, Returning(w, h.out)) && Pending(NoTags(r.slots)) == multiset{}
  {
    FreedLinked(r, r.banks[h.bank]);
    hide LinkedBank, NoTags, FreeSem, Pending;
    var r' := FreedRegion(r, h);
    OtherBankLinked(r, r', r'.banks[h.bank], false);
    OtherBankLinked(r, r', r.banks[1 - h.bank], false);
  }

  lemma FreedKeepsRegion(r: Region, w: Which, h: Host)
    requires RegionInvariant(r, w, h) && h.Clearing? && h.which == w && h.bank < 2
    ensures RegionInvariant(FreedRegion(r, h), w, Returning(w, h.out))
  {
    hide Linked, FaithfulEntries, Pending, Records, NoTags, FreeSem, Conserved, FreedRegion;
    FreedLinkedRegion(r, w, h);
    FreedConserved(r, w, h);
    assert |r.banks| == 2 by { LinkedTwoBanks(r, w, h); }
    assert |FreedRegion(r, h).banks| == 2 by { LinkedTwoBanks(FreedRegion(r, h), w, Returning(w, h.out)); }
  }

  lemma LinkedTwoBanks(r: Region, w: Which, h: Host)
    requires Linked(r, w, h)
    ensures |r.banks| == 2
  {
  }

  /** A region the host is not working on does not care about the host's step. */
  lemma OtherRegionInvariant(r: Region, w: Which, h: Host, h': Host)
    requires RegionInvariant(r, w, h) && (h.Clearing? || h.Returning?) && h.which != w
    requires (h'.Clearing? || h'.Returning? ==> h'.which != w) && !h'.Opening? && !h'.Copying?
    ensures RegionInvariant(r, w, h')
  {
  }

  lemma ReturnKeepsRegion(r: Region, w: Which, h: Host, h': Host)
    requires RegionInvariant(r, w, h) && h.Returning? && h.which == w && Draining(h').None? && !h'.Returning?
    ensures RegionInvariant(r.(delivered := r.delivered + multiset(Records(h.out))), w, h')
  {
    hide LinkedBank, Pending, Records;
    var r' := r.(delivered := r.delivered + multiset(Records(h.out)));
    OtherBankLinked(r, r', r.banks[0], false);
    OtherBankLinked(r, r', r.banks[1], false);
    assert PendingIn(r') == PendingIn(r);
  }

  lemma FillerKept(r: Region, r': Region, c: Context)
    requires GoodRegion(r) && GoodRegion(r') && c.Filling? && GoodFiller(r, c)
    requires r'.banks[c.bank] == r.banks[c.bank] && r'.width == r.width && r'.slots == r.slots
    ensures GoodFiller(r', c)
  {
  }

  lemma ClearedGood(r: Region, h: Host)
    requires GoodRegion(r) && h.Clearing? && h.bank < 2
    ensures GoodRegion(ClearedColumn(r, h)) && GoodRegion(FreedRegion(r, h))
  {
  }

  /** Clearing one column, or freeing all semaphores; nothing else changes. */
  lemma ClearMoves(s: State, ok: bool)
    requires GoodMemory(s) && BankInRange(s.host) && s.host.Clearing?
    ensures var h, s', r := s.host, HostMove(s, ok), RegionOf(s, s.host.which);
      && RegionOf(s', h.which) == (if h.column < r.width then ClearedColumn(r, h) else FreedRegion(r, h))
      && RegionOf(s', Other(h.which)) == RegionOf(s, Other(h.which))
      && s'.contexts == s.contexts && s'.processing == s.processing
      && s'.host == if h.column < r.width then h.(column := h.column + 1) else Returning(h.which, h.out)
  {
    hide GoodRegion, ZeroColumn, FreeSem, NoTags;
    assert |RegionOf(s, s.host.which).banks| == 2 by { MemoryBanks(s); }
  }

  lemma MemoryBanks(s: State)
    requires GoodMemory(s)
    ensures |s.flow.banks| == |s.counter.banks| == 2
  {
  }

  lemma ClearedKept(r: Region, h: Host)
    requires GoodRegion(r) && h.Clearing? && h.bank < 2
    ensures BanksKept(r, ClearedColumn(r, h), h) && BanksKept(r, FreedRegion(r, h), h)
  {
    hide GoodBank, FreeSem, NoTags, ZeroColumn;
  }

  ghost predicate BanksKept(r: Region, r': Region, h: Host) {
    && |r.banks| == |r'.banks| == 2 && r'.width == r.width && r'.slots == r.slots
    && (forall b :: 0 <= b < 2 && (h.Clearing? ==> b != h.bank) ==> r'.banks[b] == r.banks[b])
  }

  lemma ClearKeepsMemory(s: State, ok: bool)
    requires GoodMemory(s) && BankInRange(s.host) && (s.host.Clearing? || s.host.Returning?)
    ensures var s' := HostMove(s, ok);
      && GoodMemory(s') && s'.contexts == s.contexts
      && BanksKept(s.flow, s'.flow, s.host) && BanksKept(s.counter, s'.counter, s.host)
  {
    if s.host.Clearing? {
      ClearedGood(RegionOf(s, s.host.which), s.host);
      ClearedKept(RegionOf(s, s.host.which), s.host);
      ClearMoves(s, ok);
      hide HostMove, ClearedColumn, FreedRegion, GoodBank;
    } else {
      hide GoodBank, Records;
    }
  }

  lemma ClearKeepsShape(s: State, ok: bool)
    requires GoodShape(s) && Control(s) && (s.host.Clearing? || s.host.Returning?)
    ensures GoodShape(HostMove(s, ok))
  {
    hide GoodRegion, GoodFiller, HostMove;
    HostBankInRange(s);
    CountZero(s.contexts, Retired(s));
    var s' := HostMove(s, ok);
    ClearKeepsMemory(s, ok);
    forall i | 0 <= i < |s.contexts| ensures GoodContext(s', s.contexts[i]) {
      var c := s.contexts[i];
      assert GoodContext(s, c);
      if c.Filling? {
        assert InBank(c, c.bank);
        FillerKept(RegionOf(s, c.which), RegionOf(s', c.which), c);
      }
    }
  }

  lemma ClearKeepsOther(s: State, ok: bool, w: Which)
    requires GoodMemory(s) && BankInRange(s.host) && s.host.Clearing? && RegionInvariant(RegionOf(s, w), w, s.host) && s.host.which != w
    ensures RegionInvariant(RegionOf(HostMove(s, ok), w), w, HostMove(s, ok).host)
  {
    hide RegionInvariant, GoodMemory, HostMove, ClearedColumn, FreedRegion, RegionOf;
    ClearMoves(s, ok);
    OtherRegionInvariant(RegionOf(s, w), w, s.host, HostMove(s, ok).host);
  }

  lemma ClearKeepsDrained(s: State, ok: bool)
    requires GoodMemory(s) && BankInRange(s.host) && s.host.Clearing?
    requires RegionInvariant(RegionOf(s, s.host.which), s.host.which, s.host)
    ensures RegionInvariant(RegionOf(HostMove(s, ok), s.host.which), s.host.which, HostMove(s, ok).host)
  {
    hide RegionInvariant, GoodMemory, HostMove, ClearedColumn, FreedRegion;
    var h, r := s.host, RegionOf(s, s.host.which);
    assert |r.banks| == 2 by { MemoryBanks(s); }
    ClearMoves(s, ok);
    hide RegionOf;
    if h.column < r.width {
      ColumnKeepsRegion(r, h.which, h);
    } else {
      FreedKeepsRegion(r, h.which, h);
    }
  }

  lemma ClearKeepsRegions(s: State, ok: bool, w: Which)
    requires GoodMemory(s) && BankInRange(s.host) && s.host.Clearing? && RegionInvariant(RegionOf(s, w), w, s.host)
    ensures RegionInvariant(RegionOf(HostMove(s, ok), w), w, HostMove(s, ok).host)
  {
    hide RegionInvariant, GoodMemory, HostMove, RegionOf;
    if s.host.which == w {
      ClearKeepsDrained(s, ok);
    } else {
      ClearKeepsOther(s, ok, w);
    }
  }

  lemma ReturnMoves(s: State, ok: bool, w: Which)
    requires GoodMemory(s) && s.host.Returning?
    ensures var r, s' := RegionOf(s, w), HostMove(s, ok);
      && RegionOf(s', w) == (if s.host.which == w then r.(delivered := r.delivered + multiset(Records(s.host.out))) else r)
      && Draining(s'.host).None? && !s'.host.Returning?
  {
    hide GoodMemory, Records;
  }

  lemma ReturnKeepsRegions(s: State, ok: bool, w: Which)
    requires GoodMemory(s) && s.host.Returning? && RegionInvariant(RegionOf(s, w), w, s.host)
    ensures RegionInvariant(RegionOf(HostMove(s, ok), w), w, HostMove(s, ok).host)
  {
    hide RegionInvariant, GoodMemory, Records, RegionOf, HostMove;
    ReturnMoves(s, ok, w);
    var h, r, s' := s.host, RegionOf(s, w), HostMove(s, ok);
    if h.which != w {
      OtherRegionInvariant(r, w, h, s'.host);
    } else {
      ReturnKeepsRegion(r, w, h, s'.host);
    }
  }

  lemma QuietKeepsShape(s: State, ok: bool)
    requires GoodShape(s) && BankInRange(s.host) && Quiet(s.host)
    ensures GoodShape(HostMove(s, ok))
  {
    QuietFrame(s, ok);
    var s' := HostMove(s, ok);
    forall i | 0 <= i < |s.contexts| ensures GoodContext(s', s.contexts[i]) {
      assert GoodContext(s, s.contexts[i]);
    }
    hide HostMove;
  }

  /** No host step, successful or failing, breaks the invariant. */
  lemma HostKeepsInvariant(s: State, ok: bool)
    requires Invariant(s) && HostEnabled(s)
    ensures BankInRange(s.host) && Invariant(HostMove(s, ok))
  {
    hide RegionInvariant, GoodContexts, Control, GoodMemory;
    HostBankInRange(s);
    HostControl(s, ok);
    if Quiet(s.host) {
      QuietKeepsShape(s, ok);
      QuietFrame(s, ok);
      QuietKeepsRegion(s, ok, Flow);
      QuietKeepsRegion(s, ok, Counter);
    } else {
      ClearKeepsShape(s, ok);
      if s.host.Clearing? {
        ClearKeepsRegions(s, ok, Flow);
        ClearKeepsRegions(s, ok, Counter);
      } else {
        ReturnKeepsRegions(s, ok, Flow);
        ReturnKeepsRegions(s, ok, Counter);
      }
    }
    hide HostMove;
  }

  // ----- Whole runs ----------------------------------------------------------------------

  lemma InitialInvariant(s: State)
    requires Initial(s)
    ensures Invariant(s)
  {
  }

  /** A flip that lands although it was reported as failed keeps the invariant if it is harmless. */
  lemma LandedFlipKeepsInvariant(s: State)
    requires Invariant(s) && s.host.Flipping? && HarmlessStep(s, LandedFlip)
    ensures Invariant(LandFlip(s))
  {
    hide GoodContexts, GoodRegion, LinkedBank, PendingIn, Settled;
    LandFlipFrame(s);
    var s' := LandFlip(s);
    forall w: Which ensures RegionInvariant(RegionOf(s', w), w, s'.host) {
      assert RegionInvariant(RegionOf(s, w), w, s.host);
    }
    assert RegionOf(s', Flow) == s'.flow && RegionOf(s', Counter) == s'.counter;
  }

  lemma LandFlipFrame(s: State)
    requires GoodShape(s) && s.host.Flipping? && Control(s)
    ensures var s' := LandFlip(s);
      && s'.flow == s.flow && s'.counter == s.counter && s'.contexts == s.contexts && s'.processing == s.processing
      && s'.flipped == s.flipped && s'.curState == 1 - s.host.retiring
      && GoodShape(s') && Retired(s') == s.host.retiring && (HarmlessStep(s, LandedFlip) ==> Control(s'))
      && s'.host == if s.counter.slots > 0 then CounterReadingState else Resting
  {
    hide GoodRegion, GoodFiller;
    var s' := LandFlip(s);
    forall i | 0 <= i < |s.contexts| ensures GoodContext(s', s.contexts[i]) {
      assert GoodContext(s, s.contexts[i]);
    }
  }

  lemma NextKeepsInvariant(s: State, step: Step, s': State)
    requires Invariant(s) && Next(s, step, s') && HarmlessStep(s, step)
    ensures Invariant(s')
  {
    hide Invariant, WellFormed;
    match step
    case Firmware(i, move) => FirmwareKeepsInvariant(s, i, move);
    case HostStep(ok) => HostKeepsInvariant(s, ok);
    case LandedFlip => LandedFlipKeepsInvariant(s);
  }

  /** Every state of every run satisfies the invariant. */
  lemma {:induction false} EveryRunSafe(states: seq<State>, steps: seq<Step>, n: nat)
    requires IsRun(states, steps) && n < |states|
    ensures Invariant(states[n])
  {
    hide Invariant, Initial, HarmlessStep;
    if n == 0 {
      InitialInvariant(states[0]);
    } else {
      EveryRunSafe(states, steps, n - 1);
      assert Next(states[n - 1], steps[n - 1], states[n]) && HarmlessStep(states[n - 1], steps[n - 1]);
      NextKeepsInvariant(states[n - 1], steps[n - 1], states[n]);
    }
  }

  lemma InvariantWellFormed(s: State)
    requires Invariant(s)
    ensures WellFormed(s)
  {
    hide Linked, Conserved, HostLocals, GoodRegion;
    forall i | 0 <= i < |s.contexts| ensures WellFormedContext(s, s.contexts[i]) {
      assert GoodContext(s, s.contexts[i]);
    }
  }
}
