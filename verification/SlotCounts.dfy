/** The semaphores of every generation count the handlers that hold them. */
module SlotCounts {
  import opened Requests
  import opened Handler
  import opened HandlerFacts
  import opened Effects
  import opened Runtime
  import opened Coherence

  /** How many handlers hold the semaphore. */
  function Holders(threads: seq<Thread>, slot: Slot): nat {
    if threads == [] then 0
    else Holders(threads[..|threads| - 1], slot) + (if slot in threads[|threads| - 1].slots then 1 else 0)
  }

  function Held(t: Thread, slot: Slot): nat {
    if slot in t.slots then 1 else 0
  }

  lemma {:induction false} HoldersAfter(threads: seq<Thread>, id: nat, n: Thread, slot: Slot)
    requires id < |threads|
    ensures Holders(threads[id := n], slot) == Holders(threads, slot) - Held(threads[id], slot) + Held(n, slot)
  {
    var last := |threads| - 1;
    if id < last {
      HoldersAfter(threads[..last], id, n, slot);
      assert threads[id := n][..last] == threads[..last][id := n];
    } else {
      assert threads[id := n][..last] == threads[..last];
    }
  }

  lemma {:induction false} HolderCounts(threads: seq<Thread>, id: nat, slot: Slot)
    requires id < |threads| && slot in threads[id].slots
    ensures Holders(threads, slot) >= 1
  {
    if id < |threads| - 1 {
      HolderCounts(threads[..|threads| - 1], id, slot);
    }
  }

  lemma {:induction false} NoHolders(threads: seq<Thread>, slot: Slot)
    requires forall i | 0 <= i < |threads| :: threads[i].slots == []
    ensures Holders(threads, slot) == 0
  {
    if threads != [] {
      NoHolders(threads[..|threads| - 1], slot);
    }
  }

  predicate Distinct(slots: seq<Slot>) {
    forall i, j | 0 <= i < j < |slots| :: slots[i] != slots[j]
  }

  /** Slots held are of generations that exist, and none is held twice. */
  predicate SlotsFit(gens: map<nat, Generation>, t: Thread) {
    Distinct(t.slots) && forall slot | slot in t.slots :: slot.gen in gens
  }

  /** Each count is the number of handlers holding the slot, and within the limit. */
  ghost predicate Tallied(gens: map<nat, Generation>, counts: map<Slot, nat>, threads: seq<Thread>) {
    && (forall slot: Slot :: CountOf(counts, slot) == Holders(threads, slot))
    && (forall slot | slot in counts :: slot.gen in gens && counts[slot] <= Limit(gens, slot))
    && (forall i | 0 <= i < |threads| :: SlotsFit(gens, threads[i]))
  }

  ghost predicate Counted(s: State) {
    Tallied(s.gens, s.counts, s.threads)
  }

  lemma HeldAfter(t: Thread, e: Event, n: Thread, slot: Slot)
    requires SlotsChange(t.slots, e, n.slots) && Distinct(t.slots)
    ensures Distinct(n.slots)
    ensures e == Acquire(slot, true) ==> Held(t, slot) == 0 && Held(n, slot) == 1
    ensures e == Release(slot) ==> Held(t, slot) == 1 && Held(n, slot) == 0
    ensures e != Acquire(slot, true) && e != Release(slot) ==> Held(n, slot) == Held(t, slot)
  {
    if e.Release? && e.slot != slot && slot in t.slots {
      var i :| 0 <= i < |t.slots| && t.slots[i] == slot;
      assert n.slots[i] == slot;
    }
  }

  /** A step changes one count, by the slot its handler takes or gives back. */
  lemma CountAfter(s: State, id: nat, e: Event, n: Thread, slot: Slot)
    requires Counted(s) && id < |s.threads| && SlotsChange(s.threads[id].slots, e, n.slots)
    ensures CountOf(CountsAfter(s.counts, e), slot) == Holders(s.threads[id := n], slot)
  {
    assert SlotsFit(s.gens, s.threads[id]);
    HeldAfter(s.threads[id], e, n, slot);
    HoldersAfter(s.threads, id, n, slot);
    if slot in s.threads[id].slots {
      HolderCounts(s.threads, id, slot);
    }
  }

  lemma StepCounts(s: State, id: nat, e: Event, n: Thread)
    requires Counted(s) && id < |s.threads| && SlotGuard(s, e) && SlotsChange(s.threads[id].slots, e, n.slots)
    ensures Tallied(s.gens, CountsAfter(s.counts, e), s.threads[id := n])
  {
    var after := s.threads[id := n];
    forall slot: Slot
      ensures CountOf(CountsAfter(s.counts, e), slot) == Holders(after, slot)
    {
      CountAfter(s, id, e, n, slot);
    }
    forall i | 0 <= i < |after|
      ensures SlotsFit(s.gens, after[i])
    {
      assert SlotsFit(s.gens, s.threads[i]);
      if i == id {
        SlotsStayFit(s.gens, s.threads[id], e, n);
      }
    }
  }

  lemma SlotsStayFit(gens: map<nat, Generation>, t: Thread, e: Event, n: Thread)
    requires SlotsFit(gens, t) && SlotsChange(t.slots, e, n.slots) && (e.Acquire? ==> e.slot.gen in gens)
    ensures SlotsFit(gens, n)
  {
    if e.Acquire? {
      HeldAfter(t, e, n, e.slot);
    } else if e.Release? {
      HeldAfter(t, e, n, e.slot);
      assert forall slot | slot in n.slots :: slot in t.slots;
    }
  }

  lemma ArriveCounts(s: State, t: Thread)
    requires Counted(s) && t.slots == []
    ensures Tallied(s.gens, s.counts, s.threads + [t])
  {
    var after := s.threads + [t];
    assert after[..|s.threads|] == s.threads;
    forall slot: Slot
      ensures CountOf(s.counts, slot) == Holders(after, slot)
    {
      assert Holders(after, slot) == Holders(s.threads, slot);
    }
  }

  lemma GensCount(gens: map<nat, Generation>, after: map<nat, Generation>, counts: map<Slot, nat>, threads: seq<Thread>)
    requires Tallied(gens, counts, threads) && Extends(gens, after)
    ensures Tallied(after, counts, threads)
  {
    forall i | 0 <= i < |threads|
      ensures SlotsFit(after, threads[i])
    {
      assert SlotsFit(gens, threads[i]);
    }
  }

  lemma CountedKeeps(s: State, a: Action)
    requires Counted(s) && Coherent(s) && Enabled(s, a)
    ensures Counted(Apply(s, a))
  {
    hide ThreadsOk, Inv, Advance, FlagOk, StateGuard, LockGuard, OAuthGuard, StoreGuard, SlotGuard, CountsAfter, Evolves,
      MutexChange, RecordsChange, SlotsChange, Tallied, OwnersAfter, MutexesAfter, AttemptsAfter, TakenAfter, Detected;
    match a
    case Step(id, e, changed) =>
      HandlerOk(s, id, s.threads[id]);
      AdvanceChanges(s.threads[id], e);
      StepCounts(s, id, e, Advance(s.threads[id], e).UnwrapOr(s.threads[id]));
    case Arrive(req) => ArriveCounts(s, Fresh(req));
    case ReloadBuild(_, _) => GensCount(s.gens, Apply(s, a).gens, s.counts, s.threads);
    case Detect(of, found) =>
      DetectedFlag(s.gens[of], found);
      GensCount(s.gens, Apply(s, a).gens, s.counts, s.threads);
    case _ =>
  }

  /** A release finds its slot taken: it never blocks. */
  lemma ReleaseNeverBlocks(s: State, id: nat, slot: Slot)
    requires Counted(s) && Coherent(s) && id < |s.threads| && Advance(s.threads[id], Release(slot)).Some?
    ensures SlotGuard(s, Release(slot))
  {
    hide Inv, Advance, FlagsOk;
    HandlerOk(s, id, s.threads[id]);
    SlotHeld(s.threads[id], slot);
    HolderCounts(s.threads, id, slot);
  }

  lemma SlotHeld(t: Thread, slot: Slot)
    requires Inv(t) && Advance(t, Release(slot)).Some?
    ensures slot in t.slots
  {
    hide Advance, Inv;
    AdvanceChanges(t, Release(slot));
  }

  /** With every handler returned, every semaphore is free again. */
  lemma AllDrained(s: State)
    requires Counted(s) && Coherent(s) && forall i | 0 <= i < |s.threads| :: s.threads[i].pc.Done?
    ensures forall slot: Slot :: CountOf(s.counts, slot) == 0
  {
    hide ThreadsOk, FlagOk;
    forall i | 0 <= i < |s.threads|
      ensures s.threads[i].slots == []
    {
      HandlerOk(s, i, s.threads[i]);
      DoneHoldsNothing(s.threads[i]);
    }
    forall slot: Slot
      ensures CountOf(s.counts, slot) == 0
    {
      NoHolders(s.threads, slot);
    }
  }

  lemma DoneHoldsNothing(t: Thread)
    requires Inv(t) && t.pc.Done?
    ensures t.slots == [] && t.mutex.None?
  {
    hide SessionFits, PointFacts, HistoryOk, AnsweredOnce, PagesInScan, LockedNow;
  }
}
