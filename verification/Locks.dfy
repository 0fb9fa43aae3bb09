/** The resource locks: one holder per key, no handler holding two, and no deadlock. */
module Locks {
  import opened Prelude
  import opened Requests
  import opened Handler
  import opened HandlerFacts
  import opened Effects
  import opened Runtime
  import opened Coherence

  /** Each key has a mutex of its own. */
  predicate TableOk(mutexOf: map<string, nat>) {
    && (forall key | key in mutexOf :: mutexOf[key] < |mutexOf|)
    && (forall a, b | a in mutexOf && b in mutexOf && mutexOf[a] == mutexOf[b] :: a == b)
  }

  /** A mutex wanted or held is the one of the handler's own key; a held one is registered to the handler. */
  predicate ThreadLocks(mutexOf: map<string, nat>, owner: map<nat, nat>, id: nat, t: Thread) {
    && (t.pc.WantLock? ==> KeyOf(t) in mutexOf && mutexOf[KeyOf(t)] == t.pc.wanted)
    && (t.mutex.Some? ==>
          KeyOf(t) in mutexOf && mutexOf[KeyOf(t)] == t.mutex.value && t.mutex.value in owner && owner[t.mutex.value] == id)
  }

  ghost predicate OwnersOk(owner: map<nat, nat>, threads: seq<Thread>) {
    forall mutex | mutex in owner :: owner[mutex] < |threads| && threads[owner[mutex]].mutex == Some(mutex)
  }

  ghost predicate Guarded(mutexOf: map<string, nat>, owner: map<nat, nat>, threads: seq<Thread>) {
    && TableOk(mutexOf)
    && OwnersOk(owner, threads)
    && (forall i | 0 <= i < |threads| :: ThreadLocks(mutexOf, owner, i, threads[i]))
  }

  ghost predicate Locked(s: State) {
    Guarded(s.mutexOf, s.owner, s.threads)
  }

  lemma TableGrows(mutexOf: map<string, nat>, key: string)
    requires TableOk(mutexOf)
    ensures TableOk(mutexOf[key := MutexFor(mutexOf, key)])
  {
    if key !in mutexOf {
      assert mutexOf[key := |mutexOf|].Keys == mutexOf.Keys + {key};
    }
  }

  lemma KeyStays(t: Thread, e: Event, n: Thread)
    requires RecordsChange(t, e, n) && t.session.Some?
    ensures KeyOf(n) == KeyOf(t)
  {
    hide LockKey, SessionFor;
  }

  /** The stepping handler's own lock records. */
  lemma OwnLocks(s: State, id: nat, t: Thread, e: Event, n: Thread)
    requires ThreadLocks(s.mutexOf, s.owner, id, t) && LockGuard(s, t, e) && LockStep(t, e, n)
    ensures ThreadLocks(MutexesAfter(s.mutexOf, t, e), OwnersAfter(s.owner, id, t, e), id, n)
  {
    hide KeyOf, SessionFor;
    if t.session.Some? {
      KeyStays(t, e, n);
    }
  }

  /** Another handler's records are untouched, because its mutex is registered to it. */
  lemma OtherLocks(s: State, id: nat, t: Thread, e: Event, other: nat, o: Thread)
    requires ThreadLocks(s.mutexOf, s.owner, id, t) && ThreadLocks(s.mutexOf, s.owner, other, o) && other != id && LockGuard(s, t, e)
    ensures ThreadLocks(MutexesAfter(s.mutexOf, t, e), OwnersAfter(s.owner, id, t, e), other, o)
  {
    hide KeyOf;
  }

  lemma OwnersStay(s: State, id: nat, t: Thread, e: Event, n: Thread)
    requires OwnersOk(s.owner, s.threads) && IsAt(s.threads, id, t) && MutexChange(t, e, n.mutex)
    requires ThreadLocks(s.mutexOf, s.owner, id, t) && LockGuard(s, t, e)
    ensures OwnersOk(OwnersAfter(s.owner, id, t, e), Replaced(s.threads, id, n))
  {
    hide KeyOf;
  }

  lemma StepLocks(s: State, id: nat, t: Thread, e: Event, n: Thread)
    requires Locked(s) && IsAt(s.threads, id, t) && LockGuard(s, t, e) && LockStep(t, e, n)
    ensures Guarded(MutexesAfter(s.mutexOf, t, e), OwnersAfter(s.owner, id, t, e), Replaced(s.threads, id, n))
  {
    hide ThreadLocks, OwnersOk, TableOk, OwnersAfter, LockGuard, KeyOf, RecordsChange, MutexChange;
    assert ThreadLocks(s.mutexOf, s.owner, id, s.threads[id]);
    TableGrows(s.mutexOf, KeyOf(t));
    OwnersStay(s, id, t, e, n);
    var after := Replaced(s.threads, id, n);
    forall i | 0 <= i < |after|
      ensures ThreadLocks(MutexesAfter(s.mutexOf, t, e), OwnersAfter(s.owner, id, t, e), i, after[i])
    {
      if i == id {
        OwnLocks(s, id, t, e, n);
      } else {
        assert ThreadLocks(s.mutexOf, s.owner, i, s.threads[i]);
        OtherLocks(s, id, t, e, i, s.threads[i]);
      }
    }
  }

  lemma ArriveLocks(s: State, t: Thread)
    requires Locked(s) && t.mutex.None? && !t.pc.WantLock?
    ensures Guarded(s.mutexOf, s.owner, s.threads + [t])
  {
    hide TableOk, KeyOf;
    var after := s.threads + [t];
    forall i | 0 <= i < |after|
      ensures ThreadLocks(s.mutexOf, s.owner, i, after[i])
    {
      assert i < |s.threads| ==> ThreadLocks(s.mutexOf, s.owner, i, s.threads[i]);
    }
  }

  lemma LockedKeeps(s: State, a: Action)
    requires Locked(s) && Coherent(s) && Enabled(s, a)
    ensures Locked(Apply(s, a))
  {
    hide Advance, ThreadsOk, FlagOk, GensOk, LockGuard, StateGuard, SlotGuard, OAuthGuard, StoreGuard, Evolves,
      KeyOf, Guarded, OwnersAfter, MutexesAfter;
    match a
    case Step(id, e, _) =>
      HandlerOk(s, id, s.threads[id]);
      LockSteps(s.threads[id], e);
      StepLocks(s, id, s.threads[id], e, Advance(s.threads[id], e).UnwrapOr(s.threads[id]));
    case Arrive(req) => ArriveLocks(s, Fresh(req));
    case _ =>
  }

  /** Per key at most one handler is between lock and unlock. */
  lemma MutualExclusion(s: State, i: nat, j: nat)
    requires Coherent(s) && Locked(s) && i < |s.threads| && j < |s.threads|
    requires LockedNow(s.threads[i].log) && LockedNow(s.threads[j].log) && KeyOf(s.threads[i]) == KeyOf(s.threads[j])
    ensures i == j
  {
    hide ThreadsOk, FlagOk, GensOk, KeyOf, LockedNow, TableOk, OwnersOk;
    HandlerOk(s, i, s.threads[i]);
    HandlerOk(s, j, s.threads[j]);
    LockHeld(s.threads[i]);
    LockHeld(s.threads[j]);
    assert ThreadLocks(s.mutexOf, s.owner, i, s.threads[i]);
    assert ThreadLocks(s.mutexOf, s.owner, j, s.threads[j]);
  }

  lemma LockHeld(t: Thread)
    requires Inv(t)
    ensures LockedNow(t.log) <==> t.mutex.Some?
  {
    hide LockedNow, SessionFits, Shape, PointFacts, HistoryOk, AnsweredOnce, PagesInScan;
  }
}
