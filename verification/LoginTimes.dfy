/** How long a login may take: in every run, exactly when a state token that was stored is taken again. */
module LoginTimes {
  import opened Prelude
  import opened Config
  import opened Requests
  import opened Handler
  import opened HandlerFacts
  import opened Effects
  import opened OAuthStore
  import opened Runtime
  import opened Coherence
  import opened SlotCounts
  import opened Locks
  import opened Logins
  import opened Ownership
  import opened Gateway

  /** The action stores a login under this state token, for an authorize call whose settings have this maximal age. */
  predicate Stores(s: State, a: Action, state: string, now: int, maxAge: int) {
    a.Step? && a.event == PutAttempt(now, true) && a.id < |s.threads| &&
    s.threads[a.id].pc.OAuthPut? && s.threads[a.id].pc.pending == state && s.threads[a.id].pc.attemptView.cfg.authMaxAge == maxAge
  }

  /** The action is a callback's take of this state token. */
  predicate Takes(s: State, a: Action, state: string) {
    a.Step? && a.event.TakeAttempt? && a.id < |s.threads| && s.threads[a.id].pc == Pc.OAuthTake(state)
  }

  /** The clock reading that a put or a take works with. */
  function Reading(a: Action): Option<int> {
    if a.Step? && a.event.PutAttempt? then Some(a.event.now)
    else if a.Step? && a.event.TakeAttempt? then Some(a.event.now)
    else None
  }

  ghost predicate StoredAt(s0: State, actions: seq<Action>, k: nat, state: string, now: int, maxAge: int) {
    k < |actions| && Comes(s0, actions, k) && Stores(Before(s0, actions, k), actions[k], state, now, maxAge)
  }

  ghost predicate TakenAt(s0: State, actions: seq<Action>, k: nat, state: string) {
    k < |actions| && Comes(s0, actions, k) && Takes(Before(s0, actions, k), actions[k], state)
  }

  /** The action at k leaves a login alone that may be completed until the deadline: no reload empties the
      table, nobody takes the token, and no put or take reads a later clock. */
  ghost predicate Leaves(s0: State, actions: seq<Action>, k: nat, state: string, deadline: int) {
    k < |actions| && !actions[k].ReloadClear? && !TakenAt(s0, actions, k, state) &&
    (Reading(actions[k]).Some? ==> Reading(actions[k]).value <= deadline)
  }

  /** Every action between two of them leaves the login alone. */
  ghost predicate Untouched(s0: State, actions: seq<Action>, p: nat, q: nat, state: string, deadline: int) {
    forall k: nat | p < k < q :: Leaves(s0, actions, k, state, deadline)
  }

  // ------------------------------------------------------------- one action

  /** The token was drawn, and no handler is about to store it. */
  predicate Settled(s: State, state: string) {
    state in s.drawn && forall i | 0 <= i < |s.threads| :: Pending(s.threads[i]) != Some(state)
  }

  /** After its step a handler is about to store a token only if it drew it, or was about to before. */
  lemma PendingStep(s: State, id: nat, t: Thread, e: Event, n: Thread, state: string)
    requires LoginsOk(s) && IsAt(s.threads, id, t) && LoginStep(t, e, n) && OAuthGuard(s, t, e) && StateGuard(s, t, e) && Settled(s, state)
    ensures Pending(n) != Some(state)
  {
    hide TokensOk, Pending, CarriesLogin, PutInto, TakeFrom;
    CarriedAfter(s, t, e, n);
    if e.DrawState? {
      PendingDrawn(n, e.state);
    }
  }

  lemma SettledKeeps(s: State, a: Action, state: string)
    requires Sound(s) && Enabled(s, a) && Settled(s, state)
    ensures Settled(Apply(s, a), state)
  {
    hide Coherent, Counted, Locked, LoginsOk, Advance, Evolves, Detected, CountsAfter, MutexesAfter, OwnersAfter, AttemptsAfter, TakenAfter,
      StateGuard, SlotGuard, LockGuard, OAuthGuard, StoreGuard, LoginStep;
    match a
    case Arrive(req) => FreshPendsNothing(req);
    case Step(id, e, after) =>
      StepIsLogin(s, id, s.threads[id], e);
      PendingStep(s, id, s.threads[id], e, Advance(s.threads[id], e).UnwrapOr(s.threads[id]), state);
    case _ =>
  }

  lemma StepIsLogin(s: State, id: nat, t: Thread, e: Event)
    requires Sound(s) && IsAt(s.threads, id, t) && Advance(t, e).Some?
    ensures LoginStep(t, e, Advance(t, e).UnwrapOr(t))
  {
    hide Inv, Advance, GensOk, FlagOk, Counted, Locked, LoginsOk, LoginStep;
    HandlerOk(s, id, s.threads[id]);
    LoginSteps(t, e);
  }

  lemma FreshPendsNothing(req: Request)
    ensures Pending(Fresh(req)).None?
  {
  }

  /** The login is there with this deadline. */
  predicate Waits(s: State, state: string, deadline: int) {
    state in s.attempts && s.attempts[state].expiresAt == deadline
  }

  /** The action leaves a login alone that waits until the deadline. */
  predicate LeavesAlone(s: State, a: Action, state: string, deadline: int) {
    !a.ReloadClear? && !Takes(s, a, state) && (Reading(a).Some? ==> Reading(a).value <= deadline)
  }

  /** What one action does to a login that nobody is about to store again. */
  lemma ActionOnLogin(s: State, a: Action, state: string)
    requires Sound(s) && Enabled(s, a) && Settled(s, state)
    ensures forall deadline :: Waits(Apply(s, a), state, deadline) <==> Waits(s, state, deadline) && LeavesAlone(s, a, state, deadline)
  {
    hide Coherent, Counted, Locked, LoginsOk, Advance, Evolves, Detected, CountsAfter, MutexesAfter, OwnersAfter, TakenAfter,
      StateGuard, SlotGuard, LockGuard, StoreGuard, DrawnAfter, Settled, Pending;
    if a.Step? {
      StepIsLogin(s, a.id, s.threads[a.id], a.event);
      NotPending(s, a.id, state);
    }
  }

  lemma NotPending(s: State, id: nat, state: string)
    requires Settled(s, state) && id < |s.threads|
    ensures s.threads[id].pc.OAuthPut? ==> s.threads[id].pc.pending != state
  {
    assert Pending(s.threads[id]) != Some(state);
  }

  /** A store puts the login in, to be completed until its maximal age is over; nobody else is about to store its token. */
  lemma StoreSettles(s: State, a: Action, state: string, now: int, maxAge: int)
    requires Sound(s) && Enabled(s, a) && Stores(s, a, state, now, maxAge)
    ensures Settled(Apply(s, a), state) && Waits(Apply(s, a), state, now + maxAge)
  {
    hide Advance, CountsAfter, MutexesAfter, OwnersAfter, TakenAfter, StateGuard, SlotGuard, LockGuard, StoreGuard, Coherent, Counted,
      Locked, CarriesLogin;
    assert Pending(s.threads[a.id]) == Some(state);
    StoredIsPast(s.threads[a.id], a.event);
  }

  lemma StoredIsPast(t: Thread, e: Event)
    requires e.PutAttempt? && t.pc.OAuthPut?
    ensures Advance(t, e).Some? && Pending(Advance(t, e).UnwrapOr(t)).None?
  {
  }

  // ---------------------------------------------------------------- all runs

  lemma {:induction false} PrefixRuns(s0: State, actions: seq<Action>, n: nat)
    requires RunFrom(s0, actions).Some? && n <= |actions|
    ensures Comes(s0, actions, n)
  {
    hide Enabled, Apply;
    if n < |actions| {
      PrefixRuns(s0, actions[..|actions| - 1], n);
      assert actions[..|actions| - 1][..n] == actions[..n];
    } else {
      assert actions[..n] == actions;
    }
  }

  /** The action at n leads from one state of the run to the next. */
  ghost predicate Leads(s0: State, actions: seq<Action>, n: nat) {
    n < |actions| && Comes(s0, actions, n) && Comes(s0, actions, n + 1) &&
    var s := Before(s0, actions, n); Sound(s) && Enabled(s, actions[n]) && Before(s0, actions, n + 1) == Apply(s, actions[n])
  }

  lemma NextState(s0: State, actions: seq<Action>, n: nat)
    requires Sound(s0) && RunFrom(s0, actions).Some? && n < |actions|
    ensures Leads(s0, actions, n)
  {
    hide Enabled, Apply, Sound, Secured, AllWriteSafe;
    PrefixRuns(s0, actions, n);
    PrefixRuns(s0, actions, n + 1);
    RunIsSound(s0, actions[..n]);
    assert actions[..n + 1][..n] == actions[..n];
  }

  /** The login is in the table exactly as long as every action left it alone. */
  ghost predicate Kept(s0: State, actions: seq<Action>, p: nat, n: nat, state: string, deadline: int) {
    var s := Before(s0, actions, n);
    && Settled(s, state)
    && (state in s.attempts <==> Untouched(s0, actions, p, n, state, deadline))
    && (state in s.attempts ==> Waits(s, state, deadline))
  }

  lemma {:induction false} StoredIsKept(s0: State, actions: seq<Action>, p: nat, n: nat, state: string, now: int, maxAge: int)
    requires Sound(s0) && RunFrom(s0, actions).Some? && p < n <= |actions| && StoredAt(s0, actions, p, state, now, maxAge)
    ensures Comes(s0, actions, n) && Kept(s0, actions, p, n, state, now + maxAge)
  {
    hide RunFrom, Enabled, Apply, Sound, Settled, Stores, Takes, Reading, Comes, Before;
    NextState(s0, actions, n - 1);
    var s := Before(s0, actions, n - 1);
    if n == p + 1 {
      StoreSettles(s, actions[p], state, now, maxAge);
    } else {
      StoredIsKept(s0, actions, p, n - 1, state, now, maxAge);
      SettledKeeps(s, actions[n - 1], state);
      ActionOnLogin(s, actions[n - 1], state);
      KeptOn(s, actions[n - 1], state, now + maxAge);
      if Untouched(s0, actions, p, n, state, now + maxAge) {
        assert Leaves(s0, actions, n - 1, state, now + maxAge);
      }
    }
  }

  lemma KeptOn(s: State, a: Action, state: string, deadline: int)
    requires forall other :: Waits(Apply(s, a), state, other) <==> Waits(s, state, other) && LeavesAlone(s, a, state, other)
    requires state in s.attempts ==> Waits(s, state, deadline)
    ensures state in Apply(s, a).attempts <==> state in s.attempts && LeavesAlone(s, a, state, deadline)
    ensures state in Apply(s, a).attempts ==> Waits(Apply(s, a), state, deadline)
  {
    hide Apply, LeavesAlone;
    if state in Apply(s, a).attempts {
      assert Waits(Apply(s, a), state, Apply(s, a).attempts[state].expiresAt);
    }
  }

  predicate Completes(a: Action) {
    a.Step? && a.event.TakeAttempt? && a.event.taken.Some?
  }

  /** The login is there, and the clock that the action reads is not past its deadline. */
  predicate InTime(s: State, a: Action, state: string) {
    state in s.attempts && (Reading(a).Some? ==> Reading(a).value <= s.attempts[state].expiresAt)
  }

  lemma TakeAnswers(s: State, a: Action, state: string)
    requires Enabled(s, a) && Takes(s, a, state)
    ensures Completes(a) <==> InTime(s, a, state)
  {
    hide Advance, StateGuard, SlotGuard, LockGuard, StoreGuard;
  }

  /** For every run: a login stored at `now` for a maximal age is completed by a callback's later take of its state
      token exactly when the take reads a clock within that age, and until then no reload emptied the table,
      nobody took the token, and no put or take of any login read a clock past the age. */
  lemma TakenExactly(cfg: Settings, store: map<string, Account>, actions: seq<Action>, p: nat, q: nat,
                     state: string, now: int, maxAge: int)
    requires RunFrom(Init(cfg, store), actions).Some? && p < q < |actions|
    requires StoredAt(Init(cfg, store), actions, p, state, now, maxAge) && TakenAt(Init(cfg, store), actions, q, state)
    ensures actions[q].event.taken.Some? <==>
      actions[q].event.now <= now + maxAge && Untouched(Init(cfg, store), actions, p, q, state, now + maxAge)
  {
    hide RunFrom, Enabled, Apply, Sound, Settled, Stores, Takes, Init, Leaves, Secured;
    var s0 := Init(cfg, store);
    InitIsSound(cfg, store);
    StoredIsKept(s0, actions, p, q, state, now, maxAge);
    NextState(s0, actions, q);
    TakeAnswers(Before(s0, actions, q), actions[q], state);
    TakeIsStep(Before(s0, actions, q), actions[q], state);
  }

  lemma TakeIsStep(s: State, a: Action, state: string)
    requires Takes(s, a, state)
    ensures a.Step? && a.event.TakeAttempt?
  {
  }

  /** A login that was not in the table is there after an action only if the action stored it. */
  lemma OnlyStored(s: State, a: Action, state: string)
    requires Sound(s) && Enabled(s, a) && state in Apply(s, a).attempts && state !in s.attempts
    ensures exists now, maxAge :: Stores(s, a, state, now, maxAge)
  {
    hide Coherent, Counted, Locked, LoginsOk, Advance, Evolves, Detected, CountsAfter, MutexesAfter, OwnersAfter, TakenAfter,
      StateGuard, SlotGuard, LockGuard, StoreGuard, DrawnAfter;
    if a.Step? {
      StepIsLogin(s, a.id, s.threads[a.id], a.event);
      if a.event.PutAttempt? {
        assert Stores(s, a, state, a.event.now, s.threads[a.id].pc.attemptView.cfg.authMaxAge);
      }
    }
  }

  lemma {:induction false} InTableWasStored(s0: State, actions: seq<Action>, n: nat, state: string)
    returns (p: nat, now: int, maxAge: int)
    requires Sound(s0) && s0.attempts == map[] && RunFrom(s0, actions).Some? && n <= |actions|
    requires state in Before(s0, actions, n).attempts
    ensures p < n && StoredAt(s0, actions, p, state, now, maxAge)
  {
    hide RunFrom, Enabled, Apply, Sound, Stores;
    if n == 0 {
      assert actions[..0] == [];
      RunNothing(s0);
      assert false;
    } else {
      NextState(s0, actions, n - 1);
      var s := Before(s0, actions, n - 1);
      if state in s.attempts {
        p, now, maxAge := InTableWasStored(s0, actions, n - 1, state);
      } else {
        OnlyStored(s, actions[n - 1], state);
        p := n - 1;
        now, maxAge :| Stores(s, actions[n - 1], state, now, maxAge);
      }
    }
  }

  /** For every run: whatever a callback takes was stored before, by an authorize call whose maximal age is not over. */
  lemma TakenInTime(cfg: Settings, store: map<string, Account>, actions: seq<Action>, q: nat, state: string)
    returns (p: nat, now: int, maxAge: int)
    requires RunFrom(Init(cfg, store), actions).Some? && TakenAt(Init(cfg, store), actions, q, state)
    requires actions[q].Step? && actions[q].event.TakeAttempt? && actions[q].event.taken.Some?
    ensures p < q && StoredAt(Init(cfg, store), actions, p, state, now, maxAge) && actions[q].event.now <= now + maxAge
  {
    hide RunFrom, Enabled, Apply, Sound, Settled, Stores, Takes, Leaves, Secured;
    var s0 := Init(cfg, store);
    InitIsSound(cfg, store);
    NextState(s0, actions, q);
    TakeAnswers(Before(s0, actions, q), actions[q], state);
    p, now, maxAge := InTableWasStored(s0, actions, q, state);
    TakenExactly(cfg, store, actions, p, q, state, now, maxAge);
  }
}
