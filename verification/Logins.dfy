/** Pending OAuth logins in every interleaving of authorize calls, callbacks and reloads. */
module Logins {
  import opened Prelude
  import opened Requests
  import opened Handler
  import opened HandlerFacts
  import opened Effects
  import opened OAuthStore
  import opened Runtime
  import opened Coherence

  /** The state token a handler has drawn but not yet stored. */
  function Pending(t: Thread): Option<string> {
    match t.pc
    case OAuthLoad(state) => Some(state)
    case OAuthPut(state, _, _) => Some(state)
    case _ => None
  }

  /** The generation is the one that was installed when the state was loaded. */
  predicate LoadedThen(installs: seq<nat>, gen: nat, loadedAt: nat) {
    1 <= loadedAt <= |installs| && installs[loadedAt - 1] == gen
  }

  predicate AttemptOk(installs: seq<nat>, a: Attempt) {
    LoadedThen(installs, a.generation, a.loadedAt)
  }

  /** What a handler in the middle of a login carries. */
  predicate CarriesLogin(installs: seq<nat>, t: Thread) {
    match t.pc
    case OAuthPut(_, view, loadedAt) => LoadedThen(installs, view.gen, loadedAt)
    case OAuthCheck(attempt, clock) => AttemptOk(installs, attempt) && clock <= attempt.expiresAt
    case _ => true
  }

  /** A state token is with one handler, in the table, or taken, and never in two of these places. */
  predicate TokensOk(attempts: map<string, Attempt>, drawn: set<string>, taken: seq<string>, threads: seq<Thread>) {
    && (forall state | state in attempts :: state in drawn && state !in taken)
    && (forall state | state in taken :: state in drawn)
    && (forall j, k | 0 <= j < k < |taken| :: taken[j] != taken[k])
    && (forall i | 0 <= i < |threads| && Pending(threads[i]).Some? ::
          Pending(threads[i]).value in drawn && Pending(threads[i]).value !in attempts && Pending(threads[i]).value !in taken)
    && (forall i, j | 0 <= i < j < |threads| && Pending(threads[i]).Some? :: Pending(threads[i]) != Pending(threads[j]))
  }

  predicate LoginsOk(s: State) {
    && |s.attempts| <= OAUTH_CAPACITY
    && TokensOk(s.attempts, s.drawn, s.taken, s.threads)
    && (forall state | state in s.attempts :: AttemptOk(s.installs, s.attempts[state]))
    && (forall i | 0 <= i < |s.threads| :: CarriesLogin(s.installs, s.threads[i]))
  }

  lemma PutTokens(s: State, id: nat, now: int, n: Thread)
    requires LoginsOk(s) && id < |s.threads| && s.threads[id].pc.OAuthPut? && Pending(n).None?
    ensures TokensOk(AttemptsAfter(s.attempts, s.threads[id], PutAttempt(now, true)), s.drawn, s.taken, s.threads[id := n])
  {
    hide CarriesLogin, AttemptOk;
    var t := s.threads[id];
    var after := PutInto(s.attempts, OAUTH_CAPACITY, t.pc.pending, AttemptOf(t.pc, now), now).0;
    assert Pending(t) == Some(t.pc.pending);
    assert forall state | state in after :: state in s.attempts || state == t.pc.pending;
  }

  lemma TakeTokens(s: State, id: nat, now: int, n: Thread)
    requires LoginsOk(s) && id < |s.threads| && s.threads[id].pc.OAuthTake? && Pending(n).None?
    ensures var given := s.threads[id].pc.given;
      var (after, got) := TakeFrom(s.attempts, given, now);
      TokensOk(after, s.drawn, if got.Some? then s.taken + [given] else s.taken, s.threads[id := n])
  {
    hide CarriesLogin, AttemptOk, TakeFrom;
    TakeRemoves(s.attempts, s.threads[id].pc.given, now);
  }

  lemma DrawTokens(s: State, id: nat, state: string, n: Thread)
    requires LoginsOk(s) && id < |s.threads| && state !in s.drawn && Pending(n) == Some(state)
    ensures TokensOk(s.attempts, s.drawn + {state}, s.taken, s.threads[id := n])
  {
    hide CarriesLogin, AttemptOk;
  }

  lemma QuietTokens(s: State, id: nat, n: Thread)
    requires LoginsOk(s) && id < |s.threads| && (Pending(n).None? || Pending(n) == Pending(s.threads[id]))
    ensures TokensOk(s.attempts, s.drawn, s.taken, s.threads[id := n])
  {
    hide CarriesLogin, AttemptOk;
  }

  lemma TokensAfter(s: State, id: nat, e: Event, n: Thread)
    requires LoginsOk(s) && id < |s.threads| && OAuthGuard(s, s.threads[id], e)
    requires if e.DrawState? then Pending(n) == Some(e.state) else Pending(n).None? || Pending(n) == Pending(s.threads[id])
    requires e.PutAttempt? || e.TakeAttempt? ==> Pending(n).None?
    ensures var t := s.threads[id];
      TokensOk(AttemptsAfter(s.attempts, t, e), DrawnAfter(s.drawn, e), TakenAfter(s.taken, t, e), s.threads[id := n])
  {
    hide LoginsOk, TokensOk, PutInto, TakeFrom, Pending;
    match e
    case DrawState(state) => DrawTokens(s, id, state, n);
    case PutAttempt(now, _) => PutTokens(s, id, now, n);
    case TakeAttempt(now, _) => TakeTokens(s, id, now, n);
    case _ => QuietTokens(s, id, n);
  }

  lemma TableAfter(s: State, t: Thread, e: Event)
    requires LoginsOk(s) && OAuthGuard(s, t, e) && CarriesLogin(s.installs, t)
    ensures var after := AttemptsAfter(s.attempts, t, e);
      |after| <= OAUTH_CAPACITY && forall state | state in after :: AttemptOk(s.installs, after[state])
  {
    hide TokensOk;
    if e.PutAttempt? && t.pc.OAuthPut? {
      var a := AttemptOf(t.pc, e.now);
      PutBounded(s.attempts, OAUTH_CAPACITY, t.pc.pending, a, e.now);
    } else if e.TakeAttempt? && t.pc.OAuthTake? {
      TakeRemoves(s.attempts, t.pc.given, e.now);
    }
  }

  /** What the stepping handler carries into its next point. */
  lemma CarriedAfter(s: State, t: Thread, e: Event, n: Thread)
    requires LoginsOk(s) && LoginStep(t, e, n) && OAuthGuard(s, t, e) && StateGuard(s, t, e)
    ensures CarriesLogin(s.installs, n)
    ensures if e.DrawState? then n.pc == OAuthLoad(e.state) else Pending(n).None? || Pending(n) == Pending(t)
    ensures e.PutAttempt? || e.TakeAttempt? ==> Pending(n).None?
  {
    hide TokensOk, PutInto, TakeFrom;
    if e.TakeAttempt? && t.pc.OAuthTake? {
      TakeRemoves(s.attempts, t.pc.given, e.now);
    }
  }

  lemma StepLogins(s: State, id: nat, t: Thread, e: Event, n: Thread)
    requires LoginsOk(s) && IsAt(s.threads, id, t) && LoginStep(t, e, n) && OAuthGuard(s, t, e) && StateGuard(s, t, e)
    ensures var table := AttemptsAfter(s.attempts, t, e);
      && |table| <= OAUTH_CAPACITY
      && TokensOk(table, DrawnAfter(s.drawn, e), TakenAfter(s.taken, t, e), Replaced(s.threads, id, n))
      && (forall state | state in table :: AttemptOk(s.installs, table[state]))
      && CarriesLogin(s.installs, n)
  {
    hide TokensOk, OAuthGuard, StateGuard, AttemptsAfter, TakenAfter, DrawnAfter, AttemptOk, Pending, CarriesLogin;
    CarriedAfter(s, t, e, n);
    if e.DrawState? {
      PendingDrawn(n, e.state);
    }
    TokensAfter(s, id, e, n);
    TableAfter(s, t, e);
  }

  lemma PendingDrawn(t: Thread, state: string)
    requires t.pc == OAuthLoad(state)
    ensures Pending(t) == Some(state)
  {
  }

  lemma ArriveLogins(s: State, t: Thread)
    requires LoginsOk(s) && t.pc.Start?
    ensures TokensOk(s.attempts, s.drawn, s.taken, s.threads + [t]) && CarriesLogin(s.installs, t)
  {
  }

  /** A reload that empties the table leaves the tokens drawn and taken. */
  lemma ClearLogins(s: State)
    requires LoginsOk(s)
    ensures TokensOk(map[], s.drawn, s.taken, s.threads)
  {
  }

  lemma InstallLogins(s: State, gen: nat)
    requires LoginsOk(s)
    ensures forall a: Attempt :: AttemptOk(s.installs, a) ==> AttemptOk(s.installs + [gen], a)
    ensures forall i | 0 <= i < |s.threads| :: CarriesLogin(s.installs + [gen], s.threads[i])
  {
    forall i | 0 <= i < |s.threads|
      ensures CarriesLogin(s.installs + [gen], s.threads[i])
    {
      assert CarriesLogin(s.installs, s.threads[i]);
    }
  }

  lemma LoginsKeep(s: State, a: Action)
    requires LoginsOk(s) && Coherent(s) && Enabled(s, a)
    ensures LoginsOk(Apply(s, a))
  {
    hide ThreadsOk, Advance, FlagOk, GensOk, TokensOk, OAuthGuard, StateGuard, SlotGuard, LockGuard, StoreGuard,
      Evolves, AttemptsAfter, TakenAfter, DrawnAfter, AttemptOk, CarriesLogin, CountsAfter, OwnersAfter;
    match a
    case Arrive(req) => ArriveLogins(s, Fresh(req));
    case Step(id, e, _) =>
      HandlerOk(s, id, s.threads[id]);
      LoginSteps(s.threads[id], e);
      StepLogins(s, id, s.threads[id], e, Advance(s.threads[id], e).UnwrapOr(s.threads[id]));
    case ReloadClear(_) => ClearLogins(s);
    case ReloadInstall(gen) => InstallLogins(s, gen);
    case _ =>
  }

  /** A generation is installed once, so it is the installed one only until the next installation. */
  lemma InstalledOnce(s: State, gen: nat, loadedAt: nat)
    requires GensOk(s.gens, s.nextGen, s.reloading, s.installs) && LoadedThen(s.installs, gen, loadedAt)
    ensures gen == Installed(s) <==> loadedAt == |s.installs|
  {
  }

  /** A callback passes its checks exactly when its unexpired attempt was stored by an authorize call after
      whose load of the state no reload was installed. */
  lemma CallbackMeansNoReload(s: State, id: nat, gen: nat)
    requires LoginsOk(s) && Coherent(s) && id < |s.threads|
    requires Advance(s.threads[id], LoadForCheck(gen)).Some? && StateGuard(s, s.threads[id], LoadForCheck(gen))
    ensures s.threads[id].pc.OAuthCheck? && s.threads[id].pc.clock <= s.threads[id].pc.attempt.expiresAt
    ensures Advance(s.threads[id], LoadForCheck(gen)).UnwrapOr(s.threads[id]).pc == OAuthExchange <==>
            s.threads[id].pc.attempt.loadedAt == |s.installs|
  {
    hide Inv, Advance, TokensOk, FlagOk, GensOk, LoadedThen;
    var t := s.threads[id];
    assert ThreadOk(s.gens, t);
    LoginSteps(t, LoadForCheck(gen));
    assert CarriesLogin(s.installs, t);
    InstalledOnce(s, t.pc.attempt.generation, t.pc.attempt.loadedAt);
  }
}
