/** The guarantees of the whole gateway, for every run from a fresh start: any requests, reloads,
    version detections and outside changes of the upstream, in any interleaving. */
module Gateway {
  import opened Prelude
  import opened Config
  import opened Routes
  import opened BodyPolicy
  import opened Upstream
  import opened Requests
  import opened Handler
  import opened HandlerFacts
  import opened Runtime
  import opened LockKeys
  import opened Coherence
  import opened SlotCounts
  import opened Locks
  import opened Logins
  import opened Ownership
  import opened Progress

  ghost predicate Sound(s: State) {
    Ready(s) && LoginsOk(s)
  }

  lemma InitIsSound(cfg: Settings, store: map<string, Account>)
    ensures Sound(Init(cfg, store)) && Secured(Init(cfg, store))
  {
    hide ThreadOk, AtRisk, Claim, KeyOf;
  }

  lemma SoundKeeps(s: State, a: Action)
    requires Sound(s) && Enabled(s, a)
    ensures Sound(Apply(s, a))
  {
    hide Enabled, Apply, Coherent, Counted, Locked, LoginsOk;
    CoherentKeeps(s, a);
    CountedKeeps(s, a);
    LockedKeeps(s, a);
    LoginsKeep(s, a);
  }

  lemma StepKeepsGens(s: State, a: Action)
    requires a.Step? ==> StepEnabled(s, a.id, a.event, a.after)
    ensures a.Step? ==> ApplyStep(s, a.id, a.event, a.after).gens == s.gens
  {
    hide Advance, StateGuard, SlotGuard, LockGuard, OAuthGuard, StoreGuard, CountsAfter, MutexesAfter, OwnersAfter,
      AttemptsAfter, DrawnAfter, TakenAfter;
  }

  /** Only a detection changes a generation's flag, and only that of its own generation. */
  lemma OnlyOwnDetection(s: State, a: Action, gen: nat)
    requires Coherent(s) && Enabled(s, a) && gen in s.gens
    ensures gen in Apply(s, a).gens
    ensures Apply(s, a).gens[gen] != s.gens[gen] ==> a.Detect? && a.of == gen
    ensures Apply(s, a).gens[gen].cfg == s.gens[gen].cfg
  {
    hide ThreadsOk, FlagOk, ApplyStep, StepEnabled, Evolves, Catalogued, Detected;
    StepKeepsGens(s, a);
    if a.Detect? {
      DetectedFlag(s.gens[a.of], a.found);
    }
  }

  lemma GensExtend(s: State, a: Action)
    requires Coherent(s) && Enabled(s, a)
    ensures Extends(s.gens, Apply(s, a).gens)
  {
    hide Coherent, Enabled, Apply;
    forall gen | gen in s.gens
      ensures gen in Apply(s, a).gens && Apply(s, a).gens[gen].cfg == s.gens[gen].cfg
    {
      OnlyOwnDetection(s, a, gen);
    }
  }

  lemma SafeBefore(before: map<nat, Generation>, after: map<nat, Generation>)
    requires Extends(before, after) && AllWriteSafe(after)
    ensures AllWriteSafe(before)
  {
    hide WriteSafe;
  }

  /** Every reachable state keeps all invariants; ownership is guarded in runs whose settings are all write-safe. */
  lemma {:induction false} RunIsSound(s: State, actions: seq<Action>)
    requires Sound(s) && RunFrom(s, actions).Some?
    ensures var n := RunFrom(s, actions).UnwrapOr(s);
      Sound(n) && Extends(s.gens, n.gens) && (Secured(s) && AllWriteSafe(n.gens) ==> Secured(n))
  {
    hide Enabled, Apply, Sound, Secured, AllWriteSafe;
    if actions != [] {
      RunIsSound(s, actions[..|actions| - 1]);
      var mid := RunFrom(s, actions[..|actions| - 1]).value;
      var a := actions[|actions| - 1];
      LastKeeps(mid, a);
    }
  }

  lemma LastKeeps(s: State, a: Action)
    requires Sound(s) && Enabled(s, a)
    ensures Sound(Apply(s, a)) && Extends(s.gens, Apply(s, a).gens)
    ensures AllWriteSafe(Apply(s, a).gens) ==> AllWriteSafe(s.gens)
    ensures Secured(s) && AllWriteSafe(Apply(s, a).gens) ==> Secured(Apply(s, a))
  {
    hide Enabled, Apply, Coherent, Counted, Locked, LoginsOk, Secured, AllWriteSafe;
    SoundKeeps(s, a);
    GensExtend(s, a);
    if AllWriteSafe(Apply(s, a).gens) {
      SafeBefore(s.gens, Apply(s, a).gens);
      if Secured(s) {
        SecuredKeeps(s, a);
      }
    }
  }

  lemma ReachedIsSound(cfg: Settings, store: map<string, Account>, actions: seq<Action>, s: State)
    requires Reached(cfg, store, actions, s)
    ensures Sound(s) && (AllWriteSafe(s.gens) ==> Secured(s))
  {
    hide RunFrom, Sound, Secured, AllWriteSafe, Init;
    InitIsSound(cfg, store);
    RunIsSound(Init(cfg, store), actions);
  }

  // ---------------------------------------------------------------- ownership

  /** With write safety on: whenever a user update is forwarded, its body names one user, and at that
      very moment the forwarding token owns that user in the upstream. */
  lemma UpdatesHitOwnedUsers(cfg: Settings, store: map<string, Account>, actions: seq<Action>, s: State,
                             id: nat, a: Answer, after: map<string, Account>)
    requires Reached(cfg, store, actions, s) && AllWriteSafe(s.gens)
    requires StepEnabled(s, id, Forward(a), after) && UpdatesUser(s.threads[id])
    ensures var t := s.threads[id]; OwnedNow(s.store, t.session.value.tok, Target(t)) && Target(t) != ""
    ensures forall uuid | Names(s.threads[id].req.body.payload, uuid) :: uuid == Target(s.threads[id])
  {
    var t := s.threads[id];
    hide Reached, Coherent, Counted, Locked, LoginsOk, Secured, AllWriteSafe, StepEnabled, UpdatesUser, Names,
      Target, OwnedNow;
    ReachedIsSound(cfg, store, actions, s);
    ForwardHitsOwned(s, id, t, a, after);
  }

  /** A success reply to a user update is written while the token still owns the user. */
  lemma SuccessMeansStillOwned(cfg: Settings, store: map<string, Account>, actions: seq<Action>, s: State,
                               id: nat, a: Answer, after: map<string, Account>)
    requires Reached(cfg, store, actions, s) && AllWriteSafe(s.gens) && Success(a)
    requires StepEnabled(s, id, Respond(Relayed(a)), after) && UpdatesUser(s.threads[id])
    ensures var t := s.threads[id]; OwnedNow(s.store, t.session.value.tok, Target(t))
  {
    var t := s.threads[id];
    hide Reached, Coherent, Counted, Locked, LoginsOk, Secured, AllWriteSafe, StepEnabled, UpdatesUser, Target,
      OwnedNow, Success;
    ReachedIsSound(cfg, store, actions, s);
    SuccessStillOwned(s, id, t, a, after);
  }

  // -------------------------------------------------------------------- locks

  /** Per key at most one handler is between lock and unlock. */
  lemma OneHolderPerKey(cfg: Settings, store: map<string, Account>, actions: seq<Action>, s: State, i: nat, j: nat)
    requires Reached(cfg, store, actions, s) && i < |s.threads| && j < |s.threads|
    requires LockedNow(s.threads[i].log) && LockedNow(s.threads[j].log) && KeyOf(s.threads[i]) == KeyOf(s.threads[j])
    ensures i == j
  {
    hide Reached, Coherent, Counted, Locked, LoginsOk, Secured, AllWriteSafe, LockedNow, KeyOf;
    ReachedIsSound(cfg, store, actions, s);
    MutualExclusion(s, i, j);
  }

  /** Two restricted writes on one route that name the same target, a created user name, the ids of an update or a
      device write, or the path, are never between lock and unlock together. */
  lemma OneWriterPerTarget(cfg: Settings, store: map<string, Account>, actions: seq<Action>, s: State, i: nat, j: nat)
    requires Reached(cfg, store, actions, s) && i < |s.threads| && j < |s.threads|
    requires LockedNow(s.threads[i].log) && LockedNow(s.threads[j].log)
    requires s.threads[i].session.Some? && s.threads[j].session.Some?
    requires var r, q := s.threads[i].session.value.route, s.threads[j].session.value.route;
      LockedWrite(r) && LockedWrite(q) && r.name == q.name && SharesTarget(r.name, s.threads[i].req, s.threads[j].req)
    ensures i == j
  {
    hide Reached, LockedNow, LockKey, SharesTarget;
    KeysMean(s.threads[i].session.value.route, s.threads[i].req, s.threads[j].session.value.route, s.threads[j].req);
    OneHolderPerKey(cfg, store, actions, s, i, j);
  }

  predicate Forwarded(t: Thread) {
    exists k | 0 <= k < |t.log| :: t.log[k].Forward?
  }

  /** A safe update with an accepted body. */
  predicate Accepted(t: Thread) {
    t.view.Some? && Safe(t) && BodyOutcome(JobOf(t)).Pass? && Target(t) != ""
  }

  lemma ForwardedBody(gens: map<nat, Generation>, t: Thread)
    requires ThreadOk(gens, t) && AllWriteSafe(gens) && UpdatesUser(t) && Forwarded(t)
    ensures Accepted(t)
  {
    hide Inv, SafeUpdate, AllWriteSafe, BodyOutcome, Catalogued;
    UpdatesAreSafe(gens, t);
    ForwardedCleared(t);
  }

  lemma ForwardedCleared(t: Thread)
    requires Inv(t) && Forwarded(t) && t.view.Some? && Safe(t)
    ensures Accepted(t)
  {
    hide SessionFits, Shape, PointFacts, LockedNow, AnsweredOnce, PagesInScan, SafeUpdate, BodyOutcome,
      PreflightNeed, DecisionPasses, LockedWrite;
    var k :| 0 <= k < |t.log| && t.log[k].Forward?;
    assert EventOk(t, k);
    UpdateNeeds(JobOf(t));
  }

  /** Any two user updates of the same user that were forwarded lock the same key. */
  lemma SameUserSameLock(cfg: Settings, store: map<string, Account>, actions: seq<Action>, s: State, i: nat, j: nat)
    requires Reached(cfg, store, actions, s) && AllWriteSafe(s.gens) && i < |s.threads| && j < |s.threads|
    requires UpdatesUser(s.threads[i]) && Forwarded(s.threads[i]) && UpdatesUser(s.threads[j]) && Forwarded(s.threads[j])
    requires Target(s.threads[i]) == Target(s.threads[j])
    ensures KeyOf(s.threads[i]) == KeyOf(s.threads[j])
  {
    hide Reached, Coherent, Counted, Locked, LoginsOk, Secured, AllWriteSafe, Forwarded, SafeUpdate, BodyOutcome,
      LockKey, BodyString;
    ReachedIsSound(cfg, store, actions, s);
    HandlerOk(s, i, s.threads[i]);
    HandlerOk(s, j, s.threads[j]);
    ForwardedBody(s.gens, s.threads[i]);
    ForwardedBody(s.gens, s.threads[j]);
    SameUserSameKey(JobOf(s.threads[i]), JobOf(s.threads[j]));
  }

  // ----------------------------------------------------------------- liveness

  /** In every reachable state with an unfinished request, some unfinished handler can step. */
  lemma NoDeadlock(cfg: Settings, store: map<string, Account>, actions: seq<Action>, s: State, id: nat)
    requires Reached(cfg, store, actions, s) && id < |s.threads| && !s.threads[id].pc.Done?
    ensures exists k, e :: StepEnabled(s, k, e, s.store)
  {
    hide Reached, Coherent, Counted, Locked, LoginsOk, Secured, AllWriteSafe, StepEnabled, Blocked;
    ReachedIsSound(cfg, store, actions, s);
    SoundCanStep(s, id, s.threads[id]);
  }

  lemma SoundCanStep(s: State, id: nat, t: Thread)
    requires Sound(s) && IsAt(s.threads, id, t) && !t.pc.Done?
    ensures exists k, e :: StepEnabled(s, k, e, s.store)
  {
    hide Coherent, Counted, Locked, LoginsOk, StepEnabled, Blocked;
    SomebodyCan(s, id);
    var k :| 0 <= k < |s.threads| && !s.threads[k].pc.Done? && !Blocked(s, s.threads[k]);
    SilenceFits(s, s.threads[k]);
    CanStep(s, k, s.threads[k], NoAnswer);
  }

  lemma SilenceFits(s: State, t: Thread)
    ensures AnswerFits(s, t, NoAnswer)
  {
  }

  function StepsIn(actions: seq<Action>): nat {
    if actions == [] then 0 else StepsIn(actions[..|actions| - 1]) + (if actions[|actions| - 1].Step? then 1 else 0)
  }

  predicate NoArrivals(actions: seq<Action>) {
    forall k | 0 <= k < |actions| :: !actions[k].Arrive?
  }

  lemma ActionRank(s: State, a: Action)
    requires Sound(s) && Enabled(s, a) && !a.Arrive?
    ensures TotalRank(Apply(s, a).threads) + (if a.Step? then 1 else 0) <= TotalRank(s.threads)
  {
    hide Coherent, Counted, Locked, LoginsOk, Inv, Advance, TotalRank, StateGuard, SlotGuard, LockGuard, OAuthGuard,
      StoreGuard, Evolves;
    if a.Step? {
      HandlerOk(s, a.id, s.threads[a.id]);
      StepLowersTotal(s.threads, a.id, s.threads[a.id], a.event);
    }
  }

  /** Finitely many requests take finitely many steps, whatever reloads and detections come in between. */
  lemma {:induction false} StepsAreBounded(s: State, actions: seq<Action>)
    requires Sound(s) && RunFrom(s, actions).Some? && NoArrivals(actions)
    ensures StepsIn(actions) + TotalRank(RunFrom(s, actions).UnwrapOr(s).threads) <= TotalRank(s.threads)
  {
    hide Enabled, Apply, Sound, TotalRank, Secured, AllWriteSafe;
    if actions != [] {
      var front := actions[..|actions| - 1];
      StepsAreBounded(s, front);
      RunIsSound(s, front);
      ActionRank(RunFrom(s, front).value, actions[|actions| - 1]);
    }
  }

  predicate AllDone(s: State) {
    forall i | 0 <= i < |s.threads| :: s.threads[i].pc.Done?
  }

  /** From every reachable state the pending requests can be finished, and then all semaphores and mutexes are free. */
  lemma {:induction false} CanFinish(s: State) returns (actions: seq<Action>)
    requires Sound(s)
    ensures RunFrom(s, actions).Some? && AllDone(RunFrom(s, actions).value)
    ensures StepsIn(actions) == |actions| <= TotalRank(s.threads)
    ensures forall slot: Slot :: CountOf(RunFrom(s, actions).value.counts, slot) == 0
    ensures RunFrom(s, actions).value.owner == map[]
    decreases TotalRank(s.threads)
  {
    hide Enabled, Apply, Sound, TotalRank, Secured, AllWriteSafe, StepEnabled, CountOf, AllDone;
    if AllDone(s) {
      actions := [];
      DoneIsFree(s);
    } else {
      var k, e := PickStep(s);
      var a := Step(k, e, s.store);
      StepIsAction(s, k, e);
      LastKeeps(s, a);
      ActionRank(s, a);
      var rest := CanFinish(Apply(s, a));
      actions := [a] + rest;
      RunCons(s, a, rest);
    }
  }

  lemma PickStep(s: State) returns (k: nat, e: Event)
    requires Sound(s) && !AllDone(s)
    ensures StepEnabled(s, k, e, s.store)
  {
    hide Sound, StepEnabled;
    var i :| 0 <= i < |s.threads| && !s.threads[i].pc.Done?;
    SoundCanStep(s, i, s.threads[i]);
    k, e :| StepEnabled(s, k, e, s.store);
  }

  lemma StepIsAction(s: State, k: nat, e: Event)
    requires StepEnabled(s, k, e, s.store)
    ensures Enabled(s, Step(k, e, s.store))
  {
    hide StepEnabled, Advance, Evolves;
  }

  lemma DoneIsFree(s: State)
    requires Sound(s) && AllDone(s)
    ensures (forall slot: Slot :: CountOf(s.counts, slot) == 0) && s.owner == map[]
  {
    hide ThreadsOk, GensOk, FlagOk, Counted, LoginsOk, CountOf, TableOk;
    AllDrained(s);
    if mutex :| mutex in s.owner {
      HandlerOk(s, s.owner[mutex], s.threads[s.owner[mutex]]);
      DoneHoldsNothing(s.threads[s.owner[mutex]]);
    }
  }

  /** A run is its first action followed by a run. */
  lemma {:induction false} RunCons(s: State, a: Action, rest: seq<Action>)
    requires Enabled(s, a) && RunFrom(Apply(s, a), rest).Some?
    ensures RunFrom(s, [a] + rest) == RunFrom(Apply(s, a), rest)
    ensures StepsIn([a] + rest) == (if a.Step? then 1 else 0) + StepsIn(rest)
  {
    hide Enabled, Apply;
    var all := [a] + rest;
    if rest == [] {
      assert all[..0] == [];
      assert RunFrom(s, all[..|all| - 1]) == Some(s);
    } else {
      RunCons(s, a, rest[..|rest| - 1]);
      assert all[..|all| - 1] == [a] + rest[..|rest| - 1];
    }
  }

  // --------------------------------------------------------------- semaphores

  /** Each semaphore of each generation counts exactly the handlers that hold it and never exceeds its limit. */
  lemma SemaphoresCount(cfg: Settings, store: map<string, Account>, actions: seq<Action>, s: State, slot: Slot)
    requires Reached(cfg, store, actions, s)
    ensures CountOf(s.counts, slot) == Holders(s.threads, slot)
    ensures slot.gen in s.gens ==> CountOf(s.counts, slot) <= Limit(s.gens, slot)
  {
    hide Reached, Coherent, Locked, LoginsOk, Secured, AllWriteSafe;
    ReachedIsSound(cfg, store, actions, s);
  }

  /** A deferred release never blocks. */
  lemma ReleasesNeverBlock(cfg: Settings, store: map<string, Account>, actions: seq<Action>, s: State, id: nat, slot: Slot)
    requires Reached(cfg, store, actions, s) && id < |s.threads| && Advance(s.threads[id], Release(slot)).Some?
    ensures StepEnabled(s, id, Release(slot), s.store)
  {
    hide Reached, Coherent, Counted, Locked, LoginsOk, Secured, AllWriteSafe, Advance, CountOf;
    ReachedIsSound(cfg, store, actions, s);
    ReleaseNeverBlocks(s, id, slot);
  }

  // ------------------------------------------------------------ version guard

  /** A generation's guard is open exactly when its version is assumed or the last version detected for it is the configured one. */
  lemma GuardMeansVersion(cfg: Settings, store: map<string, Account>, actions: seq<Action>, s: State, gen: nat)
    requires Reached(cfg, store, actions, s) && gen in s.gens
    ensures var g := s.gens[gen];
      g.open <==> g.cfg.assumeVersion != "" || (g.detected != [] && g.detected[|g.detected| - 1] == g.cfg.remnawaveVersion)
  {
    hide Reached, ThreadsOk, GensOk, Counted, Locked, LoginsOk, Secured, AllWriteSafe;
    ReachedIsSound(cfg, store, actions, s);
    assert FlagOk(s.gens[gen]);
  }

  // ------------------------------------------------------------- OAuth logins

  /** The table stays within its capacity and no stored attempt is taken twice. */
  lemma AttemptsTakenOnce(cfg: Settings, store: map<string, Account>, actions: seq<Action>, s: State)
    requires Reached(cfg, store, actions, s)
    ensures |s.attempts| <= OAUTH_CAPACITY
    ensures forall j, k | 0 <= j < k < |s.taken| :: s.taken[j] != s.taken[k]
    ensures forall state | state in s.attempts :: state !in s.taken
  {
    hide Reached, Coherent, Counted, Locked, Secured, AllWriteSafe;
    ReachedIsSound(cfg, store, actions, s);
  }

  /** A callback passes its check exactly when no reload was installed since its authorize call loaded the
      state, and then its attempt had not expired. */
  lemma CallbackSeesNoReload(cfg: Settings, store: map<string, Account>, actions: seq<Action>, s: State,
                             id: nat, gen: nat, after: map<string, Account>)
    requires Reached(cfg, store, actions, s) && StepEnabled(s, id, LoadForCheck(gen), after)
    ensures s.threads[id].pc.OAuthCheck? && s.threads[id].pc.clock <= s.threads[id].pc.attempt.expiresAt
    ensures Advance(s.threads[id], LoadForCheck(gen)).UnwrapOr(s.threads[id]).pc == OAuthExchange <==>
            s.threads[id].pc.attempt.loadedAt == |s.installs|
  {
    hide Reached, Coherent, Counted, Locked, LoginsOk, Secured, AllWriteSafe, Advance, SlotGuard, LockGuard,
      OAuthGuard, StoreGuard;
    ReachedIsSound(cfg, store, actions, s);
    CallbackMeansNoReload(s, id, gen);
  }
}
