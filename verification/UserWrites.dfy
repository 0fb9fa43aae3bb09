/** When a forwarded request still hits a user of its token: exactly unless an update of that user was
    forwarded after the own read of the request and left the user to somebody else; and a run where one did. */
module UserWrites {
  import opened KeyTables
  import opened Prelude
  import opened Json
  import opened Config
  import opened Routes
  import opened Remnawave
  import opened BodyPolicy
  import opened Upstream
  import opened Requests
  import opened Handler
  import opened HandlerFacts
  import opened Pipeline
  import opened Runtime
  import opened Coherence
  import opened LockKeys
  import opened Ownership
  import opened Gateway
  import Credentials
  import Text

  // --------------------------------------------------------- a run's actions

  /** The action forwards an update of the user. */
  predicate UpdatesNow(s: State, a: Action, uuid: string) {
    a.Step? && a.event.Forward? && a.id < |s.threads| && UpdatesUser(s.threads[a.id]) && Names(s.threads[a.id].req.body.payload, uuid)
  }

  ghost predicate UpdateAt(s0: State, actions: seq<Action>, k: nat, uuid: string) {
    k < |actions| && Comes(s0, actions, k) && UpdatesNow(Before(s0, actions, k), actions[k], uuid)
  }

  /** The last update of the user that was forwarded after the action at r. */
  ghost predicate LastUpdate(s0: State, actions: seq<Action>, r: nat, k: nat, uuid: string) {
    r < k < |actions| && UpdateAt(s0, actions, k, uuid) && forall m | k < m < |actions| :: !UpdateAt(s0, actions, m, uuid)
  }

  /** The store that the action leaves. */
  function Left(a: Action): map<string, Account> {
    if a.Step? then a.after else map[]
  }

  /** No update of the user was forwarded after r, or the last one left it with the token. */
  ghost predicate LeftOwned(s0: State, actions: seq<Action>, r: nat, tok: TokenPolicy, uuid: string) {
    forall k: nat | LastUpdate(s0, actions, r, k, uuid) :: OwnedNow(Left(actions[k]), tok, uuid)
  }

  /** The action is this handler's read of the user, and shows the user owned. */
  predicate OwnedReadBy(a: Action, id: nat, tok: TokenPolicy, uuid: string) {
    a.Step? && a.id == id && a.event.ReadUser? && a.event.uuid == uuid && UserCheck(tok, a.event.answer).Pass?
  }

  lemma UpdateAtPrefix(s0: State, front: seq<Action>, rest: seq<Action>, k: nat, uuid: string)
    requires k < |front|
    ensures UpdateAt(s0, front + rest, k, uuid) <==> UpdateAt(s0, front, k, uuid)
  {
    hide RunFrom, UpdatesNow;
    assert (front + rest)[..k] == front[..k];
  }

  // --------------------------------------------------- how ownership changes

  /** The user is still there, is still removed if it was, and has not changed hands. */
  predicate UserKept(store: map<string, Account>, after: map<string, Account>, uuid: string) {
    uuid in store ==>
      uuid in after && (store[uuid].Removed? ==> after[uuid].Removed?) &&
      (store[uuid].Live? && after[uuid].Live? ==> SameOwnership(store[uuid].user, after[uuid].user))
  }

  /** One action changes whose a user is only if it forwards an update of that user; a removed user stays removed. */
  lemma ActionKeepsUser(s: State, a: Action, uuid: string)
    requires Enabled(s, a) && uuid in s.store
    ensures uuid in Apply(s, a).store
    ensures if UpdatesNow(s, a, uuid) then Apply(s, a).store == Left(a) else UserKept(s.store, Apply(s, a).store, uuid)
  {
    hide Advance, StateGuard, SlotGuard, LockGuard, OAuthGuard, TruthfulRead, SameOwnership, Catalogued, Detected, UpdatesUser, Names;
    SameAsItself(s.store);
  }

  lemma SameAsItself(store: map<string, Account>)
    ensures forall uuid | uuid in store && store[uuid].Live? :: SameOwnership(store[uuid].user, store[uuid].user)
  {
  }

  lemma KeptOwner(store: map<string, Account>, after: map<string, Account>, tok: TokenPolicy, uuid: string)
    requires UserKept(store, after, uuid) && uuid in store
    ensures uuid in after && (after[uuid].Live? ==> store[uuid].Live? && (Owns(tok, store[uuid].user) <==> Owns(tok, after[uuid].user)))
  {
    hide SameOwnership, Owns;
    if after[uuid].Live? {
      SameOwnershipSameOwner(tok, store[uuid].user, after[uuid].user);
    }
  }

  lemma ReadOwns(s: State, a: Action, id: nat, tok: TokenPolicy, uuid: string)
    requires Enabled(s, a) && OwnedReadBy(a, id, tok, uuid)
    ensures OwnedNow(Apply(s, a).store, tok, uuid)
  {
    hide Advance, StateGuard, SlotGuard, LockGuard, OAuthGuard, TruthfulRead, OwnedNow, UserCheck;
    ReadShowsOwned(s.store, tok, uuid, a.event.answer);
  }

  /** The user is owned now exactly when its updates since r left it owned. */
  ghost predicate Tracked(s0: State, actions: seq<Action>, r: nat, tok: TokenPolicy, uuid: string) {
    var store := RunFrom(s0, actions).UnwrapOr(s0).store;
    uuid in store && (store[uuid].Live? ==> (Owns(tok, store[uuid].user) <==> LeftOwned(s0, actions, r, tok, uuid)))
  }

  lemma LeftOwnedStep(s0: State, front: seq<Action>, a: Action, last: nat, r: nat, tok: TokenPolicy, uuid: string)
    requires r < last == |front|
    ensures LeftOwned(s0, front + [a], r, tok, uuid) <==>
      if UpdateAt(s0, front + [a], last, uuid) then OwnedNow(Left(a), tok, uuid) else LeftOwned(s0, front, r, tok, uuid)
  {
    hide UpdateAt, OwnedNow, Left;
    var actions := front + [a];
    forall k: nat | k < |front|
      ensures UpdateAt(s0, actions, k, uuid) <==> UpdateAt(s0, front, k, uuid)
    {
      UpdateAtPrefix(s0, front, [a], k, uuid);
    }
    if UpdateAt(s0, actions, |front|, uuid) {
      assert LastUpdate(s0, actions, r, |front|, uuid);
    } else {
      forall k: nat
        ensures LastUpdate(s0, actions, r, k, uuid) <==> LastUpdate(s0, front, r, k, uuid)
      {
        SameLast(s0, front, a, last, r, k, uuid);
      }
      assert forall k: nat | k < |front| :: front[k] == actions[k];
    }
  }

  lemma SameLast(s0: State, front: seq<Action>, a: Action, last: nat, r: nat, k: nat, uuid: string)
    requires last == |front| && !UpdateAt(s0, front + [a], last, uuid)
    ensures LastUpdate(s0, front + [a], r, k, uuid) <==> LastUpdate(s0, front, r, k, uuid)
  {
    hide RunFrom, UpdatesNow, UpdateAt;
    forall m: nat | m < |front|
      ensures UpdateAt(s0, front + [a], m, uuid) <==> UpdateAt(s0, front, m, uuid)
    {
      UpdateAtPrefix(s0, front, [a], m, uuid);
    }
  }

  lemma NothingAfter(s0: State, actions: seq<Action>, r: nat, tok: TokenPolicy, uuid: string)
    requires r + 1 == |actions|
    ensures LeftOwned(s0, actions, r, tok, uuid)
  {
    hide RunFrom, UpdatesNow;
  }

  /** For every run and every read in it that showed a user owned: afterwards the user, while it exists, is
      owned exactly when no update of it was forwarded since, or the last one left it owned. */
  lemma {:induction false} OwnedSinceRead(s0: State, actions: seq<Action>, r: nat, id: nat, tok: TokenPolicy, uuid: string)
    requires RunFrom(s0, actions).Some? && r < |actions| && OwnedReadBy(actions[r], id, tok, uuid)
    ensures Tracked(s0, actions, r, tok, uuid)
  {
    hide Enabled, Apply, OwnedReadBy, Owns, LeftOwned, UpdatesNow;
    var last := |actions| - 1;
    var front := actions[..last];
    var mid := RunFrom(s0, front).value;
    if r == last {
      ReadOwns(mid, actions[last], id, tok, uuid);
      NothingAfter(s0, actions, r, tok, uuid);
    } else {
      assert front[r] == actions[r];
      OwnedSinceRead(s0, front, r, id, tok, uuid);
      assert front + [actions[last]] == actions;
      LeftOwnedStep(s0, front, actions[last], last, r, tok, uuid);
      ActionKeepsUser(mid, actions[last], uuid);
      if !UpdatesNow(mid, actions[last], uuid) {
        KeptOwner(mid.store, Apply(mid, actions[last]).store, tok, uuid);
      }
    }
  }

  // ------------------------------------------------------------ forwarding

  /** What a handler has recorded it did in an action of the run. */
  lemma {:induction false} EventIsAction(cfg: Settings, store: map<string, Account>, actions: seq<Action>, s: State, id: nat, i: nat)
    returns (r: nat)
    requires Reached(cfg, store, actions, s) && id < |s.threads| && i < |s.threads[id].log|
    ensures r < |actions| && actions[r].Step? && actions[r].id == id && actions[r].event == s.threads[id].log[i]
  {
    hide Enabled, Apply;
    if actions == [] {
      assert false;
    } else {
      var last := |actions| - 1;
      var mid := RunFrom(Init(cfg, store), actions[..last]).value;
      LogGrows(mid, actions[last], id);
      if id < |mid.threads| && i < |mid.threads[id].log| {
        r := EventIsAction(cfg, store, actions[..last], mid, id, i);
        assert actions[..last][r] == actions[r];
      } else {
        r := last;
      }
    }
  }

  /** The history of a handler; of one that has not arrived, none. */
  function LogAt(s: State, id: nat): seq<Event> {
    if id < |s.threads| then s.threads[id].log else []
  }

  /** What the action adds to it. */
  function EventsOf(a: Action, id: nat): seq<Event> {
    if a.Step? && a.id == id then [a.event] else []
  }

  lemma LogGrows(s: State, a: Action, id: nat)
    requires Enabled(s, a)
    ensures LogAt(Apply(s, a), id) == LogAt(s, id) + EventsOf(a, id)
  {
    hide Advance, StateGuard, SlotGuard, LockGuard, OAuthGuard, StoreGuard, Evolves, Catalogued, Detected, CountsAfter,
      MutexesAfter, OwnersAfter, AttemptsAfter, DrawnAfter, TakenAfter;
    if a.Step? {
      AdvanceRecords(s.threads[a.id], a.event);
    }
  }

  ghost predicate IsJob(t: Thread, j: Job) {
    t.view.Some? && t.session.Some? && JobOf(t) == j
  }

  /** A request that needs an owned user has read it, and found it owned, before it is forwarded. */
  lemma ForwardWasRead(t: Thread, j: Job, a: Answer, uuid: string) returns (i: nat)
    requires Inv(t) && Advance(t, Forward(a)).Some? && IsJob(t, j) && PreflightNeed(j) == UserOf(uuid)
    ensures OwnedReadAt(j, uuid, t.log, i)
  {
    hide SessionFits, HistoryOk, AnsweredOnce, PagesInScan, BodyOutcome, PreflightNeed, DecisionPasses, OwnedReadAt, Advance, LockedNow;
    ForwardFrom(t, Forward(a));
    i :| 0 <= i < |t.log| && OwnedReadAt(j, uuid, t.log, i);
  }

  /** For every run: whenever a request that needs an owned user is forwarded, its handler has read the
      user and found it owned. If the user still exists, the token owns it at that very moment exactly
      when no update of it was forwarded since the read, or the last of them left it owned. */
  lemma ForwardedOwnership(cfg: Settings, store: map<string, Account>, actions: seq<Action>, s: State,
                           id: nat, a: Answer, after: map<string, Account>, uuid: string) returns (r: nat)
    requires Reached(cfg, store, actions, s) && StepEnabled(s, id, Forward(a), after)
    requires var t := s.threads[id]; t.view.Some? && t.session.Some? && PreflightNeed(JobOf(t)) == UserOf(uuid)
    ensures r < |actions| && OwnedReadBy(actions[r], id, s.threads[id].session.value.tok, uuid)
    ensures uuid in s.store
    ensures var tok := s.threads[id].session.value.tok;
      s.store[uuid].Live? ==> (Owns(tok, s.store[uuid].user) <==> LeftOwned(Init(cfg, store), actions, r, tok, uuid))
  {
    hide RunFrom, Sound, Coherent, Secured, AllWriteSafe, Advance, PreflightNeed, Owns, LeftOwned, Init, StateGuard, SlotGuard,
      LockGuard, OAuthGuard, StoreGuard, UserCheck, Inv;
    ReachedIsSound(cfg, store, actions, s);
    var t := s.threads[id];
    SoundInv(s, id, t);
    var i := ForwardWasRead(t, JobOf(t), a, uuid);
    r := EventIsAction(cfg, store, actions, s, id, i);
    OwnedSinceRead(Init(cfg, store), actions, r, id, t.session.value.tok, uuid);
  }

  lemma SoundInv(s: State, id: nat, t: Thread)
    requires Sound(s) && IsAt(s.threads, id, t)
    ensures Inv(t)
  {
    hide Inv, GensOk, FlagOk;
    HandlerOk(s, id, s.threads[id]);
  }

  // ============================================== a run that hits a foreign user

  // ----------------------------------------------- from arrival to the call

  /** A request, the settings and session it runs under, the user it needs, and the upstream's answer to its read. */
  datatype Course = Course(cfg: Settings, req: Request, s: Session, uuid: string, read: Answer)

  /** The pipeline lets the request through to its call. */
  ghost predicate Passes(c: Course) {
    && c.req.matched.Some? && Catalogued(c.req.matched.value)
    && Admitted(c.cfg, c.req) == WantVersion && Versioned(c.cfg, c.req) == WantToken && SessionFor(c.cfg, c.req) == Some(c.s)
    && var j := Job(c.cfg, c.s, c.req);
      Decided(j) == WantMutex && BeginPreflight(j) == Pc.Preflight(c.uuid) && Preflighted(j, c.read) == Pc.Forwarding
  }

  /** The running generation has these settings and an open version guard. */
  ghost predicate Serves(st: State, cfg: Settings) {
    st.installs != [] && Installed(st) in st.gens && st.gens[Installed(st)].cfg == cfg && st.gens[Installed(st)].open
  }

  /** The handler of the request has come to this point. */
  ghost predicate HasCome(st: State, t: Thread, c: Course, session: Option<Session>, pc: Pc) {
    t.req == c.req && t.view == Some(View(Installed(st), c.cfg)) && t.session == session && t.pc == pc
  }

  ghost predicate OthersAsBefore(st: State, n: State, id: nat, u: Thread) {
    n.threads == Replaced(st.threads, id, u) && n.gens == st.gens && n.installs == st.installs && n.store == st.store
  }

  /** The handler can take this step, and then is like n. */
  ghost predicate Moves(st: State, id: nat, t: Thread, e: Event, n: Thread) {
    IsAt(st.threads, id, t) && StepEnabled(st, id, e, st.store) && Advance(t, e) == Some(n)
  }

  /** A step that leaves the store alone. */
  lemma DoStep(s0: State, actions: seq<Action>, st: State, id: nat, t: Thread, e: Event, u: Thread) returns (more: seq<Action>, n: State)
    requires RunFrom(s0, actions) == Some(st) && Moves(st, id, t, e, u)
    ensures RunFrom(s0, more) == Some(n) && OthersAsBefore(st, n, id, u)
    ensures n.counts == CountsAfter(st.counts, e)
    ensures n.mutexOf == MutexesAfter(st.mutexOf, t, e) && n.owner == OwnersAfter(st.owner, id, t, e)
  {
    hide RunFrom, Advance, CountsAfter, MutexesAfter, OwnersAfter, StateGuard, SlotGuard, LockGuard, OAuthGuard, StoreGuard;
    var a := Step(id, e, st.store);
    StepIsAction(st, id, e);
    RunExtends(s0, actions, st, a);
    more, n := actions + [a], Apply(st, a);
  }

  lemma DoArrive(s0: State, actions: seq<Action>, st: State, c: Course) returns (more: seq<Action>, n: State)
    requires RunFrom(s0, actions) == Some(st) && Passes(c)
    ensures RunFrom(s0, more) == Some(n) && n == st.(threads := st.threads + [Fresh(c.req)])
  {
    hide RunFrom, Catalogued, StepEnabled, ApplyStep, Evolves, Admitted, Versioned, SessionFor, Decided, BeginPreflight, Preflighted;
    var a := Arrive(c.req);
    RunExtends(s0, actions, st, a);
    more, n := actions + [a], Apply(st, a);
  }

  lemma CanLoad(st: State, id: nat, t: Thread, c: Course) returns (u: Thread)
    requires Serves(st, c.cfg) && IsAt(st.threads, id, t) && t == Fresh(c.req)
    ensures Moves(st, id, t, LoadState(View(Installed(st), c.cfg)), u) && HasCome(st, u, c, None, WantGlobal)
  {
    u := Go(t, LoadState(View(Installed(st), c.cfg)), WantGlobal).(view := Some(View(Installed(st), c.cfg)));
  }

  lemma CanTakeGlobal(st: State, id: nat, t: Thread, c: Course)
    requires Serves(st, c.cfg) && IsAt(st.threads, id, t) && HasCome(st, t, c, None, WantGlobal) && Admitted(c.cfg, c.req) == WantVersion
    requires CountOf(st.counts, GlobalSlot(Installed(st))) < Capacity(c.cfg.globalConcurrency)
    ensures var slot := GlobalSlot(Installed(st));
      Moves(st, id, t, Acquire(slot, true), GoWith(t, Acquire(slot, true), slot, WantVersion))
  {
    hide Admitted, CountOf;
  }

  lemma CanPassGuard(st: State, id: nat, t: Thread, c: Course)
    requires Serves(st, c.cfg) && IsAt(st.threads, id, t) && HasCome(st, t, c, None, WantVersion) && Versioned(c.cfg, c.req) == WantToken
    ensures Moves(st, id, t, ReadVersion(true), Go(t, ReadVersion(true), WantToken).(session := SessionFor(c.cfg, c.req)))
  {
    hide Versioned, SessionFor;
  }

  lemma CanTakeToken(st: State, id: nat, t: Thread, c: Course)
    requires Serves(st, c.cfg) && IsAt(st.threads, id, t) && HasCome(st, t, c, Some(c.s), WantToken)
    requires CountOf(st.counts, TokenSlot(Installed(st), c.s.tok.id)) < Capacity(c.cfg.perTokenConcurrency)
    ensures var slot := TokenSlot(Installed(st), c.s.tok.id);
      Moves(st, id, t, Acquire(slot, true), GoWith(t, Acquire(slot, true), slot, WantTokenRate))
  {
    hide CountOf, Decided;
  }

  lemma CanPassRate(st: State, id: nat, t: Thread, c: Course)
    requires IsAt(st.threads, id, t) && HasCome(st, t, c, Some(c.s), WantTokenRate) && Decided(Job(c.cfg, c.s, c.req)) == WantMutex
    ensures Moves(st, id, t, RateCheck(true), Go(t, RateCheck(true), WantMutex))
  {
    hide Decided;
  }

  lemma CanGetMutex(st: State, id: nat, t: Thread, c: Course)
    requires IsAt(st.threads, id, t) && HasCome(st, t, c, Some(c.s), WantMutex)
    ensures var mutex := MutexFor(st.mutexOf, LockKey(c.s.route, c.req));
      Moves(st, id, t, GetMutex(mutex), Go(t, GetMutex(mutex), WantLock(mutex)))
  {
    hide LockKey;
  }

  lemma CanLock(st: State, id: nat, t: Thread, c: Course, mutex: nat)
    requires IsAt(st.threads, id, t) && HasCome(st, t, c, Some(c.s), WantLock(mutex)) && mutex !in st.owner
    requires BeginPreflight(Job(c.cfg, c.s, c.req)) == Pc.Preflight(c.uuid)
    ensures Moves(st, id, t, LockMutex, Go(t, LockMutex, Pc.Preflight(c.uuid)).(mutex := Some(mutex)))
  {
    hide BeginPreflight;
  }

  lemma CanRead(st: State, id: nat, t: Thread, c: Course)
    requires IsAt(st.threads, id, t) && HasCome(st, t, c, Some(c.s), Pc.Preflight(c.uuid)) && TruthfulRead(st.store, c.uuid, c.read)
    requires Preflighted(Job(c.cfg, c.s, c.req), c.read) == Pc.Forwarding
    ensures Moves(st, id, t, ReadUser(c.uuid, c.read), Go(t, ReadUser(c.uuid, c.read), Pc.Forwarding))
  {
    hide Preflighted, TruthfulRead;
  }

  /** The state is loaded, the global slot taken, the version guard passed. */
  lemma Enter(s0: State, actions: seq<Action>, st: State, id: nat, c: Course) returns (more: seq<Action>, n: State, u: Thread)
    requires RunFrom(s0, actions) == Some(st) && IsAt(st.threads, id, Fresh(c.req)) && Passes(c) && Serves(st, c.cfg)
    requires CountOf(st.counts, GlobalSlot(Installed(st))) < Capacity(c.cfg.globalConcurrency)
    ensures RunFrom(s0, more) == Some(n) && OthersAsBefore(st, n, id, u) && HasCome(n, u, c, Some(c.s), WantToken)
    ensures n.counts == CountsAfter(st.counts, Acquire(GlobalSlot(Installed(st)), true))
    ensures n.mutexOf == st.mutexOf && n.owner == st.owner
  {
    hide RunFrom, StepEnabled, Advance, Admitted, Versioned, SessionFor, Decided, BeginPreflight, Preflighted, Catalogued, CountOf, Moves;
    var slot := GlobalSlot(Installed(st));
    var t1 := CanLoad(st, id, Fresh(c.req), c);
    var acts1, s1 := DoStep(s0, actions, st, id, Fresh(c.req), LoadState(View(Installed(st), c.cfg)), t1);
    CanTakeGlobal(s1, id, t1, c);
    var t2 := GoWith(t1, Acquire(slot, true), slot, WantVersion);
    var acts2, s2 := DoStep(s0, acts1, s1, id, t1, Acquire(slot, true), t2);
    CanPassGuard(s2, id, t2, c);
    u := Go(t2, ReadVersion(true), WantToken).(session := SessionFor(c.cfg, c.req));
    more, n := DoStep(s0, acts2, s2, id, t2, ReadVersion(true), u);
  }

  /** The token's slot is taken, and its rate admits the request. */
  lemma Admit(s0: State, actions: seq<Action>, st: State, id: nat, t: Thread, c: Course) returns (more: seq<Action>, n: State, u: Thread)
    requires RunFrom(s0, actions) == Some(st) && IsAt(st.threads, id, t) && HasCome(st, t, c, Some(c.s), WantToken)
    requires Passes(c) && Serves(st, c.cfg)
    requires CountOf(st.counts, TokenSlot(Installed(st), c.s.tok.id)) < Capacity(c.cfg.perTokenConcurrency)
    ensures RunFrom(s0, more) == Some(n) && OthersAsBefore(st, n, id, u) && HasCome(n, u, c, Some(c.s), WantMutex)
    ensures n.counts == CountsAfter(st.counts, Acquire(TokenSlot(Installed(st), c.s.tok.id), true))
    ensures n.mutexOf == st.mutexOf && n.owner == st.owner
  {
    hide RunFrom, StepEnabled, Advance, Admitted, Versioned, SessionFor, Decided, BeginPreflight, Preflighted, Catalogued, CountOf, Moves;
    var slot := TokenSlot(Installed(st), c.s.tok.id);
    CanTakeToken(st, id, t, c);
    var t1 := GoWith(t, Acquire(slot, true), slot, WantTokenRate);
    var acts1, s1 := DoStep(s0, actions, st, id, t, Acquire(slot, true), t1);
    CanPassRate(s1, id, t1, c);
    u := Go(t1, RateCheck(true), WantMutex);
    more, n := DoStep(s0, acts1, s1, id, t1, RateCheck(true), u);
  }

  /** The resource is locked, and the user is read. */
  lemma LockAndRead(s0: State, actions: seq<Action>, st: State, id: nat, t: Thread, c: Course)
    returns (more: seq<Action>, n: State, u: Thread)
    requires RunFrom(s0, actions) == Some(st) && IsAt(st.threads, id, t) && HasCome(st, t, c, Some(c.s), WantMutex)
    requires Passes(c) && TruthfulRead(st.store, c.uuid, c.read)
    requires MutexFor(st.mutexOf, LockKey(c.s.route, c.req)) !in st.owner
    ensures RunFrom(s0, more) == Some(n) && OthersAsBefore(st, n, id, u) && HasCome(n, u, c, Some(c.s), Pc.Forwarding)
    ensures n.counts == st.counts
    ensures var key := LockKey(c.s.route, c.req);
      n.mutexOf == st.mutexOf[key := MutexFor(st.mutexOf, key)] && n.owner == st.owner[MutexFor(st.mutexOf, key) := id]
  {
    hide RunFrom, StepEnabled, Advance, Admitted, Versioned, SessionFor, Decided, BeginPreflight, Preflighted, Catalogued,
      TruthfulRead, LockKey, MutexFor, Moves;
    var mutex := MutexFor(st.mutexOf, LockKey(c.s.route, c.req));
    CanGetMutex(st, id, t, c);
    var t1 := Go(t, GetMutex(mutex), WantLock(mutex));
    var acts1, s1 := DoStep(s0, actions, st, id, t, GetMutex(mutex), t1);
    CanLock(s1, id, t1, c, mutex);
    var t2 := Go(t1, LockMutex, Pc.Preflight(c.uuid)).(mutex := Some(mutex));
    var acts2, s2 := DoStep(s0, acts1, s1, id, t1, LockMutex, t2);
    CanRead(s2, id, t2, c);
    u := Go(t2, ReadUser(c.uuid, c.read), Pc.Forwarding);
    more, n := DoStep(s0, acts2, s2, id, t2, ReadUser(c.uuid, c.read), u);
  }

  lemma CanForward(st: State, id: nat, t: Thread, c: Course, after: map<string, Account>)
    requires IsAt(st.threads, id, t) && HasCome(st, t, c, Some(c.s), Pc.Forwarding)
    requires Evolves(st.store, after, uuid => c.s.route.name == UserUpdate && Names(c.req.body.payload, uuid))
    ensures StepEnabled(st, id, Forward(NoAnswer), after)
  {
    hide Answered, Names, SameOwnership;
  }

  lemma DoForward(s0: State, actions: seq<Action>, st: State, id: nat, after: map<string, Account>)
    returns (more: seq<Action>, n: State, u: Thread)
    requires RunFrom(s0, actions) == Some(st) && StepEnabled(st, id, Forward(NoAnswer), after)
    ensures RunFrom(s0, more) == Some(n) && n.store == after && n.installs == st.installs && n.threads == Replaced(st.threads, id, u)
  {
    hide RunFrom, Advance, CountsAfter, MutexesAfter, OwnersAfter, StateGuard, SlotGuard, LockGuard, OAuthGuard, StoreGuard;
    var a := Step(id, Forward(NoAnswer), after);
    RunExtends(s0, actions, st, a);
    more, n := actions + [a], Apply(st, a);
    u := n.threads[id];
  }

  lemma TokenSlotStays(counts: map<Slot, nat>, gen: nat, tokenId: string)
    ensures CountOf(CountsAfter(counts, Acquire(GlobalSlot(gen), true)), TokenSlot(gen, tokenId)) == CountOf(counts, TokenSlot(gen, tokenId))
  {
  }

  /** From arrival to the call, in one go. */
  lemma Walk(s0: State, actions: seq<Action>, st: State, id: nat, c: Course) returns (more: seq<Action>, n: State, u: Thread)
    requires RunFrom(s0, actions) == Some(st) && id == |st.threads|
    requires Passes(c) && Serves(st, c.cfg) && TruthfulRead(st.store, c.uuid, c.read)
    requires CountOf(st.counts, GlobalSlot(Installed(st))) < Capacity(c.cfg.globalConcurrency)
    requires CountOf(st.counts, TokenSlot(Installed(st), c.s.tok.id)) < Capacity(c.cfg.perTokenConcurrency)
    requires MutexFor(st.mutexOf, LockKey(c.s.route, c.req)) !in st.owner
    ensures RunFrom(s0, more) == Some(n) && n.threads == st.threads + [u] && HasCome(n, u, c, Some(c.s), Pc.Forwarding)
    ensures n.gens == st.gens && n.installs == st.installs && n.store == st.store
    ensures n.counts == CountsAfter(CountsAfter(st.counts, Acquire(GlobalSlot(Installed(st)), true)),
                                    Acquire(TokenSlot(Installed(st), c.s.tok.id), true))
    ensures var key := LockKey(c.s.route, c.req);
      n.mutexOf == st.mutexOf[key := MutexFor(st.mutexOf, key)] && n.owner == st.owner[MutexFor(st.mutexOf, key) := id]
  {
    hide RunFrom, Passes, HasCome, Advance, StepEnabled, CountOf, CountsAfter, LockKey, MutexFor, TruthfulRead, SessionFor;
    var acts1, s1 := DoArrive(s0, actions, st, c);
    var acts2, s2, t2 := Enter(s0, acts1, s1, id, c);
    TokenSlotStays(st.counts, Installed(st), c.s.tok.id);
    var acts3, s3, t3 := Admit(s0, acts2, s2, id, t2, c);
    more, n, u := LockAndRead(s0, acts3, s3, id, t3, c);
  }

  /** Any request that needs a user and any update, by tokens of their own and under keys of their own, can
      be run so that the update is forwarded, with any effect it may have, right before the request is. */
  lemma Overtaken(store: map<string, Account>, first: Course, update: Course, after: map<string, Account>)
    returns (actions: seq<Action>, n: State, t: Thread)
    requires Passes(first) && Passes(update) && first.cfg == update.cfg && first.s.tok.id != update.s.tok.id
    requires first.cfg.assumeVersion != "" && first.cfg.globalConcurrency >= 2
    requires LockKey(first.s.route, first.req) != LockKey(update.s.route, update.req)
    requires TruthfulRead(store, first.uuid, first.read) && TruthfulRead(store, update.uuid, update.read)
    requires Evolves(store, after, uuid => update.s.route.name == UserUpdate && Names(update.req.body.payload, uuid))
    ensures Reached(first.cfg, store, actions, n) && n.store == after && IsAt(n.threads, 0, t)
    ensures HasCome(n, t, first, Some(first.s), Pc.Forwarding) && StepEnabled(n, 0, Forward(NoAnswer), n.store)
  {
    hide RunFrom, Passes, LockKey, TruthfulRead, StepEnabled, Evolves;
    var cfg := first.cfg;
    var s0 := Init(cfg, store);
    RunNothing(s0);
    var acts1, s1, t1 := Walk(s0, [], s0, 0, first);
    var acts2, s2, t2 := Walk(s0, acts1, s1, 1, update);
    CanForward(s2, 1, t2, update, after);
    var u;
    actions, n, u := DoForward(s0, acts2, s2, 1, after);
    t := t1;
    NothingEvolves(n.store, uuid => first.s.route.name == UserUpdate && Names(first.req.body.payload, uuid));
    CanForward(n, 0, t, first, n.store);
  }

  lemma NothingEvolves(store: map<string, Account>, changeable: string -> bool)
    ensures Evolves(store, store, changeable)
  {
  }

  // ------------------------------------------------------------ one such run

  function Anyone(prefix: string): Constraints {
    Constraints(prefix, "", "", NoRegex, "", [], [], [], [], [], [], map[], 0, false, 0, map[])
  }

  /** A token that may disable users whose names begin with "a", and one that may update every user. */
  function Disabler(): TokenPolicy {
    TokenPolicy("disabler", [Credential("c1", "d1", false)], [UsersAction], false, Anyone("a"))
  }

  function Updater(): TokenPolicy {
    TokenPolicy("updater", [Credential("c2", "d2", false)], [UsersUpdate], false, Anyone(""))
  }

  function Both(): Settings {
    Settings([Disabler(), Updater()], "1.0", "1.0", false, 2, 1, 1, 65536, true, true, false, false, map[], 0, false, false)
  }

  function ActionRoute(): Route {
    Route(UserAction(DisableUser), POST, "/api/users/{uuid}/actions/disable", Support.Privileged, [RemnawaveAll], false, 0, AnyField, "")
  }

  function UpdateRoute(): Route {
    Route(UserUpdate, PATCH, "/api/users", Support.Privileged, [RemnawaveAll], true, 65536, UserUpdateFields, "")
  }

  function Ask(verb: Method, path: string, segments: seq<string>, route: Route, presented: Presented, body: BodyRequest): Request {
    Request(verb, path, segments, None, Some(route), [], None, map[], presented, NoAuthPath, body, None, "192.0.2.1")
  }

  function DisableRequest(): Request {
    Ask(POST, "/api/users/1/actions/disable", ["api", "users", "1", "actions", "disable"], ActionRoute(), GatewayToken("c1", "d1"),
        BodyRequest(false, false, 0, NoObject))
  }

  const RENAME: seq<(string, Json)> := [("uuid", Str("1")), ("username", Str("b1"))]

  function UpdateRequest(): Request {
    Ask(PATCH, "/api/users", ["api", "users"], UpdateRoute(), GatewayToken("c2", "d2"),
        BodyRequest(true, false, 30, Members(RENAME, true, false)))
  }

  /** The user as the upstream shows it under a name. */
  function Named(name: string): Json {
    Obj(map["uuid" := Str("1"), "username" := Str(name)])
  }

  function Shown(name: string): User
    requires name != ""
  {
    ParseUserObject(Named(name)).value
  }

  function StoreWith(name: string): map<string, Account>
    requires name != ""
  {
    map["1" := Live(Shown(name))]
  }

  function Disable(): Course {
    Course(Both(), DisableRequest(), Session(EffectiveRoute(Both(), ActionRoute()), Disabler(), false), "1", Answer(200, Some(Named("a1"))))
  }

  function Rename(): Course {
    Course(Both(), UpdateRequest(), Session(EffectiveRoute(Both(), UpdateRoute()), Updater(), false), "1", Answer(200, Some(Named("a1"))))
  }

  lemma NamedUser(name: string)
    requires name != ""
    ensures DecodeUser(Named(name)) == Some(Shown(name))
    ensures Owns(Disabler(), Shown(name)) <==> name[0] == 'a'
    ensures Owns(Updater(), Shown(name))
  {
    assert Shown(name).username == name;
    assert Text.HasPrefix(name, "a") <==> name[0] == 'a';
  }

  lemma ReadIsOwned(tok: TokenPolicy)
    requires tok == Disabler() || tok == Updater()
    ensures UserCheck(tok, Answer(200, Some(Named("a1")))).Pass?
    ensures TruthfulRead(StoreWith("a1"), "1", Answer(200, Some(Named("a1"))))
  {
    hide DecodeUser, OwnsUser;
    NamedUser("a1");
  }

  lemma DisableEnters()
    ensures var c := Disable();
      Catalogued(ActionRoute()) && Admitted(c.cfg, c.req) == WantVersion && Versioned(c.cfg, c.req) == WantToken &&
      SessionFor(c.cfg, c.req) == Some(c.s)
  {
    assert Credentials.FindCredential(Both().tokens, "c1") == Some((Disabler(), Disabler().credentials[0]));
    hide Credentials.FindCredential;
  }

  lemma UpdateEnters()
    ensures var c := Rename();
      Catalogued(UpdateRoute()) && Admitted(c.cfg, c.req) == WantVersion && Versioned(c.cfg, c.req) == WantToken &&
      SessionFor(c.cfg, c.req) == Some(c.s)
  {
    SecondCredential();
    hide Credentials.FindCredential;
  }

  lemma SecondCredential()
    ensures Credentials.FindCredential(Both().tokens, "c2") == Some((Updater(), Updater().credentials[0]))
  {
    assert Both().tokens[1..] == [Updater()];
  }

  lemma RoutesAreLocked()
    ensures LockedWrite(Disable().s.route) && Disable().s.route.name == UserAction(DisableUser) && !Disable().s.route.bodyObject
    ensures LockedWrite(Rename().s.route) && Rename().s.route.name == UserUpdate
    ensures Decide(Disabler(), Disable().s.route).Allow? && Decide(Updater(), Rename().s.route).Allow?
  {
    DecideExact(Disabler(), Disable().s.route);
    assert UsersAction in Disabler().scopes;
    DecideExact(Updater(), Rename().s.route);
    assert UsersUpdate in Updater().scopes;
    hide Decide;
  }

  /** A locked write with an allowing decision, a need for the user and an accepted body comes to its call. */
  lemma Decides(c: Course)
    requires var j := Job(c.cfg, c.s, c.req);
      Decide(c.s.tok, c.s.route).Allow? && LockedWrite(c.s.route) && WriteSafe(c.cfg) && !Oversized(c.cfg, c.req) && !c.s.panel &&
      PreflightNeed(j) == UserOf(c.uuid) && UserCheck(c.s.tok, c.read).Pass? && BodyOutcome(j).Pass?
    ensures var j := Job(c.cfg, c.s, c.req);
      Decided(j) == WantMutex && BeginPreflight(j) == Pc.Preflight(c.uuid) && Preflighted(j, c.read) == Pc.Forwarding
  {
    hide Decide, LockedWrite, WriteSafe, Oversized, PreflightNeed, UserCheck, BodyOutcome;
  }

  lemma DisableNeeds()
    ensures var c := Disable(); var j := Job(c.cfg, c.s, c.req); PreflightNeed(j) == UserOf("1") && BodyOutcome(j).Pass?
  {
    RoutesAreLocked();
    hide EffectiveRoute;
  }

  lemma DisablePasses()
    ensures Passes(Disable())
  {
    RoutesAreLocked();
    ReadIsOwned(Disabler());
    DisableNeeds();
    DisableEnters();
    hide Decide, LockedWrite, PreflightNeed, UserCheck, BodyOutcome, Admitted, Versioned, SessionFor, EffectiveRoute, Decided,
      BeginPreflight, Preflighted;
    Decides(Disable());
  }

  lemma RenameNeeds()
    ensures var c := Rename(); var j := Job(c.cfg, c.s, c.req); PreflightNeed(j) == UserOf("1")
  {
    RoutesAreLocked();
    RenameDecodes();
    hide EffectiveRoute, BodyString, LastWins;
  }

  lemma RenamePasses()
    ensures Passes(Rename())
  {
    RoutesAreLocked();
    ReadIsOwned(Updater());
    RenameNeeds();
    RenameBodyPasses();
    UpdateEnters();
    hide Decide, LockedWrite, PreflightNeed, UserCheck, BodyOutcome, Admitted, Versioned, SessionFor, EffectiveRoute, Decided,
      BeginPreflight, Preflighted;
    Decides(Rename());
  }

  lemma RenameDecodes()
    ensures LastWins(RENAME) == Named("b1").fields && BodyString(UpdateRequest().body.payload, "uuid") == "1"
  {
    assert RENAME[..1] == [("uuid", Str("1"))] && RENAME[..1][..0] == [];
    assert LastWins(RENAME[..1]) == map["uuid" := Str("1")];
  }

  lemma RenameBodyPasses()
    ensures var c := Rename(); BodyOutcome(Job(c.cfg, c.s, c.req)).Pass?
  {
    RenameDecodes();
    var fields := Named("b1").fields;
    assert Decode(UpdateRequest().body.payload) == Ok(fields);
    RenameFieldsPass(fields);
    hide Keys, Decode, ValidateUserConstraints, LastWins;
  }

  lemma RenameFieldsPass(fields: map<string, Json>)
    requires fields == Named("b1").fields
    ensures FieldsAllowed(fields, Keys(UpdateFields)) && ValidateUserConstraints(fields, Updater().constraints).Pass?
  {
    assert Keys(UpdateFields)[0] == "username" && Keys(UpdateFields)[1] == "uuid";
    hide Keys;
  }

  /** The rename is an update of this user, and the two requests lock different keys. */
  lemma RenameTakesOver()
    ensures Evolves(StoreWith("a1"), StoreWith("b1"), uuid => Rename().s.route.name == UserUpdate && Names(Rename().req.body.payload, uuid))
    ensures LockKey(Disable().s.route, Disable().req) != LockKey(Rename().s.route, Rename().req)
  {
    RoutesAreLocked();
    hide EffectiveRoute, SameOwnership, LockKey;
    assert RENAME[0] in RENAME;
    OtherRoutesLockApart(Rename().s.route, Disable().s.route, Rename().req, Disable().req);
  }

  lemma RenameOvertakes() returns (actions: seq<Action>, s: State, t: Thread)
    ensures Reached(Both(), StoreWith("a1"), actions, s) && StepEnabled(s, 0, Forward(NoAnswer), s.store) && IsAt(s.threads, 0, t)
    ensures HasCome(s, t, Disable(), Some(Disable().s), Pc.Forwarding) && s.store == StoreWith("b1")
  {
    DisablePasses();
    RenamePasses();
    RenameTakesOver();
    ReadIsOwned(Disabler());
    hide *;
    CoursesMeet();
    actions, s, t := Overtaken(StoreWith("a1"), Disable(), Rename(), StoreWith("b1"));
  }

  lemma CoursesMeet()
    ensures var first, update := Disable(), Rename();
      && first.cfg == update.cfg == Both() && first.s.tok.id != update.s.tok.id
      && first.cfg.assumeVersion != "" && first.cfg.globalConcurrency >= 2
      && TruthfulRead(StoreWith("a1"), first.uuid, first.read) && TruthfulRead(StoreWith("a1"), update.uuid, update.read)
  {
    ReadIsOwned(Disabler());
    hide EffectiveRoute, ParseUserObject;
  }

  /** The action is about to be forwarded while its token does not own the user. */
  lemma ActionHitsForeignUser() returns (actions: seq<Action>, s: State, t: Thread)
    ensures Reached(Both(), StoreWith("a1"), actions, s) && StepEnabled(s, 0, Forward(NoAnswer), s.store) && IsAt(s.threads, 0, t)
    ensures t.view.Some? && t.session == Some(Disable().s) && t.req == DisableRequest()
    ensures var s := Disable().s; LockedWrite(s.route) && s.route.name == UserAction(DisableUser) && PreflightNeed(JobOf(t)) == UserOf("1")
    ensures "1" in s.store && s.store["1"].Live? && !Owns(Disabler(), s.store["1"].user)
  {
    actions, s, t := RenameOvertakes();
    StillDisabling(s, t);
    NamedUser("b1");
  }

  lemma StillDisabling(s: State, t: Thread)
    requires HasCome(s, t, Disable(), Some(Disable().s), Pc.Forwarding)
    ensures t.view.Some? && t.session == Some(Disable().s) && t.req == DisableRequest()
    ensures var s := Disable().s; LockedWrite(s.route) && s.route.name == UserAction(DisableUser) && PreflightNeed(JobOf(t)) == UserOf("1")
  {
    RoutesAreLocked();
    DisableNeeds();
    hide LockedWrite, PreflightNeed, EffectiveRoute;
  }
}
