/** The whole gateway as a state machine: request handlers, reloads and version detections that
    interleave on shared state, and an upstream user store. Every step of a handler is one event of
    its own machine, guarded by what the shared state answers. */
module Runtime {
  import opened Prelude
  import opened Json
  import opened Config
  import opened Routes
  import opened Remnawave
  import opened BodyPolicy
  import opened Upstream
  import opened Requests
  import opened Handler
  import opened OAuthStore

  const OAUTH_CAPACITY: nat := 1024

  /** A runtime state that was built. `detected` is history: the versions detection found, oldest first. */
  datatype Generation = Generation(cfg: Settings, open: bool, detected: seq<string>)

  /** How far a reload has come: the new state is built, or the OAuth table was cleared too. */
  datatype Stage = Built | Emptied

  /** A user in the upstream. A removed user's uuid is not used again. */
  datatype Account = Live(user: User) | Removed

  /** `installs` lists the generations that were installed, oldest first; `drawn` and `taken` are the
      state tokens drawn by authorize calls and taken by callbacks. */
  datatype State = State(
    gens: map<nat, Generation>,
    nextGen: nat,
    reloading: map<nat, Stage>,
    installs: seq<nat>,
    counts: map<Slot, nat>,
    mutexOf: map<string, nat>,
    owner: map<nat, nat>,
    attempts: map<string, Attempt>,
    drawn: set<string>,
    taken: seq<string>,
    store: map<string, Account>,
    threads: seq<Thread>)

  datatype Action =
    | Arrive(req: Request)
    | Step(id: nat, event: Event, after: map<string, Account>)
    | ReloadBuild(cfg: Settings, built: bool)
    | ReloadClear(gen: nat)
    | ReloadInstall(gen: nat)
    | Detect(of: nat, found: Option<string>)
    | Outside(changed: map<string, Account>)

  function NewGeneration(cfg: Settings): Generation {
    Generation(cfg, cfg.assumeVersion != "", [])
  }

  /** NewRuntime, before the first request. */
  function Init(cfg: Settings, store: map<string, Account>): State {
    State(map[1 := NewGeneration(cfg)], 1, map[], [1], map[], map[], map[], map[], {}, [], store, [])
  }

  /** The generation installed last; there always is one. */
  function Installed(s: State): nat {
    if s.installs == [] then 0 else s.installs[|s.installs| - 1]
  }

  ghost predicate IsAt(threads: seq<Thread>, id: nat, t: Thread) {
    id < |threads| && threads[id] == t
  }

  function Replaced(threads: seq<Thread>, id: nat, n: Thread): seq<Thread> {
    if id < |threads| then threads[id := n] else threads
  }

  // -------------------------------------------------------------- generations

  /** What a load of the state pointer returns. */
  ghost predicate Loads(s: State, view: View) {
    s.installs != [] && view.gen == Installed(s) && view.gen in s.gens && view.cfg == s.gens[view.gen].cfg
  }

  ghost predicate StateGuard(s: State, t: Thread, e: Event) {
    match e
    case LoadState(view) => Loads(s, view)
    case ReadVersion(open) => t.view.Some? && t.view.value.gen in s.gens && open == s.gens[t.view.value.gen].open
    case LoadForAttempt(view, loadedAt) => Loads(s, view) && loadedAt == |s.installs|
    case LoadForCheck(gen) => s.installs != [] && gen == Installed(s)
    case _ => true
  }

  /** detectVersion: an assumed version opens the guard, otherwise the version found decides. */
  function Detected(g: Generation, found: Option<string>): Generation {
    if g.cfg.assumeVersion != "" then g.(open := true)
    else
      match found
      case None => g
      case Some(version) =>
        var wanted := g.cfg.remnawaveVersion;
        g.(open := version == wanted || (g.cfg.allowVersionMismatch && !UnsafeMismatch(version, wanted)),
          detected := g.detected + [version])
  }

  predicate UnsafeMismatch(got: string, want: string) {
    got != want
  }

  // --------------------------------------------------------------- semaphores

  /** NewSemaphore. */
  function Capacity(n: int): nat {
    if n <= 0 then 1 else n
  }

  function Limit(gens: map<nat, Generation>, slot: Slot): nat
    requires slot.gen in gens
  {
    var cfg := gens[slot.gen].cfg;
    match slot
    case GlobalSlot(_) => Capacity(cfg.globalConcurrency)
    case TokenSlot(_, _) => Capacity(cfg.perTokenConcurrency)
    case IpSlot(_, _) => Capacity(cfg.perIpConcurrency)
  }

  function CountOf(counts: map<Slot, nat>, slot: Slot): nat {
    if slot in counts then counts[slot] else 0
  }

  /** A try-acquire succeeds exactly when there is room; a release needs something to take back. */
  predicate SlotGuard(s: State, e: Event) {
    match e
    case Acquire(slot, got) => slot.gen in s.gens && (got <==> CountOf(s.counts, slot) < Limit(s.gens, slot))
    case Release(slot) => CountOf(s.counts, slot) > 0
    case _ => true
  }

  function CountsAfter(counts: map<Slot, nat>, e: Event): map<Slot, nat> {
    match e
    case Acquire(slot, true) => counts[slot := CountOf(counts, slot) + 1]
    case Release(slot) => counts[slot := if CountOf(counts, slot) > 0 then CountOf(counts, slot) - 1 else 0]
    case _ => counts
  }

  // ------------------------------------------------------------------ mutexes

  /** The key of the resource an authenticated handler locks. */
  function KeyOf(t: Thread): string {
    if t.session.Some? then LockKey(t.session.value.route, t.req) else ""
  }

  /** LoadOrStore of a new mutex under the key. */
  function MutexFor(mutexOf: map<string, nat>, key: string): nat {
    if key in mutexOf then mutexOf[key] else |mutexOf|
  }

  predicate LockGuard(s: State, t: Thread, e: Event) {
    match e
    case GetMutex(mutex) => mutex == MutexFor(s.mutexOf, KeyOf(t))
    case LockMutex => t.pc.WantLock? && t.pc.wanted !in s.owner
    case _ => true
  }

  function MutexesAfter(mutexOf: map<string, nat>, t: Thread, e: Event): map<string, nat> {
    if e.GetMutex? then mutexOf[KeyOf(t) := MutexFor(mutexOf, KeyOf(t))] else mutexOf
  }

  function OwnersAfter(owner: map<nat, nat>, id: nat, t: Thread, e: Event): map<nat, nat> {
    match e
    case LockMutex => if t.pc.WantLock? then owner[t.pc.wanted := id] else owner
    case Unlock => if t.mutex.Some? then owner - {t.mutex.value} else owner
    case _ => owner
  }

  // -------------------------------------------------------------- OAuth table

  /** The attempt that an authorize call is about to store. */
  function AttemptOf(pc: Pc, now: int): Attempt
    requires pc.OAuthPut?
  {
    Attempt(now + pc.attemptView.cfg.authMaxAge, pc.attemptView.gen, pc.loadedAt)
  }

  /** The random state token is assumed to be new. */
  predicate OAuthGuard(s: State, t: Thread, e: Event) {
    match e
    case DrawState(state) => state !in s.drawn
    case PutAttempt(now, stored) =>
      t.pc.OAuthPut? && stored == PutInto(s.attempts, OAUTH_CAPACITY, t.pc.pending, AttemptOf(t.pc, now), now).1
    case TakeAttempt(now, taken) => t.pc.OAuthTake? && taken == TakeFrom(s.attempts, t.pc.given, now).1
    case _ => true
  }

  function AttemptsAfter(attempts: map<string, Attempt>, t: Thread, e: Event): map<string, Attempt> {
    match e
    case PutAttempt(now, _) =>
      if t.pc.OAuthPut? then PutInto(attempts, OAUTH_CAPACITY, t.pc.pending, AttemptOf(t.pc, now), now).0 else attempts
    case TakeAttempt(now, _) => if t.pc.OAuthTake? then TakeFrom(attempts, t.pc.given, now).0 else attempts
    case _ => attempts
  }

  function DrawnAfter(drawn: set<string>, e: Event): set<string> {
    if e.DrawState? then drawn + {e.state} else drawn
  }

  function TakenAfter(taken: seq<string>, t: Thread, e: Event): seq<string> {
    if e.TakeAttempt? && e.taken.Some? && t.pc.OAuthTake? then taken + [t.pc.given] else taken
  }

  // ----------------------------------------------------------------- upstream

  /** The body has a member that names the user, for any way of reading repeated keys. */
  predicate Names(body: Payload, uuid: string) {
    body.Members? && ("uuid", Str(uuid)) in body.members
  }

  /** Users stay or are removed for good; only the users in `changeable` may change hands. */
  predicate Evolves(store: map<string, Account>, after: map<string, Account>, changeable: string -> bool) {
    forall uuid | uuid in store ::
      && uuid in after
      && (store[uuid].Removed? ==> after[uuid].Removed?)
      && (store[uuid].Live? && after[uuid].Live? && !SameOwnership(store[uuid].user, after[uuid].user) ==> changeable(uuid))
  }

  predicate UpdatesUser(t: Thread) {
    t.session.Some? && t.session.value.route.name == UserUpdate
  }

  /** A read of a user that succeeds and can be decoded shows the user as it is. */
  predicate TruthfulRead(store: map<string, Account>, uuid: string, a: Answer) {
    Success(a) && a.body.Some? && DecodeUser(a.body.value).Some? ==>
      uuid in store && store[uuid] == Live(DecodeUser(a.body.value).value)
  }

  predicate StoreGuard(s: State, t: Thread, e: Event, after: map<string, Account>) {
    match e
    case Forward(_) => Evolves(s.store, after, uuid => UpdatesUser(t) && Names(t.req.body.payload, uuid))
    case ReadUser(uuid, a) => after == s.store && TruthfulRead(s.store, uuid, a)
    case _ => after == s.store
  }

  // -------------------------------------------------------------------- steps

  ghost predicate StepEnabled(s: State, id: nat, e: Event, after: map<string, Account>) {
    && id < |s.threads|
    && Advance(s.threads[id], e).Some?
    && StateGuard(s, s.threads[id], e)
    && SlotGuard(s, e)
    && LockGuard(s, s.threads[id], e)
    && OAuthGuard(s, s.threads[id], e)
    && StoreGuard(s, s.threads[id], e, after)
  }

  /** What a step does; nothing where it is not the handler's next one. */
  function ApplyStep(s: State, id: nat, e: Event, after: map<string, Account>): State {
    if id >= |s.threads| || Advance(s.threads[id], e).None? then s
    else
      var t := s.threads[id];
      s.(counts := CountsAfter(s.counts, e),
         mutexOf := MutexesAfter(s.mutexOf, t, e),
         owner := OwnersAfter(s.owner, id, t, e),
         attempts := AttemptsAfter(s.attempts, t, e),
         drawn := DrawnAfter(s.drawn, e),
         taken := TakenAfter(s.taken, t, e),
         store := after,
         threads := s.threads[id := Advance(t, e).value])
  }

  predicate FromCatalog(req: Request) {
    req.matched.Some? ==> Catalogued(req.matched.value)
  }

  /** Which actions are possible. Requests bring routes of the catalog; outside changes leave ownership alone. */
  ghost predicate Enabled(s: State, a: Action) {
    match a
    case Arrive(req) => FromCatalog(req)
    case Step(id, e, after) => StepEnabled(s, id, e, after)
    case ReloadBuild(_, _) => true
    case ReloadClear(gen) => gen in s.reloading && s.reloading[gen] == Built
    case ReloadInstall(gen) => gen in s.reloading && s.reloading[gen] == Emptied
    case Detect(of, _) => of in s.gens && of in s.installs
    case Outside(changed) => Evolves(s.store, changed, uuid => false)
  }

  function Apply(s: State, a: Action): State {
    match a
    case Arrive(req) => s.(threads := s.threads + [Fresh(req)])
    case Step(id, e, after) => ApplyStep(s, id, e, after)
    case ReloadBuild(cfg, built) =>
      var gen := s.nextGen + 1;
      if built then s.(nextGen := gen, gens := s.gens[gen := NewGeneration(cfg)], reloading := s.reloading[gen := Built])
      else s.(nextGen := gen)
    case ReloadClear(gen) => s.(attempts := map[], reloading := s.reloading[gen := Emptied])
    case ReloadInstall(gen) => s.(installs := s.installs + [gen], reloading := s.reloading - {gen})
    case Detect(of, found) => if of in s.gens then s.(gens := s.gens[of := Detected(s.gens[of], found)]) else s
    case Outside(changed) => s.(store := changed)
  }

  /** A run of the gateway: the state after the actions, if each is possible in its turn. */
  ghost function RunFrom(s: State, actions: seq<Action>): Option<State> {
    if actions == [] then Some(s)
    else
      match RunFrom(s, actions[..|actions| - 1])
      case None => None
      case Some(mid) =>
        var a := actions[|actions| - 1];
        if Enabled(mid, a) then Some(Apply(mid, a)) else None
  }

  lemma RunNothing(s: State)
    ensures RunFrom(s, []) == Some(s)
  {
  }

  lemma RunExtends(s: State, actions: seq<Action>, mid: State, a: Action)
    requires RunFrom(s, actions) == Some(mid) && Enabled(mid, a)
    ensures RunFrom(s, actions + [a]) == Some(Apply(mid, a))
  {
    hide Enabled, Apply;
    assert (actions + [a])[..|actions|] == actions;
  }

  /** The state before the action at k. */
  ghost function Before(s0: State, actions: seq<Action>, k: nat): State {
    if k <= |actions| then RunFrom(s0, actions[..k]).UnwrapOr(s0) else s0
  }

  /** The run comes as far as the action at k. */
  ghost predicate Comes(s0: State, actions: seq<Action>, k: nat) {
    k <= |actions| && RunFrom(s0, actions[..k]).Some?
  }

  /** All states of all runs from a fresh start. */
  ghost predicate Reached(cfg: Settings, store: map<string, Account>, actions: seq<Action>, s: State) {
    RunFrom(Init(cfg, store), actions) == Some(s)
  }
}
