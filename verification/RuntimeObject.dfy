/** The runtime object with its state pointer, generation counter, OAuth table and mutex table, and the
    semaphores of a generation. Each method of the runtime is the sequence of steps that the state machine
    allows others to come in between; the semaphore objects keep the counts of the machine. */
module RuntimeObject {
  import opened Prelude
  import opened Config
  import opened Requests
  import opened Handler
  import opened OAuthStore
  import opened Runtime
  import opened RateLimit

  class GatewayRuntime {
    var gens: map<nat, Generation>
    var nextGen: nat
    /** The installed states; the pointer shows the last one. */
    var installs: seq<nat>
    const panelOAuth: PanelOAuthStore
    var locks: map<string, nat>

    constructor (cfg: Settings)
      ensures Valid() && fresh(panelOAuth)
      ensures forall store: map<string, Account> :: Shared(Init(cfg, store)) == Init(cfg, store)
    {
      gens := map[1 := NewGeneration(cfg)];
      nextGen := 1;
      installs := [1];
      panelOAuth := new PanelOAuthStore(OAUTH_CAPACITY);
      locks := map[];
    }

    ghost predicate Valid()
      reads this
    {
      panelOAuth.max == OAUTH_CAPACITY && installs != []
    }

    /** The machine's state with this object's fields in place of its own. */
    ghost function Shared(rest: State): State
      reads this, panelOAuth
    {
      rest.(gens := gens, nextGen := nextGen, installs := installs, attempts := panelOAuth.attempts, mutexOf := locks)
    }

    /** Reload: a new state is built under the next number, the OAuth table is emptied, the pointer is moved.
        A failed build only uses up the number. */
    method Reload(cfg: Settings, built: bool, ghost rest: State) returns (ok: bool)
      requires Valid() && rest.reloading == map[]
      modifies this, panelOAuth
      ensures Valid() && ok == built
      ensures ok ==> Installed(Shared(rest)) == old(nextGen) + 1 && old(nextGen) + 1 in gens && gens[old(nextGen) + 1].cfg == cfg &&
                     panelOAuth.attempts == map[]
      ensures !ok ==> gens == old(gens) && installs == old(installs) && panelOAuth.attempts == old(panelOAuth.attempts)
      ensures RunFrom(old(Shared(rest)), ReloadSteps(cfg, built, old(nextGen) + 1)) == Some(Shared(rest))
    {
      hide Advance;
      nextGen := nextGen + 1;
      var gen := nextGen;
      if !built {
        ReloadRun(old(Shared(rest)), cfg, false);
        return false;
      }
      gens := gens[gen := NewGeneration(cfg)];
      panelOAuth.Clear();
      installs := installs + [gen];
      ReloadRun(old(Shared(rest)), cfg, true);
      return true;
    }

    /** detectVersion of one generation. */
    method DetectVersion(gen: nat, found: Option<string>, ghost rest: State)
      requires Valid() && gen in gens && gen in installs
      modifies this
      ensures Valid() && Shared(rest) == Apply(old(Shared(rest)), Detect(gen, found))
    {
      hide Advance;
      var g := gens[gen];
      if g.cfg.assumeVersion != "" {
        gens := gens[gen := g.(open := true)];
        return;
      }
      match found
      case None => gens := gens[gen := g];
      case Some(version) =>
        var wanted := g.cfg.remnawaveVersion;
        var ok := version == wanted || (g.cfg.allowVersionMismatch && !UnsafeMismatch(version, wanted));
        gens := gens[gen := g.(open := ok, detected := g.detected + [version])];
    }

    /** The lookup in lockResource: one mutex per key, stored on first use. */
    method LockFor(key: string) returns (mutex: nat)
      modifies this`locks
      ensures mutex == MutexFor(old(locks), key) && locks == old(locks)[key := mutex]
    {
      if key !in locks {
        locks := locks[key := |locks|];
      }
      mutex := locks[key];
    }
  }

  function ReloadSteps(cfg: Settings, built: bool, gen: nat): seq<Action> {
    if built then [ReloadBuild(cfg, true), ReloadClear(gen), ReloadInstall(gen)] else [ReloadBuild(cfg, false)]
  }

  /** A reload's first step, from any state. */
  lemma BuildStep(s: State, cfg: Settings, built: bool)
    ensures Enabled(s, ReloadBuild(cfg, built))
    ensures var gen := s.nextGen + 1;
      Apply(s, ReloadBuild(cfg, built)) ==
      if built then s.(nextGen := gen, gens := s.gens[gen := NewGeneration(cfg)], reloading := s.reloading[gen := Built])
      else s.(nextGen := gen)
  {
  }

  lemma ClearStep(s: State, gen: nat)
    requires gen in s.reloading && s.reloading[gen] == Built
    ensures Enabled(s, ReloadClear(gen))
    ensures Apply(s, ReloadClear(gen)) == s.(attempts := map[], reloading := s.reloading[gen := Emptied])
  {
  }

  lemma InstallStep(s: State, gen: nat)
    requires s.reloading == map[gen := Emptied]
    ensures Enabled(s, ReloadInstall(gen))
    ensures Apply(s, ReloadInstall(gen)) == s.(installs := s.installs + [gen], reloading := map[])
  {
    assert s.reloading - {gen} == map[];
  }

  /** The steps of a reload, run without anything in between. */
  lemma ReloadRun(s: State, cfg: Settings, built: bool)
    requires s.reloading == map[]
    ensures var gen := s.nextGen + 1;
      RunFrom(s, ReloadSteps(cfg, built, gen)) ==
      Some(if built then s.(nextGen := gen, gens := s.gens[gen := NewGeneration(cfg)], attempts := map[], installs := s.installs + [gen])
           else s.(nextGen := gen))
  {
    hide Enabled, Apply, RunFrom;
    var gen := s.nextGen + 1;
    RunNothing(s);
    BuildStep(s, cfg, built);
    RunExtends(s, [], s, ReloadBuild(cfg, built));
    assert [] + [ReloadBuild(cfg, built)] == [ReloadBuild(cfg, built)];
    if built {
      var s1 := Apply(s, ReloadBuild(cfg, true));
      ClearStep(s1, gen);
      RunExtends(s, [ReloadBuild(cfg, true)], s1, ReloadClear(gen));
      var s2 := Apply(s1, ReloadClear(gen));
      assert s2.reloading == map[gen := Emptied];
      InstallStep(s2, gen);
      RunExtends(s, [ReloadBuild(cfg, true)] + [ReloadClear(gen)], s2, ReloadInstall(gen));
      assert [ReloadBuild(cfg, true)] + [ReloadClear(gen)] + [ReloadInstall(gen)] == ReloadSteps(cfg, true, gen);
    }
  }

  // ================================================================== semaphores

  class LimitState {
    const gen: nat
    const global: Semaphore
    const perToken: PerKey
    const perSubIp: PerKey

    constructor (gen: nat, cfg: Settings)
      ensures Valid() && this.gen == gen && fresh(Repr())
      ensures forall s: State | gen in s.gens && s.gens[gen].cfg == cfg && (forall slot: Slot | slot in s.counts :: slot.gen != gen) ::
                StandsFor(s)
    {
      this.gen := gen;
      global := new Semaphore(cfg.globalConcurrency);
      perToken := new PerKey(cfg.perTokenConcurrency);
      perSubIp := new PerKey(cfg.perIpConcurrency);
    }

    /** The semaphore of a slot, if it was made already. */
    function At(slot: Slot): Semaphore?
      reads perToken, perSubIp
    {
      match slot
      case GlobalSlot(_) => global
      case TokenSlot(_, token) => if token in perToken.m then perToken.m[token] else null
      case IpSlot(_, ip) => if ip in perSubIp.m then perSubIp.m[ip] else null
    }

    ghost function Semaphores(): set<Semaphore>
      reads perToken, perSubIp
    {
      {global} + perToken.m.Values + perSubIp.m.Values
    }

    ghost function Repr(): set<object>
      reads perToken, perSubIp
    {
      {perToken, perSubIp} + Semaphores()
    }

    /** Every semaphore is in bounds and belongs to one place. */
    ghost predicate Valid()
      reads perToken, perSubIp, Semaphores()
    {
      && perToken != perSubIp && perToken.Valid() && perSubIp.Valid()
      && (forall sem | sem in Semaphores() :: sem.Valid())
      && global !in perToken.m.Values && global !in perSubIp.m.Values && perToken.m.Values !! perSubIp.m.Values
    }

    lemma NoSharing(a: Slot, b: Slot)
      requires Valid() && a.gen == b.gen && At(a) != null && At(a) == At(b)
      ensures a == b
    {
      assert a.TokenSlot? ==> At(a) in perToken.m.Values;
      assert a.IpSlot? ==> At(a) in perSubIp.m.Values;
      assert b.TokenSlot? ==> At(b) in perToken.m.Values;
      assert b.IpSlot? ==> At(b) in perSubIp.m.Values;
    }

    function Filled(slot: Slot): nat
      reads perToken, perSubIp, At(slot)
    {
      if At(slot) == null then 0 else At(slot).filled
    }

    /** The capacities and counts that the machine has for this generation. */
    ghost predicate StandsFor(s: State)
      reads perToken, perSubIp, Semaphores()
    {
      && gen in s.gens
      && global.capacity == Capacity(s.gens[gen].cfg.globalConcurrency)
      && perToken.n == s.gens[gen].cfg.perTokenConcurrency
      && perSubIp.n == s.gens[gen].cfg.perIpConcurrency
      && (forall slot: Slot | slot.gen == gen :: CountOf(s.counts, slot) == Filled(slot))
    }

    /** The semaphore of a slot, made on first use. */
    method Find(slot: Slot) returns (sem: Semaphore)
      requires Valid()
      modifies perToken, perSubIp
      ensures Valid() && sem == At(slot) && Semaphores() == old(Semaphores()) + {sem}
      ensures if old(At(slot)) != null then sem == old(At(slot)) else fresh(sem) && sem.filled == 0
      ensures forall other: Slot | other.gen == slot.gen && other != slot :: At(other) == old(At(other))
    {
      match slot
      case GlobalSlot(_) => sem := global;
      case TokenSlot(_, token) => sem := perToken.Get(token);
      case IpSlot(_, ip) => sem := perSubIp.Get(ip);
    }

    /** Taking a place answers and changes the counts as the machine's step does. */
    method Acquire(slot: Slot, ghost s: State) returns (got: bool)
      requires Valid() && slot.gen == gen && StandsFor(s)
      modifies Repr()
      ensures Valid() && SlotGuard(s, Event.Acquire(slot, got))
      ensures StandsFor(s.(counts := CountsAfter(s.counts, Event.Acquire(slot, got))))
    {
      var sem := Find(slot);
      assert sem.filled == CountOf(s.counts, slot);
      got := sem.Acquire();
      forall other: Slot | other.gen == gen && other != slot
        ensures Filled(other) == CountOf(s.counts, other)
      {
        if At(other) == sem {
          NoSharing(other, slot);
        }
      }
    }

    /** Giving a place back, where the machine lets it go on, does not block and changes the counts as that step does. */
    method Release(slot: Slot, ghost s: State)
      requires Valid() && slot.gen == gen && StandsFor(s) && SlotGuard(s, Event.Release(slot))
      modifies Repr()
      ensures Valid()
      ensures StandsFor(s.(counts := CountsAfter(s.counts, Event.Release(slot))))
    {
      var sem := Find(slot);
      assert sem.filled == CountOf(s.counts, slot);
      sem.Release();
      forall other: Slot | other.gen == gen && other != slot
        ensures Filled(other) == CountOf(s.counts, other)
      {
        if At(other) == sem {
          NoSharing(other, slot);
        }
      }
    }
  }
}
