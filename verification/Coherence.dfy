/** What ties the handlers to the generations they run under, in every reachable state. */
module Coherence {
  import opened Prelude
  import opened Config
  import opened Routes
  import opened Requests
  import opened Handler
  import opened HandlerFacts
  import opened Effects
  import opened Runtime

  /** A handler that obeys its own machine, works with the settings of a built generation, and was
      given a route of the catalog. */
  ghost predicate ThreadOk(gens: map<nat, Generation>, t: Thread) {
    && Inv(t)
    && (t.view.Some? ==> t.view.value.gen in gens && t.view.value.cfg == gens[t.view.value.gen].cfg)
    && FromCatalog(t.req)
  }

  ghost predicate ThreadsOk(gens: map<nat, Generation>, threads: seq<Thread>) {
    forall i | 0 <= i < |threads| :: ThreadOk(gens, threads[i])
  }

  /** Each generation number is used once: built, then perhaps being installed, then installed. */
  predicate GensOk(gens: map<nat, Generation>, nextGen: nat, reloading: map<nat, Stage>, installs: seq<nat>) {
    && installs != []
    && (forall gen | gen in gens :: gen <= nextGen)
    && (forall gen | gen in reloading :: gen in gens && gen !in installs)
    && (forall k | 0 <= k < |installs| :: installs[k] in gens)
    && (forall j, k | 0 <= j < k < |installs| :: installs[j] != installs[k])
  }

  /** The version flag is open exactly when the version is assumed or the last one detected is the configured one. */
  predicate FlagOk(g: Generation) {
    g.open <==> g.cfg.assumeVersion != "" || (g.detected != [] && g.detected[|g.detected| - 1] == g.cfg.remnawaveVersion)
  }

  predicate FlagsOk(gens: map<nat, Generation>) {
    forall gen | gen in gens :: FlagOk(gens[gen])
  }

  ghost predicate Coherent(s: State) {
    ThreadsOk(s.gens, s.threads) && GensOk(s.gens, s.nextGen, s.reloading, s.installs) && FlagsOk(s.gens)
  }

  /** The settings of a generation never change. */
  ghost predicate Extends(before: map<nat, Generation>, after: map<nat, Generation>) {
    forall gen | gen in before :: gen in after && after[gen].cfg == before[gen].cfg
  }

  lemma ThreadsStay(before: map<nat, Generation>, after: map<nat, Generation>, threads: seq<Thread>)
    requires ThreadsOk(before, threads) && Extends(before, after)
    ensures ThreadsOk(after, threads)
  {
    hide Inv, Catalogued;
    forall i | 0 <= i < |threads|
      ensures ThreadOk(after, threads[i])
    {
      assert ThreadOk(before, threads[i]);
    }
  }

  lemma HandlerOk(s: State, id: nat, t: Thread)
    requires Coherent(s) && IsAt(s.threads, id, t)
    ensures ThreadOk(s.gens, t)
  {
    hide ThreadOk, GensOk, FlagsOk;
  }

  lemma FreshOk(gens: map<nat, Generation>, req: Request)
    requires FromCatalog(req)
    ensures ThreadOk(gens, Fresh(req))
  {
    hide SessionFor, AtPoint, Catalogued;
  }

  lemma ArriveOk(s: State, req: Request)
    requires Coherent(s) && FromCatalog(req)
    ensures ThreadsOk(s.gens, s.threads + [Fresh(req)])
  {
    hide ThreadOk, Catalogued;
    FreshOk(s.gens, req);
  }

  /** The state pointer and the version flag are read by one handler at a time; the rest is its own machine. */
  lemma StepOk(s: State, id: nat, t: Thread, e: Event, n: Thread)
    requires Coherent(s) && IsAt(s.threads, id, t) && Advance(t, e) == Some(n) && StateGuard(s, t, e)
    ensures ThreadOk(s.gens, t) && ThreadOk(s.gens, n) && Changes(t, e, n) && ThreadsOk(s.gens, Replaced(s.threads, id, n))
  {
    hide Inv, Catalogued, Advance, SlotsChange, MutexChange, SessionFor;
    HandlerOk(s, id, s.threads[id]);
    AdvanceKeeps(t, e);
    AdvanceChanges(t, e);
    var after := Replaced(s.threads, id, n);
    forall i | 0 <= i < |after|
      ensures ThreadOk(s.gens, after[i])
    {
      assert ThreadOk(s.gens, s.threads[i]);
    }
  }

  lemma DetectedFlag(g: Generation, found: Option<string>)
    requires FlagOk(g)
    ensures FlagOk(Detected(g, found)) && Detected(g, found).cfg == g.cfg
  {
  }

  lemma BuildOk(s: State, cfg: Settings)
    requires Coherent(s)
    ensures Coherent(Apply(s, ReloadBuild(cfg, true)))
  {
    hide ThreadsOk, Advance;
    var after := Apply(s, ReloadBuild(cfg, true));
    assert Extends(s.gens, after.gens);
    ThreadsStay(s.gens, after.gens, s.threads);
    assert after.gens[s.nextGen + 1] == NewGeneration(cfg);
  }

  lemma DetectOk(s: State, gen: nat, found: Option<string>)
    requires Coherent(s) && gen in s.gens
    ensures Coherent(Apply(s, Detect(gen, found)))
  {
    hide ThreadsOk, Advance, FlagOk, Detected;
    DetectedFlag(s.gens[gen], found);
    var after := Apply(s, Detect(gen, found));
    ThreadsStay(s.gens, after.gens, s.threads);
  }

  lemma CoherentKeeps(s: State, a: Action)
    requires Coherent(s) && Enabled(s, a)
    ensures Coherent(Apply(s, a))
  {
    hide ThreadsOk, Advance, FlagOk, StateGuard, SlotGuard, LockGuard, OAuthGuard, StoreGuard, Catalogued, Changes;
    match a
    case Arrive(req) => ArriveOk(s, req);
    case Step(id, e, after) => StepOk(s, id, s.threads[id], e, Advance(s.threads[id], e).UnwrapOr(s.threads[id]));
    case ReloadBuild(cfg, built) =>
      if built {
        BuildOk(s, cfg);
      }
    case ReloadClear(_) =>
    case ReloadInstall(_) =>
    case Detect(of, found) => DetectOk(s, of, found);
    case Outside(_) =>
  }
}
