/** No deadlock: while a handler is unfinished some handler can step, and every step brings the end closer. */
module Progress {
  import opened Upstream
  import opened Requests
  import opened Handler
  import opened HandlerFacts
  import opened Effects
  import opened OAuthStore
  import opened Runtime
  import opened Coherence
  import opened SlotCounts
  import opened Locks

  // ------------------------------------------------------------ a next event

  predicate AllShorter(drawn: set<string>, bound: nat) {
    forall token | token in drawn :: |token| < bound
  }

  /** A token longer than every one drawn before. */
  ghost function NewToken(drawn: set<string>): (token: string)
    ensures token !in drawn
  {
    var bound := LengthBound(drawn);
    var token := seq(bound, _ => 'a');
    assert |token| == bound;
    token
  }

  lemma {:induction false} BoundExists(drawn: set<string>) returns (bound: nat)
    ensures AllShorter(drawn, bound)
  {
    if drawn == {} {
      bound := 0;
    } else {
      var one :| one in drawn;
      var rest := BoundExists(drawn - {one});
      bound := rest + |one| + 1;
    }
  }

  ghost function LengthBound(drawn: set<string>): (bound: nat)
    ensures AllShorter(drawn, bound)
  {
    assert exists bound: nat :: AllShorter(drawn, bound) by {
      var bound := BoundExists(drawn);
    }
    var bound: nat :| AllShorter(drawn, bound);
    bound
  }

  predicate Room(s: State, slot: Slot) {
    slot.gen in s.gens && CountOf(s.counts, slot) < Limit(s.gens, slot)
  }

  function Current(s: State): View
    requires Installed(s) in s.gens
  {
    View(Installed(s), s.gens[Installed(s)].cfg)
  }

  /** There is an installed generation, and the handler's own one still exists. */
  predicate Supplied(s: State, t: Thread) {
    s.installs != [] && Installed(s) in s.gens && (t.view.Some? ==> t.view.value.gen in s.gens)
  }

  /** The handler's next event, given what its upstream call would answer; anything where it has none. */
  ghost function NextEvent(s: State, t: Thread, answer: Answer): Event {
    match t.pc
    case Start => if Installed(s) in s.gens then LoadState(Current(s)) else RateCheck(true)
    case WantGlobal =>
      if t.view.Some? then Acquire(GlobalSlot(t.view.value.gen), Room(s, GlobalSlot(t.view.value.gen))) else RateCheck(true)
    case WantVersion => ReadVersion(t.view.Some? && t.view.value.gen in s.gens && s.gens[t.view.value.gen].open)
    case WantIp =>
      if t.view.Some? then Acquire(IpSlot(t.view.value.gen, t.req.ip), Room(s, IpSlot(t.view.value.gen, t.req.ip))) else RateCheck(true)
    case WantIpRate => RateCheck(true)
    case PublicForward => ForwardPublic(answer)
    case WantToken =>
      if t.view.Some? && t.session.Some? then
        Acquire(TokenSlot(t.view.value.gen, t.session.value.tok.id), Room(s, TokenSlot(t.view.value.gen, t.session.value.tok.id)))
      else RateCheck(true)
    case WantTokenRate => RateCheck(true)
    case WantMutex => GetMutex(MutexFor(s.mutexOf, KeyOf(t)))
    case WantLock(_) => LockMutex
    case Preflight(uuid) => ReadUser(uuid, answer)
    case ListScan(start, _) => FetchPage(start, answer)
    case Forwarding => Forward(answer)
    case Verifying(uuid, _) => ReadUser(uuid, answer)
    case OAuthDraw => DrawState(NewToken(s.drawn))
    case OAuthLoad(_) => if Installed(s) in s.gens then LoadForAttempt(Current(s), |s.installs|) else RateCheck(true)
    case OAuthPut(state, _, _) => PutAttempt(0, PutInto(s.attempts, OAUTH_CAPACITY, state, AttemptOf(t.pc, 0), 0).1)
    case OAuthTake(state) => TakeAttempt(0, TakeFrom(s.attempts, state, 0).1)
    case OAuthCheck(_, _) => LoadForCheck(Installed(s))
    case OAuthExchange => Exchange(true)
    case Replying(reply) => Respond(reply)
    case Unwinding =>
      if t.mutex.Some? then Unlock else if t.slots != [] then Release(t.slots[|t.slots| - 1]) else RateCheck(true)
    case Done => RateCheck(true)
  }

  /** What the upstream may answer to a read. */
  predicate AnswerFits(s: State, t: Thread, answer: Answer) {
    match t.pc
    case Preflight(uuid) => TruthfulRead(s.store, uuid, answer)
    case Verifying(uuid, _) => TruthfulRead(s.store, uuid, answer)
    case _ => true
  }

  /** Waiting for a mutex that another handler holds. */
  predicate Blocked(s: State, t: Thread) {
    t.pc.WantLock? && t.pc.wanted in s.owner
  }

  // The next event is one the handler's machine takes.

  lemma EntryTakes(s: State, t: Thread, answer: Answer)
    requires Supplied(s, t) && Inv(t) && (t.pc.Start? || t.pc.WantGlobal? || t.pc.WantVersion?)
    ensures EntryStep(t, NextEvent(s, t, answer)).Some?
  {
    hide SessionFits, HistoryOk, PointFacts, LockedNow, AnsweredOnce, PagesInScan, Admitted, Versioned, SessionFor,
      NewToken, Room;
  }

  lemma OutsideTakes(s: State, t: Thread, answer: Answer)
    requires Supplied(s, t) && Inv(t)
    ensures t.pc.WantIp? || t.pc.WantIpRate? || t.pc.PublicForward? ==> PublicStep(t, NextEvent(s, t, answer)).Some?
    ensures InOAuth(t.pc) ==> OAuthStep(t, NextEvent(s, t, answer)).Some?
  {
    hide SessionFits, HistoryOk, PointFacts, LockedNow, AnsweredOnce, PagesInScan, NewToken, Room, PutInto, TakeFrom;
  }

  predicate InOAuth(pc: Pc) {
    pc.OAuthDraw? || pc.OAuthLoad? || pc.OAuthPut? || pc.OAuthTake? || pc.OAuthCheck? || pc.OAuthExchange?
  }

  lemma TokenTakes(s: State, t: Thread, answer: Answer)
    requires Supplied(s, t) && Inv(t)
    requires t.pc.WantToken? || t.pc.WantTokenRate? || t.pc.WantMutex? || t.pc.WantLock?
    ensures TokenStep(t, NextEvent(s, t, answer)).Some?
  {
    hide SessionFits, HistoryOk, PointFacts, LockedNow, AnsweredOnce, PagesInScan, NewToken, Room, Decided,
      BeginPreflight, KeyOf, MutexFor;
  }

  lemma CallTakes(s: State, t: Thread, answer: Answer)
    requires Supplied(s, t) && Inv(t)
    requires t.pc.Preflight? || t.pc.ListScan? || t.pc.Forwarding? || t.pc.Verifying?
    ensures UpstreamStep(t, NextEvent(s, t, answer)).Some?
  {
    hide SessionFits, HistoryOk, PointFacts, LockedNow, AnsweredOnce, PagesInScan, NewToken, Room, Preflighted,
      Scanned, Answered, Verified;
  }

  lemma ClosingTakes(s: State, t: Thread, answer: Answer)
    requires Supplied(s, t) && Inv(t)
    requires t.pc.Replying? || t.pc.Unwinding?
    ensures ClosingStep(t, NextEvent(s, t, answer)).Some?
  {
    hide SessionFits, HistoryOk, PointFacts, LockedNow, AnsweredOnce, PagesInScan, NewToken, Room;
  }

  // ------------------------------------------------------ somebody can step

  ghost predicate Ready(s: State) {
    Coherent(s) && Counted(s) && Locked(s)
  }

  lemma NextTaken(s: State, t: Thread, answer: Answer)
    requires GensOk(s.gens, s.nextGen, s.reloading, s.installs) && ThreadOk(s.gens, t) && !t.pc.Done?
    ensures Advance(t, NextEvent(s, t, answer)).Some?
  {
    hide Inv, EntryStep, PublicStep, TokenStep, UpstreamStep, OAuthStep, ClosingStep, NextEvent;
    match t.pc
    case Start | WantGlobal | WantVersion => EntryTakes(s, t, answer);
    case WantToken | WantTokenRate | WantMutex | WantLock(_) => TokenTakes(s, t, answer);
    case Preflight(_) | ListScan(_, _) | Forwarding | Verifying(_, _) => CallTakes(s, t, answer);
    case Replying(_) | Unwinding => ClosingTakes(s, t, answer);
    case _ => OutsideTakes(s, t, answer);
  }

  lemma ViewedAtVersion(t: Thread)
    requires Inv(t)
    ensures t.pc.WantVersion? ==> t.view.Some?
  {
    hide SessionFits, HistoryOk, PointFacts, LockedNow, AnsweredOnce, PagesInScan;
  }

  /** The shared state answers the event; a release is looked at apart. */
  ghost predicate Allowed(s: State, t: Thread, e: Event) {
    StateGuard(s, t, e) && LockGuard(s, t, e) && OAuthGuard(s, t, e) && StoreGuard(s, t, e, s.store) && (e.Acquire? ==> SlotGuard(s, e))
  }

  /** The shared state allows the event of a handler that is not blocked. */
  lemma NextAllowed(s: State, t: Thread, answer: Answer)
    requires Supplied(s, t) && !Blocked(s, t) && AnswerFits(s, t, answer) && (t.pc.WantVersion? ==> t.view.Some?)
    ensures Allowed(s, t, NextEvent(s, t, answer))
  {
    hide KeyOf, MutexFor, NewToken, PutInto, TakeFrom, TruthfulRead, Names, UpdatesUser, CountOf, Limit;
  }

  /** Whatever an upstream call may answer: a handler that is not done and not waiting for another one's mutex can step. */
  lemma CanStep(s: State, id: nat, t: Thread, answer: Answer)
    requires Ready(s) && IsAt(s.threads, id, t) && !t.pc.Done? && !Blocked(s, t) && AnswerFits(s, t, answer)
    ensures exists e :: StepEnabled(s, id, e, s.store)
  {
    hide Inv, Advance, FlagOk, Counted, Locked, NextEvent, StateGuard, LockGuard, OAuthGuard, StoreGuard, SlotGuard,
      AnswerFits, Blocked;
    HandlerOk(s, id, t);
    var e := NextEvent(s, t, answer);
    NextTaken(s, t, answer);
    ViewedAtVersion(t);
    NextAllowed(s, t, answer);
    match e {
      case Release(slot) => ReleaseNeverBlocks(s, id, slot);
      case Acquire(_, _) =>
      case _ => OtherSlots(s, e);
    }
    assert StepEnabled(s, id, e, s.store);
  }

  lemma OtherSlots(s: State, e: Event)
    requires !e.Release? && !e.Acquire?
    ensures SlotGuard(s, e)
  {
  }

  /** Whoever waits waits for a handler that is not waiting, so an unfinished handler can always step. */
  lemma SomebodyCan(s: State, id: nat)
    requires Ready(s) && id < |s.threads| && !s.threads[id].pc.Done?
    ensures exists k | 0 <= k < |s.threads| :: !s.threads[k].pc.Done? && !Blocked(s, s.threads[k])
  {
    hide ThreadsOk, FlagOk, GensOk, Counted, TableOk;
    if Blocked(s, s.threads[id]) {
      var holder := s.owner[s.threads[id].pc.wanted];
      HandlerOk(s, holder, s.threads[holder]);
      HolderRuns(s.threads[holder]);
      assert !Blocked(s, s.threads[holder]);
    } else {
      assert !s.threads[id].pc.Done? && !Blocked(s, s.threads[id]);
    }
  }

  lemma HolderRuns(t: Thread)
    requires Inv(t) && t.mutex.Some?
    ensures !t.pc.Done? && !t.pc.WantLock?
  {
    hide Inv;
    LockersAreAuthenticated(t);
  }

  // ------------------------------------------------------------- and it ends

  function TotalRank(threads: seq<Thread>): nat {
    if threads == [] then 0 else TotalRank(threads[..|threads| - 1]) + Rank(threads[|threads| - 1])
  }

  lemma {:induction false} TotalAfter(threads: seq<Thread>, id: nat, n: Thread)
    requires id < |threads|
    ensures TotalRank(threads[id := n]) == TotalRank(threads) - Rank(threads[id]) + Rank(n)
  {
    hide Rank;
    var last := |threads| - 1;
    if id < last {
      TotalAfter(threads[..last], id, n);
      assert threads[id := n][..last] == threads[..last][id := n];
    } else {
      assert threads[id := n][..last] == threads[..last];
    }
  }

  lemma StepLowersTotal(threads: seq<Thread>, id: nat, t: Thread, e: Event)
    requires IsAt(threads, id, t) && Inv(t) && Advance(t, e).Some?
    ensures TotalRank(Replaced(threads, id, Advance(t, e).UnwrapOr(t))) < TotalRank(threads)
  {
    hide Inv, Advance, Rank, TotalRank;
    RankDecreases(t, e);
    TotalAfter(threads, id, Advance(t, e).UnwrapOr(t));
  }
}
