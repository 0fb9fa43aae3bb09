/** How one step of a handler changes what it holds. */
module Effects {
  import opened Prelude
  import opened Json
  import opened Config
  import opened PanelList
  import opened ResponsePolicy
  import opened Upstream
  import opened Requests
  import opened Handler
  import opened HandlerFacts

  /** Semaphores are taken one at a time and given back in reverse order. */
  predicate SlotsChange(before: seq<Slot>, e: Event, after: seq<Slot>) {
    match e
    case Acquire(slot, true) => slot !in before && after == before + [slot]
    case Release(slot) => before != [] && before[|before| - 1] == slot && after == before[..|before| - 1]
    case _ => after == before
  }

  /** At most one mutex is held; it is the one waited for. */
  predicate MutexChange(t: Thread, e: Event, after: Option<nat>) {
    match e
    case LockMutex => t.pc.WantLock? && t.mutex.None? && after == Some(t.pc.wanted)
    case Unlock => t.mutex.Some? && after.None?
    case _ => after == t.mutex
  }

  /** The state is loaded once, and a session is made once. */
  ghost predicate RecordsChange(t: Thread, e: Event, n: Thread) {
    && n.req == t.req && n.log == t.log + [e]
    && (if t.view.Some? then n.view == t.view else e.LoadState? && n.view == Some(e.view))
    && (t.session.Some? ==> n.session == t.session)
    && (t.session.None? && n.session.Some? ==> e.ReadVersion? && t.view.Some? && n.session == SessionFor(t.view.value.cfg, t.req))
    && (e.Acquire? ==> t.view.Some? && e.slot.gen == t.view.value.gen)
    && (e.ReadVersion? ==> t.view.Some?)
  }

  ghost predicate Changes(t: Thread, e: Event, n: Thread) {
    SlotsChange(t.slots, e, n.slots) && MutexChange(t, e, n.mutex) && RecordsChange(t, e, n)
  }

  lemma EntryChanges(t: Thread, e: Event)
    requires Inv(t) && (t.pc.Start? || t.pc.WantGlobal? || t.pc.WantVersion?) && EntryStep(t, e).Some?
    ensures Changes(t, e, EntryStep(t, e).UnwrapOr(t))
  {
    hide Admitted, Versioned, SessionFor, HistoryOk, PointFacts, LockedNow, Responses, PagesRead, Stopped;
  }

  lemma PublicChanges(t: Thread, e: Event)
    requires Inv(t) && PublicStep(t, e).Some?
    ensures Changes(t, e, PublicStep(t, e).UnwrapOr(t))
  {
    hide SessionFor, HistoryOk, PointFacts, LockedNow, Responses, PagesRead, Stopped;
  }

  lemma TokenChanges(t: Thread, e: Event)
    requires Inv(t) && TokenStep(t, e).Some?
    ensures Changes(t, e, TokenStep(t, e).UnwrapOr(t))
  {
    hide Decided, BeginPreflight, SessionFor, HistoryOk, PointFacts, LockedNow, Responses, PagesRead, Stopped;
  }

  lemma UpstreamChanges(t: Thread, e: Event)
    requires Inv(t) && UpstreamStep(t, e).Some?
    ensures Changes(t, e, UpstreamStep(t, e).UnwrapOr(t))
  {
    hide Preflighted, Scanned, Answered, Verified, SessionFor, HistoryOk, PointFacts, LockedNow, Responses, PagesRead, Stopped;
  }

  lemma OAuthChanges(t: Thread, e: Event)
    requires Inv(t) && OAuthStep(t, e).Some?
    ensures Changes(t, e, OAuthStep(t, e).UnwrapOr(t))
  {
    hide SessionFor, HistoryOk, PointFacts, LockedNow, Responses, PagesRead, Stopped;
  }

  lemma ClosingChanges(t: Thread, e: Event)
    requires Inv(t) && ClosingStep(t, e).Some?
    ensures Changes(t, e, ClosingStep(t, e).UnwrapOr(t))
  {
    hide SessionFor, HistoryOk, PointFacts, LockedNow, Responses, PagesRead, Stopped;
  }

  lemma AdvanceChanges(t: Thread, e: Event)
    requires Inv(t) && Advance(t, e).Some?
    ensures Changes(t, e, Advance(t, e).UnwrapOr(t))
  {
    hide Changes, EntryStep, PublicStep, TokenStep, UpstreamStep, OAuthStep, ClosingStep, SessionFits, HistoryOk,
      PointFacts, LockedNow, Responses, PagesRead, Stopped;
    match t.pc
    case Start | WantGlobal | WantVersion => EntryChanges(t, e);
    case WantIp | WantIpRate | PublicForward => PublicChanges(t, e);
    case WantToken | WantTokenRate | WantMutex | WantLock(_) => TokenChanges(t, e);
    case Preflight(_) | ListScan(_, _) | Forwarding | Verifying(_, _) => UpstreamChanges(t, e);
    case OAuthDraw | OAuthLoad(_) | OAuthPut(_, _, _) | OAuthTake(_) | OAuthCheck(_, _) | OAuthExchange => OAuthChanges(t, e);
    case Replying(_) | Unwinding => ClosingChanges(t, e);
    case Done =>
  }

  // ------------------------------------------------------------- termination

  const SCAN_RANK: nat := 20000

  /** How many more steps the handler can take at most. */
  function Rank(t: Thread): nat {
    match t.pc
    case Done => 0
    case Unwinding => |t.slots| + (if t.mutex.Some? then 1 else 0)
    case Replying(_) => |t.slots| + (if t.mutex.Some? then 1 else 0) + 1
    case OAuthExchange | Verifying(_, _) | PublicForward => 5
    case OAuthCheck(_, _) | Forwarding | WantIpRate => 6
    case OAuthTake(_) | OAuthPut(_, _, _) | WantIp => 7
    case OAuthLoad(_) => 8
    case OAuthDraw => 9
    case ListScan(start, _) => 7 + (if start < SCAN_RANK then SCAN_RANK - start else 0)
    case Preflight(_) => SCAN_RANK + 8
    case WantLock(_) => SCAN_RANK + 9
    case WantMutex => SCAN_RANK + 10
    case WantTokenRate => SCAN_RANK + 11
    case WantToken => SCAN_RANK + 12
    case WantVersion => SCAN_RANK + 13
    case WantGlobal => SCAN_RANK + 14
    case Start => SCAN_RANK + 15
  }

  lemma EntryRank(t: Thread, e: Event)
    requires Inv(t) && (t.pc.Start? || t.pc.WantGlobal? || t.pc.WantVersion?) && EntryStep(t, e).Some?
    ensures Rank(EntryStep(t, e).UnwrapOr(t)) < Rank(t)
  {
    hide Admitted, Versioned, SessionFor, HistoryOk, PointFacts, LockedNow, Responses, PagesRead, Stopped;
    if t.pc.WantGlobal? {
      AdmittedTarget(t.view.value.cfg, t.req);
    } else if t.pc.WantVersion? {
      VersionedTarget(t.view.value.cfg, t.req);
    }
  }

  lemma PublicRank(t: Thread, e: Event)
    requires Inv(t) && PublicStep(t, e).Some?
    ensures Rank(PublicStep(t, e).UnwrapOr(t)) < Rank(t)
  {
    hide SessionFor, HistoryOk, PointFacts, LockedNow, Responses, PagesRead, Stopped;
  }

  lemma TokenRank(t: Thread, e: Event)
    requires Inv(t) && TokenStep(t, e).Some?
    ensures Rank(TokenStep(t, e).UnwrapOr(t)) < Rank(t)
  {
    hide Decided, BeginPreflight, SessionFor, HistoryOk, PointFacts, LockedNow, Responses, PagesRead, Stopped;
    DecidedLow(JobOf(t));
    BeginPreflightLow(JobOf(t));
  }

  /** Where the scan, the preflight or the call begins. */
  predicate Low(pc: Pc) {
    pc.Replying? || pc.Preflight? || pc.Forwarding? || pc == ListScan(0, [])
  }

  lemma BeginPreflightLow(j: Job)
    ensures Low(BeginPreflight(j))
  {
    hide BeginPreflight, CheckBody, PreflightNeed, BodyOutcome, RestrictedPanelList;
    BeginPreflightTarget(j);
    CheckBodyTarget(j);
  }

  lemma DecidedLow(j: Job)
    ensures Low(Decided(j)) || Decided(j).WantMutex?
  {
    hide Decided, BeginPreflight, DecisionPasses, LockedWrite, WriteSafe;
    DecidedTarget(j);
    BeginPreflightLow(j);
  }

  lemma UpstreamRank(t: Thread, e: Event)
    requires Inv(t) && UpstreamStep(t, e).Some?
    ensures Rank(UpstreamStep(t, e).UnwrapOr(t)) < Rank(t)
  {
    hide Preflighted, Scanned, Answered, Verified, SessionFor, HistoryOk, PointFacts, LockedNow, Responses, PagesRead, Stopped;
    var j := JobOf(t);
    match t.pc
    case Preflight(_) => PreflightedLow(j, e.answer);
    case ListScan(start, combined) => ScannedOn(j, start, combined, e.answer);
    case Forwarding => AnsweredLow(j, e.answer);
    case Verifying(_, a) => VerifiedLow(j, e.answer, a);
  }

  lemma PreflightedLow(j: Job, a: Answer)
    ensures Low(Preflighted(j, a)) && !Preflighted(j, a).Preflight?
  {
    hide Preflighted, CheckBody, UserCheck, BodyOutcome, RestrictedPanelList;
    PreflightedTarget(j, a);
    CheckBodyTarget(j);
  }

  lemma ScannedOn(j: Job, start: nat, combined: seq<Json>, a: Answer)
    ensures var pc := Scanned(j, start, combined, a);
      pc.Replying? || pc.Unwinding? || (pc.ListScan? && start < pc.start && start < SCAN_RANK)
  {
    hide ListAnswer, DecodeListPage;
  }

  lemma AnsweredLow(j: Job, a: Answer)
    ensures Answered(j, a).Replying? || Answered(j, a).Verifying? || Answered(j, a).Unwinding?
  {
    hide Answered, VerifyWrite, GateResponse, LockedWrite, CreatedCheck, VerifyNeed;
    AnsweredTarget(j, a);
    if !Refusing(Answered(j, a)) && Answered(j, a) != Unwinding {
      VerifyWriteTarget(j, GateResponse(j.s.route, j.s.tok, a, PageWanted(j)).value);
    }
  }

  lemma VerifiedLow(j: Job, read: Answer, a: Answer)
    ensures Verified(j, read, a).Replying?
  {
    hide UserCheck;
  }

  lemma OAuthRank(t: Thread, e: Event)
    requires Inv(t) && OAuthStep(t, e).Some?
    ensures Rank(OAuthStep(t, e).UnwrapOr(t)) < Rank(t)
  {
    hide SessionFor, HistoryOk, PointFacts, LockedNow, Responses, PagesRead, Stopped;
  }

  lemma ClosingRank(t: Thread, e: Event)
    requires Inv(t) && ClosingStep(t, e).Some?
    ensures Rank(ClosingStep(t, e).UnwrapOr(t)) < Rank(t)
  {
    hide SessionFor, HistoryOk, PointFacts, LockedNow, Responses, PagesRead, Stopped;
  }

  /** Every step brings the handler closer to its return. */
  lemma RankDecreases(t: Thread, e: Event)
    requires Inv(t) && Advance(t, e).Some?
    ensures Rank(Advance(t, e).UnwrapOr(t)) < Rank(t)
  {
    hide Rank, EntryStep, PublicStep, TokenStep, UpstreamStep, OAuthStep, ClosingStep, SessionFits, HistoryOk,
      PointFacts, LockedNow, Responses, PagesRead, Stopped;
    match t.pc
    case Start | WantGlobal | WantVersion => EntryRank(t, e);
    case WantIp | WantIpRate | PublicForward => PublicRank(t, e);
    case WantToken | WantTokenRate | WantMutex | WantLock(_) => TokenRank(t, e);
    case Preflight(_) | ListScan(_, _) | Forwarding | Verifying(_, _) => UpstreamRank(t, e);
    case OAuthDraw | OAuthLoad(_) | OAuthPut(_, _, _) | OAuthTake(_) | OAuthCheck(_, _) | OAuthExchange => OAuthRank(t, e);
    case Replying(_) | Unwinding => ClosingRank(t, e);
    case Done =>
  }

  predicate LocksLast(t: Thread, e: Event, n: Thread) {
    n.pc.WantLock? ==> t.pc.WantMutex? && e.GetMutex? && n.pc.wanted == e.mutex
  }

  /** A handler comes to wait for a mutex only by looking one up. */
  lemma WaitsAfterLookup(t: Thread, e: Event)
    requires Inv(t) && Advance(t, e).Some?
    ensures LocksLast(t, e, Advance(t, e).UnwrapOr(t))
  {
    hide PublicStep, UpstreamStep, OAuthStep, ClosingStep, Admitted, Versioned, Decided, BeginPreflight, SessionFor,
      HistoryOk, PointFacts, LockedNow, Responses, PagesRead, Stopped;
    RankDecreases(t, e);
    if t.pc.WantTokenRate? {
      DecidedLow(JobOf(t));
    } else if t.pc.WantGlobal? {
      AdmittedTarget(t.view.value.cfg, t.req);
    } else if t.pc.WantVersion? {
      VersionedTarget(t.view.value.cfg, t.req);
    }
  }

  /** Only an authenticated handler behind both semaphores holds or wants a mutex. */
  lemma LockersAreAuthenticated(t: Thread)
    requires Inv(t)
    ensures t.mutex.Some? || t.pc.WantLock? || t.pc.WantMutex? ==> t.session.Some? && t.view.Some?
    ensures t.pc.WantLock? || t.pc.WantMutex? || t.pc.Done? ==> t.mutex.None?
  {
    hide SessionFits, HistoryOk, PointFacts, LockedNow, AnsweredOnce, PagesInScan;
  }

  predicate InLogin(pc: Pc) {
    pc.OAuthLoad? || pc.OAuthPut? || pc.OAuthCheck?
  }

  predicate LoginEvent(e: Event) {
    e.DrawState? || e.PutAttempt? || e.TakeAttempt? || e.LoadForCheck?
  }

  lemma NoLoginBefore(t: Thread, e: Event)
    requires Inv(t) && EntryStep(t, e).Some?
    ensures !InLogin(EntryStep(t, e).UnwrapOr(t).pc) && !LoginEvent(e)
  {
    hide Admitted, Versioned, SessionFor, SessionFits, HistoryOk, PointFacts, LockedNow, AnsweredOnce, PagesInScan;
    if t.pc.WantGlobal? {
      AdmittedTarget(t.view.value.cfg, t.req);
    } else if t.pc.WantVersion? {
      VersionedTarget(t.view.value.cfg, t.req);
    }
  }

  lemma NoLoginInToken(t: Thread, e: Event)
    requires TokenStep(t, e).Some?
    ensures !InLogin(TokenStep(t, e).UnwrapOr(t).pc) && !LoginEvent(e)
  {
    hide Decided, BeginPreflight;
    DecidedLow(JobOf(t));
    BeginPreflightLow(JobOf(t));
  }

  lemma NoLoginInCall(t: Thread, e: Event)
    requires UpstreamStep(t, e).Some?
    ensures !InLogin(UpstreamStep(t, e).UnwrapOr(t).pc) && !LoginEvent(e)
  {
    hide Preflighted, Scanned, Answered, Verified;
    match t.pc
    case Preflight(_) => PreflightedLow(JobOf(t), e.answer);
    case ListScan(start, combined) => ScannedOn(JobOf(t), start, combined, e.answer);
    case Forwarding => AnsweredLow(JobOf(t), e.answer);
    case Verifying(_, a) => VerifiedLow(JobOf(t), e.answer, a);
  }

  lemma LoginOnlyInOAuth(t: Thread, e: Event)
    requires Inv(t) && Advance(t, e).Some?
    ensures InLogin(Advance(t, e).UnwrapOr(t).pc) || LoginEvent(e) ==> OAuthStep(t, e).Some?
  {
    hide Inv, EntryStep, OAuthStep, TokenStep, UpstreamStep;
    match t.pc
    case Start | WantGlobal | WantVersion => NoLoginBefore(t, e);
    case WantToken | WantTokenRate | WantMutex | WantLock(_) => NoLoginInToken(t, e);
    case Preflight(_) | ListScan(_, _) | Forwarding | Verifying(_, _) => NoLoginInCall(t, e);
    case _ =>
  }

  /** The three points of a login that carry data are entered from the point before with what the event brings. */
  ghost predicate LoginStep(t: Thread, e: Event, n: Thread) {
    && (n.pc.OAuthLoad? ==> e == DrawState(n.pc.drawn))
    && (n.pc.OAuthPut? ==> e == LoadForAttempt(n.pc.attemptView, n.pc.loadedAt) && t.pc == OAuthLoad(n.pc.pending))
    && (n.pc.OAuthCheck? ==> t.pc.OAuthTake? && e == TakeAttempt(n.pc.clock, Some(n.pc.attempt)))
    && (e.DrawState? ==> t.pc.OAuthDraw? && n.pc == OAuthLoad(e.state))
    && (e.PutAttempt? ==> t.pc.OAuthPut?) && (e.TakeAttempt? ==> t.pc.OAuthTake?)
    && (e.LoadForCheck? ==>
          t.pc.OAuthCheck? && (n.pc == OAuthExchange <==> t.pc.clock <= t.pc.attempt.expiresAt && t.pc.attempt.generation == e.gen))
  }

  lemma LoginSteps(t: Thread, e: Event)
    requires Inv(t) && Advance(t, e).Some?
    ensures LoginStep(t, e, Advance(t, e).UnwrapOr(t))
  {
    hide Inv, EntryStep, PublicStep, TokenStep, UpstreamStep, ClosingStep;
    LoginOnlyInOAuth(t, e);
  }

  /** A mutex is waited for or held in a session only, waited for only after a lookup, and by nobody who holds one. */
  ghost predicate LockStep(t: Thread, e: Event, n: Thread) {
    && MutexChange(t, e, n.mutex) && RecordsChange(t, e, n)
    && (t.mutex.Some? || t.pc.WantLock? || t.pc.WantMutex? ==> t.session.Some? && t.view.Some?)
    && (t.pc.WantLock? || t.pc.WantMutex? ==> t.mutex.None?)
    && LocksLast(t, e, n)
  }

  lemma LockSteps(t: Thread, e: Event)
    requires Inv(t) && Advance(t, e).Some?
    ensures LockStep(t, e, Advance(t, e).UnwrapOr(t))
  {
    hide Inv, Advance, SlotsChange, MutexChange, RecordsChange;
    AdvanceChanges(t, e);
    WaitsAfterLookup(t, e);
    LockersAreAuthenticated(t);
  }
}
