/** Forwarded user updates hit owned users only, whatever else runs at the same time. */
module Ownership {
  import opened Prelude
  import opened Config
  import opened Routes
  import opened Remnawave
  import opened BodyPolicy
  import opened ResponsePolicy
  import opened Upstream
  import opened Requests
  import opened Handler
  import opened HandlerFacts
  import opened Effects
  import opened Runtime
  import opened LockKeys
  import opened Coherence
  import opened Locks

  /** The user exists, or did, and if it still does the token owns it. */
  predicate OwnedNow(store: map<string, Account>, tok: TokenPolicy, uuid: string) {
    uuid in store && (store[uuid].Live? ==> Owns(tok, store[uuid].user))
  }

  predicate AllWriteSafe(gens: map<nat, Generation>) {
    forall gen | gen in gens :: WriteSafe(gens[gen].cfg)
  }

  function Target(t: Thread): string {
    BodyString(t.req.body.payload, "uuid")
  }

  /** A user update is about to be forwarded, or about to report success. */
  predicate AtRisk(t: Thread) {
    UpdatesUser(t) && (t.pc.Forwarding? || (t.pc.Replying? && t.pc.reply.Relayed? && Success(t.pc.reply.answer)))
  }

  /** A user update under its lock with an accepted body. */
  predicate Claim(t: Thread) {
    t.view.Some? && t.session.Some? && SafeUpdate(t.session.value) && BodyOutcome(JobOf(t)).Pass? && Target(t) != "" && t.mutex.Some?
  }

  /** The session is one of a safe update. */
  predicate Safe(t: Thread) {
    t.session.Some? && SafeUpdate(t.session.value)
  }

  /** The event is a read of the user that the update is about, under the lock, and shows it owned. */
  predicate ReadsOwned(t: Thread, e: Event) {
    t.session.Some? && e.ReadUser? && e.uuid == Target(t) && UserCheck(t.session.value.tok, e.answer).Pass? && t.mutex.Some?
  }

  predicate OwnsTarget(store: map<string, Account>, t: Thread) {
    t.session.Some? && OwnedNow(store, t.session.value.tok, Target(t))
  }

  predicate SafeAt(store: map<string, Account>, t: Thread) {
    AtRisk(t) ==> Claim(t) && OwnedNow(store, t.session.value.tok, Target(t))
  }

  ghost predicate Secured(s: State) {
    forall i | 0 <= i < |s.threads| :: SafeAt(s.store, s.threads[i])
  }

  lemma SameOwnershipSameOwner(tok: TokenPolicy, a: User, b: User)
    requires SameOwnership(a, b)
    ensures Owns(tok, a) <==> Owns(tok, b)
  {
  }

  // ------------------------------------------------- what one handler claims

  lemma UpdateNeeds(j: Job)
    requires SafeUpdate(j.s)
    ensures PreflightNeed(j) == VerifyNeed(j) == OwnedUserNeed(j.s.tok, BodyString(j.req.body.payload, "uuid"))
    ensures PreflightNeed(j) != Nothing &&
      (PreflightNeed(j).UserOf? ==> BodyString(j.req.body.payload, "uuid") == PreflightNeed(j).uuid != "")
    ensures LockedWrite(j.s.route) && !RestrictedPanelList(j.s)
  {
    hide BodyString;
  }

  lemma ForwardingClaims(t: Thread)
    requires Inv(t) && t.pc.Forwarding? && Safe(t)
    ensures Claim(t)
  {
    hide SessionFits, HistoryOk, AnsweredOnce, PagesInScan, BodyOutcome, PreflightNeed, SafeUpdate, DecisionPasses;
    UpdateNeeds(JobOf(t));
  }

  /** A call was forwarded before, so the body had been accepted. */
  lemma VerifyingClaims(t: Thread)
    requires Inv(t) && t.pc.Verifying? && Safe(t)
    ensures Claim(t)
  {
    hide SessionFits, AnsweredOnce, PagesInScan, BodyOutcome, PreflightNeed, VerifyNeed, SafeUpdate, DecisionPasses,
      GateResponse, Relayable, OwnAnswer, PublicCall;
    var j := JobOf(t);
    UpdateNeeds(j);
    var i :| 0 <= i < |t.log| && GatedAt(j, t.log, t.pc.answer, i);
    assert EventOk(t, i);
  }

  predicate Risky(n: Thread) {
    AtRisk(n) && Safe(n)
  }

  lemma RiskNotAtEntry(t: Thread, e: Event)
    requires Inv(t) && EntryStep(t, e).Some?
    ensures !AtRisk(EntryStep(t, e).UnwrapOr(t))
  {
    hide Admitted, Versioned, SessionFor, SessionFits, HistoryOk, PointFacts, LockedNow, AnsweredOnce, PagesInScan;
    if t.pc.WantGlobal? {
      AdmittedTarget(t.view.value.cfg, t.req);
    } else if t.pc.WantVersion? {
      VersionedTarget(t.view.value.cfg, t.req);
    }
  }

  lemma RiskNotOutside(t: Thread, e: Event)
    requires Inv(t) && (PublicStep(t, e).Some? || OAuthStep(t, e).Some? || ClosingStep(t, e).Some?)
    ensures PublicStep(t, e).Some? ==> !AtRisk(PublicStep(t, e).UnwrapOr(t))
    ensures OAuthStep(t, e).Some? ==> !AtRisk(OAuthStep(t, e).UnwrapOr(t))
    ensures ClosingStep(t, e).Some? ==> !AtRisk(ClosingStep(t, e).UnwrapOr(t))
  {
    hide SessionFits, HistoryOk, PointFacts, LockedNow, AnsweredOnce, PagesInScan;
  }

  /** Before preflight nothing is forwarded, since an update always needs its read. */
  lemma RiskNotBeforeRead(t: Thread, e: Event)
    requires TokenStep(t, e).Some?
    ensures !Risky(TokenStep(t, e).UnwrapOr(t))
  {
    hide Decided, BeginPreflight, CheckBody, PreflightNeed, VerifyNeed, SafeUpdate, LockedWrite, DecisionPasses,
      WriteSafe, RestrictedPanelList;
    var j := JobOf(t);
    DecidedTarget(j);
    BeginPreflightTarget(j);
    if SafeUpdate(j.s) {
      UpdateNeeds(j);
    }
  }

  /** An update gets to be forwarded, or to report success, only by a read that shows the user owned. */
  lemma RiskInCall(t: Thread, e: Event)
    requires Inv(t) && UpstreamStep(t, e).Some? && Risky(UpstreamStep(t, e).UnwrapOr(t))
    ensures ReadsOwned(t, e)
    ensures UpstreamStep(t, e).UnwrapOr(t).pc.Forwarding? || t.pc.Verifying?
  {
    hide SafeUpdate, UserCheck, Preflighted, Scanned, Answered, Verified, VerifyNeed, PreflightNeed, LockedWrite,
      RestrictedPanelList, VerifyWrite, CheckBody, CreatedCheck, GateResponse, SessionFits, HistoryOk, AnsweredOnce,
      PagesInScan, DecisionPasses, BodyOutcome, ListAnswer, Cleared, GatedAt, VerifiedAt, LockedNow;
    var j := JobOf(t);
    UpdateNeeds(j);
    match t.pc
    case Preflight(uuid) => PreflightedTarget(j, e.answer); CheckBodyTarget(j);
    case ListScan(start, combined) =>
    case Forwarding =>
      AnsweredTarget(j, e.answer);
      if !Refusing(Answered(j, e.answer)) && Answered(j, e.answer) != Unwinding {
        VerifyWriteTarget(j, GateResponse(j.s.route, j.s.tok, e.answer, PageWanted(j)).value);
      }
    case Verifying(uuid, a) => VerifiedTarget(j, e.answer, a);
  }

  lemma RiskAfterRead(t: Thread, e: Event)
    requires Inv(t) && Advance(t, e).Some? && Risky(Advance(t, e).UnwrapOr(t))
    ensures ReadsOwned(t, e)
    ensures Advance(t, e).UnwrapOr(t).pc.Forwarding? || t.pc.Verifying?
  {
    hide Inv, EntryStep, PublicStep, TokenStep, UpstreamStep, OAuthStep, ClosingStep, AtRisk, SafeUpdate, UserCheck;
    match t.pc
    case Start | WantGlobal | WantVersion => RiskNotAtEntry(t, e);
    case WantToken | WantTokenRate | WantMutex | WantLock(_) => RiskNotBeforeRead(t, e);
    case Preflight(_) | ListScan(_, _) | Forwarding | Verifying(_, _) => RiskInCall(t, e);
    case Done =>
    case _ => RiskNotOutside(t, e);
  }

  // -------------------------------------------------------- the whole system

  /** Write-safe settings everywhere make every user update a safe one. */
  lemma UpdatesAreSafe(gens: map<nat, Generation>, t: Thread)
    requires ThreadOk(gens, t) && AllWriteSafe(gens) && UpdatesUser(t)
    ensures t.view.Some? && Safe(t)
  {
    hide Shape, PointFacts, HistoryOk, LockedNow, AnsweredOnce, PagesInScan, Resolve, Catalogued, SafeUpdate,
      SessionRoute, WriteSafe;
    SessionIsSafe(t.view.value.cfg, t.req);
  }

  lemma ReadShowsOwned(store: map<string, Account>, tok: TokenPolicy, uuid: string, a: Answer)
    requires TruthfulRead(store, uuid, a) && UserCheck(tok, a).Pass?
    ensures OwnedNow(store, tok, uuid)
  {
    hide OwnsUser, DecodeUser;
  }

  /** The stepping handler after its step. */
  lemma OwnRisk(s: State, t: Thread, e: Event, n: Thread, after: map<string, Account>)
    requires ThreadOk(s.gens, t) && ThreadOk(s.gens, n) && AllWriteSafe(s.gens)
    requires Advance(t, e) == Some(n) && Changes(t, e, n) && StoreGuard(s, t, e, after)
    ensures SafeAt(after, n)
  {
    hide Inv, Advance, ThreadOk, AtRisk, Claim, SafeUpdate, UserCheck, TruthfulRead, OwnedNow, Evolves, Target, WriteSafe, AllWriteSafe,
      SlotsChange, SessionFor;
    if AtRisk(n) {
      RiskIsUpdate(n);
      UpdatesAreSafe(s.gens, n);
      InvOf(s.gens, t);
      RiskAfterRead(t, e);
      ReadShowsOwned(s.store, t.session.value.tok, e.uuid, e.answer);
      NowClaims(s.gens, t, e, n);
      SameTarget(t, n);
    }
  }

  lemma RiskIsUpdate(t: Thread)
    requires AtRisk(t)
    ensures UpdatesUser(t) && t.session.Some?
  {
  }

  lemma SameTarget(t: Thread, n: Thread)
    requires t.req == n.req
    ensures Target(t) == Target(n)
  {
  }

  lemma InvOf(gens: map<nat, Generation>, t: Thread)
    requires ThreadOk(gens, t)
    ensures Inv(t)
  {
    hide Inv;
  }

  lemma NowClaims(gens: map<nat, Generation>, t: Thread, e: Event, n: Thread)
    requires ThreadOk(gens, t) && ThreadOk(gens, n)
    requires Advance(t, e) == Some(n) && Changes(t, e, n) && Risky(n)
    ensures Claim(n)
  {
    hide Inv, Advance, AtRisk, SafeUpdate, UserCheck, BodyOutcome, Target, Catalogued, Claim, SlotsChange, SessionFor;
    RiskAfterRead(t, e);
    if n.pc.Forwarding? {
      ForwardingClaims(n);
    } else {
      VerifyingClaims(t);
      ClaimGoesOn(t, n);
    }
  }

  lemma ClaimGoesOn(t: Thread, n: Thread)
    requires Claim(t) && n.req == t.req && n.view == t.view && n.session == t.session && n.mutex == t.mutex
    ensures Claim(n)
  {
    hide SafeUpdate, BodyOutcome;
  }

  /** Two claims on one user are claims of one handler. */
  lemma ClaimsExclude(s: State, i: nat, t: Thread, j: nat, u: Thread)
    requires Coherent(s) && Locked(s) && IsAt(s.threads, i, t) && IsAt(s.threads, j, u)
    requires Claim(t) && Claim(u) && Target(t) == Target(u)
    ensures i == j
  {
    hide ThreadsOk, FlagOk, GensOk, SafeUpdate, BodyOutcome, LockedNow, LockKey, BodyString, Locked, Inv;
    SameUserSameKey(JobOf(t), JobOf(u));
    HandlerOk(s, i, s.threads[i]);
    HandlerOk(s, j, s.threads[j]);
    LockHeld(t);
    LockHeld(u);
    MutualExclusion(s, i, j);
  }

  /** A change of ownership is the doing of the one handler that forwards an update of that user. */
  lemma OthersStay(s: State, id: nat, t: Thread, e: Event, after: map<string, Account>, other: nat, u: Thread)
    requires Coherent(s) && Locked(s) && AllWriteSafe(s.gens) && IsAt(s.threads, id, t) && StepEnabled(s, id, e, after)
    requires IsAt(s.threads, other, u) && other != id && SafeAt(s.store, u)
    ensures SafeAt(after, u)
  {
    hide ThreadsOk, FlagOk, GensOk, Claim, SafeUpdate, LockedNow, Locked, AtRisk, StateGuard, SlotGuard, LockGuard,
      OAuthGuard, Advance, Owns, SameOwnership, UpdatesUser, Names, TruthfulRead, Target;
    if AtRisk(u) {
      RiskIsUpdate(u);
      var target, tok := Target(u), u.session.value.tok;
      if e.Forward? && s.store[target].Live? && after[target].Live? && !SameOwnership(s.store[target].user, after[target].user) {
        assert UpdatesUser(t) && Names(t.req.body.payload, target);
        HandlerOk(s, id, s.threads[id]);
        ForwarderClaims(s.gens, t, e);
        NamedIsTarget(t, target);
        ClaimsExclude(s, id, t, other, u);
      } else if e.Forward? && s.store[target].Live? && after[target].Live? {
        SameOwnershipSameOwner(tok, s.store[target].user, after[target].user);
      }
    }
  }

  lemma ForwarderClaims(gens: map<nat, Generation>, t: Thread, e: Event)
    requires ThreadOk(gens, t) && AllWriteSafe(gens) && e.Forward? && Advance(t, e).Some? && UpdatesUser(t)
    ensures Claim(t) && AtRisk(t)
  {
    hide Inv, SafeUpdate, Claim, AllWriteSafe, Answered, Catalogued;
    UpdatesAreSafe(gens, t);
    ForwardFrom(t, e);
    ForwardingClaims(t);
  }

  lemma ForwardFrom(t: Thread, e: Event)
    requires e.Forward? && Advance(t, e).Some?
    ensures t.pc.Forwarding? && t.session.Some?
  {
    hide Answered, Admitted, Versioned, Decided, BeginPreflight, Preflighted, Scanned, Verified, SessionFor;
  }

  lemma NamedIsTarget(t: Thread, uuid: string)
    requires Claim(t) && Names(t.req.body.payload, uuid)
    ensures uuid == Target(t)
  {
    hide BodyOutcome, SafeUpdate, LockKey, BodyString, Names;
    UpdateNamesOne(JobOf(t));
  }

  lemma StepSecures(s: State, id: nat, e: Event, after: map<string, Account>)
    requires Coherent(s) && Locked(s) && AllWriteSafe(s.gens) && Secured(s) && StepEnabled(s, id, e, after)
    ensures Secured(ApplyStep(s, id, e, after))
  {
    hide ThreadsOk, FlagOk, GensOk, Locked, AllWriteSafe, SafeAt, Advance, StateGuard, SlotGuard, LockGuard,
      OAuthGuard, StoreGuard, CountsAfter, MutexesAfter, OwnersAfter, AttemptsAfter, DrawnAfter, TakenAfter;
    var t, n := s.threads[id], ApplyStep(s, id, e, after);
    StepOk(s, id, t, e, n.threads[id]);
    forall i | 0 <= i < |n.threads|
      ensures SafeAt(n.store, n.threads[i])
    {
      if i == id {
        OwnRisk(s, t, e, n.threads[id], after);
      } else {
        assert SafeAt(s.store, s.threads[i]);
        OthersStay(s, id, t, e, after, i, s.threads[i]);
      }
    }
  }

  lemma OutsideSecures(s: State, changed: map<string, Account>)
    requires Secured(s) && Evolves(s.store, changed, uuid => false)
    ensures forall i | 0 <= i < |s.threads| :: SafeAt(changed, s.threads[i])
  {
    hide AtRisk, Claim, SameOwnership, Owns, Target;
    forall i | 0 <= i < |s.threads|
      ensures SafeAt(changed, s.threads[i])
    {
      var t := s.threads[i];
      assert SafeAt(s.store, t);
      if AtRisk(t) && s.store[Target(t)].Live? && changed[Target(t)].Live? {
        RiskIsUpdate(t);
        SameOwnershipSameOwner(t.session.value.tok, s.store[Target(t)].user, changed[Target(t)].user);
      }
    }
  }

  lemma FreshSafe(store: map<string, Account>, req: Request)
    ensures SafeAt(store, Fresh(req))
  {
    hide Claim, OwnedNow, Success;
  }

  lemma SecuredKeeps(s: State, a: Action)
    requires Secured(s) && Coherent(s) && Locked(s) && AllWriteSafe(s.gens) && Enabled(s, a)
    ensures Secured(Apply(s, a))
  {
    hide ThreadsOk, FlagOk, GensOk, Locked, AllWriteSafe, SafeAt, Advance, StateGuard, SlotGuard, LockGuard,
      OAuthGuard, StoreGuard, Evolves, ApplyStep, StepEnabled, Detected;
    match a
    case Arrive(req) => FreshSafe(s.store, req);
    case Step(id, e, after) => StepSecures(s, id, e, after);
    case Outside(changed) => OutsideSecures(s, changed);
    case _ =>
  }

  /** Every forwarded user update names exactly one user, and at that very moment its token owns it. */
  lemma ForwardHitsOwned(s: State, id: nat, t: Thread, a: Answer, after: map<string, Account>)
    requires Coherent(s) && Secured(s) && AllWriteSafe(s.gens) && IsAt(s.threads, id, t)
    requires StepEnabled(s, id, Forward(a), after) && UpdatesUser(t)
    ensures OwnsTarget(s.store, t) && Target(t) != ""
    ensures forall uuid | Names(t.req.body.payload, uuid) :: uuid == Target(t)
  {
    hide ThreadsOk, FlagOk, GensOk, AllWriteSafe, AtRisk, Advance, StateGuard, SlotGuard, LockGuard, OAuthGuard,
      StoreGuard, UpdatesUser, Names, Target, OwnedNow;
    assert SafeAt(s.store, s.threads[id]);
    HandlerOk(s, id, s.threads[id]);
    ForwarderClaims(s.gens, t, Forward(a));
    forall uuid | Names(t.req.body.payload, uuid)
      ensures uuid == Target(t)
    {
      NamedIsTarget(t, uuid);
    }
  }

  /** When an update reports success, its token still owns the user. */
  lemma SuccessStillOwned(s: State, id: nat, t: Thread, a: Answer, after: map<string, Account>)
    requires Secured(s) && IsAt(s.threads, id, t) && StepEnabled(s, id, Respond(Relayed(a)), after) && UpdatesUser(t) && Success(a)
    ensures OwnsTarget(s.store, t)
  {
    hide Claim, Advance, StateGuard, SlotGuard, LockGuard, OAuthGuard, StoreGuard, Success, Target, OwnedNow;
    assert SafeAt(s.store, s.threads[id]);
    RespondFrom(t, Relayed(a));
  }

  lemma RespondFrom(t: Thread, reply: Reply)
    requires Advance(t, Respond(reply)).Some?
    ensures t.pc == Replying(reply)
  {
    hide Answered, Admitted, Versioned, Decided, BeginPreflight, Preflighted, Scanned, Verified, SessionFor;
  }
}
