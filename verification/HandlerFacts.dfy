/** What holds of every run of one request handler, whatever the other handlers and the upstream do. */
module HandlerFacts {
  import opened Prelude
  import opened Json
  import opened Config
  import opened Routes
  import opened PanelList
  import opened ResponsePolicy
  import opened Upstream
  import opened Requests
  import opened Handler

  // --------------------------------------------------- reading the history

  function Last(log: seq<Event>): Event
    requires log != []
  {
    log[|log| - 1]
  }

  function Responses(log: seq<Event>): nat {
    if log == [] then 0 else Responses(log[..|log| - 1]) + (if Last(log).Respond? then 1 else 0)
  }

  /** The resource lock was taken and not given back since. */
  predicate LockedNow(log: seq<Event>) {
    log != [] && (Last(log).LockMutex? || (!Last(log).Unlock? && LockedNow(log[..|log| - 1])))
  }

  function PageUsers(e: Event): seq<Json> {
    if e.FetchPage? && Success(e.answer) && e.answer.body.Some? && DecodeListPage(e.answer.body.value).Some? then
      DecodeListPage(e.answer.body.value).value.0
    else []
  }

  /** The users of all pages fetched so far. */
  function PagesRead(log: seq<Event>): seq<Json> {
    if log == [] then [] else PagesRead(log[..|log| - 1]) + PageUsers(Last(log))
  }

  /** The event is the upstream answer whose page cannot be cut out. */
  predicate PanicsNow(j: Job, e: Event, read: seq<Json>) {
    (e.Forward? && Answered(j, e.answer).Unwinding?) || (e.FetchPage? && Scanned(j, e.start, read, e.answer).Unwinding?)
  }

  predicate Panicked(j: Job, log: seq<Event>) {
    log != [] && (PanicsNow(j, Last(log), PagesRead(log[..|log| - 1])) || Panicked(j, log[..|log| - 1]))
  }

  /** The handler has been stopped by a panic. */
  predicate Stopped(t: Thread) {
    t.view.Some? && t.session.Some? && Panicked(JobOf(t), t.log)
  }

  lemma PanicStep(j: Job, log: seq<Event>, e: Event)
    ensures Panicked(j, log + [e]) <==> PanicsNow(j, e, PagesRead(log)) || Panicked(j, log)
  {
    hide PanicsNow, PagesRead;
    assert (log + [e])[..|log|] == log;
  }

  lemma LogStep(log: seq<Event>, e: Event)
    ensures Responses(log + [e]) == Responses(log) + (if e.Respond? then 1 else 0)
    ensures LockedNow(log + [e]) <==> e.LockMutex? || (!e.Unlock? && LockedNow(log))
    ensures PagesRead(log + [e]) == PagesRead(log) + PageUsers(e)
  {
    assert (log + [e])[..|log|] == log;
  }

  // ------------------------------------------------ what must have happened

  /** A successful read of an owned user, made under the lock if the route is a locked write. */
  predicate OwnedReadAt(j: Job, uuid: string, log: seq<Event>, i: nat) {
    i < |log| && log[i].ReadUser? && log[i].uuid == uuid && UserCheck(j.s.tok, log[i].answer).Pass? &&
    (LockedWrite(j.s.route) ==> LockedNow(log[..i]))
  }

  /** The need was met by an event at `from` or later. */
  predicate NeedMet(j: Job, need: Need, log: seq<Event>, from: nat) {
    match need
    case Nothing => true
    case Never(_) => false
    case UserOf(uuid) => exists i | from <= i < |log| :: OwnedReadAt(j, uuid, log, i)
  }

  /** Everything that must have happened before the request may be forwarded. */
  predicate Cleared(j: Job, log: seq<Event>) {
    && DecisionPasses(j)
    && (LockedWrite(j.s.route) ==> WriteSafe(j.cfg) && LockedNow(log))
    && NeedMet(j, PreflightNeed(j), log, 0)
    && BodyOutcome(j).Pass?
  }

  /** The answer is what the gates made of the answer to this request's own call at i. */
  predicate GatedAt(j: Job, log: seq<Event>, a: Answer, i: nat) {
    i < |log| && log[i].Forward? && log[i].answer.Answer? &&
    GateResponse(j.s.route, j.s.tok, log[i].answer, PageWanted(j)) == Ok(a)
  }

  /** A locked write that succeeded has been verified after the call at i. */
  predicate WriteVerified(j: Job, log: seq<Event>, a: Answer, i: nat) {
    LockedWrite(j.s.route) ==>
      if j.s.route.name == UserCreate then CreatedCheck(j.s.tok, a).Pass? else NeedMet(j, VerifyNeed(j), log, i + 1)
  }

  predicate VerifiedAt(j: Job, log: seq<Event>, a: Answer, i: nat) {
    GatedAt(j, log, a, i) && WriteVerified(j, log, a, i)
  }

  /** An upstream success that may be relayed to an authenticated caller: the filtered list of all
      fetched pages, or the gated and verified answer to the forwarded call. */
  predicate Relayable(j: Job, log: seq<Event>, a: Answer) {
    Success(a) ==>
      || (RestrictedPanelList(j.s) && ListAnswer(j, PagesRead(log)) == Ok(a))
      || exists i | 0 <= i < |log| :: VerifiedAt(j, log, a, i)
  }

  predicate OwnAnswer(log: seq<Event>, a: Answer) {
    exists i | 0 <= i < |log| :: log[i] == ForwardPublic(a)
  }

  // -------------------------------------------------------------- invariant

  /** Which slots may be held, in order of acquisition. */
  predicate SlotsOf(view: View, slots: seq<Slot>, second: Option<Slot>) {
    slots == [GlobalSlot(view.gen)] + (if second.Some? then [second.value] else [])
  }

  function IpOf(t: Thread): Option<Slot>
    requires t.view.Some?
  {
    Some(IpSlot(t.view.value.gen, t.req.ip))
  }

  function TokenOf(t: Thread): Option<Slot>
    requires t.view.Some? && t.session.Some?
  {
    Some(TokenSlot(t.view.value.gen, t.session.value.tok.id))
  }

  /** The session follows from the settings and the request. */
  ghost predicate SessionFits(t: Thread) {
    t.session.Some? ==> t.view.Some? && t.session == SessionFor(t.view.value.cfg, t.req)
  }

  /** Which records are filled in and what is held at each point. */
  predicate Shape(t: Thread) {
    match t.pc
    case Start => t.view.None? && t.session.None? && t.slots == [] && t.mutex.None? && t.log == []
    case WantGlobal => t.view.Some? && t.session.None? && t.slots == [] && t.mutex.None?
    case WantVersion => t.view.Some? && t.session.None? && SlotsOf(t.view.value, t.slots, None) && t.mutex.None? && t.req.matched.Some?
    case WantIp | OAuthDraw | OAuthLoad(_) | OAuthPut(_, _, _) | OAuthTake(_) | OAuthCheck(_, _) | OAuthExchange =>
      t.view.Some? && t.session.None? && SlotsOf(t.view.value, t.slots, None) && t.mutex.None?
    case WantIpRate | PublicForward =>
      t.view.Some? && t.session.None? && SlotsOf(t.view.value, t.slots, IpOf(t)) && t.mutex.None?
    case WantToken => t.view.Some? && t.session.Some? && SlotsOf(t.view.value, t.slots, None) && t.mutex.None?
    case WantTokenRate | WantMutex | WantLock(_) => BothSlots(t) && t.mutex.None?
    case Preflight(_) | Forwarding | Verifying(_, _) | ListScan(_, _) =>
      BothSlots(t) && (t.mutex.Some? <==> LockedWrite(t.session.value.route))
    case Replying(_) => Holds(t)
    case Unwinding => Holds(t) && (t.slots != [] || t.mutex.Some?)
    case Done => t.view.Some? && t.slots == [] && t.mutex.None?
  }

  predicate BothSlots(t: Thread) {
    t.view.Some? && t.session.Some? && SlotsOf(t.view.value, t.slots, TokenOf(t))
  }

  /** The semaphores held are distinct ones of the handler's own generation, and a lock is held by a locked write only. */
  predicate Holds(t: Thread) {
    t.view.Some? &&
    (t.slots == [] || SlotsOf(t.view.value, t.slots, None) || (t.session.None? && SlotsOf(t.view.value, t.slots, IpOf(t))) ||
     BothSlots(t)) &&
    (t.mutex.Some? ==> BothSlots(t) && LockedWrite(t.session.value.route))
  }

  /** What the history says at each point behind authentication. */
  predicate AtPoint(j: Job, pc: Pc, log: seq<Event>) {
    match pc
    case WantMutex | WantLock(_) => DecisionPasses(j) && LockedWrite(j.s.route) && WriteSafe(j.cfg)
    case Preflight(uuid) =>
      DecisionPasses(j) && PreflightNeed(j) == UserOf(uuid) && (LockedWrite(j.s.route) ==> WriteSafe(j.cfg) && LockedNow(log))
    case ListScan(_, combined) => Cleared(j, log) && RestrictedPanelList(j.s) && combined == PagesRead(log)
    case Forwarding => Cleared(j, log) && !RestrictedPanelList(j.s)
    case Verifying(uuid, a) =>
      LockedWrite(j.s.route) && LockedNow(log) && VerifyNeed(j) == UserOf(uuid) && j.s.route.name != UserCreate &&
      DecisionPasses(j) && exists i | 0 <= i < |log| :: GatedAt(j, log, a, i)
    case Replying(Relayed(a)) => Relayable(j, log, a)
    case _ => true
  }

  /** What the history says at each point of an unauthenticated request. */
  predicate AtPublicPoint(t: Thread) {
    match t.pc
    case WantIp | WantIpRate | PublicForward => PublicCall(t)
    case Replying(Relayed(a)) => PublicCall(t) && OwnAnswer(t.log, a)
    case _ => true
  }

  predicate PublicCall(t: Thread) {
    t.view.Some? && t.view.value.cfg.publicSubs && PublicRoute(t.view.value.cfg, t.req)
  }

  predicate PointFacts(t: Thread) {
    if t.session.Some? then t.view.Some? && AtPoint(JobOf(t), t.pc, t.log) else AtPublicPoint(t)
  }

  /** Each event of the history was in order when it happened. */
  predicate EventOk(t: Thread, i: nat)
    requires i < |t.log|
  {
    match t.log[i]
    case Forward(_) => t.view.Some? && t.session.Some? && Cleared(JobOf(t), t.log[..i])
    case FetchPage(_, _) => t.view.Some? && t.session.Some? && Cleared(JobOf(t), t.log[..i])
    case ReadUser(_, _) => t.view.Some? && t.session.Some? && DecisionPasses(JobOf(t))
    case ForwardPublic(_) => PublicCall(t)
    case Respond(Relayed(a)) =>
      if t.session.Some? then t.view.Some? && Relayable(JobOf(t), t.log[..i], a) else PublicCall(t) && OwnAnswer(t.log[..i], a)
    case _ => true
  }

  predicate HistoryOk(t: Thread) {
    forall i | 0 <= i < |t.log| :: EventOk(t, i)
  }

  /** One response is written, exactly when the handler turns to releasing what it holds; none if a panic made it turn. */
  predicate AnsweredOnce(t: Thread) {
    if t.pc.Unwinding? || t.pc.Done? then Responses(t.log) == if Stopped(t) then 0 else 1
    else Responses(t.log) == 0 && !Stopped(t)
  }

  /** Pages are fetched by the list scan only. */
  predicate PagesInScan(t: Thread) {
    t.pc.ListScan? || t.pc.Replying? || t.pc.Unwinding? || t.pc.Done? || PagesRead(t.log) == []
  }

  ghost predicate Inv(t: Thread) {
    SessionFits(t) && Shape(t) && PointFacts(t) && HistoryOk(t) && AnsweredOnce(t) && PagesInScan(t) &&
    (LockedNow(t.log) <==> t.mutex.Some?)
  }

  // ------------------------------------------------- the computed decisions

  predicate Refusing(pc: Pc) {
    pc.Replying? && pc.reply.Refused?
  }

  lemma CheckBodyTarget(j: Job)
    ensures var pc := CheckBody(j);
      Refusing(pc) || (BodyOutcome(j).Pass? && pc == if RestrictedPanelList(j.s) then ListScan(0, []) else Forwarding)
  {
    hide BodyOutcome, RestrictedPanelList, DenyStatus;
  }

  lemma BeginPreflightTarget(j: Job)
    ensures var pc := BeginPreflight(j);
      match PreflightNeed(j)
      case Nothing => pc == CheckBody(j)
      case UserOf(uuid) => pc == Preflight(uuid)
      case Never(_) => Refusing(pc)
  {
    hide PreflightNeed, CheckBody, DenyStatus;
  }

  lemma DecidedTarget(j: Job)
    ensures var pc := Decided(j);
      || (pc.Replying? && !pc.reply.Relayed?)
      || (DecisionPasses(j) && !LockedWrite(j.s.route) && pc == BeginPreflight(j))
      || (DecisionPasses(j) && LockedWrite(j.s.route) && WriteSafe(j.cfg) && pc == WantMutex)
  {
    hide DecisionPasses, PanelReadFacade, LockedWrite, BeginPreflight, WriteSafe, Oversized, DenyStatus, Decide;
  }

  lemma PreflightedTarget(j: Job, a: Answer)
    ensures var pc := Preflighted(j, a); Refusing(pc) || (UserCheck(j.s.tok, a).Pass? && pc == CheckBody(j))
  {
    hide UserCheck, CheckBody, DenyStatus;
  }

  lemma AdmittedTarget(cfg: Settings, req: Request)
    ensures var pc := Admitted(cfg, req);
      (pc.Replying? && !pc.reply.Relayed?) || pc.OAuthDraw? || pc.OAuthTake? ||
      (pc.WantVersion? && req.matched.Some?)
  {
  }

  lemma VersionedTarget(cfg: Settings, req: Request)
    requires req.matched.Some?
    ensures var pc := Versioned(cfg, req);
      || Refusing(pc)
      || (pc == WantIp && PublicRoute(cfg, req) && cfg.publicSubs)
      || (pc == WantToken && SessionFor(cfg, req).Some?)
  {
    hide Resolve, PublicRoute, SessionRoute;
  }

  lemma ScannedTarget(j: Job, start: nat, combined: seq<Json>, a: Answer)
    ensures var pc := Scanned(j, start, combined, a); var users := combined + PageUsers(FetchPage(start, a));
      || Refusing(pc)
      || (!Success(a) && pc == Replying(Relayed(a)))
      || (pc.ListScan? && pc.combined == users)
      || (ListPanics(j, users) && pc == Unwinding)
      || (ListAnswer(j, users).Ok? && pc == Replying(Relayed(ListAnswer(j, users).value)))
  {
    hide ListAnswer, ListPanics, DecodeListPage;
  }

  lemma AnsweredTarget(j: Job, a: Answer)
    ensures var pc := Answered(j, a);
      Refusing(pc) || (CallPanics(j, a) && pc == Unwinding) ||
      (a.Answer? && GateResponse(j.s.route, j.s.tok, a, PageWanted(j)).Ok? &&
       pc == VerifyWrite(j, GateResponse(j.s.route, j.s.tok, a, PageWanted(j)).value))
  {
    hide EnforceResponse, FilterResponse, ResponseFaults, PageWanted, VerifyWrite, DenyStatus;
  }

  lemma VerifyWriteTarget(j: Job, a: Answer)
    ensures var pc := VerifyWrite(j, a);
      || Refusing(pc)
      || (pc == Replying(Relayed(a)) &&
          (LockedWrite(j.s.route) && Success(a) ==>
             if j.s.route.name == UserCreate then CreatedCheck(j.s.tok, a).Pass? else VerifyNeed(j) == Nothing))
      || (pc.Verifying? && pc.answer == a && LockedWrite(j.s.route) && j.s.route.name != UserCreate &&
          VerifyNeed(j) == UserOf(pc.again))
  {
    hide LockedWrite, CreatedCheck, VerifyNeed;
  }

  lemma VerifiedTarget(j: Job, read: Answer, a: Answer)
    ensures var pc := Verified(j, read, a); Refusing(pc) || (UserCheck(j.s.tok, read).Pass? && pc == Replying(Relayed(a)))
  {
    hide UserCheck;
  }

  // ----------------------------------------------------------- preservation

  lemma NoResponses(log: seq<Event>)
    requires Responses(log) == 0
    ensures forall i | 0 <= i < |log| :: !log[i].Respond?
  {
    if log != [] {
      NoResponses(log[..|log| - 1]);
    }
  }

  /** The history stays in order when the newest event is and nothing recorded before changes. */
  lemma HistoryGrows(t: Thread, e: Event, n: Thread)
    requires HistoryOk(t) && n.log == t.log + [e] && n.req == t.req
    requires t.view.Some? ==> n.view == t.view
    requires t.session.Some? ==> n.session == t.session
    requires Responses(t.log) == 0 || n.session == t.session
    requires EventOk(n, |t.log|)
    ensures HistoryOk(n)
  {
    hide Cleared, Relayable, DecisionPasses, PublicRoute;
    if Responses(t.log) == 0 {
      NoResponses(t.log);
    }
    forall i | 0 <= i < |n.log|
      ensures EventOk(n, i)
    {
      if i < |t.log| {
        assert EventOk(t, i);
        assert n.log[..i] == t.log[..i];
      }
    }
  }

  /** Events that need no permission. */
  predicate Quiet(e: Event) {
    !e.Forward? && !e.FetchPage? && !e.ReadUser? && !e.ForwardPublic? && !e.Respond?
  }

  lemma QuietGrows(t: Thread, e: Event, n: Thread)
    requires HistoryOk(t) && Quiet(e) && n.log == t.log + [e] && n.req == t.req
    requires t.view.Some? ==> n.view == t.view
    requires t.session.Some? ==> n.session == t.session
    requires Responses(t.log) == 0 || n.session == t.session
    ensures HistoryOk(n)
  {
    hide Cleared, Relayable, DecisionPasses, PublicRoute, HistoryOk;
    assert n.log[|t.log|] == e;
    HistoryGrows(t, e, n);
  }

  lemma NeedStays(j: Job, need: Need, log: seq<Event>, e: Event, from: nat)
    requires NeedMet(j, need, log, from)
    ensures NeedMet(j, need, log + [e], from)
  {
    hide UserCheck, LockedWrite;
    if need.UserOf? {
      var i :| from <= i < |log| && OwnedReadAt(j, need.uuid, log, i);
      assert (log + [e])[..i] == log[..i];
      assert OwnedReadAt(j, need.uuid, log + [e], i);
    }
  }

  lemma CheckBodyKeeps(j: Job, log: seq<Event>)
    requires DecisionPasses(j) && (LockedWrite(j.s.route) ==> WriteSafe(j.cfg) && LockedNow(log))
    requires NeedMet(j, PreflightNeed(j), log, 0) && PagesRead(log) == []
    ensures var pc := CheckBody(j); (Refusing(pc) || pc.ListScan? || pc.Forwarding?) && AtPoint(j, pc, log)
  {
    hide CheckBody, DecisionPasses, BodyOutcome, PreflightNeed, LockedWrite, RestrictedPanelList, NeedMet, Relayable;
    CheckBodyTarget(j);
  }

  lemma BeginPreflightKeeps(j: Job, log: seq<Event>)
    requires DecisionPasses(j) && (LockedWrite(j.s.route) ==> WriteSafe(j.cfg) && LockedNow(log)) && PagesRead(log) == []
    ensures var pc := BeginPreflight(j);
      (Refusing(pc) || pc.ListScan? || pc.Forwarding? || pc.Preflight?) && AtPoint(j, pc, log)
  {
    hide BeginPreflight, CheckBody, DecisionPasses, PreflightNeed, LockedWrite, Cleared, Relayable;
    BeginPreflightTarget(j);
    if PreflightNeed(j).Nothing? {
      CheckBodyKeeps(j, log);
    }
  }

  lemma DecidedKeeps(j: Job, log: seq<Event>)
    requires PagesRead(log) == []
    ensures var pc := Decided(j);
      AtPoint(j, pc, log) &&
      ((pc.Replying? && !pc.reply.Relayed?) || pc.WantMutex? ||
       (!LockedWrite(j.s.route) && (pc.ListScan? || pc.Forwarding? || pc.Preflight?)))
  {
    hide Decided, BeginPreflight, DecisionPasses, PreflightNeed, LockedWrite, Cleared, Relayable;
    DecidedTarget(j);
    if DecisionPasses(j) && !LockedWrite(j.s.route) {
      BeginPreflightKeeps(j, log);
    }
  }

  lemma PreflightedKeeps(j: Job, uuid: string, log: seq<Event>, a: Answer)
    requires AtPoint(j, Preflight(uuid), log) && PagesRead(log) == []
    ensures var pc := Preflighted(j, a); var after := log + [ReadUser(uuid, a)];
      (Refusing(pc) || pc.ListScan? || pc.Forwarding?) && AtPoint(j, pc, after)
  {
    hide Preflighted, CheckBody, DecisionPasses, UserCheck, PreflightNeed, VerifyNeed, LockedWrite, Cleared,
      Relayable, GatedAt, RestrictedPanelList, WriteSafe;
    var e := ReadUser(uuid, a);
    PreflightedTarget(j, a);
    LogStep(log, e);
    if UserCheck(j.s.tok, a).Pass? {
      assert (log + [e])[..|log|] == log;
      assert OwnedReadAt(j, uuid, log + [e], |log|);
      CheckBodyKeeps(j, log + [e]);
    }
  }

  lemma ClearedStays(j: Job, log: seq<Event>, e: Event)
    requires Cleared(j, log) && !e.Unlock?
    ensures Cleared(j, log + [e])
  {
    hide DecisionPasses, BodyOutcome, PreflightNeed, LockedWrite, NeedMet;
    LogStep(log, e);
    NeedStays(j, PreflightNeed(j), log, e, 0);
  }

  lemma ScannedKeeps(j: Job, start: nat, combined: seq<Json>, log: seq<Event>, a: Answer)
    requires AtPoint(j, ListScan(start, combined), log)
    ensures var pc := Scanned(j, start, combined, a);
      (pc.Replying? || pc.ListScan? || pc.Unwinding?) && AtPoint(j, pc, log + [FetchPage(start, a)])
  {
    hide Scanned, ListAnswer, ListPanics, RestrictedPanelList, Cleared, VerifiedAt, PageUsers, PreflightNeed, VerifyNeed,
      LockedWrite, DecisionPasses, GatedAt, LockedNow, Success;
    var e := FetchPage(start, a);
    ScannedTarget(j, start, combined, a);
    LogStep(log, e);
    ClearedStays(j, log, e);
  }

  /** The answer to the forwarded call reaches the caller only through the gates and the verification. */
  lemma AnsweredKeeps(j: Job, log: seq<Event>, a: Answer)
    requires Cleared(j, log)
    ensures var pc := Answered(j, a); (pc.Replying? || pc.Verifying? || pc.Unwinding?) && AtPoint(j, pc, log + [Forward(a)])
    ensures Answered(j, a).Verifying? ==> LockedWrite(j.s.route)
  {
    hide *;
    AnsweredTarget(j, a);
    var pc, after := Answered(j, a), log + [Forward(a)];
    if Refusing(pc) || pc == Unwinding {
      StoppedAnywhere(j, pc, after);
    } else {
      var gated := GateResponse(j.s.route, j.s.tok, a, PageWanted(j)).value;
      CallGated(j, log, a, gated);
      LogStep(log, Forward(a));
      assert DecisionPasses(j) && (LockedWrite(j.s.route) ==> LockedNow(after)) by {
        ClearedBasics(j, log);
      }
      PassedOn(j, after, gated, |log|);
    }
  }

  lemma StoppedAnywhere(j: Job, pc: Pc, log: seq<Event>)
    requires Refusing(pc) || pc == Unwinding
    ensures (pc.Replying? || pc.Unwinding?) && AtPoint(j, pc, log)
  {
  }

  lemma ClearedBasics(j: Job, log: seq<Event>)
    requires Cleared(j, log)
    ensures DecisionPasses(j) && (LockedWrite(j.s.route) ==> LockedNow(log))
  {
  }

  lemma CallGated(j: Job, log: seq<Event>, a: Answer, b: Answer)
    requires a.Answer? && GateResponse(j.s.route, j.s.tok, a, PageWanted(j)) == Ok(b)
    ensures GatedAt(j, log + [Forward(a)], b, |log|)
  {
    hide GateResponse, PageWanted;
  }

  /** The gated answer is verified, or relayed where there is nothing to read again. */
  lemma PassedOn(j: Job, log: seq<Event>, a: Answer, i: nat)
    requires GatedAt(j, log, a, i) && DecisionPasses(j) && (LockedWrite(j.s.route) ==> LockedNow(log))
    ensures var pc := VerifyWrite(j, a); (pc.Replying? || pc.Verifying?) && AtPoint(j, pc, log)
    ensures VerifyWrite(j, a).Verifying? ==> LockedWrite(j.s.route)
  {
    hide VerifyWrite, GateResponse, LockedWrite, CreatedCheck, VerifyNeed, PageWanted, Relayable, DecisionPasses, LockedNow;
    assert i < |log|;
    VerifyWriteTarget(j, a);
    if VerifyWrite(j, a) == Replying(Relayed(a)) {
      RelayedWithoutRead(j, log, a, i);
    }
  }

  lemma RelayedWithoutRead(j: Job, log: seq<Event>, a: Answer, i: nat)
    requires GatedAt(j, log, a, i)
    requires LockedWrite(j.s.route) && Success(a) ==>
      if j.s.route.name == UserCreate then CreatedCheck(j.s.tok, a).Pass? else VerifyNeed(j) == Nothing
    ensures Relayable(j, log, a)
  {
    hide GateResponse, LockedWrite, CreatedCheck, VerifyNeed, RestrictedPanelList, ListAnswer;
    if Success(a) {
      VerifiedWithoutRead(j, log, a, i);
    }
  }

  lemma VerifiedWithoutRead(j: Job, log: seq<Event>, a: Answer, i: nat)
    requires GatedAt(j, log, a, i)
    requires LockedWrite(j.s.route) ==>
      if j.s.route.name == UserCreate then CreatedCheck(j.s.tok, a).Pass? else VerifyNeed(j) == Nothing
    ensures Relayable(j, log, a)
  {
    hide GateResponse, LockedWrite, CreatedCheck, VerifyNeed, RestrictedPanelList, ListAnswer;
    assert VerifiedAt(j, log, a, i);
  }

  lemma VerifiedKeeps(j: Job, uuid: string, a: Answer, log: seq<Event>, read: Answer)
    requires AtPoint(j, Verifying(uuid, a), log)
    ensures var pc := Verified(j, read, a); pc.Replying? && AtPoint(j, pc, log + [ReadUser(uuid, read)])
  {
    hide Verified, UserCheck, VerifyNeed, GateResponse, LockedWrite, PageWanted, CreatedCheck, RestrictedPanelList,
      ListAnswer, DecisionPasses;
    var e := ReadUser(uuid, read);
    VerifiedTarget(j, read, a);
    if UserCheck(j.s.tok, read).Pass? {
      var i :| 0 <= i < |log| && GatedAt(j, log, a, i);
      var after := log + [e];
      assert after[..|log|] == log;
      assert OwnedReadAt(j, uuid, after, |log|);
      assert VerifiedAt(j, after, a, i);
    }
  }

  lemma NoCallsNoPanic(j: Job, log: seq<Event>)
    requires forall i | 0 <= i < |log| :: !log[i].Forward? && !log[i].FetchPage?
    ensures !Panicked(j, log)
  {
    hide Answered, Scanned, PagesRead;
    if log != [] {
      NoCallsNoPanic(j, log[..|log| - 1]);
    }
  }

  /** Before there is a session nothing is forwarded. */
  lemma NoSessionNoCalls(t: Thread)
    requires HistoryOk(t) && t.session.None?
    ensures forall i | 0 <= i < |t.log| :: !t.log[i].Forward? && !t.log[i].FetchPage?
  {
    hide Cleared, DecisionPasses, Relayable, PublicRoute;
    forall i | 0 <= i < |t.log|
      ensures !t.log[i].Forward? && !t.log[i].FetchPage?
    {
      assert EventOk(t, i);
    }
  }

  /** An event that brings no upstream list stops nobody. */
  lemma CalmStep(t: Thread, e: Event, n: Thread)
    requires HistoryOk(t) && n.log == t.log + [e] && n.req == t.req && !e.Forward? && !e.FetchPage?
    requires t.view.Some? ==> n.view == t.view
    requires t.session.Some? ==> n.session == t.session && t.view.Some?
    ensures Stopped(n) <==> Stopped(t)
  {
    hide HistoryOk, Answered, Scanned, PagesRead, Panicked;
    if n.view.Some? && n.session.Some? {
      PanicStep(JobOf(n), t.log, e);
      if t.session.None? {
        NoSessionNoCalls(t);
        NoCallsNoPanic(JobOf(n), t.log);
      }
    }
  }

  lemma EntryKeeps(t: Thread, e: Event)
    requires Inv(t) && (t.pc.Start? || t.pc.WantGlobal? || t.pc.WantVersion?) && EntryStep(t, e).Some?
    ensures Inv(EntryStep(t, e).UnwrapOr(t))
  {
    hide Panicked, HistoryOk, Responses, LockedNow, PagesRead, Admitted, Versioned, SessionFor, Cleared, DecisionPasses,
      Relayable, PublicRoute, LockedWrite, AtPoint;
    var n := EntryStep(t, e).UnwrapOr(t);
    LogStep(t.log, e);
    CalmStep(t, e, n);
    if t.pc.WantGlobal? {
      AdmittedTarget(t.view.value.cfg, t.req);
    } else if t.pc.WantVersion? {
      VersionedTarget(t.view.value.cfg, t.req);
      if n.pc.WantToken? {
        EasyPoint(JobOf(n), n.pc, n.log);
      }
    }
    QuietGrows(t, e, n);
  }

  /** Nothing is claimed where the history does not matter. */
  lemma EasyPoint(j: Job, pc: Pc, log: seq<Event>)
    requires pc.WantToken? || pc.WantTokenRate? || (pc.Replying? && !pc.reply.Relayed?) || pc.Unwinding? || pc.Done?
    ensures AtPoint(j, pc, log)
  {
    hide Cleared, DecisionPasses, Relayable, LockedWrite, PreflightNeed, VerifyNeed, RestrictedPanelList;
  }

  lemma LockPoint(j: Job, pc: Pc, log: seq<Event>, mutex: nat, after: seq<Event>)
    requires (pc.WantMutex? || pc.WantLock?) && AtPoint(j, pc, log)
    ensures AtPoint(j, WantLock(mutex), after) && DecisionPasses(j) && LockedWrite(j.s.route) && WriteSafe(j.cfg)
  {
    hide Cleared, DecisionPasses, Relayable, LockedWrite, PreflightNeed, VerifyNeed, RestrictedPanelList;
  }

  lemma RelayPoint(j: Job, a: Answer, log: seq<Event>)
    requires AtPoint(j, Replying(Relayed(a)), log)
    ensures Relayable(j, log, a)
  {
    hide Cleared, DecisionPasses, Relayable, LockedWrite, PreflightNeed, VerifyNeed, RestrictedPanelList;
  }

  lemma PublicKeeps(t: Thread, e: Event)
    requires Inv(t) && (t.pc.WantIp? || t.pc.WantIpRate? || t.pc.PublicForward?) && PublicStep(t, e).Some?
    ensures Inv(PublicStep(t, e).UnwrapOr(t))
  {
    hide Panicked, HistoryOk, Responses, LockedNow, PagesRead, Cleared, DecisionPasses, Relayable, PublicRoute, LockedWrite,
      AtPoint, SessionFor;
    var n := PublicStep(t, e).UnwrapOr(t);
    LogStep(t.log, e);
    CalmStep(t, e, n);
    if e.ForwardPublic? {
      assert n.log[|t.log|] == e;
    }
    HistoryGrows(t, e, n);
  }

  lemma OAuthKeeps(t: Thread, e: Event)
    requires Inv(t) && OAuthStep(t, e).Some?
    ensures Inv(OAuthStep(t, e).UnwrapOr(t))
  {
    hide Panicked, HistoryOk, Responses, LockedNow, PagesRead, Cleared, DecisionPasses, Relayable, PublicRoute, LockedWrite,
      AtPoint, SessionFor;
    var n := OAuthStep(t, e).UnwrapOr(t);
    LogStep(t.log, e);
    CalmStep(t, e, n);
    QuietGrows(t, e, n);
  }

  lemma TokenKeeps(t: Thread, e: Event)
    requires Inv(t) && TokenStep(t, e).Some?
    ensures Inv(TokenStep(t, e).UnwrapOr(t))
  {
    hide Panicked, HistoryOk, Responses, LockedNow, PagesRead, Cleared, DecisionPasses, Relayable, PublicRoute, LockedWrite,
      SessionFor, Decided, BeginPreflight, AtPoint, WriteSafe;
    var n := TokenStep(t, e).UnwrapOr(t);
    LogStep(t.log, e);
    CalmStep(t, e, n);
    if t.pc.WantTokenRate? && e.admitted {
      DecidedKeeps(JobOf(t), n.log);
    } else if t.pc.WantMutex? {
      LockPoint(JobOf(t), t.pc, t.log, e.mutex, n.log);
    } else if t.pc.WantLock? {
      LockPoint(JobOf(t), t.pc, t.log, t.pc.wanted, n.log);
      BeginPreflightKeeps(JobOf(t), n.log);
    } else {
      EasyPoint(JobOf(t), n.pc, n.log);
    }
    QuietGrows(t, e, n);
  }

  lemma UpstreamKeeps(t: Thread, e: Event)
    requires Inv(t) && UpstreamStep(t, e).Some?
    ensures Inv(UpstreamStep(t, e).UnwrapOr(t))
  {
    hide Panicked, HistoryOk, Responses, LockedNow, PagesRead, AtPoint, Cleared, DecisionPasses, Relayable, PublicRoute,
      LockedWrite, SessionFor, Preflighted, Scanned, Answered, Verified;
    var n := UpstreamStep(t, e).UnwrapOr(t);
    var j := JobOf(t);
    LogStep(t.log, e);
    PanicStep(j, t.log, e);
    UpstreamCleared(j, t.pc, t.log);
    match t.pc {
      case Preflight(uuid) => PreflightedKeeps(j, uuid, t.log, e.answer);
      case ListScan(start, combined) => ScannedKeeps(j, start, combined, t.log, e.answer);
      case Forwarding => AnsweredKeeps(j, t.log, e.answer);
      case Verifying(uuid, a) => VerifiedKeeps(j, uuid, a, t.log, e.answer);
    }
    assert n.log[..|t.log|] == t.log;
    HistoryGrows(t, e, n);
  }

  lemma UpstreamCleared(j: Job, pc: Pc, log: seq<Event>)
    requires AtPoint(j, pc, log)
    ensures pc.Preflight? || pc.Verifying? ==> DecisionPasses(j)
    ensures pc.ListScan? || pc.Forwarding? ==> Cleared(j, log)
    ensures pc.ListScan? ==> pc.combined == PagesRead(log)
  {
    hide Cleared, DecisionPasses, Relayable, LockedWrite, PreflightNeed, VerifyNeed, RestrictedPanelList;
  }

  lemma ClosingKeeps(t: Thread, e: Event)
    requires Inv(t) && ClosingStep(t, e).Some?
    ensures Inv(ClosingStep(t, e).UnwrapOr(t))
  {
    hide Panicked, HistoryOk, Responses, LockedNow, PagesRead, Cleared, DecisionPasses, Relayable, PublicRoute, LockedWrite,
      SessionFor, AtPoint;
    var n := ClosingStep(t, e).UnwrapOr(t);
    LogStep(t.log, e);
    CalmStep(t, e, n);
    if t.session.Some? {
      EasyPoint(JobOf(n), n.pc, n.log);
      if t.pc.Replying? && t.pc.reply.Relayed? {
        RelayPoint(JobOf(t), t.pc.reply.answer, t.log);
      }
    }
    assert n.log[..|t.log|] == t.log;
    HistoryGrows(t, e, n);
  }

  /** Every step of a handler keeps the invariant, whatever its shared accesses and upstream calls return. */
  lemma AdvanceKeeps(t: Thread, e: Event)
    requires Inv(t) && Advance(t, e).Some?
    ensures Inv(Advance(t, e).UnwrapOr(t))
  {
    hide Inv, EntryStep, PublicStep, TokenStep, UpstreamStep, OAuthStep, ClosingStep;
    match t.pc
    case Start | WantGlobal | WantVersion => EntryKeeps(t, e);
    case WantIp | WantIpRate | PublicForward => PublicKeeps(t, e);
    case WantToken | WantTokenRate | WantMutex | WantLock(_) => TokenKeeps(t, e);
    case Preflight(_) | ListScan(_, _) | Forwarding | Verifying(_, _) => UpstreamKeeps(t, e);
    case OAuthDraw | OAuthLoad(_) | OAuthPut(_, _, _) | OAuthTake(_) | OAuthCheck(_, _) | OAuthExchange => OAuthKeeps(t, e);
    case Replying(_) | Unwinding => ClosingKeeps(t, e);
    case Done =>
  }
}
