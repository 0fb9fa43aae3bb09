/** The reply that is due to a request, from what happened while it was handled: every refusal has its
    own cause, and without one the request gets its answer. So it is known what may be forwarded. */
module Replies {
  import opened Prelude
  import opened Json
  import opened Config
  import opened Credentials
  import opened Routes
  import opened Remnawave
  import opened OwnerFacts
  import opened BodyPolicy
  import opened BodyFacts
  import opened ListFilter
  import opened PanelList
  import opened ResponsePolicy
  import opened Upstream
  import opened Requests
  import opened Handler
  import opened HandlerFacts
  import opened Pipeline
  import opened Panics

  // ================================================== what a request is aimed at

  /** The user that a policy-enforced request is about, as the path or the body names it. */
  function Subject(j: Job): Option<string> {
    if j.s.route.support != PolicyEnforced then None
    else if j.s.route.name == HwidList then Some(Segment(j.req, 3))
    else if j.s.route.name == UserUpdate then Some(BodyString(j.req.body.payload, "uuid"))
    else if j.s.route.name.UserAction? then Some(Segment(j.req, 2))
    else if j.s.route.name.HwidWrite? then Some(BodyString(j.req.body.payload, "userUuid"))
    else None
  }

  /** A policy-enforced request does not name what it is about, or names what is not on the token's list. */
  predicate Misses(j: Job, reason: Reason) {
    var c, second := j.s.tok.constraints, Segment(j.req, 2);
    || (Subject(j) == Some("") && reason == MissingUserUuid)
    || (Subject(j).Some? && Subject(j).value != "" && c.allowedUsers != [] && Subject(j).value !in c.allowedUsers && reason == UserDenied)
    || (NodeMissed(j, second) && reason == (if second == "" then MissingUuid else NodeDenied))
    || (SquadMissed(j, true, c.allowedInternalSquads, second) && reason == InternalSquadDenied)
    || (SquadMissed(j, false, c.allowedExternalSquads, second) && reason == ExternalSquadDenied)
  }

  predicate NodeMissed(j: Job, uuid: string) {
    j.s.route.support == PolicyEnforced && j.s.route.name.NodeAction? && !Permits(j.s.tok.constraints, Infra(Node), uuid)
  }

  predicate SquadMissed(j: Job, isInternal: bool, allowed: seq<string>, uuid: string) {
    j.s.route.support == PolicyEnforced && j.s.route.name == SquadRead(isInternal) && allowed != [] && uuid !in allowed
  }

  /** The request may be about what it is about. */
  ghost predicate OnTarget(j: Job) {
    forall reason :: !Misses(j, reason)
  }

  /** Exactly when preflight refuses, reads a user, or has nothing to do. */
  lemma NeedMeans(j: Job)
    ensures forall reason :: PreflightNeed(j) == Never(reason) <==> Misses(j, reason)
    ensures forall uuid :: PreflightNeed(j) == UserOf(uuid) <==> OnTarget(j) && Subject(j) == Some(uuid)
    ensures PreflightNeed(j) == Nothing <==> OnTarget(j) && Subject(j).None?
  {
    hide Permits, RuleFor, BodyString, Segment, Misses;
    NeverMeans(j);
    NothingMissed(j);
    if PreflightNeed(j).Never? {
      assert Misses(j, PreflightNeed(j).reason);
    }
  }

  lemma NothingMissed(j: Job)
    ensures PreflightNeed(j).UserOf? ==> Subject(j) == Some(PreflightNeed(j).uuid)
    ensures PreflightNeed(j).Nothing? ==> Subject(j).None?
  {
    hide Permits, RuleFor, BodyString, Segment, RequireAllowedUuid;
  }

  lemma NeverMeans(j: Job)
    ensures forall reason :: PreflightNeed(j) == Never(reason) <==> Misses(j, reason)
  {
    hide Permits, RuleFor, BodyString, Segment;
    PermitMeans(j.s.tok.constraints, Infra(Node), Segment(j.req, 2), NodeDenied);
    NothingPermitted(j.s.tok.constraints, Infra(Node));
  }

  /** What is verified after a write is the user it was about. */
  lemma VerifyMeans(j: Job)
    requires LockedWrite(j.s.route) && OnTarget(j)
    ensures VerifyNeed(j) == if Subject(j).Some? then UserOf(Subject(j).value) else Nothing
  {
    hide BodyString, Segment, Permits;
    if Subject(j).Some? {
      assert !Misses(j, MissingUserUuid) && !Misses(j, UserDenied);
    }
  }

  // ======================================================= the reply that is due

  // ------------------------------------------------------------- what happened

  /** The answers that a handler got on its way: from semaphores, guard and rate window, from the upstream
      before, in and after its call, from the last page of a list, and from the table of logins. */
  datatype Story = Story(
    global: Option<bool>, open: Option<bool>, ip: Option<bool>, token: Option<bool>, rate: Option<bool>,
    read: Option<Answer>, call: Option<Answer>, again: Option<Answer>, page: Option<Event>, publicCall: Option<Answer>,
    stored: Option<bool>, take: Option<Event>, running: Option<nat>, exchanged: Option<bool>)

  const UNTOLD := Story(None, None, None, None, None, None, None, None, None, None, None, None, None, None)

  function Told(story: Story, e: Event): Story {
    match e
    case Acquire(GlobalSlot(_), got) => story.(global := Some(got))
    case Acquire(IpSlot(_, _), got) => story.(ip := Some(got))
    case Acquire(TokenSlot(_, _), got) => story.(token := Some(got))
    case ReadVersion(open) => story.(open := Some(open))
    case RateCheck(admitted) => story.(rate := Some(admitted))
    case ReadUser(_, a) => if story.call.None? then story.(read := Some(a)) else story.(again := Some(a))
    case FetchPage(_, _) => story.(page := Some(e))
    case Forward(a) => story.(call := Some(a))
    case ForwardPublic(a) => story.(publicCall := Some(a))
    case PutAttempt(_, stored) => story.(stored := Some(stored))
    case TakeAttempt(_, _) => story.(take := Some(e))
    case LoadForCheck(gen) => story.(running := Some(gen))
    case Exchange(ok) => story.(exchanged := Some(ok))
    case _ => story
  }

  function StoryOf(log: seq<Event>): Story {
    if log == [] then UNTOLD else Told(StoryOf(log[..|log| - 1]), Last(log))
  }

  /** A request with the settings it runs under, what happened to it, and the users of the pages fetched for it. */
  datatype Case = Case(cfg: Settings, req: Request, story: Story, users: seq<Json>)

  // ----------------------------------------------------------- how far it came

  predicate Matched(x: Case) {
    x.story.global == Some(true) && x.req.rawFault.None? && x.req.matched.Some?
  }

  predicate OnAuthPath(x: Case) {
    Matched(x) && x.cfg.panelFacade && !x.req.auth.NoAuthPath?
  }

  predicate Guarded(x: Case) {
    Matched(x) && !OnAuthPath(x) && x.story.open == Some(true)
  }

  predicate WellAsked(x: Case) {
    Guarded(x) && x.req.queryFault.None? && x.req.body.size <= x.cfg.maxBodyBytes
  }

  predicate Public(x: Case) {
    WellAsked(x) && PublicRoute(x.cfg, x.req) && x.cfg.publicSubs
  }

  /** A public route without credentials while public subscriptions are off. */
  predicate Anonymous(x: Case) {
    WellAsked(x) && PublicRoute(x.cfg, x.req) && !x.cfg.publicSubs && x.req.presented.NoHeader?
  }

  predicate Personal(x: Case) {
    WellAsked(x) && !Public(x) && !Anonymous(x)
  }

  ghost predicate Known(x: Case, s: Session) {
    Personal(x) && SessionFor(x.cfg, x.req) == Some(s)
  }

  function JobFor(x: Case, s: Session): Job {
    Job(x.cfg, s, x.req)
  }

  ghost predicate Entered(x: Case, s: Session) {
    Known(x, s) && x.story.token == Some(true) && x.story.rate == Some(true)
  }

  /** The scope gate lets the token through, or unsafe report mode does without a panel session. */
  ghost predicate Permitted(x: Case, s: Session) {
    Decide(s.tok, s.route).Allow? || (x.cfg.reportEnabled && x.cfg.unsafeReportProxy && !s.panel)
  }

  /** The three pages that a panel session gets from the gateway itself. */
  ghost predicate OwnPage(x: Case, s: Session) {
    s.panel && x.req.verb == GET && x.req.path in {"/api/remnawave-settings", "/api/tokens", "/api/passkeys"}
  }

  ghost predicate Opened(x: Case, s: Session) {
    Entered(x, s) && Permitted(x, s) && !OwnPage(x, s) && (LockedWrite(s.route) ==> WriteSafe(x.cfg))
  }

  /** Why a read of a user does not show it as the token's. */
  function ReadRefusal(tok: TokenPolicy, a: Answer): Option<Reason> {
    if a.NoAnswer? then Some(PreflightFailed)
    else if !Success(a) then Some(PreflightDenied)
    else if a.body.None? || DecodeUser(a.body.value).None? then Some(UnparseableUserResponse)
    else if Owns(tok, DecodeUser(a.body.value).value) then None
    else Some(OwnsUser(tok, DecodeUser(a.body.value).value).reason)
  }

  /** The request is about something its token may touch; a user was read and is owned. */
  ghost predicate Aimed(x: Case, s: Session) {
    Opened(x, s) && OnTarget(JobFor(x, s)) &&
    (Subject(JobFor(x, s)).Some? ==> x.story.read.Some? && ReadRefusal(s.tok, x.story.read.value).None?)
  }

  ghost predicate Ready(x: Case, s: Session) {
    Aimed(x, s) && BodyOutcome(JobFor(x, s)).Pass?
  }

  /** The statuses of a policy denial: panel sessions get a panel-shaped one. */
  function Shaped(x: Case, s: Session, status: int): int {
    if !s.panel then status
    else if x.req.verb != GET then 422
    else if Ends(x.req.path, "/tags") || Ends(x.req.path, "/inbounds") || '{' !in s.route.pattern then 200
    else 404
  }

  /** What the response gates made of the answer to the call. */
  ghost predicate Gated(x: Case, s: Session, b: Answer) {
    x.story.call.Some? && x.story.call.value.Answer? &&
    GateResponse(s.route, s.tok, x.story.call.value, PageWanted(JobFor(x, s))) == Ok(b)
  }

  /** A locked user or device write that the upstream answered with success is verified. */
  ghost predicate Verifies(x: Case, s: Session, b: Answer) {
    LockedWrite(s.route) && Success(b) && (s.route.name == UserCreate || Subject(JobFor(x, s)).Some?)
  }

  /** Why the verification of a write fails: the created user is looked for in the answer, any other is read again. */
  function WriteRefusal(x: Case, s: Session, b: Answer): Option<Reason> {
    if s.route.name == UserCreate then
      if b.NoAnswer? || b.body.None? || DecodeUser(b.body.value).None? then Some(PostWriteUnverifiable)
      else if Owns(s.tok, DecodeUser(b.body.value).value) then None
      else Some(OwnsUser(s.tok, DecodeUser(b.body.value).value).reason)
    else if x.story.again.None? then None
    else ReadRefusal(s.tok, x.story.again.value)
  }

  // -------------------------------------------------------------- refusals due

  predicate EntryRefusal(x: Case, status: int, reason: Reason) {
    || (x.story.global == Some(false) && status == 429 && reason == RateLimited)
    || (x.story.global == Some(true) && x.req.rawFault == Some(reason) && status == 400)
    || (x.story.global == Some(true) && x.req.rawFault.None? && x.req.matched.None? && status == 404 && reason == UnknownRoute)
    || (Matched(x) && !OnAuthPath(x) && x.story.open == Some(false) && status == 503 && reason == VersionGuard)
    || (Guarded(x) && x.req.queryFault == Some(reason) && status == 400)
    || (Guarded(x) && x.req.queryFault.None? && x.req.body.size > x.cfg.maxBodyBytes && status == 413 && reason == BodyTooLarge)
    || (Anonymous(x) && status == 403 && reason == PublicSubscriptionsDisabled)
    || (Personal(x) && CredentialRefusal(x, status, reason))
  }

  /** Which credentials are refused, and how. */
  predicate CredentialRefusal(x: Case, status: int, reason: Reason) {
    match x.req.presented
    case NoHeader | NotBearer => status == 401 && reason == AuthRequired
    case BrokenGatewayToken => status == 401 && reason == if x.cfg.panelFacade then InvalidToken else AuthRequired
    case GatewayToken(id, digest) =>
      var found := FindCredential(x.cfg.tokens, id);
      (found.None? || found.value.1.digest != digest) && status == 401 && reason == InvalidToken
    case PanelToken(actor) =>
      || (!x.cfg.panelFacade && status == 401 && reason == AuthRequired)
      || (x.cfg.panelFacade && actor.None? && status == 401 && reason == InvalidToken)
      || (x.cfg.panelFacade && actor.Some? && status == 403 && reason == PanelAuthDenied &&
          (actor.value !in x.cfg.actors || FindCredential(x.cfg.tokens, x.cfg.actors[actor.value]).None?))
  }

  predicate PublicRefusal(x: Case, status: int, reason: Reason) {
    Public(x) &&
    (|| x.req.publicFault == Some((status, reason))
     || (x.req.publicFault.None? && x.story.ip == Some(false) && status == 429 && reason == PublicSubscriptionConcurrency)
     || (x.story.ip == Some(true) && x.story.rate == Some(false) && status == 429 && reason == PublicSubscriptionRateLimit)
     || (x.story.publicCall == Some(NoAnswer) && status == 502 && reason == UpstreamError))
  }

  /** The auth path is called in a way it does not answer. */
  predicate NotOffered(req: Request) {
    match req.auth
    case AuthStatus => req.verb != GET
    case AuthAuthorize(telegram) => req.verb != POST || !telegram
    case AuthCallback(wellFormed, _, _) => req.verb != POST || !wellFormed
    case _ => true
  }

  predicate LoginRefusal(x: Case, status: int, reason: Reason) {
    OnAuthPath(x) &&
    if x.req.verb == POST && x.req.body.size > x.cfg.maxBodyBytes then status == 413 && reason == BodyTooLarge
    else if NotOffered(x.req) then status == 403 && reason == PanelAuthUnsupported
    else
      || (x.req.auth.AuthCallback? && !x.req.auth.cookieMatches && status == 403 && reason == PanelAuthDenied)
      || (x.story.stored == Some(false) && status == 429 && reason == PanelAuthStateLimit)
      || (x.story.take.Some? && TakeFailed(x) && status == 403 && reason == PanelAuthDenied)
      || (x.story.exchanged == Some(false) && status == 401 && reason == PanelAuthDenied)
  }

  /** No login was taken, or one that has expired or was started under another generation than the one running. */
  predicate TakeFailed(x: Case)
    requires x.story.take.Some?
  {
    x.story.take.value.TakeAttempt? &&
    var taken := x.story.take.value.taken;
    taken.None? ||
    (x.story.running.Some? && (x.story.take.value.now > taken.value.expiresAt || taken.value.generation != x.story.running.value))
  }

  ghost predicate TokenRefusal(x: Case, s: Session, status: int, reason: Reason) {
    var j := JobFor(x, s);
    || (Known(x, s) && x.story.token == Some(false) && status == 429 && reason == TokenConcurrency)
    || (Known(x, s) && x.story.token == Some(true) && x.story.rate == Some(false) && status == 429 && reason == TokenRateLimit)
    || (Entered(x, s) && !Permitted(x, s) && Decide(s.tok, s.route) == Deny(reason) && status == Shaped(x, s, 403))
    || (Entered(x, s) && Permitted(x, s) && !OwnPage(x, s) && LockedWrite(s.route) && !WriteSafe(x.cfg) &&
        status == 403 && reason == WriteSafetyNotEnabled)
    || (Opened(x, s) && Misses(j, reason) && status == Shaped(x, s, 403))
    || (Opened(x, s) && OnTarget(j) && Subject(j).Some? && x.story.read.Some? &&
        ReadRefusal(s.tok, x.story.read.value) == Some(reason) && status == Shaped(x, s, 403))
    || (Aimed(x, s) && BodyOutcome(j) == Fail(reason) && status == Shaped(x, s, if reason == BodyTooLarge then 413 else 400))
  }

  /** What is wrong with the call: no answer, an answer that a gate refuses, or a write that does not stand. */
  ghost function CallFault(x: Case, s: Session): Option<(int, Reason)>
    requires x.story.call.Some?
  {
    var a := x.story.call.value;
    if a.NoAnswer? then Some((502, UpstreamUnavailable))
    else if EnforceResponse(s.route, s.tok, a).Err? then Some((Shaped(x, s, 403), EnforceResponse(s.route, s.tok, a).error))
    else
      match GateResponse(s.route, s.tok, a, PageWanted(JobFor(x, s)))
      case Err(reason) => Some((502, reason))
      case Ok(b) => if Verifies(x, s, b) && WriteRefusal(x, s, b).Some? then Some((403, WriteRefusal(x, s, b).value)) else None
  }

  ghost predicate CallRefusal(x: Case, s: Session, status: int, reason: Reason) {
    Ready(x, s) && !RestrictedPanelList(s) && x.story.call.Some? && CallFault(x, s) == Some((status, reason))
  }

  ghost predicate ListRefusal(x: Case, s: Session, status: int, reason: Reason) {
    Ready(x, s) && RestrictedPanelList(s) && x.story.page.Some? && x.story.page.value.FetchPage? &&
    var a := x.story.page.value.answer;
    status == 502 &&
    if a.NoAnswer? then reason == UpstreamUnavailable
    else Success(a) && (a.body.None? || DecodeListPage(a.body.value).None?) && reason == UnfilterableListResponse
  }

  // --------------------------------------------------------------- answers due

  /** The page of the owned users among those fetched; of all of them where policy is not enforced. */
  function PageShown(x: Case, s: Session): Answer {
    if s.route.support != PolicyEnforced then Answer(200, Some(UserListBody(x.users, |x.users|)))
    else
      var owned := KeepItems(x.users, OwnedItem(s.tok));
      Answer(200, Some(UserListBody(SlicePage(owned, PageWanted(JobFor(x, s))), |owned|)))
  }

  ghost predicate CallAnswer(x: Case, s: Session, b: Answer) {
    Ready(x, s) && !RestrictedPanelList(s) && Gated(x, s, b) &&
    (Verifies(x, s, b) ==> WriteRefusal(x, s, b).None? && (s.route.name == UserCreate || x.story.again.Some?))
  }

  ghost predicate ListAnswerDue(x: Case, s: Session, b: Answer) {
    Ready(x, s) && RestrictedPanelList(s) && x.story.page.Some? && x.story.page.value.FetchPage? &&
    (|| (x.story.page.value.answer == b && b.Answer? && !Success(b))
     || (EndsScan(x.story.page.value) && b == PageShown(x, s) &&
         !(s.route.support == PolicyEnforced && PageOutOfRange(JobFor(x, s), |KeepItems(x.users, OwnedItem(s.tok))|))))
  }

  /** What is due before, or without, credentials. */
  ghost predicate EarlyDue(x: Case, reply: Reply) {
    match reply
    case Refused(status, reason) =>
      EntryRefusal(x, status, reason) || PublicRefusal(x, status, reason) || LoginRefusal(x, status, reason)
    case Relayed(b) => Public(x) && x.story.publicCall == Some(b) && b.Answer?
    case Served(AuthStatusPage) => OnAuthPath(x) && x.req.auth == AuthStatus && x.req.verb == GET
    case Served(AuthorizationUrl) => OnAuthPath(x) && x.story.stored == Some(true)
    case Served(AccessToken) => OnAuthPath(x) && x.story.exchanged == Some(true)
    case Served(PanelSettings) => false
  }

  /** What is due in a session. */
  ghost predicate LateDue(x: Case, s: Session, reply: Reply) {
    match reply
    case Refused(status, reason) =>
      TokenRefusal(x, s, status, reason) || CallRefusal(x, s, status, reason) || ListRefusal(x, s, status, reason)
    case Relayed(b) => CallAnswer(x, s, b) || ListAnswerDue(x, s, b)
    case Served(what) => what == PanelSettings && Entered(x, s) && Permitted(x, s) && OwnPage(x, s)
  }

  /** Everything that may be due to a request. */
  ghost predicate Due(x: Case, reply: Reply) {
    EarlyDue(x, reply) || (SessionFor(x.cfg, x.req).Some? && LateDue(x, SessionFor(x.cfg, x.req).value, reply))
  }

  /** This reply is due, and no other. */
  ghost predicate OnlyDue(x: Case, reply: Reply) {
    forall other :: Due(x, other) <==> other == reply
  }

  // ----------------------------------------------- the points on the way, told

  const IN_GLOBAL := UNTOLD.(global := Some(true))
  const PAST_GUARD := IN_GLOBAL.(open := Some(true))
  const IN_TOKEN := PAST_GUARD.(token := Some(true))
  const LET_IN := IN_TOKEN.(rate := Some(true))

  /** A call of an auth path that it answers. */
  predicate Offered(x: Case) {
    OnAuthPath(x) && !NotOffered(x.req) && !(x.req.verb == POST && x.req.body.size > x.cfg.maxBodyBytes)
  }

  predicate GoodCallback(x: Case) {
    Offered(x) && x.req.auth.AuthCallback? && x.req.auth.cookieMatches
  }

  /** The scan goes on behind this page. */
  predicate GoesOn(e: Event) {
    e.FetchPage? && Success(e.answer) && e.answer.body.Some? && DecodeListPage(e.answer.body.value).Some? && !EndsScan(e)
  }

  ghost predicate EarlyPoint(x: Case, pc: Pc) {
    match pc
    case WantGlobal => x.story == UNTOLD
    case WantVersion => x.story == IN_GLOBAL && Matched(x) && !OnAuthPath(x)
    case WantIp => x.story == PAST_GUARD && Public(x) && x.req.publicFault.None?
    case WantIpRate => x.story == PAST_GUARD.(ip := Some(true)) && Public(x) && x.req.publicFault.None?
    case PublicForward => x.story == PAST_GUARD.(ip := Some(true), rate := Some(true)) && Public(x) && x.req.publicFault.None?
    case OAuthDraw | OAuthLoad(_) | OAuthPut(_, _, _) => x.story == IN_GLOBAL && Offered(x) && x.req.auth.AuthAuthorize?
    case OAuthTake(_) => x.story == IN_GLOBAL && GoodCallback(x)
    case OAuthCheck(attempt, now) => x.story == IN_GLOBAL.(take := Some(TakeAttempt(now, Some(attempt)))) && GoodCallback(x)
    case OAuthExchange =>
      x.story == IN_GLOBAL.(take := x.story.take, running := x.story.running) && GoodCallback(x) &&
      x.story.take.Some? && x.story.running.Some? && x.story.take.value.TakeAttempt? && !TakeFailed(x)
    case _ => true
  }

  ghost predicate LatePoint(x: Case, s: Session, pc: Pc) {
    match pc
    case WantToken => x.story == PAST_GUARD && Known(x, s)
    case WantTokenRate => x.story == IN_TOKEN && Known(x, s)
    case WantMutex | WantLock(_) => x.story == LET_IN && Opened(x, s) && LockedWrite(s.route)
    case Preflight(uuid) => x.story == LET_IN && Opened(x, s) && OnTarget(JobFor(x, s)) && Subject(JobFor(x, s)) == Some(uuid)
    case ListScan(_, combined) =>
      x.story == LET_IN.(read := x.story.read, page := x.story.page) && Ready(x, s) && RestrictedPanelList(s) &&
      combined == x.users && (x.story.page.Some? ==> GoesOn(x.story.page.value))
    case Forwarding => x.story == LET_IN.(read := x.story.read) && Ready(x, s) && !RestrictedPanelList(s)
    case Verifying(uuid, b) =>
      x.story == LET_IN.(read := x.story.read, call := x.story.call) && Ready(x, s) && !RestrictedPanelList(s) &&
      Gated(x, s, b) && Verifies(x, s, b) && s.route.name != UserCreate && Subject(JobFor(x, s)) == Some(uuid)
    case _ => true
  }

  function CaseOf(t: Thread): Case
    requires t.view.Some?
  {
    Case(t.view.value.cfg, t.req, StoryOf(t.log), PagesRead(t.log))
  }

  ghost predicate Placed(x: Case, session: Option<Session>, pc: Pc) {
    EarlyPoint(x, pc) && (session.Some? ==> LatePoint(x, session.value, pc)) && (pc.Replying? ==> OnlyDue(x, pc.reply))
  }

  /** The handler is where its history leads, and what it is about to write, or has written, is what is due. */
  ghost predicate OnTrack(t: Thread) {
    t.view.Some? ==>
      var x := CaseOf(t);
      Placed(x, t.session, t.pc) && forall i | 0 <= i < |t.log| && t.log[i].Respond? :: OnlyDue(x, t.log[i].reply)
  }

  // --------------------------------------------------------- what is due where

  /** In a session nothing early is due any more. */
  lemma NothingEarly(x: Case, s: Session)
    requires Known(x, s)
    ensures forall reply :: !EarlyDue(x, reply)
  {
    hide EffectiveRoute, SessionRoute;
  }

  /** Without credentials that resolve nothing late is due. */
  lemma NothingLate(x: Case)
    requires !Personal(x)
    ensures forall s, reply :: !LateDue(x, s, reply)
  {
    hide EffectiveRoute, SessionRoute, SessionFor, Misses, OnTarget, Subject, Decide, OwnPage, BodyOutcome, GateResponse, EnforceResponse,
      Gated, Verifies, WriteRefusal, ReadRefusal, PageShown, Shaped, LockedWrite, PageOutOfRange, EndsScan;
  }

  /** In a session this reply is due, and no other. */
  ghost predicate LateOnly(x: Case, s: Session, reply: Reply) {
    forall other :: LateDue(x, s, other) <==> other == reply
  }

  lemma OnlyLate(x: Case, s: Session, reply: Reply)
    requires Known(x, s) && LateOnly(x, s, reply)
    ensures OnlyDue(x, reply)
  {
    hide EarlyDue, LateDue, Personal, SessionFor;
    NothingEarly(x, s);
  }

  ghost predicate EarlyOnly(x: Case, reply: Reply) {
    forall other :: EarlyDue(x, other) <==> other == reply
  }

  lemma OnlyEarly(x: Case, reply: Reply)
    requires EarlyOnly(x, reply) && (!Personal(x) || SessionFor(x.cfg, x.req).None?)
    ensures OnlyDue(x, reply)
  {
    hide EarlyDue, LateDue, Personal, SessionFor;
    if !Personal(x) {
      NothingLate(x);
    }
  }

  lemma TokenFull(x: Case, s: Session)
    requires Known(x, s) && x.story == PAST_GUARD.(token := Some(false))
    ensures LateOnly(x, s, Refused(429, TokenConcurrency))
  {
    hide Known, Permitted, OwnPage, Misses, OnTarget, Subject, ReadRefusal, BodyOutcome, Shaped, Gated, Verifies, WriteRefusal,
      PageShown, EnforceResponse, GateResponse, LockedWrite, EndsScan, PageOutOfRange, RestrictedPanelList, DecodeListPage;
  }

  lemma RateFull(x: Case, s: Session)
    requires Known(x, s) && x.story == IN_TOKEN.(rate := Some(false))
    ensures LateOnly(x, s, Refused(429, TokenRateLimit))
  {
    hide Known, Permitted, OwnPage, Misses, OnTarget, Subject, ReadRefusal, BodyOutcome, Shaped, Gated, Verifies, WriteRefusal,
      PageShown, EnforceResponse, GateResponse, LockedWrite, EndsScan, PageOutOfRange, RestrictedPanelList, DecodeListPage;
  }

  lemma NotPermitted(x: Case, s: Session, reason: Reason)
    requires Known(x, s) && x.story == LET_IN && !Permitted(x, s) && Decide(s.tok, s.route) == Deny(reason)
    ensures LateOnly(x, s, Refused(Shaped(x, s, 403), reason))
  {
    hide Known, Permitted, OwnPage, Misses, OnTarget, Subject, ReadRefusal, BodyOutcome, Shaped, Gated, Verifies, WriteRefusal,
      PageShown, EnforceResponse, GateResponse, LockedWrite, EndsScan, PageOutOfRange, RestrictedPanelList, DecodeListPage, Decide;
  }

  lemma OwnPageDue(x: Case, s: Session)
    requires Known(x, s) && x.story == LET_IN && Permitted(x, s) && OwnPage(x, s)
    ensures LateOnly(x, s, Served(PanelSettings))
  {
    hide Known, Permitted, OwnPage, Misses, OnTarget, Subject, ReadRefusal, BodyOutcome, Shaped, Gated, Verifies, WriteRefusal,
      PageShown, EnforceResponse, GateResponse, LockedWrite, EndsScan, PageOutOfRange, RestrictedPanelList, DecodeListPage, Decide;
  }

  lemma NotSafe(x: Case, s: Session)
    requires Known(x, s) && x.story == LET_IN && Permitted(x, s) && !OwnPage(x, s) && LockedWrite(s.route) && !WriteSafe(x.cfg)
    ensures LateOnly(x, s, Refused(403, WriteSafetyNotEnabled))
  {
    hide Known, Permitted, OwnPage, Misses, OnTarget, Subject, ReadRefusal, BodyOutcome, Shaped, Gated, Verifies, WriteRefusal,
      PageShown, EnforceResponse, GateResponse, LockedWrite, EndsScan, PageOutOfRange, RestrictedPanelList, DecodeListPage, Decide, WriteSafe;
  }

  lemma OffTarget(x: Case, s: Session, reason: Reason)
    requires Opened(x, s) && x.story == LET_IN && Misses(JobFor(x, s), reason)
    ensures LateOnly(x, s, Refused(Shaped(x, s, 403), reason))
  {
    NeedMeans(JobFor(x, s));
    hide Known, Permitted, OwnPage, Misses, Subject, ReadRefusal, BodyOutcome, Shaped, Gated, Verifies, WriteRefusal, PreflightNeed,
      PageShown, EnforceResponse, GateResponse, LockedWrite, EndsScan, PageOutOfRange, RestrictedPanelList, DecodeListPage, Decide, WriteSafe;
  }

  lemma NotOwned(x: Case, s: Session, a: Answer, reason: Reason)
    requires Opened(x, s) && OnTarget(JobFor(x, s)) && Subject(JobFor(x, s)).Some?
    requires x.story == LET_IN.(read := Some(a)) && ReadRefusal(s.tok, a) == Some(reason)
    ensures LateOnly(x, s, Refused(Shaped(x, s, 403), reason))
  {
    hide Known, Permitted, OwnPage, Misses, Subject, ReadRefusal, BodyOutcome, Shaped, Gated, Verifies, WriteRefusal,
      PageShown, EnforceResponse, GateResponse, LockedWrite, EndsScan, PageOutOfRange, RestrictedPanelList, DecodeListPage, Decide, WriteSafe;
  }

  lemma BadBody(x: Case, s: Session, reason: Reason)
    requires Aimed(x, s) && x.story == LET_IN.(read := x.story.read) && BodyOutcome(JobFor(x, s)) == Fail(reason)
    ensures LateOnly(x, s, Refused(Shaped(x, s, if reason == BodyTooLarge then 413 else 400), reason))
  {
    hide Known, Permitted, OwnPage, Misses, Subject, ReadRefusal, BodyOutcome, Shaped, Gated, Verifies, WriteRefusal,
      PageShown, EnforceResponse, GateResponse, LockedWrite, EndsScan, PageOutOfRange, RestrictedPanelList, DecodeListPage, Decide, WriteSafe;
  }

  /** Behind everything before the call, only the call or the list decides. */
  lemma TokenSettled(x: Case, s: Session)
    requires Ready(x, s)
    ensures forall status, reason :: !TokenRefusal(x, s, status, reason)
    ensures !OwnPage(x, s)
  {
    hide Known, Permitted, OwnPage, Misses, Subject, ReadRefusal, BodyOutcome, Shaped, LockedWrite, Decide, WriteSafe;
  }

  lemma CallRefused(x: Case, s: Session, status: int, reason: Reason)
    requires Ready(x, s) && !RestrictedPanelList(s) && x.story.call.Some? && x.story.page.None?
    requires CallRefusal(x, s, status, reason)
    ensures LateOnly(x, s, Refused(status, reason))
  {
    TokenSettled(x, s);
    hide *;
    forall other: (int, Reason)
      ensures CallRefusal(x, s, other.0, other.1) <==> other == (status, reason)
    {
      if CallRefusal(x, s, other.0, other.1) {
        OneCallRefusal(x, s, status, reason, other.0, other.1);
      }
    }
    RefusedNotAnswered(x, s, status, reason);
    NoListBeside(x, s);
    OnlyRefusal(x, s, status, reason);
  }

  /** A call is refused for one reason. */
  lemma OneCallRefusal(x: Case, s: Session, status: int, reason: Reason, otherStatus: int, other: Reason)
    requires CallRefusal(x, s, status, reason) && CallRefusal(x, s, otherStatus, other)
    ensures status == otherStatus && reason == other
  {
    hide CallFault, Ready, RestrictedPanelList;
  }

  lemma RefusedNotAnswered(x: Case, s: Session, status: int, reason: Reason)
    requires CallRefusal(x, s, status, reason)
    ensures forall b :: !CallAnswer(x, s, b)
  {
    hide Ready, Shaped, EnforceResponse, GateResponse, RestrictedPanelList, WriteRefusal, Verifies, PageWanted;
    forall b | CallAnswer(x, s, b)
      ensures false
    {
      GatePassed(x, s, b);
    }
  }

  lemma NoListBeside(x: Case, s: Session)
    requires !RestrictedPanelList(s)
    ensures forall status, reason :: !ListRefusal(x, s, status, reason)
    ensures forall b :: !ListAnswerDue(x, s, b)
  {
    hide Ready, RestrictedPanelList, PageShown, PageOutOfRange, DecodeListPage;
  }

  lemma OnlyRefusal(x: Case, s: Session, status: int, reason: Reason)
    requires forall other: (int, Reason) :: CallRefusal(x, s, other.0, other.1) <==> other == (status, reason)
    requires forall b :: !CallAnswer(x, s, b)
    requires forall status, reason :: !ListRefusal(x, s, status, reason)
    requires forall b :: !ListAnswerDue(x, s, b)
    requires !OwnPage(x, s) && forall status, reason :: !TokenRefusal(x, s, status, reason)
    ensures LateOnly(x, s, Refused(status, reason))
  {
    hide CallRefusal, CallAnswer, ListRefusal, ListAnswerDue, TokenRefusal, OwnPage, Entered, Permitted;
    forall other
      ensures LateDue(x, s, other) <==> other == Refused(status, reason)
    {
      if other.Refused? {
        assert CallRefusal(x, s, (other.status, other.reason).0, (other.status, other.reason).1) <==>
               (other.status, other.reason) == (status, reason);
      }
    }
  }

  lemma CallRelayed(x: Case, s: Session, b: Answer)
    requires CallAnswer(x, s, b) && x.story.page.None?
    ensures LateOnly(x, s, Relayed(b))
  {
    TokenSettled(x, s);
    hide Ready, TokenRefusal, OwnPage, Shaped, EnforceResponse, GateResponse, RestrictedPanelList, ReadRefusal, PageWanted;
    GatePassed(x, s, b);
  }

  /** An answer that passes both gates passes the first. */
  lemma GatePassed(x: Case, s: Session, b: Answer)
    requires Gated(x, s, b)
    ensures EnforceResponse(s.route, s.tok, x.story.call.value).Ok?
  {
    hide EnforceResponse, FilterResponse;
  }

  lemma ListRefused(x: Case, s: Session, status: int, reason: Reason)
    requires ListRefusal(x, s, status, reason) && x.story.call.None?
    ensures LateOnly(x, s, Refused(status, reason))
  {
    TokenSettled(x, s);
    hide Ready, TokenRefusal, OwnPage, Shaped, EnforceResponse, GateResponse, RestrictedPanelList, ReadRefusal, PageWanted, DecodeListPage,
      PageShown, PageOutOfRange;
  }

  lemma ListRelayed(x: Case, s: Session, b: Answer)
    requires ListAnswerDue(x, s, b) && x.story.call.None?
    ensures LateOnly(x, s, Relayed(b))
  {
    TokenSettled(x, s);
    hide Ready, TokenRefusal, OwnPage, Shaped, EnforceResponse, GateResponse, RestrictedPanelList, ReadRefusal, PageWanted, DecodeListPage,
      PageShown, PageOutOfRange;
  }

  // ------------------------------------------------------- the machine's points

  /** The point fits the story, and a reply given there is the one that is due. */
  ghost predicate LateFit(x: Case, s: Session, pc: Pc) {
    LatePoint(x, s, pc) && (pc.Replying? ==> LateOnly(x, s, pc.reply))
  }

  lemma CheckIsRefusal(tok: TokenPolicy, a: Answer)
    ensures UserCheck(tok, a) == if ReadRefusal(tok, a).None? then Pass else Fail(ReadRefusal(tok, a).value)
  {
    hide OwnsUser, DecodeUser;
  }

  lemma SameWords(x: Case, s: Session)
    ensures DecisionPasses(JobFor(x, s)) <==> Permitted(x, s)
    ensures PanelReadFacade(JobFor(x, s)) <==> OwnPage(x, s)
    ensures forall status :: DenyStatus(JobFor(x, s), status) == Shaped(x, s, status)
  {
    hide Decide;
    SuffixMeans(x.req.path, "/tags");
    SuffixMeans(x.req.path, "/inbounds");
  }

  lemma BodyFit(x: Case, s: Session)
    requires Aimed(x, s) && x.story == LET_IN.(read := x.story.read) && x.users == []
    ensures LateFit(x, s, CheckBody(JobFor(x, s)))
  {
    SameWords(x, s);
    hide LateOnly, Aimed, BodyOutcome, RestrictedPanelList, DenyStatus, Shaped, EndsScan, GoesOn;
    if BodyOutcome(JobFor(x, s)).Fail? {
      BadBody(x, s, BodyOutcome(JobFor(x, s)).reason);
    }
  }

  lemma PreflightFit(x: Case, s: Session)
    requires Opened(x, s) && x.story == LET_IN && x.users == []
    ensures LateFit(x, s, BeginPreflight(JobFor(x, s)))
  {
    var j := JobFor(x, s);
    SameWords(x, s);
    NeedMeans(j);
    hide LateOnly, Opened, CheckBody, PreflightNeed, DenyStatus, Shaped, LatePoint, Misses, OnTarget, Subject, ReadRefusal;
    match PreflightNeed(j)
    case Nothing => BodyFit(x, s);
    case UserOf(uuid) => PreflightPoint(x, s, uuid);
    case Never(reason) => OffTarget(x, s, reason); RefusalPoint(x, s, Shaped(x, s, 403), reason);
  }

  lemma PreflightPoint(x: Case, s: Session, uuid: string)
    requires Opened(x, s) && x.story == LET_IN && OnTarget(JobFor(x, s)) && Subject(JobFor(x, s)) == Some(uuid)
    ensures LatePoint(x, s, Pc.Preflight(uuid))
  {
    hide Opened, OnTarget, Subject;
  }

  lemma RefusalPoint(x: Case, s: Session, status: int, reason: Reason)
    ensures LatePoint(x, s, Replying(Refused(status, reason)))
  {
    hide Ready, Opened, Known, OnTarget, Subject, Gated, Verifies, GoesOn;
  }

  lemma DecidedFit(x: Case, s: Session)
    requires Known(x, s) && x.story == LET_IN && x.users == []
    ensures LateFit(x, s, Decided(JobFor(x, s)))
  {
    var j := JobFor(x, s);
    SameWords(x, s);
    hide LateOnly, CheckBody, BeginPreflight, DenyStatus, Shaped, DecisionPasses, PanelReadFacade, Permitted, OwnPage, LockedWrite,
      WriteSafe, Decide, Subject, OnTarget, Gated, Verifies, GoesOn;
    if !DecisionPasses(j) {
      NotDecided(x, s);
      NotPermitted(x, s, Decide(s.tok, s.route).reason);
    } else if PanelReadFacade(j) {
      OwnPageDue(x, s);
    } else if LockedWrite(s.route) && !WriteSafe(x.cfg) {
      NotSafe(x, s);
    } else if !LockedWrite(s.route) {
      PreflightFit(x, s);
    }
  }

  lemma NotDecided(x: Case, s: Session)
    requires !Permitted(x, s)
    ensures Decide(s.tok, s.route).Deny?
  {
    hide Decide;
  }

  /** Behind the read of a user before a call. */
  lemma ReadFit(x: Case, s: Session, a: Answer)
    requires Opened(x, s) && OnTarget(JobFor(x, s)) && Subject(JobFor(x, s)).Some?
    requires x.story == LET_IN.(read := Some(a)) && x.users == []
    ensures LateFit(x, s, Preflighted(JobFor(x, s), a))
  {
    SameWords(x, s);
    CheckIsRefusal(s.tok, a);
    hide LateOnly, Opened, CheckBody, UserCheck, DenyStatus, Shaped, LatePoint, Misses, OnTarget, Subject, ReadRefusal;
    if ReadRefusal(s.tok, a).None? {
      BodyFit(x, s);
    } else {
      NotOwned(x, s, a, ReadRefusal(s.tok, a).value);
      RefusalPoint(x, s, Shaped(x, s, 403), ReadRefusal(s.tok, a).value);
    }
  }

  lemma RelayPoint(x: Case, s: Session, b: Answer)
    ensures LatePoint(x, s, Replying(Relayed(b)))
  {
    hide Ready, Opened, Known, OnTarget, Subject, Gated, Verifies, GoesOn;
  }

  /** With the gated answer in hand: it is relayed, or a write is verified first. */
  lemma VerifyFit(x: Case, s: Session, b: Answer)
    requires Ready(x, s) && !RestrictedPanelList(s) && Gated(x, s, b)
    requires x.story == LET_IN.(read := x.story.read, call := x.story.call)
    ensures LateFit(x, s, VerifyWrite(JobFor(x, s), b))
  {
    var j := JobFor(x, s);
    if LockedWrite(s.route) {
      ReadyOnTarget(x, s);
      VerifyMeans(j);
    }
    if s.route.name == UserCreate {
      CreatedMeans(x, s, b);
    }
    hide LateOnly, Ready, RestrictedPanelList, Subject, VerifyNeed, CreatedCheck, LockedWrite, Gated, ReadRefusal, LatePoint, Success,
      WriteRefusal;
    RelayPoint(x, s, b);
    if !Verifies(x, s, b) {
      CallRelayed(x, s, b);
    } else if s.route.name == UserCreate {
      if WriteRefusal(x, s, b).None? {
        CallRelayed(x, s, b);
      } else {
        var reason := WriteRefusal(x, s, b).value;
        RefusalPoint(x, s, 403, reason);
        WriteRefused(x, s, b, reason);
      }
    } else {
      VerifyingPoint(x, s, b);
    }
  }

  lemma ReadyOnTarget(x: Case, s: Session)
    requires Ready(x, s)
    ensures OnTarget(JobFor(x, s))
  {
    hide Opened, OnTarget, Subject, BodyOutcome, ReadRefusal;
  }

  lemma VerifyingPoint(x: Case, s: Session, b: Answer)
    requires Ready(x, s) && !RestrictedPanelList(s) && Gated(x, s, b) && Verifies(x, s, b) && s.route.name != UserCreate
    requires x.story == LET_IN.(read := x.story.read, call := x.story.call)
    ensures LatePoint(x, s, Pc.Verifying(Subject(JobFor(x, s)).value, b))
  {
    hide Ready, RestrictedPanelList, Subject, Gated, LockedWrite;
  }

  lemma CreatedMeans(x: Case, s: Session, b: Answer)
    requires s.route.name == UserCreate
    ensures CreatedCheck(s.tok, b) == if WriteRefusal(x, s, b).None? then Pass else Fail(WriteRefusal(x, s, b).value)
  {
    hide OwnsUser, DecodeUser, ReadRefusal;
  }

  lemma WriteRefused(x: Case, s: Session, b: Answer, reason: Reason)
    requires Ready(x, s) && !RestrictedPanelList(s) && Gated(x, s, b) && Verifies(x, s, b) && WriteRefusal(x, s, b) == Some(reason)
    requires x.story.page.None?
    ensures LateOnly(x, s, Refused(403, reason))
  {
    GatePassed(x, s, b);
    assert CallRefusal(x, s, 403, reason) by {
      hide Ready, RestrictedPanelList, EnforceResponse, GateResponse, WriteRefusal, Verifies, Shaped;
    }
    hide Ready, RestrictedPanelList, Gated, Verifies, WriteRefusal, CallRefusal, LateOnly;
    GatedCalled(x, s, b);
    CallRefused(x, s, 403, reason);
  }

  lemma GatedCalled(x: Case, s: Session, b: Answer)
    requires Gated(x, s, b)
    ensures x.story.call.Some?
  {
    hide GateResponse;
  }

  /** Behind the call. */
  lemma CallFit(x: Case, s: Session, a: Answer)
    requires Ready(x, s) && !RestrictedPanelList(s)
    requires x.story == LET_IN.(read := x.story.read, call := Some(a))
    ensures LateFit(x, s, Answered(JobFor(x, s), a))
  {
    var j := JobFor(x, s);
    SameWords(x, s);
    CallNeverPanics(j, a);
    hide LateOnly, Ready, RestrictedPanelList, EnforceResponse, FilterResponse, ResponseFaults, VerifyWrite, Shaped, DenyStatus, LatePoint,
      PageWanted, Verifies, WriteRefusal;
    if a.NoAnswer? {
      RefusalPoint(x, s, 502, UpstreamUnavailable);
      CallRefused(x, s, 502, UpstreamUnavailable);
    } else if EnforceResponse(s.route, s.tok, a).Err? {
      var reason := EnforceResponse(s.route, s.tok, a).error;
      RefusalPoint(x, s, Shaped(x, s, 403), reason);
      CallRefused(x, s, Shaped(x, s, 403), reason);
    } else if GateResponse(s.route, s.tok, a, PageWanted(j)).Err? {
      var reason := GateResponse(s.route, s.tok, a, PageWanted(j)).error;
      RefusalPoint(x, s, 502, reason);
      CallRefused(x, s, 502, reason);
    } else {
      VerifyFit(x, s, GateResponse(s.route, s.tok, a, PageWanted(j)).value);
    }
  }

  /** Behind the read that verifies a write. */
  lemma AgainFit(x: Case, s: Session, b: Answer, read: Answer)
    requires Ready(x, s) && !RestrictedPanelList(s) && Gated(x, s, b) && Verifies(x, s, b) && s.route.name != UserCreate
    requires x.story == LET_IN.(read := x.story.read, call := x.story.call, again := Some(read))
    ensures LateFit(x, s, Verified(JobFor(x, s), read, b))
  {
    CheckIsRefusal(s.tok, read);
    hide LateOnly, Ready, RestrictedPanelList, Gated, Verifies, UserCheck, ReadRefusal, LatePoint;
    if ReadRefusal(s.tok, read).None? {
      RelayPoint(x, s, b);
      CallRelayed(x, s, b);
    } else {
      RefusalPoint(x, s, 403, ReadRefusal(s.tok, read).value);
      WriteRefused(x, s, b, ReadRefusal(s.tok, read).value);
    }
  }

  /** Behind a page of the list. */
  lemma PageFit(x: Case, s: Session, start: nat, combined: seq<Json>, a: Answer)
    requires Ready(x, s) && RestrictedPanelList(s)
    requires x.story == LET_IN.(read := x.story.read, page := Some(FetchPage(start, a)))
    requires x.users == combined + PageUsers(FetchPage(start, a))
    ensures LateFit(x, s, Scanned(JobFor(x, s), start, combined, a))
  {
    var j, e := JobFor(x, s), FetchPage(start, a);
    ScanMeans(j, start, combined, a);
    PagePanics(j, start, combined, a);
    hide LateOnly, Ready, RestrictedPanelList, DecodeListPage, LatePoint, Scanned, PageUsers, ListDone, PageShown, PageOutOfRange, EndsScan,
      GoesOn, OwnedItem, KeepItems;
    if a.NoAnswer? {
      RefusalPoint(x, s, 502, UpstreamUnavailable);
      ListRefused(x, s, 502, UpstreamUnavailable);
    } else if !Success(a) {
      RelayPoint(x, s, a);
      ListRelayed(x, s, a);
    } else if a.body.None? || DecodeListPage(a.body.value).None? {
      RefusalPoint(x, s, 502, UnfilterableListResponse);
      ListRefused(x, s, 502, UnfilterableListResponse);
    } else if EndsScan(e) {
      if Scanned(j, start, combined, a) != Unwinding {
        ListIsShown(x, s, x.users);
        RelayPoint(x, s, PageShown(x, s));
        ListRelayed(x, s, PageShown(x, s));
      } else {
        UnwindingPoint(x, s);
      }
    } else {
      ScanPoint(x, s, start + UPSTREAM_PAGE, e);
    }
  }

  lemma UnwindingPoint(x: Case, s: Session)
    ensures LatePoint(x, s, Unwinding)
  {
    hide Ready, Opened, Known, OnTarget, Subject, Gated, Verifies, GoesOn;
  }

  lemma ScanPoint(x: Case, s: Session, start: nat, e: Event)
    requires Ready(x, s) && RestrictedPanelList(s) && x.story == LET_IN.(read := x.story.read, page := Some(e)) && GoesOn(e)
    ensures LatePoint(x, s, ListScan(start, x.users))
  {
    hide Ready, RestrictedPanelList, GoesOn;
  }

  lemma ScanMeans(j: Job, start: nat, combined: seq<Json>, a: Answer)
    ensures var pc, e := Scanned(j, start, combined, a), FetchPage(start, a);
      && (a.NoAnswer? ==> pc == Refuse(502, UpstreamUnavailable))
      && (a.Answer? && !Success(a) ==> pc == Replying(Relayed(a)))
      && (Success(a) && (a.body.None? || DecodeListPage(a.body.value).None?) ==> pc == Refuse(502, UnfilterableListResponse))
      && (EndsScan(e) ==> pc == ListDone(j, combined + PageUsers(e)))
      && (GoesOn(e) ==> pc == ListScan(start + UPSTREAM_PAGE, combined + PageUsers(e)))
      && (Success(a) && a.body.Some? && DecodeListPage(a.body.value).Some? ==> EndsScan(e) || GoesOn(e))
  {
    hide DecodeListPage, ListDone;
  }

  /** What the list comes to where its page can be cut out. */
  lemma ListIsShown(x: Case, s: Session, users: seq<Json>)
    requires RestrictedPanelList(s) && x.users == users && ListDone(JobFor(x, s), users) != Unwinding
    ensures ListDone(JobFor(x, s), users) == Replying(Relayed(PageShown(x, s)))
  {
    hide PageWanted, UserListBody, KeepItems, SlicePage, ListPanics, FilterList;
    if s.route.support == PolicyEnforced {
      OwnListBody(JobFor(x, s), users);
    }
  }

  // ------------------------------------------------------ before credentials

  /** The point fits the story, and a reply given there is the one that is due. */
  ghost predicate EarlyFit(x: Case, pc: Pc) {
    EarlyPoint(x, pc) && (pc.Replying? ==> OnlyDue(x, pc.reply))
  }

  lemma GlobalFull(x: Case)
    requires x.story == UNTOLD.(global := Some(false))
    ensures OnlyDue(x, Refused(429, RateLimited))
  {
    hide EffectiveRoute, SessionFor, PublicRoute, OnlyDue, CredentialRefusal;
    OnlyEarly(x, Refused(429, RateLimited));
  }

  lemma AdmittedFit(x: Case)
    requires x.story == IN_GLOBAL
    ensures EarlyFit(x, Handler.Admitted(x.cfg, x.req))
  {
    hide EffectiveRoute, SessionFor, PublicRoute, OnlyDue, CredentialRefusal;
    var pc := Handler.Admitted(x.cfg, x.req);
    if pc.Replying? {
      OnlyEarly(x, pc.reply);
    }
  }

  lemma GuardClosed(x: Case)
    requires x.story == IN_GLOBAL.(open := Some(false)) && Matched(x) && !OnAuthPath(x)
    ensures OnlyDue(x, Refused(503, VersionGuard))
  {
    hide EffectiveRoute, SessionFor, PublicRoute, OnlyDue, CredentialRefusal;
    OnlyEarly(x, Refused(503, VersionGuard));
  }

  /** With the guard open: a reply, the public part, or a session. */
  lemma VersionedFit(x: Case)
    requires x.story == PAST_GUARD && Matched(x) && !OnAuthPath(x)
    ensures var pc := Versioned(x.cfg, x.req);
      EarlyFit(x, pc) && (pc.WantToken? ==> SessionFor(x.cfg, x.req).Some? && LatePoint(x, SessionFor(x.cfg, x.req).value, pc))
    ensures var pc := Versioned(x.cfg, x.req); pc.Replying? || pc.WantIp? || pc.WantToken?
  {
    hide EffectiveRoute, SessionRoute, PublicRoute, OnlyDue, Resolve;
    CredentialsMean(x);
    var pc := Versioned(x.cfg, x.req);
    if pc.Replying? {
      OnlyEarly(x, pc.reply);
    }
  }

  lemma CredentialsMean(x: Case)
    ensures forall status, reason ::
      Resolve(x.cfg, x.req.presented) == Denied(status, reason) <==> CredentialRefusal(x, status, reason)
  {
    hide FindCredential;
  }

  lemma PublicFit(x: Case, reply: Reply)
    requires Public(x) && x.req.publicFault.None?
    requires
      || (x.story == PAST_GUARD.(ip := Some(false)) && reply == Refused(429, PublicSubscriptionConcurrency))
      || (x.story == PAST_GUARD.(ip := Some(true), rate := Some(false)) && reply == Refused(429, PublicSubscriptionRateLimit))
      || (x.story == PAST_GUARD.(ip := Some(true), rate := Some(true), publicCall := Some(NoAnswer)) && reply == Refused(502, UpstreamError))
      || (reply.Relayed? && reply.answer.Answer? &&
          x.story == PAST_GUARD.(ip := Some(true), rate := Some(true), publicCall := Some(reply.answer)))
    ensures OnlyDue(x, reply)
  {
    hide EffectiveRoute, SessionFor, PublicRoute, OnlyDue, CredentialRefusal;
    OnlyEarly(x, reply);
  }

  lemma LoginFit(x: Case, reply: Reply)
    requires Offered(x)
    requires
      || (x.req.auth.AuthAuthorize? && x.story == IN_GLOBAL.(stored := Some(true)) && reply == Served(AuthorizationUrl))
      || (x.req.auth.AuthAuthorize? && x.story == IN_GLOBAL.(stored := Some(false)) && reply == Refused(429, PanelAuthStateLimit))
    ensures OnlyDue(x, reply)
  {
    hide EffectiveRoute, SessionFor, PublicRoute, OnlyDue, CredentialRefusal;
    OnlyEarly(x, reply);
  }

  lemma CallbackFit(x: Case, reply: Reply)
    requires GoodCallback(x) && x.story.take.Some? && x.story.take.value.TakeAttempt?
    requires
      || (x.story == IN_GLOBAL.(take := x.story.take, running := x.story.running) && TakeFailed(x) && reply == Refused(403, PanelAuthDenied))
      || (x.story == IN_GLOBAL.(take := x.story.take, running := x.story.running, exchanged := Some(true)) && !TakeFailed(x) &&
          reply == Served(AccessToken))
      || (x.story == IN_GLOBAL.(take := x.story.take, running := x.story.running, exchanged := Some(false)) && !TakeFailed(x) &&
          reply == Refused(401, PanelAuthDenied))
    ensures OnlyDue(x, reply)
  {
    hide EffectiveRoute, SessionFor, PublicRoute, OnlyDue, CredentialRefusal, TakeFailed;
    OnlyEarly(x, reply);
  }

  // --------------------------------------------------------------- the steps

  lemma StoryStep(t: Thread, e: Event, n: Thread)
    requires n.log == t.log + [e]
    ensures StoryOf(n.log) == Told(StoryOf(t.log), e)
    ensures PagesRead(n.log) == PagesRead(t.log) + PageUsers(e)
  {
    hide Told;
    assert n.log[..|t.log|] == t.log;
    LogStep(t.log, e);
  }

  /** The facts of a step that the story needs: what is new is not a response, unless a reply is being written. */
  lemma NothingWritten(t: Thread)
    requires Inv(t) && !t.pc.Unwinding? && !t.pc.Done?
    ensures Silent(t.log)
  {
    hide SessionFits, Shape, PointFacts, HistoryOk, LockedNow, PagesInScan, Stopped;
    NoResponses(t.log);
  }

  predicate Silent(log: seq<Event>) {
    forall i | 0 <= i < |log| :: !log[i].Respond?
  }

  ghost predicate InPlace(t: Thread) {
    t.view.Some? ==> Placed(CaseOf(t), t.session, t.pc)
  }

  /** A step that writes nothing is on track if it is in its place. */
  lemma QuietOnTrack(t: Thread, e: Event, n: Thread)
    requires Inv(t) && !t.pc.Unwinding? && !t.pc.Done? && !e.Respond? && n.log == t.log + [e]
    requires InPlace(n)
    ensures OnTrack(n)
  {
    hide Inv, Placed, OnlyDue, StoryOf, PagesRead;
    NothingWritten(t);
  }

  lemma EntryOnTrack(t: Thread, e: Event)
    requires Inv(t) && OnTrack(t) && (t.pc.Start? || t.pc.WantGlobal? || t.pc.WantVersion?) && EntryStep(t, e).Some?
    ensures OnTrack(EntryStep(t, e).UnwrapOr(t))
  {
    hide Inv, OnlyDue, Handler.Admitted, Versioned, SessionFor, EffectiveRoute, PublicRoute, Known, StoryOf, PagesRead, PageUsers,
      LatePoint;
    var n := EntryStep(t, e).UnwrapOr(t);
    StoryStep(t, e, n);
    EntryShape(t);
    if t.pc.WantGlobal? {
      if e.got {
        AdmittedFit(CaseOf(n));
      } else {
        GlobalFull(CaseOf(n));
      }
    } else if t.pc.WantVersion? {
      if e.open {
        VersionedFit(CaseOf(n));
      } else {
        GuardClosed(CaseOf(n));
      }
    } else {
      NothingTold();
    }
    QuietOnTrack(t, e, n);
  }

  lemma NothingTold()
    ensures StoryOf([]) == UNTOLD
  {
  }

  lemma EntryShape(t: Thread)
    requires Inv(t) && (t.pc.Start? || t.pc.WantGlobal? || t.pc.WantVersion?)
    ensures t.session.None? && (t.pc.Start? ==> t.log == [])
  {
    hide SessionFits, PointFacts, HistoryOk, LockedNow, AnsweredOnce, PagesInScan, SlotsOf;
  }

  lemma PublicOnTrack(t: Thread, e: Event)
    requires Inv(t) && OnTrack(t) && (t.pc.WantIp? || t.pc.WantIpRate? || t.pc.PublicForward?) && PublicStep(t, e).Some?
    ensures OnTrack(PublicStep(t, e).UnwrapOr(t))
  {
    hide Inv, OnlyDue, SessionFor, EffectiveRoute, PublicRoute, StoryOf, PagesRead, PageUsers, LatePoint;
    var n := PublicStep(t, e).UnwrapOr(t);
    StoryStep(t, e, n);
    OutsideShape(t);
    if n.pc.Replying? {
      PublicFit(CaseOf(n), n.pc.reply);
    }
    QuietOnTrack(t, e, n);
  }

  lemma OutsideShape(t: Thread)
    requires Inv(t)
    requires t.pc.WantIp? || t.pc.WantIpRate? || t.pc.PublicForward? || t.pc.OAuthDraw? || t.pc.OAuthLoad? || t.pc.OAuthPut? ||
             t.pc.OAuthTake? || t.pc.OAuthCheck? || t.pc.OAuthExchange?
    ensures t.session.None? && t.view.Some?
  {
    hide SessionFits, PointFacts, HistoryOk, LockedNow, AnsweredOnce, PagesInScan, SlotsOf;
  }

  lemma LoginOnTrack(t: Thread, e: Event)
    requires Inv(t) && OnTrack(t) && OAuthStep(t, e).Some?
    ensures OnTrack(OAuthStep(t, e).UnwrapOr(t))
  {
    hide Inv, OnlyDue, SessionFor, EffectiveRoute, PublicRoute, NotOffered, StoryOf, PagesRead, PageUsers, LatePoint;
    var n := OAuthStep(t, e).UnwrapOr(t);
    StoryStep(t, e, n);
    OutsideShape(t);
    if n.pc.Replying? {
      if t.pc.OAuthPut? {
        LoginFit(CaseOf(n), n.pc.reply);
      } else {
        CallbackFit(CaseOf(n), n.pc.reply);
      }
    }
    QuietOnTrack(t, e, n);
  }

  /** Where a session's point fits, the handler is in its place. */
  lemma FitIsPlaced(x: Case, s: Session, pc: Pc)
    requires Known(x, s) && LateFit(x, s, pc)
    requires pc.Replying? || pc.Unwinding? || pc.WantTokenRate? || pc.WantMutex? || pc.WantLock? || pc.Preflight? || pc.ListScan? ||
             pc.Forwarding? || pc.Verifying?
    ensures Placed(x, Some(s), pc)
  {
    hide Known, LateOnly, OnlyDue, LatePoint;
    if pc.Replying? {
      OnlyLate(x, s, pc.reply);
    }
  }

  /** The session of a handler behind authentication is the one its settings and request give. */
  lemma InSession(t: Thread)
    requires Inv(t) && t.view.Some? && t.session.Some?
    ensures SessionFor(t.view.value.cfg, t.req) == t.session
  {
    hide Shape, PointFacts, HistoryOk, LockedNow, AnsweredOnce, PagesInScan, SessionFor;
  }

  // What was reached stays reached as the story goes on.

  lemma KnownStill(x: Case, y: Case, s: Session)
    requires Known(x, s) && y.cfg == x.cfg && y.req == x.req && y.story.global == y.story.open == Some(true)
    ensures Known(y, s)
  {
    hide SessionFor, EffectiveRoute, PublicRoute;
  }

  lemma OpenedStill(x: Case, y: Case, s: Session)
    requires Opened(x, s) && y.cfg == x.cfg && y.req == x.req
    requires y.story.global == y.story.open == y.story.token == y.story.rate == Some(true)
    ensures Opened(y, s)
  {
    hide Known, Decide, LockedWrite, WriteSafe;
    KnownStill(x, y, s);
  }

  lemma ReadyStill(x: Case, y: Case, s: Session)
    requires Ready(x, s) && y.cfg == x.cfg && y.req == x.req && y.story.read == x.story.read
    requires y.story.global == y.story.open == y.story.token == y.story.rate == Some(true)
    ensures Ready(y, s)
  {
    hide Opened, OnTarget, Subject, ReadRefusal, BodyOutcome;
    OpenedStill(x, y, s);
  }

  lemma NoPagesYet(t: Thread)
    requires Inv(t) && (t.pc.WantToken? || t.pc.WantTokenRate? || t.pc.WantMutex? || t.pc.WantLock? || t.pc.Preflight?)
    ensures PagesRead(t.log) == []
  {
    hide SessionFits, Shape, PointFacts, HistoryOk, LockedNow, AnsweredOnce, PagesRead;
  }

  lemma ReadyIsKnown(x: Case, s: Session)
    ensures Ready(x, s) ==> Opened(x, s)
    ensures Opened(x, s) ==> Known(x, s)
  {
    hide Known, OnTarget, Subject, ReadRefusal, BodyOutcome, Permitted, OwnPage, LockedWrite, WriteSafe;
  }

  lemma TokenOnTrack(t: Thread, e: Event)
    requires Inv(t) && OnTrack(t) && TokenStep(t, e).Some?
    ensures OnTrack(TokenStep(t, e).UnwrapOr(t))
  {
    hide Inv, OnlyDue, SessionFor, EarlyPoint, StoryOf, PagesRead, PageUsers, Known, Opened, LateOnly, LockedWrite, Decided, BeginPreflight;
    var n, s := TokenStep(t, e).UnwrapOr(t), t.session.value;
    var x, y := CaseOf(t), CaseOf(n);
    StoryStep(t, e, n);
    NoPagesYet(t);
    NoUsersIn(e);
    ReadyIsKnown(x, s);
    KnownStill(x, y, s);
    match t.pc {
      case WantToken =>
        if !e.got {
          TokenFull(y, s);
        }
      case WantTokenRate =>
        if e.admitted {
          DecidedFit(y, s);
        } else {
          RateFull(y, s);
        }
      case WantMutex => OpenedStill(x, y, s);
      case WantLock(_) =>
        OpenedStill(x, y, s);
        PreflightFit(y, s);
    }
    DecidedKinds(JobOf(t));
    FitIsPlaced(y, s, n.pc);
    QuietOnTrack(t, e, n);
  }

  /** What follows the decision and the lock. */
  lemma DecidedKinds(j: Job)
    ensures var pc := Decided(j); pc.Replying? || pc.WantMutex? || pc.Preflight? || pc.ListScan? || pc.Forwarding?
    ensures var pc := BeginPreflight(j); pc.Replying? || pc.Preflight? || pc.ListScan? || pc.Forwarding?
  {
    hide PreflightNeed, BodyOutcome, DecisionPasses, PanelReadFacade, LockedWrite, WriteSafe, RestrictedPanelList, DenyStatus, Decide;
  }

  lemma NoUsersIn(e: Event)
    requires !e.FetchPage?
    ensures PageUsers(e) == []
  {
  }

  lemma UpstreamOnTrack(t: Thread, e: Event)
    requires Inv(t) && OnTrack(t) && UpstreamStep(t, e).Some?
    ensures OnTrack(UpstreamStep(t, e).UnwrapOr(t))
  {
    hide Inv, OnlyDue, SessionFor, EarlyPoint, StoryOf, PagesRead, PageUsers, Known, Opened, LateOnly, LockedWrite, Preflighted, Scanned,
      Answered, Verified, Ready, OnTarget, Subject, RestrictedPanelList, Gated, Verifies, GoesOn, CaseOf;
    var n, s := UpstreamStep(t, e).UnwrapOr(t), t.session.value;
    var x, y := CaseOf(t), CaseOf(n);
    StoryStep(t, e, n);
    CaseIs(t);
    CaseIs(n);
    ReadyIsKnown(x, s);
    ReadyIsKnown(y, s);
    match t.pc {
      case Preflight(_) =>
        NoPagesYet(t);
        NoUsersIn(e);
        OpenedStill(x, y, s);
        ReadFit(y, s, e.answer);
      case ListScan(start, combined) =>
        ReadyStill(x, y, s);
        PageFit(y, s, start, combined, e.answer);
      case Forwarding =>
        ReadyStill(x, y, s);
        CallFit(y, s, e.answer);
      case Verifying(_, b) =>
        GatedCalled(x, s, b);
        ReadyStill(x, y, s);
        GatedStill(x, y, s, b);
        AgainFit(y, s, b, e.answer);
    }
    UpstreamKinds(JobOf(t), t.pc, e);
    FitIsPlaced(y, s, n.pc);
    QuietOnTrack(t, e, n);
  }

  lemma CaseIs(t: Thread)
    requires t.view.Some?
    ensures CaseOf(t) == Case(t.view.value.cfg, t.req, StoryOf(t.log), PagesRead(t.log))
  {
  }

  lemma GatedStill(x: Case, y: Case, s: Session, b: Answer)
    requires Gated(x, s, b) && Verifies(x, s, b) && y.cfg == x.cfg && y.req == x.req && y.story.call == x.story.call
    ensures Gated(y, s, b) && Verifies(y, s, b)
  {
    hide GateResponse, Subject, LockedWrite;
  }

  /** What follows an answer of the upstream. */
  lemma UpstreamKinds(j: Job, pc: Pc, e: Event)
    ensures e.ReadUser? ==>
      var next := Preflighted(j, e.answer); next.Replying? || next.ListScan? || next.Forwarding?
    ensures e.FetchPage? && pc.ListScan? ==>
      var next := Scanned(j, pc.start, pc.combined, e.answer); next.Replying? || next.ListScan? || next.Unwinding?
    ensures e.Forward? ==>
      var next := Answered(j, e.answer); next.Replying? || next.Verifying? || next.Unwinding?
    ensures e.ReadUser? && pc.Verifying? ==> Verified(j, e.answer, pc.answer).Replying?
  {
    hide UserCheck, BodyOutcome, DenyStatus, RestrictedPanelList, DecodeListPage, ListPanics, ListAnswer, EnforceResponse, FilterResponse,
      ResponseFaults, LockedWrite, VerifyNeed, CreatedCheck;
  }

  /** Writing the reply and releasing what is held tells nothing new. */
  lemma ClosingOnTrack(t: Thread, e: Event)
    requires Inv(t) && OnTrack(t) && ClosingStep(t, e).Some?
    ensures OnTrack(ClosingStep(t, e).UnwrapOr(t))
  {
    hide Inv, OnlyDue, StoryOf, PagesRead, PageUsers, LatePoint, EarlyPoint;
    var n := ClosingStep(t, e).UnwrapOr(t);
    StoryStep(t, e, n);
    NoUsersIn(e);
    if n.view.Some? {
      assert CaseOf(n) == CaseOf(t);
      RestingPlace(CaseOf(n), n.session, n.pc);
      forall i | 0 <= i < |n.log| && n.log[i].Respond?
        ensures OnlyDue(CaseOf(n), n.log[i].reply)
      {
        if i < |t.log| {
          assert n.log[i] == t.log[i];
        }
      }
    }
  }

  lemma RestingPlace(x: Case, session: Option<Session>, pc: Pc)
    requires pc.Unwinding? || pc.Done?
    ensures Placed(x, session, pc)
  {
    hide Ready, Opened, Known, OnTarget, Subject, Gated, Verifies, GoesOn, OnlyDue;
  }

  lemma StepOnTrack(t: Thread, e: Event)
    requires Inv(t) && OnTrack(t) && Advance(t, e).Some?
    ensures OnTrack(Advance(t, e).UnwrapOr(t))
  {
    hide Inv, OnTrack, EntryStep, PublicStep, TokenStep, UpstreamStep, OAuthStep, ClosingStep;
    match t.pc
    case Start | WantGlobal | WantVersion => EntryOnTrack(t, e);
    case WantIp | WantIpRate | PublicForward => PublicOnTrack(t, e);
    case WantToken | WantTokenRate | WantMutex | WantLock(_) => TokenOnTrack(t, e);
    case Preflight(_) | ListScan(_, _) | Forwarding | Verifying(_, _) => UpstreamOnTrack(t, e);
    case OAuthDraw | OAuthLoad(_) | OAuthPut(_, _, _) | OAuthTake(_) | OAuthCheck(_, _) | OAuthExchange => LoginOnTrack(t, e);
    case Replying(_) | Unwinding => ClosingOnTrack(t, e);
    case Done =>
  }

  lemma {:induction false} RunOnTrack(req: Request, log: seq<Event>)
    requires Replay(Fresh(req), log).Some?
    ensures OnTrack(Replay(Fresh(req), log).UnwrapOr(Fresh(req)))
  {
    hide Advance, Inv, OnTrack;
    if log == [] {
      FreshOnTrack(req);
    } else {
      RunOnTrack(req, log[..|log| - 1]);
      RunKeeps(req, log[..|log| - 1]);
      StepOnTrack(Replay(Fresh(req), log[..|log| - 1]).value, log[|log| - 1]);
    }
  }

  lemma FreshOnTrack(req: Request)
    ensures OnTrack(Fresh(req))
  {
    hide OnlyDue, Placed;
  }

  /** For every run: the reply that is written is the one that is due, and no other one is. So each refusal has
      its own cause, and a request without one gets its answer. */
  lemma ReplyIsDue(req: Request, log: seq<Event>, i: nat)
    requires Replay(Fresh(req), log).Some? && i < |log| && log[i].Respond?
    ensures var t := Replay(Fresh(req), log).value; t.view.Some? && OnlyDue(CaseOf(t), log[i].reply)
  {
    hide Replay, OnlyDue, Placed, CaseOf, SessionFor, AtPoint, EventOk;
    RunOnTrack(req, log);
    RunKeeps(req, log);
  }

  // ------------------------------------------------------------ what it means

  /** The read shows one user, and the token owns it. */
  predicate ShowsOwned(tok: TokenPolicy, a: Answer) {
    Success(a) && a.body.Some? && DecodeUser(a.body.value).Some? && Owns(tok, DecodeUser(a.body.value).value)
  }

  /** A restricted write that the upstream answered with success stands: the created user is in the answer and
      owned, or the written one was read again and is owned. Writes that name no user need neither. */
  ghost predicate Stands(x: Case, s: Session, b: Answer) {
    LockedWrite(s.route) && Success(b) ==>
      if s.route.name == UserCreate then b.body.Some? && DecodeUser(b.body.value).Some? && Owns(s.tok, DecodeUser(b.body.value).value)
      else Subject(JobFor(x, s)).Some? ==> x.story.again.Some? && ShowsOwned(s.tok, x.story.again.value)
  }

  lemma StandsMeans(x: Case, s: Session, b: Answer)
    ensures Stands(x, s, b) <==>
      (Verifies(x, s, b) ==> WriteRefusal(x, s, b).None? && (s.route.name == UserCreate || x.story.again.Some?))
  {
    hide DecodeUser, Owns, Subject, LockedWrite;
  }

  /** For every run: a request that passes everything before the call is forwarded, unless it is the panel's own list.
      Its reply is the gated answer exactly when the upstream answered, both gates pass, and a write stands. */
  lemma AllowedIsAnswered(req: Request, log: seq<Event>, i: nat, s: Session, b: Answer)
    requires Replay(Fresh(req), log).Some? && i < |log| && log[i].Respond?
    requires var t := Replay(Fresh(req), log).value;
      t.view.Some? && SessionFor(t.view.value.cfg, req) == Some(s) && Ready(CaseOf(t), s) && !RestrictedPanelList(s)
    ensures var x := CaseOf(Replay(Fresh(req), log).value);
      && x.story.call.Some?
      && (log[i].reply == Relayed(b) <==>
            x.story.call.value.Answer? &&
            GateResponse(s.route, s.tok, x.story.call.value, PageWanted(JobFor(x, s))) == Ok(b) && Stands(x, s, b))
  {
    hide Replay, Ready, RestrictedPanelList, Verifies, WriteRefusal, OnlyDue, SessionFor, CaseOf, Stands, PageWanted, GateResponse;
    var t := Replay(Fresh(req), log).value;
    var x := CaseOf(t);
    RunKeeps(req, log);
    CaseIs(t);
    ReplyIsDue(req, log, i);
    StandsMeans(x, s, b);
    ReadyIsDue(x, s, log[i].reply, b);
  }

  lemma ReadyIsDue(x: Case, s: Session, reply: Reply, b: Answer)
    requires SessionFor(x.cfg, x.req) == Some(s) && Ready(x, s) && !RestrictedPanelList(s) && OnlyDue(x, reply)
    ensures x.story.call.Some? && (reply == Relayed(b) <==> CallAnswer(x, s, b))
    ensures CallAnswer(x, s, b) <==>
      Gated(x, s, b) && (Verifies(x, s, b) ==> WriteRefusal(x, s, b).None? && (s.route.name == UserCreate || x.story.again.Some?))
  {
    ReadyIsKnown(x, s);
    NothingEarly(x, s);
    TokenSettled(x, s);
    hide Ready, RestrictedPanelList, Verifies, WriteRefusal, EarlyDue, TokenRefusal, Known, Opened, OwnPage, SessionFor, GateResponse,
      EnforceResponse, PageShown, Shaped;
    assert Due(x, reply);
    assert Due(x, Relayed(b)) <==> Relayed(b) == reply;
  }

  /** A request that is not a locked write gets its gated answer. */
  lemma ReadIsAnswered(req: Request, log: seq<Event>, i: nat, s: Session, b: Answer)
    requires Replay(Fresh(req), log).Some? && i < |log| && log[i].Respond?
    requires var t := Replay(Fresh(req), log).value;
      && t.view.Some? && SessionFor(t.view.value.cfg, req) == Some(s) && Ready(CaseOf(t), s) && !RestrictedPanelList(s)
      && !LockedWrite(s.route) && Gated(CaseOf(t), s, b)
    ensures log[i].reply == Relayed(b)
  {
    hide Replay, Ready, RestrictedPanelList, LockedWrite, SessionFor, CaseOf, PageWanted, GateResponse;
    AllowedIsAnswered(req, log, i, s, b);
  }

  // -------------------------------------------------- only the ready are forwarded

  /** What was forwarded had passed everything before the call. */
  ghost predicate CallWasReady(t: Thread) {
    Called(t) ==> CallReady(t)
  }

  predicate Called(t: Thread) {
    t.view.Some? && CaseOf(t).story.call.Some?
  }

  ghost predicate CallReady(t: Thread) {
    t.view.Some? && t.session.Some? && Ready(CaseOf(t), t.session.value) && !RestrictedPanelList(t.session.value)
  }

  /** Behind its call a handler only reads a user again, replies and releases. */
  lemma BehindCall(t: Thread, e: Event)
    requires Inv(t) && OnTrack(t) && Called(t) && Advance(t, e).Some?
    ensures e.ReadUser? || e.Respond? || e.Unlock? || e.Release?
  {
    BehindCallPoint(t);
    hide Inv, OnTrack, CaseOf, Advance;
    if t.pc.Verifying? {
      VerifyingEvent(t, e);
    } else {
      ClosingEvent(t, e);
    }
  }

  lemma VerifyingEvent(t: Thread, e: Event)
    requires t.pc.Verifying? && Advance(t, e).Some?
    ensures e.ReadUser?
  {
    hide Verified, EntryStep, PublicStep, TokenStep, OAuthStep, ClosingStep;
  }

  lemma ClosingEvent(t: Thread, e: Event)
    requires (t.pc.Replying? || t.pc.Unwinding? || t.pc.Done?) && Advance(t, e).Some?
    ensures e.Respond? || e.Unlock? || e.Release?
  {
    hide EntryStep, PublicStep, TokenStep, UpstreamStep, OAuthStep;
  }

  lemma BehindCallPoint(t: Thread)
    requires Inv(t) && OnTrack(t) && Called(t)
    ensures t.pc.Verifying? || t.pc.Replying? || t.pc.Unwinding? || t.pc.Done?
  {
    hide SessionFits, PointFacts, HistoryOk, LockedNow, AnsweredOnce, PagesInScan, SlotsOf, OnlyDue, Ready, Opened, Known, OnTarget,
      Subject, Gated, Verifies, GoesOn, RestrictedPanelList, Offered, GoodCallback, Public, Matched, OnAuthPath, StoryOf, PagesRead,
      TakeFailed;
  }

  lemma CallStaysReady(t: Thread, e: Event)
    requires Inv(t) && OnTrack(t) && CallWasReady(t) && Advance(t, e).Some?
    ensures CallWasReady(Advance(t, e).UnwrapOr(t))
  {
    hide Inv, OnTrack, Advance, CaseOf, Ready, RestrictedPanelList, StoryOf, PagesRead, PageUsers;
    var n := Advance(t, e).UnwrapOr(t);
    StepKeeps(t, e);
    if n.view.Some? {
      CaseIs(n);
      StoryStep(t, e, n);
      if t.view.Some? {
        CaseIs(t);
        if CaseOf(t).story.call.Some? {
          BehindCall(t, e);
          LetInStill(t);
          ReadyStill(CaseOf(t), CaseOf(n), t.session.value);
        } else if e.Forward? {
          CallIsReady(t);
          ReadyStill(CaseOf(t), CaseOf(n), t.session.value);
        }
      } else {
        NothingBefore(t);
        NothingTold();
      }
    }
  }

  lemma NothingBefore(t: Thread)
    requires Inv(t) && t.view.None?
    ensures t.log == [] && t.pc.Start?
  {
    hide SessionFits, PointFacts, HistoryOk, LockedNow, AnsweredOnce, PagesInScan, SlotsOf;
  }

  ghost predicate ToldLetIn(t: Thread) {
    t.view.Some? && CaseOf(t).story == LET_IN.(read := CaseOf(t).story.read)
  }

  lemma CallIsReady(t: Thread)
    requires Inv(t) && OnTrack(t) && t.pc.Forwarding?
    ensures CallReady(t) && ToldLetIn(t)
  {
    CallPoint(t);
    hide Inv, Ready, RestrictedPanelList, CaseOf, OnlyDue, Stopped;
  }

  lemma LetInStill(t: Thread)
    requires t.view.Some? && t.session.Some? && Ready(CaseOf(t), t.session.value)
    ensures var story := CaseOf(t).story; story.global == story.open == story.token == story.rate == Some(true)
  {
    hide OnTarget, Subject, ReadRefusal, BodyOutcome, Permitted, OwnPage, LockedWrite, WriteSafe, SessionFor, StoryOf, PagesRead, PublicRoute;
  }

  lemma {:induction false} RunCallsReady(req: Request, log: seq<Event>)
    requires Replay(Fresh(req), log).Some?
    ensures CallWasReady(Replay(Fresh(req), log).UnwrapOr(Fresh(req)))
  {
    hide Advance, Inv, OnTrack, CallWasReady;
    if log == [] {
      FreshCalls(req);
    } else {
      var front := log[..|log| - 1];
      RunCallsReady(req, front);
      RunKeeps(req, front);
      RunOnTrack(req, front);
      CallStaysReady(Replay(Fresh(req), front).value, log[|log| - 1]);
    }
  }

  lemma FreshCalls(req: Request)
    ensures CallWasReady(Fresh(req))
  {
  }

  /** For every run: only a request that passes everything before the call is forwarded. */
  lemma OnlyReadyForwarded(req: Request, log: seq<Event>, i: nat)
    requires Replay(Fresh(req), log).Some? && i < |log| && log[i].Forward?
    ensures var t := Replay(Fresh(req), log).value;
      && t.view.Some? && t.session.Some? && t.session == SessionFor(t.view.value.cfg, req)
      && Ready(CaseOf(t), t.session.value) && !RestrictedPanelList(t.session.value)
  {
    hide Advance, Inv, OnTrack, Ready, RestrictedPanelList, SessionFor, CaseOf;
    RunCallsReady(req, log);
    RunKeeps(req, log);
    var t := Replay(Fresh(req), log).value;
    CallIsTold(log, i);
    CallSession(req, log, i);
    CaseIs(t);
    InSession(t);
  }

  lemma CallSession(req: Request, log: seq<Event>, i: nat)
    requires Replay(Fresh(req), log).Some? && i < |log| && log[i].Forward?
    ensures var t := Replay(Fresh(req), log).UnwrapOr(Fresh(req)); t.view.Some? && t.session.Some?
  {
    ForwardedWasCleared(req, log, i);
  }

  lemma {:induction false} CallIsTold(log: seq<Event>, i: nat)
    requires i < |log| && log[i].Forward?
    ensures StoryOf(log).call.Some?
  {
    if i < |log| - 1 {
      CallIsTold(log[..|log| - 1], i);
    }
  }

  // ======================================================= what may be forwarded

  /** For every run: the body of whatever is forwarded is as its route and token demand, and what the request
      names in its path or body is on the token's lists. */
  lemma ForwardedFits(req: Request, log: seq<Event>, i: nat)
    requires Replay(Fresh(req), log).Some? && i < |log| && log[i].Forward?
    ensures var t := Replay(Fresh(req), log).value;
      && t.view.Some? && t.session.Some? && OnTarget(JobOf(t))
      && var s, cfg := t.session.value, t.view.value.cfg;
        Exempt(s.route) ||
        (WellSent(cfg, s.route, req.body) && MembersFit(LastWins(req.body.payload.members), s.route, s.tok, req.routeKeys))
  {
    hide Replay, CaseOf, OnTarget, MembersFit, WellSent, Exempt, ValidateBodyPolicy, RestrictedPanelList, SessionFor;
    OnlyReadyForwarded(req, log, i);
    RunReq(req, log);
    var t := Replay(Fresh(req), log).value;
    CaseIs(t);
    ReadyBody(CaseOf(t), t.session.value);
    BodyMeans(t.view.value.cfg, t.session.value.route, t.session.value.tok, req.body, req.routeKeys);
  }

  lemma RunReq(req: Request, log: seq<Event>)
    requires Replay(Fresh(req), log).Some?
    ensures Replay(Fresh(req), log).UnwrapOr(Fresh(req)).req == req
  {
    hide Replay, Inv;
    RunKeeps(req, log);
  }

  lemma ReadyBody(x: Case, s: Session)
    requires Ready(x, s)
    ensures OnTarget(JobFor(x, s)) && ValidateBodyPolicy(x.cfg, s.route, s.tok, x.req.body, x.req.routeKeys).Pass?
  {
    hide Opened, OnTarget, Subject, ReadRefusal, ValidateBodyPolicy;
  }

  predicate CarriesBody(name: RouteName) {
    name == UserCreate || name == UserUpdate || name.ResourceCreate? || name.ResourcePatch? || name == HostsBulkUpdate
  }

  /** A policy-enforced write that carries a body is never exempt from the body checks. */
  lemma WritesAreChecked(cfg: Settings, req: Request)
    requires SessionFor(cfg, req).Some? && Catalogued(req.matched.value)
    ensures var route := SessionFor(cfg, req).value.route;
      route.name == req.matched.value.name && (route.support == PolicyEnforced && CarriesBody(route.name) ==> !Exempt(route))
  {
    hide Resolve, EffectiveRoute;
    var route := req.matched.value;
    EffectiveWriteName(cfg, route);
    if IsRestrictedWrite(route.name) {
      EffectiveWrite(cfg, route);
      if WriteSafe(cfg) {
        WriteBodies(cfg, route);
      }
    }
  }

  lemma EffectiveWriteName(cfg: Settings, route: Route)
    ensures EffectiveRoute(cfg, route).name == route.name
  {
  }

  /** For every run: a restricted write to a resource that is forwarded hits a resource that its token may write. */
  lemma ForwardedResource(req: Request, log: seq<Event>, i: nat)
    requires Replay(Fresh(req), log).Some? && i < |log| && log[i].Forward?
    requires req.matched.Some? ==> Catalogued(req.matched.value)
    ensures var t := Replay(Fresh(req), log).value;
      && t.view.Some? && t.session.Some?
      && var route, c := t.session.value.route, t.session.value.tok.constraints;
        route.support == PolicyEnforced ==>
          && (route.name.ResourcePatch? || route.name == HostsBulkUpdate || route.name.ResourceCreate? ==> req.body.payload.Members?)
          && (route.name.ResourcePatch? ==> PatchFits(LastWins(req.body.payload.members), c, route.name.resource))
          && (route.name.ResourceCreate? ==> CreateFits(c, route.name.infra))
          && (route.name == HostsBulkUpdate ==> BulkFits(LastWins(req.body.payload.members), c))
          && (route.name.NodeAction? ==> Permits(c, Infra(Node), Segment(req, 2)))
  {
    hide Replay, CaseOf, RestrictedPanelList, SessionFor, PatchFits, CreateFits, BulkFits, Permits, LastWins, OwnFieldsFit, UserFieldsFit,
      Exempt, Catalogued, Subject;
    ForwardedFits(req, log, i);
    OnlyReadyForwarded(req, log, i);
    RunReq(req, log);
    var t := Replay(Fresh(req), log).value;
    SessionMatched(t.view.value.cfg, req);
    WritesAreChecked(t.view.value.cfg, req);
    if t.session.value.route.support == PolicyEnforced && t.session.value.route.name.NodeAction? {
      NodeOnTarget(JobOf(t));
    }
  }

  lemma SessionMatched(cfg: Settings, req: Request)
    requires SessionFor(cfg, req).Some?
    ensures req.matched.Some?
  {
    hide Resolve, SessionRoute;
  }

  lemma NodeOnTarget(j: Job)
    requires OnTarget(j) && j.s.route.support == PolicyEnforced && j.s.route.name.NodeAction?
    ensures Permits(j.s.tok.constraints, Infra(Node), Segment(j.req, 2))
  {
    hide Permits, Subject;
    assert !Misses(j, if Segment(j.req, 2) == "" then MissingUuid else NodeDenied);
  }
}
