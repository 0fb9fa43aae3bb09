/** One request through apiHandler as a small-step machine. Every access to state that is shared
    with other requests, every upstream call and the response are events; what lies between two of
    them is computed here from the request and the settings loaded at its start. */
module Handler {
  import opened Prelude
  import opened Json
  import opened Config
  import opened Credentials
  import opened Routes
  import opened Remnawave
  import opened BodyPolicy
  import opened ListFilter
  import opened PanelList
  import opened ResponsePolicy
  import opened Upstream
  import opened Requests

  datatype Pc =
    | Start
    | WantGlobal
    | WantVersion
    | WantIp
    | WantIpRate
    | PublicForward
    | WantToken
    | WantTokenRate
    | WantMutex
    | WantLock(wanted: nat)
    | Preflight(uuid: string)
    | ListScan(start: nat, combined: seq<Json>)
    | Forwarding
    | Verifying(again: string, answer: Answer)
    | OAuthDraw
    | OAuthLoad(drawn: string)
    | OAuthPut(pending: string, attemptView: View, loadedAt: nat)
    | OAuthTake(given: string)
    | OAuthCheck(attempt: Attempt, clock: int)
    | OAuthExchange
    | Replying(reply: Reply)
    | Unwinding
    | Done

  datatype Event =
    | LoadState(view: View)
    | Acquire(slot: Slot, got: bool)
    | ReadVersion(open: bool)
    | RateCheck(admitted: bool)
    | GetMutex(mutex: nat)
    | LockMutex
    | ReadUser(uuid: string, answer: Answer)
    | FetchPage(start: nat, answer: Answer)
    | Forward(answer: Answer)
    | ForwardPublic(answer: Answer)
    | DrawState(state: string)
    | LoadForAttempt(view: View, loadedAt: nat)
    | PutAttempt(now: int, stored: bool)
    | TakeAttempt(now: int, taken: Option<Attempt>)
    | LoadForCheck(gen: nat)
    | Exchange(ok: bool)
    | Respond(reply: Reply)
    | Unlock
    | Release(slot: Slot)

  /** A request being handled. `slots` are the semaphores held, in the order of acquisition; `log` is its history. */
  datatype Thread = Thread(
    req: Request,
    view: Option<View>,
    session: Option<Session>,
    pc: Pc,
    slots: seq<Slot>,
    mutex: Option<nat>,
    log: seq<Event>)

  /** What the code behind authentication works with. */
  datatype Job = Job(cfg: Settings, s: Session, req: Request)

  function Fresh(req: Request): Thread {
    Thread(req, None, None, Start, [], None, [])
  }

  function Refuse(status: int, reason: Reason): Pc {
    Replying(Refused(status, reason))
  }

  // ------------------------------------------------------ up to authentication

  /** With the global slot held: raw checks, route match, auth facade. */
  function Admitted(cfg: Settings, req: Request): Pc {
    match req.rawFault
    case Some(reason) => Refuse(400, reason)
    case None =>
      if req.matched.None? then Refuse(404, UnknownRoute)
      else if cfg.panelFacade && !req.auth.NoAuthPath? then AuthFacade(cfg, req)
      else WantVersion
  }

  /** handlePanelAuthFacade up to its first shared step. */
  function AuthFacade(cfg: Settings, req: Request): Pc {
    if req.verb == POST && Oversized(cfg, req) then Refuse(413, BodyTooLarge)
    else
      match req.auth
      case AuthStatus => if req.verb == GET then Replying(Served(AuthStatusPage)) else Refuse(403, PanelAuthUnsupported)
      case AuthAuthorize(telegram) =>
        if req.verb == POST && telegram then OAuthDraw else Refuse(403, PanelAuthUnsupported)
      case AuthCallback(wellFormed, cookieMatches, state) =>
        if req.verb != POST || !wellFormed then Refuse(403, PanelAuthUnsupported)
        else if !cookieMatches then Refuse(403, PanelAuthDenied)
        else OAuthTake(state)
      case _ => Refuse(403, PanelAuthUnsupported)
  }

  /** What a credential resolves to. */
  datatype Identity = Denied(status: int, reason: Reason) | As(tok: TokenPolicy)

  /** resolveRequestCredential. */
  function Resolve(cfg: Settings, presented: Presented): Identity {
    match presented
    case GatewayToken(id, digest) =>
      var found := FindCredential(cfg.tokens, id);
      if found.None? || found.value.1.digest != digest then Denied(401, InvalidToken) else As(found.value.0)
    case NoHeader | NotBearer => Denied(401, AuthRequired)
    case BrokenGatewayToken => if cfg.panelFacade then Denied(401, InvalidToken) else Denied(401, AuthRequired)
    case PanelToken(actor) =>
      if !cfg.panelFacade then Denied(401, AuthRequired)
      else if actor.None? then Denied(401, InvalidToken)
      else if actor.value in cfg.actors && FindCredential(cfg.tokens, cfg.actors[actor.value]).Some? then
        As(FindCredential(cfg.tokens, cfg.actors[actor.value]).value.0)
      else Denied(403, PanelAuthDenied)
  }

  /** The route under the settings; a subscription route that is not public is an ordinary policy-enforced read. */
  function SessionRoute(cfg: Settings, catalogued: Route): Route {
    var route := EffectiveRoute(cfg, catalogued);
    if route.support == PublicSubscription then Enforced(route, [SubscriptionsRead, SubscriptionRead]) else route
  }

  predicate PublicRoute(cfg: Settings, req: Request) {
    req.matched.Some? && EffectiveRoute(cfg, req.matched.value).support == PublicSubscription
  }

  /** With the version guard open: query, body size, public subscriptions, credentials. */
  function Versioned(cfg: Settings, req: Request): Pc {
    if req.queryFault.Some? then Refuse(400, req.queryFault.value)
    else if Oversized(cfg, req) then Refuse(413, BodyTooLarge)
    else if PublicRoute(cfg, req) && cfg.publicSubs then
      (match req.publicFault
       case Some((status, reason)) => Refuse(status, reason)
       case None => WantIp)
    else if PublicRoute(cfg, req) && req.presented.NoHeader? then Refuse(403, PublicSubscriptionsDisabled)
    else
      match Resolve(cfg, req.presented)
      case Denied(status, reason) => Refuse(status, reason)
      case As(_) => WantToken
  }

  /** The session of a request whose credential resolves. */
  function SessionFor(cfg: Settings, req: Request): Option<Session> {
    if req.matched.Some? && Resolve(cfg, req.presented).As? then
      Some(Session(SessionRoute(cfg, req.matched.value), Resolve(cfg, req.presented).tok, PanelContext(cfg, req)))
    else None
  }

  // ------------------------------------------------------------- policy gate

  predicate ListLikeRead(route: Route, path: string) {
    PathEndsIn(path, "/tags") || PathEndsIn(path, "/inbounds") || '{' !in route.pattern
  }

  predicate PathEndsIn(path: string, suffix: string) {
    |suffix| <= |path| && path[|path| - |suffix|..] == suffix
  }

  /** The status of a policy denial: a panel session gets a panel-shaped answer, everyone else the given status. */
  function DenyStatus(j: Job, status: int): int {
    if !j.s.panel then status
    else if j.req.verb != GET then 422
    else if ListLikeRead(j.s.route, j.req.path) then 200
    else 404
  }

  function PolicyDeny(j: Job, status: int, reason: Reason): Pc {
    Refuse(DenyStatus(j, status), reason)
  }

  predicate PanelReadFacade(j: Job) {
    j.s.panel && j.req.verb == GET &&
    (j.req.path == "/api/remnawave-settings" || j.req.path == "/api/tokens" || j.req.path == "/api/passkeys")
  }

  /** A denied decision is ignored only in unsafe report mode, and never for a panel session. */
  predicate DecisionPasses(j: Job) {
    Decide(j.s.tok, j.s.route).Allow? || (!j.s.panel && j.cfg.reportEnabled && j.cfg.unsafeReportProxy)
  }

  predicate LockedWrite(route: Route) {
    IsRestrictedWrite(route.name) && route.support == PolicyEnforced
  }

  /** With both slots held and the rate admitted. */
  function Decided(j: Job): Pc {
    if !DecisionPasses(j) then PolicyDeny(j, 403, Decide(j.s.tok, j.s.route).reason)
    else if PanelReadFacade(j) then Replying(Served(PanelSettings))
    else if !LockedWrite(j.s.route) then BeginPreflight(j)
    else if !WriteSafe(j.cfg) then Refuse(403, WriteSafetyNotEnabled)
    else if Oversized(j.cfg, j.req) then Refuse(413, BodyTooLarge)
    else WantMutex
  }

  // --------------------------------------------------------------- preflight

  /** What preflight needs: nothing, a read of a user, or an immediate denial. */
  datatype Need = Nothing | UserOf(uuid: string) | Never(reason: Reason)

  function OwnedUserNeed(tok: TokenPolicy, uuid: string): Need {
    if uuid == "" then Never(MissingUserUuid)
    else if tok.constraints.allowedUsers != [] && uuid !in tok.constraints.allowedUsers then Never(UserDenied)
    else UserOf(uuid)
  }

  function SquadNeed(allowed: seq<string>, uuid: string, denied: Reason): Need {
    if allowed != [] && uuid !in allowed then Never(denied) else Nothing
  }

  /** preflight, before its upstream read. */
  function PreflightNeed(j: Job): Need {
    if j.s.route.support != PolicyEnforced then Nothing
    else
      match j.s.route.name
      case HwidList => OwnedUserNeed(j.s.tok, Segment(j.req, 3))
      case UserUpdate => OwnedUserNeed(j.s.tok, BodyString(j.req.body.payload, "uuid"))
      case UserAction(_) => OwnedUserNeed(j.s.tok, Segment(j.req, 2))
      case HwidWrite(_) => OwnedUserNeed(j.s.tok, BodyString(j.req.body.payload, "userUuid"))
      case NodeAction(_) =>
        (match RequireAllowedUuid(Segment(j.req, 2), RuleFor(j.s.tok.constraints, Infra(Node)), NodeDenied)
         case Pass => Nothing
         case Fail(reason) => Never(reason))
      case SquadRead(true) => SquadNeed(j.s.tok.constraints.allowedInternalSquads, Segment(j.req, 2), InternalSquadDenied)
      case SquadRead(false) => SquadNeed(j.s.tok.constraints.allowedExternalSquads, Segment(j.req, 2), ExternalSquadDenied)
      case _ => Nothing
  }

  /** preflightUser, after its upstream read. */
  function UserCheck(tok: TokenPolicy, a: Answer): Outcome {
    if a.NoAnswer? then Fail(PreflightFailed)
    else if !Success(a) then Fail(PreflightDenied)
    else if a.body.None? || DecodeUser(a.body.value).None? then Fail(UnparseableUserResponse)
    else OwnsUser(tok, DecodeUser(a.body.value).value)
  }

  function BeginPreflight(j: Job): Pc {
    match PreflightNeed(j)
    case Nothing => CheckBody(j)
    case UserOf(uuid) => Preflight(uuid)
    case Never(reason) => PolicyDeny(j, 403, reason)
  }

  predicate RestrictedPanelList(s: Session) {
    s.panel && s.route.name == UserList && !HasPrivilegedScope(s.tok.scopes)
  }

  function BodyOutcome(j: Job): Outcome {
    ValidateBodyPolicy(j.cfg, j.s.route, j.s.tok, j.req.body, j.req.routeKeys)
  }

  /** After preflight: the body checks, then the panel's list or the upstream call. */
  function CheckBody(j: Job): Pc {
    match BodyOutcome(j)
    case Fail(reason) => PolicyDeny(j, if reason == BodyTooLarge then 413 else 400, reason)
    case Pass => if RestrictedPanelList(j.s) then ListScan(0, []) else Forwarding
  }

  function Preflighted(j: Job, a: Answer): Pc {
    match UserCheck(j.s.tok, a)
    case Pass => CheckBody(j)
    case Fail(reason) => PolicyDeny(j, 403, reason)
  }

  // --------------------------------------------------------------- responses

  function PageWanted(j: Job): Option<Page> {
    ResponsePage(j.s.panel, j.req.query)
  }

  /** The panel's list after one more upstream page. */
  function Scanned(j: Job, start: nat, combined: seq<Json>, a: Answer): Pc {
    if a.NoAnswer? then Refuse(502, UpstreamUnavailable)
    else if !Success(a) then Replying(Relayed(a))
    else if a.body.None? || DecodeListPage(a.body.value).None? then Refuse(502, UnfilterableListResponse)
    else
      var (users, total) := DecodeListPage(a.body.value).value;
      if |users| < UPSTREAM_PAGE || start + UPSTREAM_PAGE >= total || start + UPSTREAM_PAGE >= MAX_SCAN then
        ListDone(j, combined + users)
      else ListScan(start + UPSTREAM_PAGE, combined + users)
  }

  function ListAnswer(j: Job, users: seq<Json>): Result<Answer, Reason> {
    FilterResponse(j.s.route, j.s.tok, Answer(200, Some(UserListBody(users, |users|))), PageWanted(j))
  }

  /** Cutting out the page panics: nothing is written, and the handler turns to its deferred releases. */
  predicate ListPanics(j: Job, users: seq<Json>) {
    ResponseFaults(j.s.route, j.s.tok, Answer(200, Some(UserListBody(users, |users|))), PageWanted(j))
  }

  function ListDone(j: Job, users: seq<Json>): Pc {
    if ListPanics(j, users) then Unwinding
    else
      match ListAnswer(j, users)
      case Err(reason) => Refuse(502, reason)
      case Ok(a) => Replying(Relayed(a))
  }

  /** What postWriteVerify needs after a successful restricted write. */
  function VerifyNeed(j: Job): Need {
    match j.s.route.name
    case UserUpdate => OwnedUserNeed(j.s.tok, BodyString(j.req.body.payload, "uuid"))
    case UserAction(_) => OwnedUserNeed(j.s.tok, Segment(j.req, 2))
    case HwidWrite(_) => OwnedUserNeed(j.s.tok, BodyString(j.req.body.payload, "userUuid"))
    case _ => Nothing
  }

  /** After the upstream call: response policy, then verification of a write. */
  function Answered(j: Job, a: Answer): Pc {
    if a.NoAnswer? then Refuse(502, UpstreamUnavailable)
    else
      match EnforceResponse(j.s.route, j.s.tok, a)
      case Err(reason) => PolicyDeny(j, 403, reason)
      case Ok(enforced) =>
        if ResponseFaults(j.s.route, j.s.tok, enforced, PageWanted(j)) then Unwinding
        else
          match FilterResponse(j.s.route, j.s.tok, enforced, PageWanted(j))
          case Err(reason) => Refuse(502, reason)
          case Ok(filtered) => VerifyWrite(j, filtered)
  }

  /** The answer passes the checks, and cutting out the page panics. */
  predicate CallPanics(j: Job, a: Answer) {
    a.Answer? &&
    var enforced := EnforceResponse(j.s.route, j.s.tok, a);
    enforced.Ok? && ResponseFaults(j.s.route, j.s.tok, enforced.value, PageWanted(j))
  }

  function VerifyWrite(j: Job, a: Answer): Pc {
    if !LockedWrite(j.s.route) || !Success(a) then Replying(Relayed(a))
    else if j.s.route.name == UserCreate then
      (match CreatedCheck(j.s.tok, a)
       case Pass => Replying(Relayed(a))
       case Fail(reason) => Refuse(403, reason))
    else
      match VerifyNeed(j)
      case Nothing => Replying(Relayed(a))
      case Never(reason) => Refuse(403, reason)
      case UserOf(uuid) => Verifying(uuid, a)
  }

  function Verified(j: Job, read: Answer, a: Answer): Pc {
    match UserCheck(j.s.tok, read)
    case Pass => Replying(Relayed(a))
    case Fail(reason) => Refuse(403, reason)
  }

  function CreatedCheck(tok: TokenPolicy, a: Answer): Outcome {
    if a.NoAnswer? || a.body.None? || DecodeUser(a.body.value).None? then Fail(PostWriteUnverifiable)
    else OwnsUser(tok, DecodeUser(a.body.value).value)
  }

  // ------------------------------------------------------------------- steps

  /** The step's event is recorded with the new program counter. */
  function Go(t: Thread, e: Event, pc: Pc): Thread {
    t.(pc := pc, log := t.log + [e])
  }

  /** A semaphore was acquired on the way. */
  function GoWith(t: Thread, e: Event, slot: Slot, pc: Pc): Thread {
    t.(pc := pc, slots := t.slots + [slot], log := t.log + [e])
  }

  function EntryStep(t: Thread, e: Event): Option<Thread> {
    match (t.pc, e)
    case (Start, LoadState(view)) => Some(Go(t, e, WantGlobal).(view := Some(view)))
    case (WantGlobal, Acquire(slot, got)) =>
      if t.view.None? || slot != GlobalSlot(t.view.value.gen) then None
      else if got then Some(GoWith(t, e, slot, Admitted(t.view.value.cfg, t.req)))
      else Some(Go(t, e, Refuse(429, RateLimited)))
    case (WantVersion, ReadVersion(open)) =>
      if t.view.None? then None
      else if !open then Some(Go(t, e, Refuse(503, VersionGuard)))
      else
        var pc := Versioned(t.view.value.cfg, t.req);
        Some(Go(t, e, pc).(session := if pc.WantToken? then SessionFor(t.view.value.cfg, t.req) else None))
    case _ => None
  }

  function PublicStep(t: Thread, e: Event): Option<Thread> {
    match (t.pc, e)
    case (WantIp, Acquire(slot, got)) =>
      if t.view.None? || slot != IpSlot(t.view.value.gen, t.req.ip) then None
      else if got then Some(GoWith(t, e, slot, WantIpRate))
      else Some(Go(t, e, Refuse(429, PublicSubscriptionConcurrency)))
    case (WantIpRate, RateCheck(admitted)) =>
      Some(Go(t, e, if admitted then PublicForward else Refuse(429, PublicSubscriptionRateLimit)))
    case (PublicForward, ForwardPublic(a)) =>
      Some(Go(t, e, if a.NoAnswer? then Refuse(502, UpstreamError) else Replying(Relayed(a))))
    case _ => None
  }

  function JobOf(t: Thread): Job
    requires t.view.Some? && t.session.Some?
  {
    Job(t.view.value.cfg, t.session.value, t.req)
  }

  function TokenStep(t: Thread, e: Event): Option<Thread> {
    if t.view.None? || t.session.None? then None
    else
      match (t.pc, e)
      case (WantToken, Acquire(slot, got)) =>
        if slot != TokenSlot(t.view.value.gen, t.session.value.tok.id) then None
        else if got then Some(GoWith(t, e, slot, WantTokenRate))
        else Some(Go(t, e, Refuse(429, TokenConcurrency)))
      case (WantTokenRate, RateCheck(admitted)) => Some(Go(t, e, if admitted then Decided(JobOf(t)) else Refuse(429, TokenRateLimit)))
      case (WantMutex, GetMutex(mutex)) => Some(Go(t, e, WantLock(mutex)))
      case (WantLock(mutex), LockMutex) => Some(Go(t, e, BeginPreflight(JobOf(t))).(mutex := Some(mutex)))
      case _ => None
  }

  function UpstreamStep(t: Thread, e: Event): Option<Thread> {
    if t.view.None? || t.session.None? then None
    else
      match (t.pc, e)
      case (Preflight(uuid), ReadUser(read, a)) => if read == uuid then Some(Go(t, e, Preflighted(JobOf(t), a))) else None
      case (ListScan(start, combined), FetchPage(at, a)) =>
        if at == start then Some(Go(t, e, Scanned(JobOf(t), start, combined, a))) else None
      case (Forwarding, Forward(a)) => Some(Go(t, e, Answered(JobOf(t), a)))
      case (Verifying(uuid, answer), ReadUser(read, a)) =>
        if read == uuid then Some(Go(t, e, Verified(JobOf(t), a, answer))) else None
      case _ => None
  }

  function OAuthStep(t: Thread, e: Event): Option<Thread> {
    match (t.pc, e)
    case (OAuthDraw, DrawState(state)) => Some(Go(t, e, OAuthLoad(state)))
    case (OAuthLoad(state), LoadForAttempt(view, loadedAt)) => Some(Go(t, e, OAuthPut(state, view, loadedAt)))
    case (OAuthPut(_, _, _), PutAttempt(_, stored)) =>
      Some(Go(t, e, if stored then Replying(Served(AuthorizationUrl)) else Refuse(429, PanelAuthStateLimit)))
    case (OAuthTake(_), TakeAttempt(now, taken)) =>
      Some(Go(t, e, if taken.Some? then OAuthCheck(taken.value, now) else Refuse(403, PanelAuthDenied)))
    case (OAuthCheck(attempt, now), LoadForCheck(gen)) =>
      Some(Go(t, e, if now > attempt.expiresAt || attempt.generation != gen then Refuse(403, PanelAuthDenied) else OAuthExchange))
    case (OAuthExchange, Exchange(ok)) => Some(Go(t, e, if ok then Replying(Served(AccessToken)) else Refuse(401, PanelAuthDenied)))
    case _ => None
  }

  /** After the response or a deferred release; with nothing left to release the handler has returned. */
  function Rest(slots: seq<Slot>, mutex: Option<nat>): Pc {
    if slots == [] && mutex.None? then Done else Unwinding
  }

  function ClosingStep(t: Thread, e: Event): Option<Thread> {
    match (t.pc, e)
    case (Replying(reply), Respond(written)) => if written == reply then Some(Go(t, e, Rest(t.slots, t.mutex))) else None
    case (Unwinding, Unlock) => if t.mutex.Some? then Some(Go(t, e, Rest(t.slots, None)).(mutex := None)) else None
    case (Unwinding, Release(slot)) =>
      if t.mutex.None? && t.slots != [] && t.slots[|t.slots| - 1] == slot then
        var left := t.slots[..|t.slots| - 1];
        Some(Go(t, e, Rest(left, None)).(slots := left))
      else None
    case _ => None
  }

  /** The step a handler makes on an event; None where the event is not its next one. */
  function Advance(t: Thread, e: Event): Option<Thread> {
    match t.pc
    case Start | WantGlobal | WantVersion => EntryStep(t, e)
    case WantIp | WantIpRate | PublicForward => PublicStep(t, e)
    case WantToken | WantTokenRate | WantMutex | WantLock(_) => TokenStep(t, e)
    case Preflight(_) | ListScan(_, _) | Forwarding | Verifying(_, _) => UpstreamStep(t, e)
    case OAuthDraw | OAuthLoad(_) | OAuthPut(_, _, _) | OAuthTake(_) | OAuthCheck(_, _) | OAuthExchange => OAuthStep(t, e)
    case Replying(_) | Unwinding => ClosingStep(t, e)
    case Done => None
  }

  /** A whole run of one handler. */
  function Replay(t: Thread, log: seq<Event>): Option<Thread> {
    if log == [] then Some(t)
    else
      match Replay(t, log[..|log| - 1])
      case None => None
      case Some(before) => Advance(before, log[|log| - 1])
  }
}
