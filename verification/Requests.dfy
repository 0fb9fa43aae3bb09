/** What the request handler knows about a request, and the records it works with. */
module Requests {
  import opened Prelude
  import opened Config
  import opened Routes
  import opened Upstream
  import opened BodyPolicy

  /** The Authorization header, after parsing. A gateway token carries its credential id and the
      digest of its secret; a panel token the actor its session names, if the session is valid now. */
  datatype Presented =
    | NoHeader
    | NotBearer
    | GatewayToken(credentialId: string, digest: string)
    | BrokenGatewayToken
    | PanelToken(actor: Option<string>)

  /** Which part of the panel's auth facade the path addresses, with the decoded body of the call. */
  datatype AuthTarget =
    | NoAuthPath
    | AuthStatus
    | AuthAuthorize(telegram: bool)
    | AuthCallback(wellFormed: bool, cookieMatches: bool, state: string)
    | AuthOther

  datatype Request = Request(
    verb: Method,
    path: string,
    segments: seq<string>,
    rawFault: Option<Reason>,
    matched: Option<Route>,
    routeKeys: seq<string>,
    queryFault: Option<Reason>,
    query: map<string, string>,
    presented: Presented,
    auth: AuthTarget,
    body: BodyRequest,
    publicFault: Option<(int, Reason)>,
    ip: string)

  /** The runtime state loaded when the request arrived: its generation and settings. */
  datatype View = View(gen: nat, cfg: Settings)

  /** An authenticated request: the route as policy sees it, the token, and whether a panel context is set. */
  datatype Session = Session(route: Route, tok: TokenPolicy, panel: bool)

  /** Answers the gateway makes up itself. */
  datatype LocalPage = AuthStatusPage | AuthorizationUrl | AccessToken | PanelSettings

  datatype Reply =
    | Refused(status: int, reason: Reason)
    | Served(what: LocalPage)
    | Relayed(answer: Answer)

  /** A semaphore of one generation. */
  datatype Slot = GlobalSlot(gen: nat) | TokenSlot(gen: nat, token: string) | IpSlot(gen: nat, ip: string)

  /** A pending OAuth login. `loadedAt` is history: how many runtime states had been installed when
      the authorize handler loaded its state. */
  datatype Attempt = Attempt(expiresAt: int, generation: nat, loadedAt: nat)

  function Segment(req: Request, k: nat): string {
    if k < |req.segments| then req.segments[k] else ""
  }

  /** A panel context is set for every bearer token that is not in the gateway's own form. */
  predicate PanelContext(cfg: Settings, req: Request) {
    cfg.panelFacade && req.presented.PanelToken?
  }

  predicate Oversized(cfg: Settings, req: Request) {
    req.body.size > cfg.maxBodyBytes
  }

  /** lockKey. */
  function LockKey(route: Route, req: Request): string {
    match route.name
    case UserCreate => "user:create:" + BodyString(req.body.payload, "username")
    case UserUpdate => "user.update:" + BodyString(req.body.payload, "uuid") + ":" + BodyString(req.body.payload, "userUuid")
    case HwidWrite(verb) =>
      HwidName(verb) + ":" + BodyString(req.body.payload, "uuid") + ":" + BodyString(req.body.payload, "userUuid")
    case name => RestName(name) + ":" + req.path
  }

  function HwidName(verb: HwidVerb): string {
    match verb
    case CreateHwid => "hwid.create"
    case DeleteHwid => "hwid.delete"
    case DeleteAllHwid => "hwid.delete_all"
  }

  /** Spelling of the other names that are locked by path. */
  function RestName(name: RouteName): string {
    match name
    case UserAction(DisableUser) => "user.actions.disable"
    case UserAction(EnableUser) => "user.actions.enable"
    case UserAction(ResetUserTraffic) => "user.actions.reset_traffic"
    case UserAction(RevokeUser) => "user.actions.revoke"
    case NodeAction(DisableNode) => "post.nodes.uuid.actions.disable"
    case NodeAction(EnableNode) => "post.nodes.uuid.actions.enable"
    case NodeAction(RestartNode) => "post.nodes.uuid.actions.restart"
    case NodeAction(ResetNodeTraffic) => "post.nodes.uuid.actions.reset_traffic"
    case ResourceCreate(ConfigProfile) => "post.config_profiles"
    case ResourceCreate(Host) => "post.hosts"
    case ResourceCreate(Node) => "post.nodes"
    case ResourcePatch(Infra(ConfigProfile)) => "patch.config_profiles"
    case ResourcePatch(Infra(Host)) => "patch.hosts"
    case ResourcePatch(Infra(Node)) => "patch.nodes"
    case ResourcePatch(SubscriptionTemplate) => "patch.subscription_templates"
    case ResourcePatch(InternalSquad) => "patch.internal_squads"
    case ResourcePatch(ExternalSquad) => "patch.external_squads"
    case HostsBulkUpdate => "patch.hosts.bulk.update"
    case ListedRead(spelling) => spelling
    case Other(spelling) => spelling
    case _ => ""
  }
}
