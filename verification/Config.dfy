/** The part of the configuration that request handling and the token commands read. */
module Config {

  /** A configured pattern: absent, not compilable, or the set of strings it matches. */
  datatype Regex = NoRegex | BadRegex | Regex(matches: string -> bool)

  datatype Infra = ConfigProfile | Host | Node

  /** What a restricted write other than a user write may touch. */
  datatype Resource = Infra(infra: Infra) | SubscriptionTemplate | InternalSquad | ExternalSquad

  datatype ResourceRule = ResourceRule(allowed: seq<string>, allowAll: bool)

  datatype IdRange = IdRange(min: int, max: int)

  datatype Constraints = Constraints(
    usernamePrefix: string,
    usernameSuffix: string,
    usernameContains: string,
    usernameRegex: Regex,
    emailContains: string,
    emailDomains: seq<string>,
    telegramIdRanges: seq<IdRange>,
    allowedInternalSquads: seq<string>,
    allowedExternalSquads: seq<string>,
    allowedUsers: seq<string>,
    allowedPageConfigs: seq<string>,
    resources: map<Resource, ResourceRule>,
    maxTrafficLimitBytes: int,
    forbidUnlimitedTraffic: bool,
    maxDescriptionLength: int,
    allowedRequestFields: map<string, seq<string>>)

  /** The scopes the configuration check knows. */
  datatype Scope =
    | ReadAll | UsersRead | UsersCreate | UsersUpdate | UsersAction | UsersWrite | LegacyUserRead
    | LegacyUserWrite | LegacyUserAction | HwidRead | HwidScope | SquadsRead | LegacySquadRead
    | ConfigProfilesWrite | HostsWrite | NodesWrite | SubscriptionTemplatesWrite | InternalSquadsWrite
    | ExternalSquadsWrite | SystemRead | MetadataRead | SubscriptionsRead | SubscriptionRead
    | SubscriptionPagesRead | SubscriptionPagesWrite | RemnawaveAll | PrivilegedAll

  datatype Credential = Credential(id: string, digest: string, disabled: bool)

  datatype TokenPolicy = TokenPolicy(
    id: string,
    credentials: seq<Credential>,
    scopes: seq<Scope>,
    disabled: bool,
    constraints: Constraints)

  /** Only infrastructure resources have an allow-all switch. */
  function RuleFor(c: Constraints, resource: Resource): ResourceRule {
    var rule := if resource in c.resources then c.resources[resource] else ResourceRule([], false);
    if resource.Infra? then rule else rule.(allowAll := false)
  }

  /** The settings a running generation reads. */
  datatype Settings = Settings(
    tokens: seq<TokenPolicy>,
    assumeVersion: string,
    remnawaveVersion: string,
    allowVersionMismatch: bool,
    globalConcurrency: int,
    perTokenConcurrency: int,
    perIpConcurrency: int,
    maxBodyBytes: int,
    restrictedWrites: bool,
    singleWriter: bool,
    publicSubs: bool,
    panelFacade: bool,
    actors: map<string, string>,
    authMaxAge: int,
    reportEnabled: bool,
    unsafeReportProxy: bool)

  /** Both flags that turn restricted writes on. */
  predicate WriteSafe(cfg: Settings) {
    cfg.restrictedWrites && cfg.singleWriter
  }

  predicate HasScope(scopes: seq<Scope>, want: Scope) {
    want in scopes
  }

  predicate HasPrivilegedScope(scopes: seq<Scope>) {
    HasScope(scopes, RemnawaveAll) || HasScope(scopes, PrivilegedAll)
  }
}
