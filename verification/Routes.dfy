/** Routes as the request pipeline sees them, and the rewriting that the write-safety flags cause. */
module Routes {
  import opened KeyTables
  import opened Prelude
  import opened Config

  datatype Method = GET | POST | PATCH | PUT | DELETE | HEAD

  datatype UserVerb = DisableUser | EnableUser | ResetUserTraffic | RevokeUser

  datatype HwidVerb = CreateHwid | DeleteHwid | DeleteAllHwid

  datatype NodeVerb = DisableNode | EnableNode | RestartNode | ResetNodeTraffic

  datatype UserKey = ByUuid | ByUsername | ByTelegram

  /** The route names the code switches on. The other names on the list of reads that a read:* scope
      may open are ListedRead; every remaining name is Other. */
  datatype RouteName =
    | UserRead(key: UserKey)
    | UserList
    | UserCreate
    | UserUpdate
    | UserAction(verb: UserVerb)
    | HwidList
    | HwidWrite(hwid: HwidVerb)
    | SquadRead(isInternal: bool)
    | SquadList(ofInternal: bool)
    | PageConfigRead
    | PageConfigList
    | NodeAction(node: NodeVerb)
    | ResourceCreate(infra: Infra)
    | ResourcePatch(resource: Resource)
    | HostsBulkUpdate
    | ListedRead(name: string)
    | Other(name: string)

  /** A field allowlist; AnyField is the empty list, which is not checked. */
  datatype FieldList = AnyField | UserCreateFields | UserUpdateFields | Listed(fields: seq<string>)

  datatype Support = PolicyEnforced | Privileged | Unsupported | PublicSubscription

  datatype Route = Route(
    name: RouteName,
    verb: Method,
    pattern: string,
    support: Support,
    scopes: seq<Scope>,
    bodyObject: bool,
    bodyLimit: int,
    allowedFields: FieldList,
    requiredBoolean: string)

  /** The fields a route's body may carry. */
  function FieldsOf(list: FieldList): seq<string> {
    match list
    case AnyField => []
    case UserCreateFields => Keys(CreateFields)
    case UserUpdateFields => Keys(UpdateFields)
    case Listed(fields) => fields
  }

  predicate SafeRead(name: RouteName) {
    match name
    case UserRead(_) | UserList | HwidList | SquadRead(_) | SquadList(_) | PageConfigRead | PageConfigList => true
    case ListedRead(_) => true
    case _ => false
  }

  predicate IsRestrictedWrite(name: RouteName) {
    match name
    case UserCreate | UserUpdate | UserAction(_) | HwidWrite(_) => true
    case NodeAction(_) | ResourceCreate(_) | ResourcePatch(_) | HostsBulkUpdate => true
    case _ => false
  }

  function Enforced(route: Route, scopes: seq<Scope>): Route {
    route.(support := PolicyEnforced, scopes := scopes)
  }

  function WithBody(route: Route, limit: int): Route {
    route.(bodyObject := true, bodyLimit := limit)
  }

  function WithReadAll(route: Route): Route {
    if route.verb == GET && SafeRead(route.name) then
      var lifted := if route.support == Privileged then route.(support := PolicyEnforced) else route;
      if lifted.support == PolicyEnforced && ReadAll !in lifted.scopes then
        lifted.(scopes := lifted.scopes + [ReadAll])
      else lifted
    else route
  }

  function PatchScope(resource: Resource): Scope {
    match resource
    case Infra(ConfigProfile) => ConfigProfilesWrite
    case Infra(Host) => HostsWrite
    case Infra(Node) => NodesWrite
    case SubscriptionTemplate => SubscriptionTemplatesWrite
    case InternalSquad => InternalSquadsWrite
    case ExternalSquad => ExternalSquadsWrite
  }

  /** effectiveRoute: what the catalog's route becomes under the configuration. */
  function EffectiveRoute(cfg: Settings, catalogued: Route): Route {
    var route := WithReadAll(catalogued);
    if !WriteSafe(cfg) then route
    else
      match route.name
      case UserCreate =>
        WithBody(Enforced(route, [UsersCreate, LegacyUserWrite]), 65536).(allowedFields := UserCreateFields)
      case UserUpdate =>
        WithBody(Enforced(route, [UsersUpdate, UsersWrite, LegacyUserWrite]), 65536).(allowedFields := UserUpdateFields)
      case UserAction(_) => Enforced(route, [UsersAction, UsersWrite, LegacyUserAction])
      case HwidWrite(_) => Enforced(route, [HwidScope])
      case NodeAction(_) => Enforced(route, [NodesWrite])
      case ResourceCreate(infra) => WithBody(Enforced(route, [PatchScope(Infra(infra))]), cfg.maxBodyBytes)
      case ResourcePatch(resource) => WithBody(Enforced(route, [PatchScope(resource)]), cfg.maxBodyBytes)
      case HostsBulkUpdate => WithBody(Enforced(route, [HostsWrite]), cfg.maxBodyBytes)
      case _ => route
  }

  datatype Decision = Allow | Deny(reason: Reason)

  /** The scope gate. The token was resolved before, so it is never absent here. */
  function Decide(tok: TokenPolicy, route: Route): Decision {
    if tok.disabled then Deny(MissingToken)
    else
      match route.support
      case Unsupported => Deny(UnsupportedRoute)
      case Privileged => if HasPrivilegedScope(tok.scopes) then Allow else Deny(PrivilegedScopeRequired)
      case PolicyEnforced => if AnyScope(tok.scopes, route.scopes) then Allow else Deny(MissingScope)
      case PublicSubscription => Deny(PublicSubscriptionNotAuthenticated)
  }

  /** The loop of Decide over the route's scopes. */
  predicate AnyScope(held: seq<Scope>, wanted: seq<Scope>) {
    exists i | 0 <= i < |wanted| :: HasScope(held, wanted[i]) || HasPrivilegedScope(held)
  }

  /** Exactly who passes the gate. A policy-enforced route without scopes is closed even to privileged tokens. */
  lemma DecideExact(tok: TokenPolicy, route: Route)
    ensures Decide(tok, route).Allow? <==>
      !tok.disabled &&
      ((route.support == Privileged && HasPrivilegedScope(tok.scopes)) ||
       (route.support == PolicyEnforced && route.scopes != [] &&
        (HasPrivilegedScope(tok.scopes) || exists scope | scope in tok.scopes :: scope in route.scopes)))
  {
    if route.scopes != [] && HasPrivilegedScope(tok.scopes) {
      assert HasScope(tok.scopes, route.scopes[0]) || HasPrivilegedScope(tok.scopes);
    }
    if scope :| scope in tok.scopes && scope in route.scopes {
      var i :| 0 <= i < |route.scopes| && route.scopes[i] == scope;
      assert HasScope(tok.scopes, route.scopes[i]);
    }
  }

  /** The catalog never enforces policy on a restricted write by itself; the two write-safety flags do. */
  predicate Catalogued(route: Route) {
    (IsRestrictedWrite(route.name) ==> route.support == Privileged && route.verb != GET) &&
    (route.name == UserUpdate ==> route.verb == PATCH) && (route.name == UserCreate ==> route.verb == POST) &&
    (route.name == UserList ==> route.verb == GET && route.support == PolicyEnforced)
  }

  /** A restricted write is policy-enforced exactly when both flags are on, and a user update then carries the field allowlist. */
  lemma EffectiveWrite(cfg: Settings, route: Route)
    requires Catalogued(route) && IsRestrictedWrite(route.name)
    ensures EffectiveRoute(cfg, route).name == route.name
    ensures EffectiveRoute(cfg, route).support == (if WriteSafe(cfg) then PolicyEnforced else Privileged)
    ensures WriteSafe(cfg) && route.name == UserUpdate ==>
      EffectiveRoute(cfg, route).allowedFields == UserUpdateFields && EffectiveRoute(cfg, route).bodyObject
  {
  }

  /** The scopes that open a restricted write under write safety. */
  predicate WriteScope(name: RouteName, scope: Scope) {
    match name
    case UserCreate => scope == UsersCreate || scope == LegacyUserWrite
    case UserUpdate => scope == UsersUpdate || scope == UsersWrite || scope == LegacyUserWrite
    case UserAction(_) => scope == UsersAction || scope == UsersWrite || scope == LegacyUserAction
    case HwidWrite(_) => scope == HwidScope
    case NodeAction(_) | ResourceCreate(Node) | ResourcePatch(Infra(Node)) => scope == NodesWrite
    case ResourceCreate(ConfigProfile) | ResourcePatch(Infra(ConfigProfile)) => scope == ConfigProfilesWrite
    case HostsBulkUpdate | ResourceCreate(Host) | ResourcePatch(Infra(Host)) => scope == HostsWrite
    case ResourcePatch(SubscriptionTemplate) => scope == SubscriptionTemplatesWrite
    case ResourcePatch(InternalSquad) => scope == InternalSquadsWrite
    case ResourcePatch(ExternalSquad) => scope == ExternalSquadsWrite
    case _ => false
  }

  /** Exactly which tokens may make a restricted write: under write safety those with a scope for it, else only privileged ones. */
  lemma WhoMayWrite(cfg: Settings, route: Route, tok: TokenPolicy)
    requires Catalogued(route) && IsRestrictedWrite(route.name)
    ensures Decide(tok, EffectiveRoute(cfg, route)).Allow? <==>
      !tok.disabled &&
      (HasPrivilegedScope(tok.scopes) || (WriteSafe(cfg) && exists scope | scope in tok.scopes :: WriteScope(route.name, scope)))
  {
    hide Decide, HasPrivilegedScope;
    DecideExact(tok, EffectiveRoute(cfg, route));
    if WriteSafe(cfg) {
      WriteScopes(cfg, route);
    }
  }

  lemma WriteScopes(cfg: Settings, route: Route)
    requires Catalogued(route) && IsRestrictedWrite(route.name) && WriteSafe(cfg)
    ensures EffectiveRoute(cfg, route).scopes != []
    ensures forall scope :: scope in EffectiveRoute(cfg, route).scopes <==> WriteScope(route.name, scope)
  {
  }

  /** A restricted write that carries a body is read as one JSON object, of at most 64 KiB for a user. */
  lemma WriteBodies(cfg: Settings, route: Route)
    requires Catalogued(route) && IsRestrictedWrite(route.name) && WriteSafe(cfg)
    ensures var effective := EffectiveRoute(cfg, route);
      && (route.name == UserCreate || route.name == UserUpdate ==> effective.bodyObject && effective.bodyLimit == 65536)
      && (route.name.ResourceCreate? || route.name.ResourcePatch? || route.name == HostsBulkUpdate ==>
            effective.bodyObject && effective.bodyLimit == cfg.maxBodyBytes)
      && (route.name == UserCreate ==> effective.allowedFields == UserCreateFields)
      && (route.name == UserUpdate ==> effective.allowedFields == UserUpdateFields)
      && (route.name != UserCreate && route.name != UserUpdate ==> effective.allowedFields == route.allowedFields)
  {
  }

  /** Exactly which tokens pass the gate of any other route: those that pass it as catalogued, and on safe reads,
      also those open to privileged tokens only, the holders of read:* and of the route's own scopes. */
  lemma WhoMayRead(cfg: Settings, route: Route, tok: TokenPolicy)
    requires !IsRestrictedWrite(route.name)
    ensures Decide(tok, EffectiveRoute(cfg, route)).Allow? <==>
      || Decide(tok, route).Allow?
      || (!tok.disabled && route.verb == GET && SafeRead(route.name) && (route.support == Privileged || route.support == PolicyEnforced) &&
          (HasPrivilegedScope(tok.scopes) || exists scope | scope in tok.scopes :: scope == ReadAll || scope in route.scopes))
    ensures var effective := EffectiveRoute(cfg, route);
      effective == route.(support := effective.support, scopes := effective.scopes)
  {
    hide Decide, HasPrivilegedScope;
    DecideExact(tok, route);
    DecideExact(tok, EffectiveRoute(cfg, route));
  }

  /** What read:* opens by itself: the listed safe reads that are not closed or public, and nothing else. */
  lemma ReadAllReach(cfg: Settings, route: Route, tok: TokenPolicy)
    requires Catalogued(route) && tok.scopes == [ReadAll] && !tok.disabled && ReadAll !in route.scopes
    ensures Decide(tok, EffectiveRoute(cfg, route)).Allow? <==>
      route.verb == GET && SafeRead(route.name) && (route.support == Privileged || route.support == PolicyEnforced)
  {
    hide AnyScope;
    var effective := EffectiveRoute(cfg, route);
    OneScope(effective.scopes);
  }

  lemma OneScope(wanted: seq<Scope>)
    ensures AnyScope([ReadAll], wanted) <==> ReadAll in wanted
  {
    assert !HasPrivilegedScope([ReadAll]) && [ReadAll][0] == ReadAll;
    if AnyScope([ReadAll], wanted) {
      var i :| 0 <= i < |wanted| && HasScope([ReadAll], wanted[i]);
      assert wanted[i] == ReadAll;
    }
    if ReadAll in wanted {
      var i :| 0 <= i < |wanted| && wanted[i] == ReadAll;
      assert HasScope([ReadAll], wanted[i]);
    }
  }
}
