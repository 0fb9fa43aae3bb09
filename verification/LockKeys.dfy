/** What a lock key stands for: which restricted writes exclude each other, and which user a forwarded update names. */
module LockKeys {
  import opened KeyTables
  import opened Json
  import opened Config
  import opened Routes
  import opened BodyPolicy
  import opened Requests
  import opened Handler
  import opened Runtime

  // ================================================================ user updates

  /** The session of a user update under write safety. */
  predicate SafeUpdate(s: Session) {
    s.route.name == UserUpdate && s.route.support == PolicyEnforced && s.route.bodyObject && s.route.allowedFields == UserUpdateFields
  }

  lemma SessionIsSafe(cfg: Settings, req: Request)
    requires WriteSafe(cfg) && SessionFor(cfg, req).Some? && Catalogued(req.matched.value)
    ensures SessionFor(cfg, req).value.route.name == UserUpdate ==> SafeUpdate(SessionFor(cfg, req).value)
    ensures SessionFor(cfg, req).value.route.name == req.matched.value.name
  {
    hide Resolve;
    var route := req.matched.value;
    EffectiveName(cfg, route);
    if route.name == UserUpdate {
      EffectiveWrite(cfg, route);
    }
  }

  lemma EffectiveName(cfg: Settings, route: Route)
    ensures EffectiveRoute(cfg, route).name == route.name
  {
  }

  lemma UserUuidIsNoUpdateField()
    ensures "userUuid" !in Keys(UpdateFields) && Keys(UpdateFields) != []
  {
    assert forall k | 0 <= k < |Keys(UpdateFields)| :: Keys(UpdateFields)[k] != "userUuid" by {
      assert |"userUuid"| == 8;
    }
  }

  /** An accepted update body is decoded strictly and has no userUuid. */
  lemma AcceptedUpdate(j: Job)
    requires SafeUpdate(j.s) && BodyOutcome(j).Pass?
    ensures var payload := j.req.body.payload;
      payload.Members? && payload.closed && DistinctKeys(payload.members) && "userUuid" !in LastWins(payload.members)
  {
    hide CheckRequiredBoolean, CheckTokenFields, ValidateUserConstraints, CheckResources, Keys;
    UserUuidIsNoUpdateField();
    DecodeSucceeds(j.req.body.payload);
  }

  /** All readers of an accepted update body see the same single uuid, and the lock key depends on nothing else. */
  lemma UpdateNamesOne(j: Job)
    requires SafeUpdate(j.s) && BodyOutcome(j).Pass? && BodyString(j.req.body.payload, "uuid") != ""
    ensures LockKey(j.s.route, j.req) == "user.update:" + BodyString(j.req.body.payload, "uuid") + ":"
    ensures forall uuid | Names(j.req.body.payload, uuid) :: uuid == BodyString(j.req.body.payload, "uuid")
  {
    hide BodyOutcome, LastWins;
    AcceptedUpdate(j);
    var payload := j.req.body.payload;
    assert BodyString(payload, "userUuid") == "";
    forall uuid | Names(payload, uuid)
      ensures uuid == BodyString(payload, "uuid")
    {
      var i :| 0 <= i < |payload.members| && payload.members[i] == ("uuid", Str(uuid));
      DecodedMembers(payload.members, i);
    }
  }

  /** Two forwarded updates of the same user lock the same key. */
  lemma SameUserSameKey(a: Job, b: Job)
    requires SafeUpdate(a.s) && BodyOutcome(a).Pass? && SafeUpdate(b.s) && BodyOutcome(b).Pass?
    requires BodyString(a.req.body.payload, "uuid") == BodyString(b.req.body.payload, "uuid") != ""
    ensures LockKey(a.s.route, a.req) == LockKey(b.s.route, b.req)
  {
    hide BodyOutcome, LockKey, BodyString, SafeUpdate;
    UpdateNamesOne(a);
    UpdateNamesOne(b);
  }

  /** Locks are per route: an update of a user never shares its key with a restricted write on another
      route, so the two may run at the same time. */
  lemma OtherRoutesLockApart(update: Route, other: Route, a: Request, b: Request)
    requires update.name == UserUpdate && other.name != UserUpdate && IsRestrictedWrite(other.name)
    ensures LockKey(update, a) != LockKey(other, b)
  {
    hide BodyString;
    var x, y := LockKey(update, a), LockKey(other, b);
    assert x[..12] == "user.update:" && x[5] == 'u' && x[0] == 'u' && x[4] == '.';
    match other.name
    case UserCreate => assert y[4] == ':';
    case UserAction(_) => assert y[5] == 'a';
    case HwidWrite(_) => assert y[0] == 'h';
    case NodeAction(_) => assert y[0] == 'p';
    case ResourceCreate(_) => assert y[0] == 'p';
    case ResourcePatch(_) => assert y[0] == 'p';
    case HostsBulkUpdate => assert y[0] == 'p';
    case _ =>
  }

  // ====================================================== every restricted write

  /** The part of a key before its first colon; it stands for one route. */
  function Head(name: RouteName): string {
    match name
    case UserCreate => "user"
    case UserUpdate => "user.update"
    case HwidWrite(verb) => HwidName(verb)
    case _ => RestName(name)
  }

  /** The rest of the key: what is locked on that route. */
  function Tail(name: RouteName, req: Request): string {
    match name
    case UserCreate => "create:" + BodyString(req.body.payload, "username")
    case UserUpdate | HwidWrite(_) => BodyString(req.body.payload, "uuid") + ":" + BodyString(req.body.payload, "userUuid")
    case _ => req.path
  }

  lemma KeyParts(route: Route, req: Request)
    ensures LockKey(route, req) == Head(route.name) + ":" + Tail(route.name, req)
  {
    if route.name == UserCreate {
      assert "user:create:" == "user" + ":" + "create:";
    } else if route.name == UserUpdate {
      assert "user.update:" == "user.update" + ":";
    }
  }

  lemma {:induction false} CutsAgree(p: string, q: string, s: string, t: string)
    requires ':' !in p && ':' !in q
    ensures p + ":" + s == q + ":" + t <==> p == q && s == t
  {
    var a, b := p + ":" + s, q + ":" + t;
    assert |p| < |q| ==> a[|p|] == ':' != q[|p|] == b[|p|];
    assert |q| < |p| ==> b[|q|] == ':' != p[|q|] == a[|q|];
    if a == b {
      assert p == a[..|p|] && q == b[..|q|];
      assert s == a[|p| + 1..] && t == b[|q| + 1..];
    }
  }

  // ------------------------------------------------------------ route names

  function Number(name: RouteName): nat {
    match name
    case UserCreate => 0
    case UserUpdate => 1
    case HwidWrite(CreateHwid) => 2
    case HwidWrite(DeleteHwid) => 3
    case HwidWrite(DeleteAllHwid) => 4
    case UserAction(DisableUser) => 5
    case UserAction(EnableUser) => 6
    case UserAction(ResetUserTraffic) => 7
    case UserAction(RevokeUser) => 8
    case NodeAction(DisableNode) => 9
    case NodeAction(EnableNode) => 10
    case NodeAction(RestartNode) => 11
    case NodeAction(ResetNodeTraffic) => 12
    case ResourceCreate(ConfigProfile) => 13
    case ResourceCreate(Host) => 14
    case ResourceCreate(Node) => 15
    case ResourcePatch(Infra(ConfigProfile)) => 16
    case ResourcePatch(Infra(Host)) => 17
    case ResourcePatch(Infra(Node)) => 18
    case ResourcePatch(SubscriptionTemplate) => 19
    case ResourcePatch(InternalSquad) => 20
    case ResourcePatch(ExternalSquad) => 21
    case HostsBulkUpdate => 22
    case _ => 23
  }

  /** A route's number, read off its spelling. */
  function NumberOf(h: string): nat {
    if |h| == 4 then 0
    else if |h| == 10 then if h[5] == 'h' then 14 else 15
    else if |h| == 11 then
      if h[0] == 'u' then 1
      else if h[0] == 'h' then if h[5] == 'c' then 2 else 3
      else if h[6] == 'h' then 17 else 18
    else if |h| == 15 then 4
    else if |h| == 19 then if h[13] == 'e' then 6 else 8
    else if |h| == 20 then if h[0] == 'u' then 5 else 13
    else if |h| == 21 then if h[6] == 'c' then 16 else if h[6] == 'i' then 20 else 21
    else if |h| == 23 then 22
    else if |h| == 26 then 7
    else if |h| == 28 then 19
    else if |h| == 30 then 10
    else if |h| == 31 then if h[24] == 'd' then 9 else 11
    else 12
  }

  lemma HeadTells(name: RouteName)
    requires IsRestrictedWrite(name)
    ensures NumberOf(Head(name)) == Number(name)
  {
  }

  lemma NumbersDiffer(a: RouteName, b: RouteName)
    requires IsRestrictedWrite(a) && IsRestrictedWrite(b) && Number(a) == Number(b)
    ensures a == b
  {
  }

  lemma HeadIsPlain(name: RouteName)
    requires IsRestrictedWrite(name)
    ensures ':' !in Head(name)
  {
    hide HwidName, RestName;
    match name
    case HwidWrite(verb) => PlainHwid(verb);
    case UserAction(verb) => PlainUserAction(verb);
    case NodeAction(verb) => PlainNodeAction(verb);
    case ResourceCreate(infra) => PlainCreate(infra);
    case ResourcePatch(resource) => PlainPatch(resource);
    case _ => PlainRest();
  }

  lemma PlainHwid(verb: HwidVerb)
    ensures ':' !in HwidName(verb)
  {
  }

  lemma PlainUserAction(verb: UserVerb)
    ensures ':' !in RestName(UserAction(verb))
  {
  }

  lemma PlainNodeAction(verb: NodeVerb)
    ensures ':' !in RestName(NodeAction(verb))
  {
  }

  lemma PlainCreate(infra: Infra)
    ensures ':' !in RestName(ResourceCreate(infra))
  {
  }

  lemma PlainPatch(resource: Resource)
    ensures ':' !in RestName(ResourcePatch(resource))
  {
  }

  lemma PlainRest()
    ensures ':' !in RestName(HostsBulkUpdate)
  {
  }

  /** What a restricted write locks on its route: a user name for a create, the named ids for an update or a
      device write, the path for everything else. */
  predicate SharesTarget(name: RouteName, a: Request, b: Request) {
    match name
    case UserCreate => BodyString(a.body.payload, "username") == BodyString(b.body.payload, "username")
    case UserUpdate | HwidWrite(_) =>
      BodyString(a.body.payload, "uuid") + ":" + BodyString(a.body.payload, "userUuid") ==
      BodyString(b.body.payload, "uuid") + ":" + BodyString(b.body.payload, "userUuid")
    case _ => a.path == b.path
  }

  /** Two restricted writes lock one key exactly when they are on one route and have the same target there. */
  lemma KeysMean(r: Route, a: Request, q: Route, b: Request)
    requires IsRestrictedWrite(r.name) && IsRestrictedWrite(q.name)
    ensures LockKey(r, a) == LockKey(q, b) <==> r.name == q.name && SharesTarget(r.name, a, b)
  {
    hide LockKey, Head, Tail, IsRestrictedWrite, SharesTarget, NumberOf, Number;
    KeyParts(r, a);
    KeyParts(q, b);
    HeadIsPlain(r.name);
    HeadIsPlain(q.name);
    CutsAgree(Head(r.name), Head(q.name), Tail(r.name, a), Tail(q.name, b));
    HeadTells(r.name);
    HeadTells(q.name);
    if Head(r.name) == Head(q.name) {
      NumbersDiffer(r.name, q.name);
      TailMeans(r.name, a, b);
    } else {
      assert r.name != q.name;
    }
  }

  lemma TailMeans(name: RouteName, a: Request, b: Request)
    requires IsRestrictedWrite(name)
    ensures Tail(name, a) == Tail(name, b) <==> SharesTarget(name, a, b)
  {
    hide BodyString;
    if name == UserCreate {
      var x, y := BodyString(a.body.payload, "username"), BodyString(b.body.payload, "username");
      assert ("create:" + x)[7..] == x && ("create:" + y)[7..] == y;
    }
  }
}
