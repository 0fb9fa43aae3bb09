/** What a request body must be like to be forwarded, member by member. */
module BodyFacts {
  import opened KeyTables
  import opened Prelude
  import opened Json
  import opened Config
  import opened Routes
  import opened Remnawave
  import opened OwnerFacts
  import opened BodyPolicy

  // -------------------------------------------------------------- user fields

  /** The member, if there is one, is null or a string of this kind. */
  predicate NullOrString(fields: map<string, Json>, key: string, fits: string -> bool) {
    key in fields ==> fields[key].Null? || (fields[key].Str? && fits(fields[key].s))
  }

  /** A null username counts as the empty one. */
  ghost predicate UsernameGiven(fields: map<string, Json>, c: Constraints) {
    "username" in fields ==>
      || (fields["username"].Null? && UsernameFits(c, ""))
      || (fields["username"].Str? && UsernameFits(c, fields["username"].s))
  }

  ghost predicate EmailGiven(fields: map<string, Json>, c: Constraints) {
    "email" in fields ==> fields["email"].Null? || (fields["email"].Str? && EmailFits(c, fields["email"].s))
  }

  predicate TelegramGiven(fields: map<string, Json>, c: Constraints, key: string) {
    key in fields ==>
      fields[key].Null? ||
      (fields[key].Num? && fields[key].n.Int? && FitsInt64(fields[key].n.value) && TelegramFits(c, fields[key].n.value))
  }

  /** An integer of 64 bits, plain or in quotes. */
  predicate IsLimit(v: Json, limit: int) {
    FitsInt64(limit) &&
    (v == Num(Int(limit)) || (v.Str? && IsNumberLiteral(v.s) && DecimalValue(v.s) == Some(limit)))
  }

  ghost predicate TrafficGiven(fields: map<string, Json>, c: Constraints) {
    "trafficLimitBytes" in fields ==>
      exists limit :: IsLimit(fields["trafficLimitBytes"], limit) &&
        (c.forbidUnlimitedTraffic ==> limit > 0) && (c.maxTrafficLimitBytes > 0 ==> limit <= c.maxTrafficLimitBytes)
  }

  /** A listed squad is null, or a string that is empty or allowed. */
  predicate SquadString(v: Json, allowed: seq<string>) {
    v.Null? || (v.Str? && (v.s == "" || v.s in allowed))
  }

  /** A listed squad is null, or an object whose uuid is absent, null, empty or allowed. */
  predicate SquadObject(v: Json, allowed: seq<string>) {
    v.Null? || (v.Obj? && ("uuid" in v.fields ==> SquadString(v.fields["uuid"], allowed)))
  }

  predicate InternalGiven(fields: map<string, Json>, c: Constraints) {
    "activeInternalSquads" in fields && c.allowedInternalSquads != [] ==>
      var v, allowed := fields["activeInternalSquads"], c.allowedInternalSquads;
      v.Null? ||
      (v.Arr? && ((forall i | 0 <= i < |v.items| :: SquadString(v.items[i], allowed)) ||
                  (forall i | 0 <= i < |v.items| :: SquadObject(v.items[i], allowed))))
  }

  /** The id, under each of its spellings, is absent, null, empty or allowed. */
  predicate IdGiven(fields: map<string, Json>, keys: seq<string>, allowed: seq<string>) {
    allowed != [] ==> forall i | 0 <= i < |keys| :: keys[i] in fields ==> SquadString(fields[keys[i]], allowed)
  }

  ghost predicate UserFieldsFit(fields: map<string, Json>, c: Constraints) {
    && UsernameGiven(fields, c) && EmailGiven(fields, c)
    && TelegramGiven(fields, c, "telegramId") && TelegramGiven(fields, c, "telegram_id")
    && (c.maxDescriptionLength > 0 ==> NullOrString(fields, "description", text => |text| <= c.maxDescriptionLength))
    && TrafficGiven(fields, c) && InternalGiven(fields, c)
    && IdGiven(fields, ["externalSquadUuid", "external_squad_uuid"], c.allowedExternalSquads)
    && IdGiven(fields, ["subscriptionPageConfigUuid", "subscriptionPageConfigUUID", "subscription_page_config_uuid"], c.allowedPageConfigs)
  }

  // ---------------------------------------------------------------- resources

  /** The token may write this resource. The allow-all switch works for infrastructure only. */
  predicate Permits(c: Constraints, resource: Resource, uuid: string) {
    uuid != "" && resource in c.resources &&
    (uuid in c.resources[resource].allowed || (resource.Infra? && c.resources[resource].allowAll))
  }

  predicate NamesPermitted(v: Json, c: Constraints, resource: Resource) {
    v.Str? && Permits(c, resource, v.s)
  }

  /** The resource named under uuid, or where that is neither a string nor null, under id, is permitted. */
  predicate PatchFits(fields: map<string, Json>, c: Constraints, resource: Resource) {
    if "uuid" in fields && (fields["uuid"].Str? || fields["uuid"].Null?) then NamesPermitted(fields["uuid"], c, resource)
    else "id" in fields && NamesPermitted(fields["id"], c, resource)
  }

  predicate CreateFits(c: Constraints, infra: Infra) {
    Infra(infra) in c.resources && c.resources[Infra(infra)].allowAll
  }

  predicate BulkFits(fields: map<string, Json>, c: Constraints) {
    "uuids" in fields && fields["uuids"].Arr? && fields["uuids"].items != [] &&
    forall i | 0 <= i < |fields["uuids"].items| :: NamesPermitted(fields["uuids"].items[i], c, Infra(Host))
  }

  // ---------------------------------------------------------------- the body

  /** The first of the route's keys that the token has an allowlist for decides. */
  predicate OwnFieldsFit(fields: map<string, Json>, tok: TokenPolicy, routeKeys: seq<string>) {
    forall k | 0 <= k < |routeKeys| ::
      var lists := tok.constraints.allowedRequestFields;
      routeKeys[k] in lists && (forall m | 0 <= m < k :: routeKeys[m] !in lists) ==>
        forall key | key in fields :: key in lists[routeKeys[k]]
  }

  predicate OnUsers(name: RouteName) {
    name.UserRead? || name == UserList || name == UserCreate || name == UserUpdate || name.UserAction? ||
    (name.Other? && Starts(name.name, "user."))
  }

  /** What the decoded object must be like. */
  ghost predicate MembersFit(fields: map<string, Json>, route: Route, tok: TokenPolicy, routeKeys: seq<string>) {
    && (FieldsOf(route.allowedFields) != [] ==> forall key | key in fields :: key in FieldsOf(route.allowedFields))
    && (route.requiredBoolean != "" ==> route.requiredBoolean in fields && fields[route.requiredBoolean].Bool?)
    && OwnFieldsFit(fields, tok, routeKeys)
    && (OnUsers(route.name) ==> UserFieldsFit(fields, tok.constraints))
    && (route.name.ResourcePatch? ==> PatchFits(fields, tok.constraints, route.name.resource))
    && (route.name.ResourceCreate? ==> CreateFits(tok.constraints, route.name.infra))
    && (route.name.HostsBulkUpdate? ==> BulkFits(fields, tok.constraints))
    && (route.name.HwidWrite? ==> "userUuid" in fields)
  }

  /** Routes whose body is not looked at. */
  predicate Exempt(route: Route) {
    (route.support == Privileged && route.requiredBoolean == "") || !route.bodyObject
  }

  /** The body is JSON as it stands, not too large, and one complete object without repeated keys. */
  predicate WellSent(cfg: Settings, route: Route, req: BodyRequest) {
    && req.jsonContent && !req.encoded
    && req.size <= cfg.maxBodyBytes && (route.bodyLimit > 0 ==> req.size <= route.bodyLimit)
    && req.payload.Members? && req.payload.closed
    && forall i, j | 0 <= i < j < |req.payload.members| :: req.payload.members[i].0 != req.payload.members[j].0
  }

  // -------------------------------------------------------------------- proofs

  lemma UsernameGivenMeans(fields: map<string, Json>, c: Constraints)
    ensures CheckUsername(fields, c).Pass? <==> UsernameGiven(fields, c)
  {
    hide UsernameFits, ValidateUsername;
    UsernameMeans(c, "");
    if "username" in fields && fields["username"].Str? {
      UsernameMeans(c, fields["username"].s);
    }
  }

  lemma EmailGivenMeans(fields: map<string, Json>, c: Constraints)
    ensures CheckEmail(fields, c).Pass? <==> EmailGiven(fields, c)
  {
    hide EmailFits, ValidateEmail;
    if "email" in fields && fields["email"].Str? {
      EmailMeans(c, fields["email"].s);
    }
  }

  lemma TelegramGivenMeans(fields: map<string, Json>, c: Constraints, key: string)
    ensures CheckTelegram(fields, c, key).Pass? <==> TelegramGiven(fields, c, key)
  {
  }

  lemma LimitMeans(v: Json, limit: int)
    ensures AsTrafficLimit(v) == Some(limit) <==> IsLimit(v, limit)
  {
    hide IsNumberLiteral, DecimalValue;
  }

  lemma TrafficGivenMeans(fields: map<string, Json>, c: Constraints)
    ensures CheckTraffic(fields, c).Pass? <==> TrafficGiven(fields, c)
  {
    hide IsLimit, AsTrafficLimit;
    if "trafficLimitBytes" in fields {
      var v := fields["trafficLimitBytes"];
      forall limit
        ensures AsTrafficLimit(v) == Some(limit) <==> IsLimit(v, limit)
      {
        LimitMeans(v, limit);
      }
      if AsTrafficLimit(v).Some? {
        assert IsLimit(v, AsTrafficLimit(v).value);
      }
    }
  }

  lemma {:induction false} StringsMean(items: seq<Json>, allowed: seq<string>)
    ensures IdsOf(items).Ok? <==> forall i | 0 <= i < |items| :: items[i].Str? || items[i].Null?
    ensures IdsOf(items).Ok? && SquadsAllowed(IdsOf(items).value, allowed) <==> forall i | 0 <= i < |items| :: SquadString(items[i], allowed)
  {
    if items != [] {
      StringsMean(items[1..], allowed);
      StringsStep(items, allowed);
    }
  }

  lemma StringsStep(items: seq<Json>, allowed: seq<string>)
    requires items != []
    ensures IdsOf(items).Ok? <==> (items[0].Str? || items[0].Null?) && IdsOf(items[1..]).Ok?
    ensures IdsOf(items).Ok? && SquadsAllowed(IdsOf(items).value, allowed) <==>
      SquadString(items[0], allowed) && IdsOf(items[1..]).Ok? && SquadsAllowed(IdsOf(items[1..]).value, allowed)
    ensures (forall i | 0 <= i < |items| :: SquadString(items[i], allowed)) <==>
      SquadString(items[0], allowed) && forall i | 0 <= i < |items[1..]| :: SquadString(items[1..][i], allowed)
    ensures (forall i | 0 <= i < |items| :: items[i].Str? || items[i].Null?) <==>
      (items[0].Str? || items[0].Null?) && forall i | 0 <= i < |items[1..]| :: items[1..][i].Str? || items[1..][i].Null?
  {
    if IdsOf(items).Ok? {
      OneMoreAllowed(IdsOf(items).value[0], IdsOf(items[1..]).value, allowed);
    }
  }

  lemma OneMoreAllowed(id: string, rest: seq<string>, allowed: seq<string>)
    ensures SquadsAllowed([id] + rest, allowed) <==> (id == "" || id in allowed) && SquadsAllowed(rest, allowed)
  {
    var all := [id] + rest;
    assert all[0] == id && forall i | 0 <= i < |rest| :: all[i + 1] == rest[i];
  }

  lemma {:induction false} ObjectsMean(items: seq<Json>, allowed: seq<string>)
    ensures RefIdsOf(items).Ok? && SquadsAllowed(RefIdsOf(items).value, allowed) <==>
      forall i | 0 <= i < |items| :: SquadObject(items[i], allowed)
  {
    if items != [] {
      ObjectsMean(items[1..], allowed);
      ObjectsStep(items, allowed);
    }
  }

  lemma ObjectsStep(items: seq<Json>, allowed: seq<string>)
    requires items != []
    ensures RefIdsOf(items).Ok? && SquadsAllowed(RefIdsOf(items).value, allowed) <==>
      SquadObject(items[0], allowed) && RefIdsOf(items[1..]).Ok? && SquadsAllowed(RefIdsOf(items[1..]).value, allowed)
    ensures (forall i | 0 <= i < |items| :: SquadObject(items[i], allowed)) <==>
      SquadObject(items[0], allowed) && forall i | 0 <= i < |items[1..]| :: SquadObject(items[1..][i], allowed)
  {
    if RefIdsOf(items).Ok? {
      OneMoreAllowed(RefIdsOf(items).value[0], RefIdsOf(items[1..]).value, allowed);
    }
  }

  lemma InternalGivenMeans(fields: map<string, Json>, c: Constraints)
    ensures CheckInternalSquads(fields, c).Pass? <==> InternalGiven(fields, c)
  {
    hide SquadString, SquadObject, SquadsAllowed, IdsOf, RefIdsOf;
    if "activeInternalSquads" in fields && fields["activeInternalSquads"].Arr? {
      var items := fields["activeInternalSquads"].items;
      StringsMean(items, c.allowedInternalSquads);
      ObjectsMean(items, c.allowedInternalSquads);
      StringsOrObjects(items, c.allowedInternalSquads);
    }
    NoSquads(c.allowedInternalSquads);
  }

  lemma NoSquads(allowed: seq<string>)
    ensures SquadsAllowed([], allowed)
  {
  }

  /** A list of strings that are not all allowed holds no object only. */
  lemma StringsOrObjects(items: seq<Json>, allowed: seq<string>)
    ensures (forall i | 0 <= i < |items| :: (items[i].Str? || items[i].Null?) && SquadObject(items[i], allowed)) ==>
      forall i | 0 <= i < |items| :: SquadString(items[i], allowed)
  {
  }

  lemma IdPasses(fields: map<string, Json>, key: string, allowed: seq<string>, invalid: Reason, denied: Reason)
    requires key in fields ==> SquadString(fields[key], allowed)
    ensures CheckId(fields, key, allowed, invalid, denied) == Pass
  {
  }

  lemma IdFails(fields: map<string, Json>, key: string, allowed: seq<string>, invalid: Reason, denied: Reason)
    requires key in fields && !SquadString(fields[key], allowed)
    ensures CheckId(fields, key, allowed, invalid, denied).Fail?
  {
  }

  lemma {:induction false} IdsPass(fields: map<string, Json>, keys: seq<string>, allowed: seq<string>, invalid: Reason, denied: Reason)
    requires forall i | 0 <= i < |keys| :: keys[i] in fields ==> SquadString(fields[keys[i]], allowed)
    ensures CheckIds(fields, keys, allowed, invalid, denied) == Pass
  {
    hide CheckId, SquadString;
    if keys != [] {
      IdPasses(fields, keys[0], allowed, invalid, denied);
      IdsPass(fields, keys[1..], allowed, invalid, denied);
    }
  }

  lemma IdsMean(fields: map<string, Json>, keys: seq<string>, allowed: seq<string>, invalid: Reason, denied: Reason)
    ensures CheckIds(fields, keys, allowed, invalid, denied).Pass? <==>
      forall i | 0 <= i < |keys| :: keys[i] in fields ==> SquadString(fields[keys[i]], allowed)
  {
    hide CheckId, CheckIds, SquadString;
    if forall i | 0 <= i < |keys| :: keys[i] in fields ==> SquadString(fields[keys[i]], allowed) {
      IdsPass(fields, keys, allowed, invalid, denied);
    } else {
      var i :| 0 <= i < |keys| && keys[i] in fields && !SquadString(fields[keys[i]], allowed);
      IdFails(fields, keys[i], allowed, invalid, denied);
    }
  }

  lemma ExternalGivenMeans(fields: map<string, Json>, c: Constraints)
    ensures CheckExternalSquads(fields, c).Pass? <==> IdGiven(fields, ["externalSquadUuid", "external_squad_uuid"], c.allowedExternalSquads)
  {
    hide CheckIds, SquadString;
    IdsMean(fields, Keys(ExternalSquadKeys), c.allowedExternalSquads, InvalidExternalSquad, ExternalSquadDenied);
  }

  lemma PageConfigGivenMeans(fields: map<string, Json>, c: Constraints)
    ensures CheckPageConfigs(fields, c).Pass? <==>
      IdGiven(fields, ["subscriptionPageConfigUuid", "subscriptionPageConfigUUID", "subscription_page_config_uuid"], c.allowedPageConfigs)
  {
    hide CheckIds, SquadString;
    IdsMean(fields, Keys(PageConfigKeys), c.allowedPageConfigs, InvalidSubscriptionPageConfig, SubscriptionPageConfigDenied);
  }

  lemma DescriptionMeans(fields: map<string, Json>, c: Constraints)
    ensures CheckDescription(fields, c).Pass? <==>
      (c.maxDescriptionLength > 0 ==> NullOrString(fields, "description", text => |text| <= c.maxDescriptionLength))
  {
  }

  /** For every object and token: exactly when the constraints on user fields pass. */
  lemma UserConstraintsMean(fields: map<string, Json>, c: Constraints)
    ensures ValidateUserConstraints(fields, c).Pass? <==> UserFieldsFit(fields, c)
  {
    hide CheckUsername, CheckEmail, CheckTelegram, CheckDescription, CheckTraffic, CheckInternalSquads, CheckExternalSquads,
      CheckPageConfigs, UsernameGiven, EmailGiven, TelegramGiven, TrafficGiven, InternalGiven, IdGiven, NullOrString;
    UsernameGivenMeans(fields, c);
    EmailGivenMeans(fields, c);
    TelegramGivenMeans(fields, c, "telegramId");
    TelegramGivenMeans(fields, c, "telegram_id");
    DescriptionMeans(fields, c);
    TrafficGivenMeans(fields, c);
    InternalGivenMeans(fields, c);
    ExternalGivenMeans(fields, c);
    PageConfigGivenMeans(fields, c);
  }

  lemma PermitMeans(c: Constraints, resource: Resource, uuid: string, denied: Reason)
    ensures RequireAllowedUuid(uuid, RuleFor(c, resource), denied).Pass? <==> Permits(c, resource, uuid)
  {
  }

  lemma PatchMeans(fields: map<string, Json>, c: Constraints, resource: Resource)
    ensures CheckResources(fields, ResourcePatch(resource), c).Pass? <==> PatchFits(fields, c, resource)
  {
    hide RequireAllowedUuid, RuleFor, Permits;
    PermitMeans(c, resource, ObjectUuidFromRaw(fields), DeniedReason(resource));
    NothingPermitted(c, resource);
  }

  lemma NothingPermitted(c: Constraints, resource: Resource)
    ensures !Permits(c, resource, "")
  {
  }

  lemma CreateMeans(fields: map<string, Json>, c: Constraints, infra: Infra)
    ensures CheckResources(fields, ResourceCreate(infra), c).Pass? <==> CreateFits(c, infra)
  {
  }

  lemma {:induction false} AllMean(uuids: seq<string>, c: Constraints, resource: Resource, denied: Reason)
    ensures RequireAllAllowed(uuids, RuleFor(c, resource), denied).Pass? <==> forall i | 0 <= i < |uuids| :: Permits(c, resource, uuids[i])
  {
    hide RequireAllowedUuid, RuleFor, Permits;
    if uuids != [] {
      PermitMeans(c, resource, uuids[0], denied);
      AllMean(uuids[1..], c, resource, denied);
      assert forall i | 0 <= i < |uuids[1..]| :: uuids[1..][i] == uuids[i + 1];
      assert forall i | 0 < i < |uuids| :: uuids[i] == uuids[1..][i - 1];
    }
  }

  /** The ids read from a list of strings and nulls, in their order; a null is an empty id. */
  lemma {:induction false} IdsInOrder(items: seq<Json>)
    requires IdsOf(items).Ok?
    ensures |IdsOf(items).value| == |items|
    ensures forall i | 0 <= i < |items| ::
      (items[i].Str? && IdsOf(items).value[i] == items[i].s) || (items[i].Null? && IdsOf(items).value[i] == "")
  {
    if items != [] {
      IdsInOrder(items[1..]);
    }
  }

  lemma BulkMeans(fields: map<string, Json>, c: Constraints)
    ensures CheckResources(fields, HostsBulkUpdate, c).Pass? <==> BulkFits(fields, c)
  {
    hide RequireAllAllowed, RuleFor, Permits, IdsOf;
    NothingPermitted(c, Infra(Host));
    if "uuids" in fields && fields["uuids"].Arr? {
      var items := fields["uuids"].items;
      StringsMean(items, []);
      if IdsOf(items).Ok? {
        var ids := IdsOf(items).value;
        IdsInOrder(items);
        AllMean(ids, c, Infra(Host), HostDenied);
      }
    }
  }

  lemma {:induction false} OwnFieldsMean(fields: map<string, Json>, tok: TokenPolicy, routeKeys: seq<string>)
    ensures CheckTokenFields(fields, tok, routeKeys).Pass? <==> OwnFieldsFit(fields, tok, routeKeys)
  {
    if routeKeys != [] {
      var rest := routeKeys[1..];
      OwnFieldsMean(fields, tok, rest);
      var lists := tok.constraints.allowedRequestFields;
      if routeKeys[0] !in lists {
        assert forall k | 0 <= k < |rest| :: rest[k] == routeKeys[k + 1];
        assert forall k | 0 < k < |routeKeys| :: routeKeys[k] == rest[k - 1];
      }
    }
  }

  lemma ResourcesMean(fields: map<string, Json>, name: RouteName, c: Constraints)
    ensures CheckResources(fields, name, c).Pass? <==>
      && (name.ResourcePatch? ==> PatchFits(fields, c, name.resource))
      && (name.ResourceCreate? ==> CreateFits(c, name.infra))
      && (name.HostsBulkUpdate? ==> BulkFits(fields, c))
  {
    hide PatchFits, CreateFits, BulkFits, RequireAllowedUuid, RequireAllAllowed, RuleFor;
    match name
    case ResourcePatch(resource) => PatchMeans(fields, c, resource);
    case ResourceCreate(infra) => CreateMeans(fields, c, infra);
    case HostsBulkUpdate => BulkMeans(fields, c);
    case _ =>
  }

  lemma OnUsersMeans(name: RouteName)
    ensures IsUserRoute(name) <==> OnUsers(name)
  {
    if name.Other? {
      PrefixMeans(name.name, "user.");
    }
  }

  lemma MembersMean(fields: map<string, Json>, route: Route, tok: TokenPolicy, routeKeys: seq<string>)
    ensures CheckFields(fields, route, tok, routeKeys).Pass? <==> MembersFit(fields, route, tok, routeKeys)
  {
    hide CheckTokenFields, ValidateUserConstraints, CheckResources, UserFieldsFit, PatchFits, CreateFits, BulkFits, OwnFieldsFit,
      FieldsOf, IsUserRoute, OnUsers;
    OnUsersMeans(route.name);
    OwnFieldsMean(fields, tok, routeKeys);
    UserConstraintsMean(fields, tok.constraints);
    ResourcesMean(fields, route.name, tok.constraints);
  }

  /** For every request: exactly when its body passes. */
  lemma BodyMeans(cfg: Settings, route: Route, tok: TokenPolicy, req: BodyRequest, routeKeys: seq<string>)
    ensures ValidateBodyPolicy(cfg, route, tok, req, routeKeys).Pass? <==>
      Exempt(route) || (WellSent(cfg, route, req) && MembersFit(LastWins(req.payload.members), route, tok, routeKeys))
  {
    hide CheckFields, MembersFit, LastWins, Decode;
    DecodeSucceeds(req.payload);
    if Decode(req.payload).Ok? {
      MembersMean(Decode(req.payload).value, route, tok, routeKeys);
    }
  }

  // ------------------------------------------------------------------ reasons

  /** A resource that is not permitted is refused for want of an id, or by the name of its kind. */
  lemma ResourceRefusals(fields: map<string, Json>, c: Constraints)
    ensures forall resource: Resource | !PatchFits(fields, c, resource) ::
      CheckResources(fields, ResourcePatch(resource), c) == Fail(
        if ObjectUuidFromRaw(fields) == "" then MissingUuid
        else match resource
          case Infra(ConfigProfile) => ConfigProfileDenied
          case Infra(Host) => HostDenied
          case Infra(Node) => NodeDenied
          case SubscriptionTemplate => SubscriptionTemplateDenied
          case InternalSquad => InternalSquadDenied
          case ExternalSquad => ExternalSquadDenied)
    ensures forall infra: Infra | !CreateFits(c, infra) ::
      CheckResources(fields, ResourceCreate(infra), c) == Fail(
        match infra
        case ConfigProfile => ConfigProfileDenied
        case Host => HostDenied
        case Node => NodeDenied)
  {
    forall resource: Resource
      ensures CheckResources(fields, ResourcePatch(resource), c).Pass? <==> PatchFits(fields, c, resource)
    {
      PatchMeans(fields, c, resource);
    }
    hide PatchFits, RuleFor;
  }

  lemma FirstRepeatIs(members: seq<(string, Json)>)
    requires !DistinctKeys(members)
    ensures FirstRepeat(members, 0).Some?
    ensures exists i | 0 <= i < FirstRepeat(members, 0).value :: members[i].0 == members[FirstRepeat(members, 0).value].0
  {
    var i, j :| 0 <= i < j < |members| && members[i].0 == members[j].0;
    assert RepeatsAt(members, j);
  }

  /** What is wrong with how a body was sent is reported first, and in this order. */
  lemma SendingRefusals(cfg: Settings, route: Route, tok: TokenPolicy, req: BodyRequest, routeKeys: seq<string>)
    requires !Exempt(route) && !WellSent(cfg, route, req)
    ensures var outcome := ValidateBodyPolicy(cfg, route, tok, req, routeKeys);
      if !req.jsonContent then outcome == Fail(JsonContentTypeRequired)
      else if req.encoded then outcome == Fail(ContentEncodingDenied)
      else if req.size > cfg.maxBodyBytes || (route.bodyLimit > 0 && req.size > route.bodyLimit) then outcome == Fail(BodyTooLarge)
      else if req.payload.NoObject? then outcome == Fail(JsonObjectRequired)
      else if DistinctKeys(req.payload.members) then outcome == Fail(JsonSyntax)
      else outcome.Fail? && outcome.reason.DuplicateJsonKey? &&
           exists i, j | 0 <= i < j < |req.payload.members| ::
             req.payload.members[i].0 == req.payload.members[j].0 == outcome.reason.key
  {
    hide CheckFields;
    DecodeSucceeds(req.payload);
    if req.payload.Members? && !DistinctKeys(req.payload.members) {
      FirstRepeatIs(req.payload.members);
    }
  }

  /** What is wrong with the members is reported in this order. */
  lemma MemberRefusals(fields: map<string, Json>, route: Route, tok: TokenPolicy, routeKeys: seq<string>)
    ensures var c, outcome, flag := tok.constraints, CheckFields(fields, route, tok, routeKeys), route.requiredBoolean;
      if FieldsOf(route.allowedFields) != [] && !(forall key | key in fields :: key in FieldsOf(route.allowedFields)) then
        outcome == Fail(UnknownJsonField)
      else if flag != "" && flag !in fields then outcome == Fail(MissingBoolean(flag))
      else if flag != "" && !fields[flag].Bool? then outcome == Fail(InvalidBoolean(flag))
      else if !OwnFieldsFit(fields, tok, routeKeys) then outcome == Fail(RequestFieldDenied)
      else if OnUsers(route.name) && !UserFieldsFit(fields, c) then outcome == ValidateUserConstraints(fields, c) && outcome.Fail?
      else if CheckResources(fields, route.name, c).Fail? then outcome == CheckResources(fields, route.name, c)
      else if route.name.HwidWrite? && "userUuid" !in fields then outcome == Fail(MissingUserUuid)
      else outcome == Pass
  {
    hide CheckTokenFields, ValidateUserConstraints, CheckResources, UserFieldsFit, OwnFieldsFit, FieldsOf, IsUserRoute, OnUsers;
    OnUsersMeans(route.name);
    OwnFieldsMean(fields, tok, routeKeys);
    OwnFieldRefusal(fields, tok, routeKeys);
    UserConstraintsMean(fields, tok.constraints);
  }

  lemma {:induction false} OwnFieldRefusal(fields: map<string, Json>, tok: TokenPolicy, routeKeys: seq<string>)
    ensures CheckTokenFields(fields, tok, routeKeys) in {Pass, Fail(RequestFieldDenied)}
  {
    if routeKeys != [] {
      OwnFieldRefusal(fields, tok, routeKeys[1..]);
    }
  }
}
