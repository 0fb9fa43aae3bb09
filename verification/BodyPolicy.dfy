/** Checks on a request body before it may be forwarded: strict decoding, field allowlists
    and the token's value constraints. */
module BodyPolicy {
  import opened KeyTables
  import opened Prelude
  import opened Json
  import opened Config
  import opened Routes
  import opened Remnawave
  import Text

  /** A request body: not an object at all, or the members of its top-level object in order.
      `closed` says that the closing brace was reached without a syntax error, `trailing` that
      more than white space follows it. */
  datatype Payload =
    | NoObject
    | Members(members: seq<(string, Json)>, closed: bool, trailing: bool)

  datatype DecodeError = ObjectRequired | DuplicateKey(key: string) | SyntaxError

  // --------------------------------------------------------------- decoding

  /** json.Unmarshal into a map: the last member with a key wins. */
  function LastWins(members: seq<(string, Json)>): map<string, Json> {
    if members == [] then map[]
    else
      var last := members[|members| - 1];
      LastWins(members[..|members| - 1])[last.0 := last.1]
  }

  /** bodyString: "" unless the whole body unmarshals and the field is a string. */
  function BodyString(body: Payload, field: string): string {
    match body
    case Members(members, true, false) => StringField(LastWins(members), field)
    case _ => ""
  }

  predicate DistinctKeys(members: seq<(string, Json)>) {
    forall i, j | 0 <= i < j < |members| :: members[i].0 != members[j].0
  }

  /** The key at k occurred before. */
  predicate RepeatsAt(members: seq<(string, Json)>, k: nat)
    requires k < |members|
  {
    exists j | 0 <= j < k :: members[j].0 == members[k].0
  }

  function FirstRepeat(members: seq<(string, Json)>, k: nat): (r: Option<nat>)
    requires k <= |members|
    ensures r.Some? ==> k <= r.value < |members| && RepeatsAt(members, r.value)
    ensures r.None? ==> forall i :: k <= i < |members| ==> !RepeatsAt(members, i)
    decreases |members| - k
  {
    if k == |members| then None
    else if RepeatsAt(members, k) then Some(k)
    else FirstRepeat(members, k + 1)
  }

  /** Strict decoding, declaratively: the first repeated key, then a syntax error, is reported. */
  function Decode(body: Payload): Result<map<string, Json>, DecodeError> {
    match body
    case NoObject => Err(ObjectRequired)
    case Members(members, closed, _) =>
      match FirstRepeat(members, 0)
      case Some(k) => Err(DuplicateKey(members[k].0))
      case None => if closed then Ok(LastWins(members)) else Err(SyntaxError)
  }

  lemma KeySeen(members: seq<(string, Json)>, i: nat)
    requires i < |members|
    ensures members[i].0 in LastWins(members[..i]) <==> RepeatsAt(members, i)
    ensures LastWins(members[..i + 1]) == LastWins(members[..i])[members[i].0 := members[i].1]
  {
    LastWinsKeys(members[..i]);
    assert members[..i + 1][..i] == members[..i];
  }

  /** DecodeObjectNoDuplicateKeys: a loop over the members that fills a map and stops at a repeated key. */
  method DecodeObjectNoDuplicateKeys(body: Payload) returns (r: Result<map<string, Json>, DecodeError>)
    ensures r == Decode(body)
  {
    if body.NoObject? {
      return Err(ObjectRequired);
    }
    var members := body.members;
    var out: map<string, Json> := map[];
    for i := 0 to |members|
      invariant out == LastWins(members[..i])
      invariant FirstRepeat(members, 0) == FirstRepeat(members, i)
    {
      KeySeen(members, i);
      if members[i].0 in out {
        return Err(DuplicateKey(members[i].0));
      }
      out := out[members[i].0 := members[i].1];
    }
    assert members[..|members|] == members;
    if !body.closed {
      return Err(SyntaxError);
    }
    return Ok(out);
  }

  /** Strict decoding succeeds exactly on a complete object without repeated keys. */
  lemma DecodeSucceeds(body: Payload)
    ensures Decode(body).Ok? <==> body.Members? && body.closed && DistinctKeys(body.members)
    ensures Decode(body).Ok? ==> Decode(body).value == LastWins(body.members)
  {
    if body.Members? && !DistinctKeys(body.members) {
      var i, j :| 0 <= i < j < |body.members| && body.members[i].0 == body.members[j].0;
      assert RepeatsAt(body.members, j);
    }
  }

  lemma {:induction false} LastWinsKeys(members: seq<(string, Json)>)
    ensures forall key :: key in LastWins(members) <==> exists j | 0 <= j < |members| :: members[j].0 == key
  {
    if members != [] {
      var front := members[..|members| - 1];
      LastWinsKeys(front);
      forall key
        ensures key in LastWins(members) <==> exists j | 0 <= j < |members| :: members[j].0 == key
      {
        if key in LastWins(front) {
          var j :| 0 <= j < |front| && front[j].0 == key;
          assert members[j].0 == key;
        }
        if key == members[|members| - 1].0 {
          assert exists j | 0 <= j < |members| :: members[j].0 == key;
        }
        if j :| 0 <= j < |members| && members[j].0 == key {
          if j < |front| {
            assert front[j].0 == key;
          }
        }
      }
    }
  }

  /** Where strict decoding succeeds and nothing trails the object, the loose reader of single
      fields and the decoded object agree on every field; where something trails it, the loose
      reader sees no field at all. */
  lemma ReadersAgree(body: Payload, field: string)
    requires Decode(body).Ok?
    ensures BodyString(body, field) == if body.trailing then "" else StringField(Decode(body).value, field)
  {
  }

  /** Every member of a strictly decoded body is read back under its key. */
  lemma {:induction false} DecodedMembers(members: seq<(string, Json)>, i: nat)
    requires DistinctKeys(members) && i < |members|
    ensures members[i].0 in LastWins(members) && LastWins(members)[members[i].0] == members[i].1
  {
    var front := members[..|members| - 1];
    if i < |front| {
      DecodedMembers(front, i);
      assert members[i].0 != members[|members| - 1].0;
    }
  }

  predicate FieldsAllowed(fields: map<string, Json>, allowed: seq<string>) {
    forall key | key in fields :: key in allowed
  }

  /** ValidateFields: fill a set from the allowlist, then scan the keys. */
  method ValidateFields(fields: map<string, Json>, allowed: seq<string>) returns (ok: bool)
    ensures ok == FieldsAllowed(fields, allowed)
  {
    var known: set<string> := {};
    for i := 0 to |allowed|
      invariant forall key :: key in known <==> key in allowed[..i]
    {
      known := known + {allowed[i]};
      assert allowed[..i + 1] == allowed[..i] + [allowed[i]];
    }
    assert allowed[..|allowed|] == allowed;
    var todo := fields.Keys;
    while todo != {}
      invariant todo <= fields.Keys
      invariant forall key | key in fields && key !in todo :: key in allowed
      decreases |todo|
    {
      var key :| key in todo;
      if key !in known {
        return false;
      }
      todo := todo - {key};
    }
    return true;
  }

  // ------------------------------------------------- reading single values

  /** json.Unmarshal into a string; null leaves it empty. */
  function AsString(v: Json): Result<string, ()> {
    match v
    case Str(s) => Ok(s)
    case Null => Ok("")
    case _ => Err(())
  }

  /** json.Unmarshal into a *string. */
  function AsOptionalString(v: Json): Result<Option<string>, ()> {
    match v
    case Str(s) => Ok(Some(s))
    case Null => Ok(None)
    case _ => Err(())
  }

  /** json.Unmarshal into a *int64. */
  function AsOptionalInt64(v: Json): Result<Option<int>, ()> {
    match v
    case Num(Int(i)) => if FitsInt64(i) then Ok(Some(i)) else Err(())
    case Null => Ok(None)
    case _ => Err(())
  }

  predicate IsNumberLiteral(s: string) {
    var digits := if s != "" && s[0] == '-' then s[1..] else s;
    DigitsValue(digits).Some? && (|digits| == 1 || digits[0] != '0')
  }

  /** json.Unmarshal into a json.Number followed by Int64. A number in quotes is accepted; null
      leaves the number empty and therefore fails at Int64. */
  function AsTrafficLimit(v: Json): Option<int> {
    match v
    case Num(Int(i)) => if FitsInt64(i) then Some(i) else None
    case Str(s) =>
      if IsNumberLiteral(s) && DecimalValue(s).Some? && FitsInt64(DecimalValue(s).value) then DecimalValue(s) else None
    case _ => None
  }

  function IdsOf(items: seq<Json>): Result<seq<string>, ()> {
    if items == [] then Ok([])
    else
      match (AsString(items[0]), IdsOf(items[1..]))
      case (Ok(id), Ok(rest)) => Ok([id] + rest)
      case _ => Err(())
  }

  function RefIdsOf(items: seq<Json>): Result<seq<string>, ()> {
    if items == [] then Ok([])
    else
      var head :=
        match items[0]
        case Obj(fields) => if "uuid" in fields then AsString(fields["uuid"]) else Ok("")
        case Null => Ok("")
        case _ => Err(());
      match (head, RefIdsOf(items[1..]))
      case (Ok(id), Ok(rest)) => Ok([id] + rest)
      case _ => Err(())
  }

  /** json.Unmarshal into []string, and failing that into a list of {uuid}. */
  function AsSquadIds(v: Json): Result<seq<string>, ()> {
    match v
    case Arr(items) => if IdsOf(items).Ok? then IdsOf(items) else RefIdsOf(items)
    case Null => Ok([])
    case _ => Err(())
  }

  // ------------------------------------------------- validateUserConstraints

  function CheckUsername(fields: map<string, Json>, c: Constraints): Outcome {
    if "username" !in fields then Pass
    else
      match AsString(fields["username"])
      case Err(_) => Fail(InvalidUsername)
      case Ok(username) => ValidateUsername(c, username)
  }

  function CheckEmail(fields: map<string, Json>, c: Constraints): Outcome {
    if "email" !in fields then Pass
    else
      match AsOptionalString(fields["email"])
      case Err(_) => Fail(InvalidEmail)
      case Ok(None) => Pass
      case Ok(Some(email)) => ValidateEmail(c, email)
  }

  function CheckTelegram(fields: map<string, Json>, c: Constraints, field: string): Outcome {
    if field !in fields then Pass
    else
      match AsOptionalInt64(fields[field])
      case Err(_) => Fail(InvalidTelegramId)
      case Ok(None) => Pass
      case Ok(Some(id)) => ValidateTelegramId(c, id)
  }

  function CheckDescription(fields: map<string, Json>, c: Constraints): Outcome {
    if "description" !in fields || c.maxDescriptionLength <= 0 then Pass
    else
      match AsOptionalString(fields["description"])
      case Err(_) => Fail(InvalidDescription)
      case Ok(None) => Pass
      case Ok(Some(text)) => Require(|text| <= c.maxDescriptionLength, DescriptionTooLong)
  }

  function CheckTraffic(fields: map<string, Json>, c: Constraints): Outcome {
    if "trafficLimitBytes" !in fields then Pass
    else
      match AsTrafficLimit(fields["trafficLimitBytes"])
      case None => Fail(InvalidTrafficLimit)
      case Some(v) =>
        if c.forbidUnlimitedTraffic && v <= 0 then Fail(UnlimitedTrafficDenied)
        else Require(!(c.maxTrafficLimitBytes > 0 && v > c.maxTrafficLimitBytes), TrafficLimitTooLarge)
  }

  /** The branch that lets a null through is never reached: the number it leaves is empty, and an empty
      number is no int64. A traffic limit of null is refused by every token. */
  lemma NullTrafficFails(fields: map<string, Json>, c: Constraints)
    requires "trafficLimitBytes" in fields && fields["trafficLimitBytes"].Null?
    ensures CheckTraffic(fields, c) == Fail(InvalidTrafficLimit) && ValidateUserConstraints(fields, c).Fail?
  {
    hide CheckUsername, CheckEmail, CheckTelegram, CheckDescription, CheckInternalSquads, CheckExternalSquads, CheckPageConfigs;
  }

  function CheckInternalSquads(fields: map<string, Json>, c: Constraints): Outcome {
    if "activeInternalSquads" !in fields || c.allowedInternalSquads == [] then Pass
    else
      match AsSquadIds(fields["activeInternalSquads"])
      case Err(_) => Fail(InvalidInternalSquads)
      case Ok(ids) => Require(SquadsAllowed(ids, c.allowedInternalSquads), InternalSquadDenied)
  }

  /** One optional id field against an allowlist; null and "" pass. */
  function CheckId(fields: map<string, Json>, field: string, allowed: seq<string>, invalid: Reason, denied: Reason): Outcome {
    if field !in fields then Pass
    else
      match AsOptionalString(fields[field])
      case Err(_) => Fail(invalid)
      case Ok(None) => Pass
      case Ok(Some(id)) => Require(id == "" || id in allowed, denied)
  }

  /** The loop over spellings of an id field. */
  function CheckIds(fields: map<string, Json>, keys: seq<string>, allowed: seq<string>, invalid: Reason, denied: Reason): (r: Outcome)
    ensures r.Pass? ==> forall i :: 0 <= i < |keys| ==> CheckId(fields, keys[i], allowed, invalid, denied).Pass?
  {
    if keys == [] then Pass
    else Then(CheckId(fields, keys[0], allowed, invalid, denied), CheckIds(fields, keys[1..], allowed, invalid, denied))
  }

  function CheckExternalSquads(fields: map<string, Json>, c: Constraints): Outcome {
    if c.allowedExternalSquads == [] then Pass
    else CheckIds(fields, Keys(ExternalSquadKeys), c.allowedExternalSquads, InvalidExternalSquad, ExternalSquadDenied)
  }

  function CheckPageConfigs(fields: map<string, Json>, c: Constraints): Outcome {
    if c.allowedPageConfigs == [] then Pass
    else CheckIds(fields, Keys(PageConfigKeys), c.allowedPageConfigs, InvalidSubscriptionPageConfig, SubscriptionPageConfigDenied)
  }

  function ValidateUserConstraints(fields: map<string, Json>, c: Constraints): Outcome {
    Then(CheckUsername(fields, c),
    Then(CheckEmail(fields, c),
    Then(CheckTelegram(fields, c, "telegramId"),
    Then(CheckTelegram(fields, c, "telegram_id"),
    Then(CheckDescription(fields, c),
    Then(CheckTraffic(fields, c),
    Then(CheckInternalSquads(fields, c),
    Then(CheckExternalSquads(fields, c), CheckPageConfigs(fields, c)))))))))
  }

  // ------------------------------------------------------ validateBodyPolicy

  /** The parts of a request that the body checks read. */
  datatype BodyRequest = BodyRequest(jsonContent: bool, encoded: bool, size: nat, payload: Payload)

  function EffectiveLimit(cfg: Settings, route: Route): int {
    if route.bodyLimit <= 0 || route.bodyLimit > cfg.maxBodyBytes then cfg.maxBodyBytes else route.bodyLimit
  }

  function CheckRequiredBoolean(fields: map<string, Json>, field: string): Outcome {
    if field == "" then Pass
    else if field !in fields then Fail(MissingBoolean(field))
    else Require(fields[field].Bool?, InvalidBoolean(field))
  }

  /** validateTokenRequestFields, for a token's own allowlist under the route's name or its method and pattern. */
  function CheckTokenFields(fields: map<string, Json>, tok: TokenPolicy, routeKeys: seq<string>): Outcome {
    if routeKeys == [] then Pass
    else if routeKeys[0] in tok.constraints.allowedRequestFields then
      Require(FieldsAllowed(fields, tok.constraints.allowedRequestFields[routeKeys[0]]), RequestFieldDenied)
    else CheckTokenFields(fields, tok, routeKeys[1..])
  }

  predicate IsUserRoute(name: RouteName) {
    match name
    case UserRead(_) | UserList | UserCreate | UserUpdate | UserAction(_) => true
    case Other(spelling) => Text.HasPrefix(spelling, "user.")
    case _ => false
  }

  /** objectUUIDFromRaw: the first of "uuid" and "id" that unmarshals into a string. */
  function ObjectUuidFromRaw(fields: map<string, Json>): string {
    if "uuid" in fields && AsString(fields["uuid"]).Ok? then AsString(fields["uuid"]).value
    else if "id" in fields && AsString(fields["id"]).Ok? then AsString(fields["id"]).value
    else ""
  }

  function RequireAllowedUuid(uuid: string, rule: ResourceRule, denied: Reason): Outcome {
    if uuid == "" then Fail(MissingUuid)
    else Require(rule.allowAll || uuid in rule.allowed, denied)
  }

  function DeniedReason(resource: Resource): Reason {
    match resource
    case Infra(ConfigProfile) => ConfigProfileDenied
    case Infra(Host) => HostDenied
    case Infra(Node) => NodeDenied
    case SubscriptionTemplate => SubscriptionTemplateDenied
    case InternalSquad => InternalSquadDenied
    case ExternalSquad => ExternalSquadDenied
  }

  function RequireAllAllowed(uuids: seq<string>, rule: ResourceRule, denied: Reason): Outcome {
    if uuids == [] then Pass
    else Then(RequireAllowedUuid(uuids[0], rule, denied), RequireAllAllowed(uuids[1..], rule, denied))
  }

  /** validateResourceWriteConstraints and validateResourceCreateConstraints. */
  function CheckResources(fields: map<string, Json>, name: RouteName, c: Constraints): Outcome {
    match name
    case ResourcePatch(resource) => RequireAllowedUuid(ObjectUuidFromRaw(fields), RuleFor(c, resource), DeniedReason(resource))
    case ResourceCreate(infra) => Require(RuleFor(c, Infra(infra)).allowAll, DeniedReason(Infra(infra)))
    case HostsBulkUpdate =>
      if "uuids" !in fields then Fail(MissingUuids)
      else
        (match fields["uuids"]
         case Arr(items) =>
           if items == [] || IdsOf(items).Err? then Fail(InvalidUuids)
           else RequireAllAllowed(IdsOf(items).value, RuleFor(c, Infra(Host)), HostDenied)
         case _ => Fail(InvalidUuids))
    case _ => Pass
  }

  function DecodeReason(error: DecodeError): Reason {
    match error
    case ObjectRequired => JsonObjectRequired
    case DuplicateKey(key) => DuplicateJsonKey(key)
    case SyntaxError => JsonSyntax
  }

  /** The checks on the decoded object, in the source's order. */
  function CheckFields(fields: map<string, Json>, route: Route, tok: TokenPolicy, routeKeys: seq<string>): Outcome {
    Then(Require(FieldsOf(route.allowedFields) == [] || FieldsAllowed(fields, FieldsOf(route.allowedFields)), UnknownJsonField),
    Then(CheckRequiredBoolean(fields, route.requiredBoolean),
    Then(CheckTokenFields(fields, tok, routeKeys),
    Then(if IsUserRoute(route.name) then ValidateUserConstraints(fields, tok.constraints) else Pass,
    Then(CheckResources(fields, route.name, tok.constraints),
         Require(route.name.HwidWrite? ==> "userUuid" in fields, MissingUserUuid))))))
  }

  /** validateBodyPolicy. */
  function ValidateBodyPolicy(cfg: Settings, route: Route, tok: TokenPolicy, req: BodyRequest, routeKeys: seq<string>): Outcome {
    if route.support == Privileged && route.requiredBoolean == "" then Pass
    else if !route.bodyObject then Pass
    else if !req.jsonContent then Fail(JsonContentTypeRequired)
    else if req.encoded then Fail(ContentEncodingDenied)
    else if req.size > EffectiveLimit(cfg, route) then Fail(BodyTooLarge)
    else
      match Decode(req.payload)
      case Err(error) => Fail(DecodeReason(error))
      case Ok(fields) => CheckFields(fields, route, tok, routeKeys)
  }
}
