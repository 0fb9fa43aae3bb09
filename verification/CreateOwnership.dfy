/** Whether the checks made before a user is created guarantee the ownership check made afterwards. */
module CreateOwnership {
  import opened KeyTables
  import opened Prelude
  import opened Json
  import opened Config
  import opened Routes
  import opened Remnawave
  import opened BodyPolicy
  import Credentials

  /** The id that a listed squad is read back under: itself, or the first spelling that an object has. */
  function SquadName(v: Json): string {
    match v
    case Str(id) => id
    case Obj(fields) => FirstString(fields, Keys(SquadRefKeys))
    case _ => ""
  }

  /** The squads that a body lists. */
  function ListedSquads(fields: map<string, Json>): seq<Json> {
    match Lookup(fields, "activeInternalSquads")
    case Some(Arr(items)) => items
    case _ => []
  }

  /** The id that a squad object has under the first spelling besides uuid. */
  function OtherSpelling(fields: map<string, Json>): string {
    FirstString(fields, Keys(SquadRefKeys)[1..])
  }

  /** A squad object without a non-empty uuid names no id, or an allowed one, under another spelling. */
  predicate OtherSpellingAllowed(squad: Json, allowed: seq<string>) {
    squad.Obj? && StringField(squad.fields, "uuid") == "" ==>
      OtherSpelling(squad.fields) == "" || OtherSpelling(squad.fields) in allowed
  }

  predicate OtherSpellingsAllowed(fields: map<string, Json>, c: Constraints) {
    c.allowedInternalSquads != [] ==>
      forall i | 0 <= i < |ListedSquads(fields)| :: OtherSpellingAllowed(ListedSquads(fields)[i], c.allowedInternalSquads)
  }

  predicate Given(fields: map<string, Json>, key: string) {
    key in fields && !fields[key].Null?
  }

  /** Every ownership field the token constrains is present and not empty. */
  predicate Evidence(fields: map<string, Json>, c: Constraints) {
    && (StringField(fields, "username") == "" ==>
          c.usernamePrefix == "" && c.usernameSuffix == "" && c.usernameContains == "" && c.usernameRegex.NoRegex?)
    && (StringField(fields, "email") == "" ==> c.emailContains == "" && c.emailDomains == [])
    && (c.telegramIdRanges != [] ==> Given(fields, "telegramId") || Given(fields, "telegram_id"))
    && (c.allowedInternalSquads != [] ==> exists i | 0 <= i < |ListedSquads(fields)| :: SquadName(ListedSquads(fields)[i]) != "")
    && (c.allowedExternalSquads != [] ==> FirstString(fields, Keys(ExternalSquadKeys)) != "")
    && (c.allowedPageConfigs != [] ==> FirstString(fields, Keys(PageConfigKeys)) != "")
  }

  lemma CreateFieldsHideSquadLists(fields: map<string, Json>)
    requires FieldsAllowed(fields, Keys(CreateFields))
    ensures "internalSquads" !in fields && "externalSquads" !in fields && "externalSquad" !in fields
  {
    hide Keys;
    NoInternalList();
    NoExternalList();
    NoExternalSquad();
  }

  lemma NoInternalList()
    ensures "internalSquads" !in Keys(CreateFields)
  {
  }

  lemma NoExternalList()
    ensures "externalSquads" !in Keys(CreateFields)
  {
  }

  lemma NoExternalSquad()
    ensures "externalSquad" !in Keys(CreateFields)
  {
  }

  lemma {:induction false} FirstStringAmong(fields: map<string, Json>, keys: seq<string>)
    ensures FirstString(fields, keys) != "" ==>
      exists i :: 0 <= i < |keys| && StringField(fields, keys[i]) == FirstString(fields, keys)
  {
    if keys != [] && StringField(fields, keys[0]) == "" {
      FirstStringAmong(fields, keys[1..]);
      if FirstString(fields, keys) != "" {
        var i :| 0 <= i < |keys[1..]| && StringField(fields, keys[1..][i]) == FirstString(fields, keys);
        assert keys[i + 1] == keys[1..][i];
      }
    } else if keys != [] {
      assert StringField(fields, keys[0]) == FirstString(fields, keys);
    }
  }

  /** A non-empty id accepted under any spelling is an allowed one. */
  lemma CheckedIdAllowed(fields: map<string, Json>, keys: seq<string>, allowed: seq<string>, invalid: Reason, denied: Reason)
    requires CheckIds(fields, keys, allowed, invalid, denied).Pass?
    ensures FirstString(fields, keys) != "" ==> FirstString(fields, keys) in allowed
  {
    FirstStringAmong(fields, keys);
    if FirstString(fields, keys) != "" {
      var i :| 0 <= i < |keys| && StringField(fields, keys[i]) == FirstString(fields, keys);
      assert CheckId(fields, keys[i], allowed, invalid, denied).Pass?;
    }
  }

  /** The ids checked when squads are listed as strings. */
  lemma {:induction false} CheckedStrings(items: seq<Json>)
    requires IdsOf(items).Ok?
    ensures |IdsOf(items).value| == |items|
    ensures forall i | 0 <= i < |items| :: !items[i].Obj? && IdsOf(items).value[i] == SquadName(items[i])
  {
    if items != [] {
      CheckedStrings(items[1..]);
    }
  }

  /** The ids checked when squads are listed as objects: only the uuid is looked at. */
  lemma {:induction false} CheckedObjects(items: seq<Json>)
    requires RefIdsOf(items).Ok?
    ensures |RefIdsOf(items).value| == |items|
    ensures forall i | 0 <= i < |items| ::
              RefIdsOf(items).value[i] == (if items[i].Obj? then StringField(items[i].fields, "uuid") else "") &&
              (items[i].Obj? || SquadName(items[i]) == "")
  {
    if items != [] {
      CheckedObjects(items[1..]);
    }
  }

  /** The parsed squads are exactly the names that are not empty. */
  lemma {:induction false} RefsAreNames(items: seq<Json>)
    ensures forall id :: id in RefsOf(items) <==> id != "" && exists i | 0 <= i < |items| :: SquadName(items[i]) == id
  {
    hide SquadName;
    if items != [] {
      var front, last := items[..|items| - 1], |items| - 1;
      RefsAreNames(front);
      RefIsName(items[last]);
      forall id
        ensures id in RefsOf(items) <==> id != "" && exists i | 0 <= i < |items| :: SquadName(items[i]) == id
      {
        if id in RefsOf(front) {
          var i :| 0 <= i < |front| && SquadName(front[i]) == id;
          assert SquadName(items[i]) == id;
        }
        if i :| 0 <= i < |items| && SquadName(items[i]) == id {
          if i < last {
            assert SquadName(front[i]) == id;
          }
        }
      }
    }
  }

  lemma RefIsName(v: Json)
    ensures ParseSquadRef(Some(v)) == if SquadName(v) == "" then None else Some(SquadName(v))
  {
  }

  lemma NamedByUuid(fields: map<string, Json>)
    ensures FirstString(fields, Keys(SquadRefKeys)) ==
      if StringField(fields, "uuid") != "" then StringField(fields, "uuid") else OtherSpelling(fields)
  {
    assert Keys(SquadRefKeys)[0] == "uuid";
  }

  /** Behind the check, the squads read back are all allowed exactly when the other spellings are. */
  lemma ListedSquadAllowed(fields: map<string, Json>, c: Constraints, i: nat)
    requires c.allowedInternalSquads != [] && CheckInternalSquads(fields, c).Pass? && i < |ListedSquads(fields)|
    ensures var squad := ListedSquads(fields)[i];
      SquadName(squad) == "" || SquadName(squad) in c.allowedInternalSquads <==>
      OtherSpellingAllowed(squad, c.allowedInternalSquads)
  {
    hide Keys, OtherSpelling;
    var items := ListedSquads(fields);
    var ids := AsSquadIds(Arr(items)).value;
    if items[i].Obj? {
      NamedByUuid(items[i].fields);
    }
    if IdsOf(items).Ok? {
      CheckedStrings(items);
    } else {
      CheckedObjects(items);
    }
    assert ids[i] == "" || ids[i] in c.allowedInternalSquads by {
      assert ids[i] in ids;
    }
  }

  lemma InternalSquadsMatch(fields: map<string, Json>, c: Constraints)
    requires c.allowedInternalSquads != [] && CheckInternalSquads(fields, c).Pass?
    ensures var refs := SquadRefs(Lookup(fields, "activeInternalSquads"));
      && (SquadsAllowed(refs, c.allowedInternalSquads) <==> OtherSpellingsAllowed(fields, c))
      && (refs != [] <==> exists i | 0 <= i < |ListedSquads(fields)| :: SquadName(ListedSquads(fields)[i]) != "")
  {
    hide SquadName, Keys, FirstString, CheckInternalSquads, OtherSpellingAllowed;
    var items := ListedSquads(fields);
    var refs := SquadRefs(Lookup(fields, "activeInternalSquads"));
    NoRefs();
    assert refs == RefsOf(items);
    RefsAreNames(items);
    forall i | 0 <= i < |items|
      ensures SquadName(items[i]) == "" || SquadName(items[i]) in c.allowedInternalSquads <==>
              OtherSpellingAllowed(items[i], c.allowedInternalSquads)
    {
      ListedSquadAllowed(fields, c, i);
    }
    forall k | 0 <= k < |refs|
      ensures exists i | 0 <= i < |items| :: SquadName(items[i]) == refs[k]
    {
      assert refs[k] in refs;
    }
    forall i | 0 <= i < |items| && SquadName(items[i]) != ""
      ensures SquadName(items[i]) in refs
    {
    }
    if refs != [] {
      assert refs[0] in refs;
    }
  }

  lemma NoRefs()
    ensures RefsOf([]) == []
  {
  }

  lemma TelegramMatches(fields: map<string, Json>, c: Constraints)
    requires CheckTelegram(fields, c, "telegramId").Pass? && CheckTelegram(fields, c, "telegram_id").Pass?
    ensures ValidateTelegramId(c, Int64Field(fields, ["telegramId", "telegram_id"])).Pass? <==>
      (c.telegramIdRanges != [] ==> Given(fields, "telegramId") || Given(fields, "telegram_id"))
  {
    var keys := ["telegramId", "telegram_id"];
    var second := keys[1..];
    assert second == ["telegram_id"] && second[1..] == [];
    assert Int64Field(fields, second[1..]) == 0;
    assert Int64Field(fields, second) ==
      if Given(fields, "telegram_id") then fields["telegram_id"].n.value else 0;
    assert Int64Field(fields, keys) ==
      if Given(fields, "telegramId") then fields["telegramId"].n.value else Int64Field(fields, second);
  }

  lemma PreChecks(fields: map<string, Json>, c: Constraints)
    requires ValidateUserConstraints(fields, c).Pass?
    ensures CheckTelegram(fields, c, "telegramId").Pass? && CheckTelegram(fields, c, "telegram_id").Pass?
    ensures CheckUsername(fields, c).Pass? && CheckEmail(fields, c).Pass? && CheckInternalSquads(fields, c).Pass?
    ensures CheckExternalSquads(fields, c).Pass? && CheckPageConfigs(fields, c).Pass?
  {
  }

  lemma PostChecks(tok: TokenPolicy, user: User)
    ensures Owns(tok, user) <==>
      && ValidateUsername(tok.constraints, user.username).Pass?
      && ValidateEmail(tok.constraints, user.email).Pass?
      && ValidateTelegramId(tok.constraints, user.telegramId).Pass?
      && CheckSquads(tok.constraints.allowedInternalSquads, InternalSquadsOf(user), MissingInternalSquad, InternalSquadDenied).Pass?
      && CheckSquads(tok.constraints.allowedExternalSquads, ExternalSquadsOf(user), MissingExternalSquad, ExternalSquadDenied).Pass?
      && CheckPageConfig(tok.constraints, user.pageConfigUuid).Pass?
  {
  }

  lemma ParsedSquads(fields: map<string, Json>)
    requires FieldsAllowed(fields, Keys(CreateFields)) && ParseUserObject(Obj(fields)).Some?
    ensures InternalSquadsOf(ParseUserObject(Obj(fields)).value) == SquadRefs(Lookup(fields, "activeInternalSquads"))
    ensures ExternalSquadsOf(ParseUserObject(Obj(fields)).value) ==
      var uuid := FirstString(fields, Keys(ExternalSquadKeys)); if uuid != "" then [uuid] else []
  {
    hide Keys, RefsOf, FirstString;
    CreateFieldsHideSquadLists(fields);
  }

  lemma NamesMatch(fields: map<string, Json>, c: Constraints)
    requires CheckUsername(fields, c).Pass? && CheckEmail(fields, c).Pass?
    ensures ValidateUsername(c, StringField(fields, "username")).Pass? <==>
      (StringField(fields, "username") == "" ==>
        c.usernamePrefix == "" && c.usernameSuffix == "" && c.usernameContains == "" && c.usernameRegex.NoRegex?)
    ensures ValidateEmail(c, StringField(fields, "email")).Pass? <==>
      (StringField(fields, "email") == "" ==> c.emailContains == "" && c.emailDomains == [])
  {
  }

  lemma ExternalIdsMatch(fields: map<string, Json>, c: Constraints)
    requires CheckExternalSquads(fields, c).Pass? && CheckPageConfigs(fields, c).Pass?
    ensures c.allowedExternalSquads != [] && FirstString(fields, Keys(ExternalSquadKeys)) != "" ==>
      FirstString(fields, Keys(ExternalSquadKeys)) in c.allowedExternalSquads
    ensures c.allowedPageConfigs != [] && FirstString(fields, Keys(PageConfigKeys)) != "" ==>
      FirstString(fields, Keys(PageConfigKeys)) in c.allowedPageConfigs
  {
    if c.allowedExternalSquads != [] {
      CheckedIdAllowed(fields, Keys(ExternalSquadKeys), c.allowedExternalSquads, InvalidExternalSquad, ExternalSquadDenied);
    }
    if c.allowedPageConfigs != [] {
      CheckedIdAllowed(fields, Keys(PageConfigKeys), c.allowedPageConfigs, InvalidSubscriptionPageConfig, SubscriptionPageConfigDenied);
    }
  }

  /** A create request that passed the body checks passed the field allowlist and the token's constraints. */
  lemma PassedBody(cfg: Settings, route: Route, tok: TokenPolicy, req: BodyRequest, routeKeys: seq<string>)
    requires Catalogued(route) && route.name == UserCreate && WriteSafe(cfg)
    requires ValidateBodyPolicy(cfg, EffectiveRoute(cfg, route), tok, req, routeKeys).Pass?
    ensures Decode(req.payload).Ok?
    ensures FieldsAllowed(Decode(req.payload).value, Keys(CreateFields))
    ensures ValidateUserConstraints(Decode(req.payload).value, tok.constraints).Pass?
  {
    hide Keys, Decode, ValidateUserConstraints, CheckTokenFields, CheckResources, CheckRequiredBoolean;
    NotEmpty();
  }

  lemma NotEmpty()
    ensures Keys(CreateFields) != []
  {
  }

  lemma PassedFields(fields: map<string, Json>, tok: TokenPolicy)
    requires FieldsAllowed(fields, Keys(CreateFields))
    requires ValidateUserConstraints(fields, tok.constraints).Pass?
    ensures ParseUserObject(Obj(fields)).Some? && Owns(tok, ParseUserObject(Obj(fields)).value) <==>
      && (StringField(fields, "username") != "" || StringField(fields, "uuid") != "")
      && Evidence(fields, tok.constraints)
      && OtherSpellingsAllowed(fields, tok.constraints)
  {
    var c := tok.constraints;
    if ParseUserObject(Obj(fields)).Some? {
      PreChecks(fields, c);
      PostChecks(tok, ParseUserObject(Obj(fields)).value);
      ParsedSquads(fields);
      NamesMatch(fields, c);
      TelegramMatches(fields, c);
      ExternalIdsMatch(fields, c);
      if c.allowedInternalSquads != [] {
        InternalSquadsMatch(fields, c);
      }
    }
  }

  /** For every create request that passed the body checks, an answer that repeats its fields is
      read as an owned user exactly when the fields name a user, every constrained ownership field
      was given, and the other spellings of squad ids are allowed too. */
  lemma AcceptedCreateOwned(cfg: Settings, route: Route, tok: TokenPolicy, req: BodyRequest, routeKeys: seq<string>)
    requires Catalogued(route) && route.name == UserCreate && WriteSafe(cfg)
    requires ValidateBodyPolicy(cfg, EffectiveRoute(cfg, route), tok, req, routeKeys).Pass?
    ensures Decode(req.payload).Ok?
    ensures var fields := Decode(req.payload).value;
      ParseUserObject(Obj(fields)).Some? && Owns(tok, ParseUserObject(Obj(fields)).value) <==>
      && (StringField(fields, "username") != "" || StringField(fields, "uuid") != "")
      && Evidence(fields, tok.constraints)
      && OtherSpellingsAllowed(fields, tok.constraints)
  {
    hide *;
    PassedBody(cfg, route, tok, req, routeKeys);
    PassedFields(Decode(req.payload).value, tok);
  }

  // --------------------------------------------- a create that fails afterwards

  /** A token with an enabled credential that may create users, but only in squad "a". */
  function SquadToken(): TokenPolicy {
    TokenPolicy("t", [Credential("c", "d", false)], [UsersCreate], false,
      Constraints("", "", "", NoRegex, "", [], [], ["a"], [], [], [], map[], 0, false, 0, map[]))
  }

  const FOREIGN_SQUAD: Json := Obj(map["squadUuid" := Str("b")])

  /** A new user in squad "b", which the body names under a spelling that is not checked. */
  const FOREIGN_MEMBERS: seq<(string, Json)> := [("username", Str("u")), ("activeInternalSquads", Arr([FOREIGN_SQUAD]))]

  function ForeignFields(): map<string, Json> {
    map["username" := Str("u"), "activeInternalSquads" := Arr([FOREIGN_SQUAD])]
  }

  function ForeignCreate(): BodyRequest {
    BodyRequest(true, false, 59, Members(FOREIGN_MEMBERS, true, false))
  }

  lemma ForeignSquadPasses()
    ensures AsSquadIds(Arr([FOREIGN_SQUAD])) == Ok([""])
  {
    var items := [FOREIGN_SQUAD];
    assert items[1..] == [];
    assert IdsOf(items).Err?;
    assert RefIdsOf(items[1..]) == Ok([]);
    assert RefIdsOf(items) == Ok([""] + []);
    assert [""] + [] == [""];
  }

  lemma ForeignSquadIsReadBack()
    ensures RefsOf([FOREIGN_SQUAD]) == ["b"]
  {
    assert Keys(SquadRefKeys)[1..][0] == "squadUuid";
    assert StringField(FOREIGN_SQUAD.fields, Keys(SquadRefKeys)[1]) == "b";
    assert FirstString(FOREIGN_SQUAD.fields, Keys(SquadRefKeys)) == "b";
    assert [FOREIGN_SQUAD][..0] == [];
  }

  lemma ForeignDecodes()
    ensures Decode(ForeignCreate().payload) == Ok(ForeignFields())
  {
    assert FOREIGN_MEMBERS[..1] == [("username", Str("u"))] && FOREIGN_MEMBERS[..1][..0] == [];
    assert LastWins(FOREIGN_MEMBERS[..1]) == map["username" := Str("u")];
  }

  lemma ForeignFieldsPass()
    ensures FieldsAllowed(ForeignFields(), Keys(CreateFields))
    ensures ValidateUserConstraints(ForeignFields(), SquadToken().constraints).Pass?
  {
    var fields, c := ForeignFields(), SquadToken().constraints;
    assert Keys(CreateFields)[0] == "username" && Keys(CreateFields)[17] == "activeInternalSquads";
    hide Keys;
    ForeignSquadPasses();
    assert CheckUsername(fields, c).Pass? && CheckEmail(fields, c).Pass?;
    assert CheckTelegram(fields, c, "telegramId").Pass? && CheckTelegram(fields, c, "telegram_id").Pass?;
    assert CheckDescription(fields, c).Pass? && CheckTraffic(fields, c).Pass?;
    assert CheckInternalSquads(fields, c).Pass?;
  }

  lemma {:induction false} NoTokenFields(fields: map<string, Json>, tok: TokenPolicy, routeKeys: seq<string>)
    requires tok.constraints.allowedRequestFields == map[]
    ensures CheckTokenFields(fields, tok, routeKeys).Pass?
  {
    if routeKeys != [] {
      NoTokenFields(fields, tok, routeKeys[1..]);
    }
  }

  /** A squad given as an object is checked under "uuid" only, but read back under other spellings
      too. So the checks before a create do not imply the one after it: this request carries a
      credential in force, the token has the scope, and every check on the body passes. */
  lemma ForeignCreateIsAccepted(cfg: Settings, route: Route, routeKeys: seq<string>)
    requires Catalogued(route) && route.name == UserCreate && route.requiredBoolean == "" && WriteSafe(cfg)
    requires cfg.maxBodyBytes >= ForeignCreate().size
    ensures Credentials.FindCredential([SquadToken()], "c") == Some((SquadToken(), Credential("c", "d", false)))
    ensures Decide(SquadToken(), EffectiveRoute(cfg, route)).Allow?
    ensures ValidateBodyPolicy(cfg, EffectiveRoute(cfg, route), SquadToken(), ForeignCreate(), routeKeys).Pass?
  {
    hide Keys, Decode, ValidateUserConstraints, CheckTokenFields;
    ForeignDecodes();
    ForeignFieldsPass();
    NoTokenFields(ForeignFields(), SquadToken(), routeKeys);
    DecideExact(SquadToken(), EffectiveRoute(cfg, route));
    assert UsersCreate in SquadToken().scopes;
  }

  /** An answer that repeats the accepted fields is then refused as foreign. */
  lemma ForeignCreateIsNotOwned()
    ensures Decode(ForeignCreate().payload) == Ok(ForeignFields())
    ensures ParseUserObject(Obj(ForeignFields())).Some?
    ensures OwnsUser(SquadToken(), ParseUserObject(Obj(ForeignFields())).value) == Fail(InternalSquadDenied)
  {
    ForeignDecodes();
    ForeignSquadIsReadBack();
    hide Keys, RefsOf, Decode;
    var user := ParseUserObject(Obj(ForeignFields())).value;
    assert user.activeInternalSquads == ["b"] && user.internalSquads == [];
    assert InternalSquadsOf(user)[0] == "b";
  }
}
