/** How the gateway reads a user out of an upstream answer, and when a token owns that user. */
module Remnawave {
  import opened KeyTables
  import opened Prelude
  import opened Json
  import opened Config
  import Text

  datatype User = User(
    uuid: string,
    shortUuid: string,
    username: string,
    telegramId: int,
    email: string,
    internalSquads: seq<string>,
    activeInternalSquads: seq<string>,
    externalSquads: seq<string>,
    externalSquad: Option<string>,
    externalSquadUuid: string,
    pageConfigUuid: string)


  // ---------------------------------------------------------------- parsing

  function DigitsValue(s: string): Option<int> {
    if s == "" then None
    else if |s| == 1 then (if '0' <= s[0] <= '9' then Some(s[0] as int - '0' as int) else None)
    else
      var front := DigitsValue(s[..|s| - 1]);
      var last := s[|s| - 1];
      if front.Some? && '0' <= last <= '9' then Some(front.value * 10 + (last as int - '0' as int)) else None
  }

  /** A plain decimal integer, with an optional minus sign. */
  function DecimalValue(s: string): Option<int> {
    if s != "" && s[0] == '-' then
      var digits := DigitsValue(s[1..]);
      if digits.Some? then Some(-digits.value) else None
    else
      var digits := DigitsValue(s);
      if digits.Some? then Some(digits.value) else None
  }

  /** The decimal text of an integer. */
  function Written(n: int): string {
    if n < 0 then "-" + Digits(-n) else Digits(n)
  }

  function Digits(n: nat): string {
    (if n < 10 then "" else Digits(n / 10)) + [('0' as int + n % 10) as char]
  }

  lemma DigitsStep(front: string, c: char, all: string, value: int)
    requires front != "" && DigitsValue(front) == Some(value) && '0' <= c <= '9' && all == front + [c]
    ensures DigitsValue(all) == Some(value * 10 + (c as int - '0' as int))
  {
    assert all[..|all| - 1] == front;
  }

  lemma {:induction false} DigitsAreRead(n: nat)
    ensures DigitsValue(Digits(n)) == Some(n)
    ensures Digits(n) != "" && forall i | 0 <= i < |Digits(n)| :: '0' <= Digits(n)[i] <= '9'
  {
    hide DigitsValue;
    var last := ('0' as int + n % 10) as char;
    if n < 10 {
      assert Digits(n) == "" + [last] == [last];
      OneDigitIsRead(last);
    } else {
      DigitsAreRead(n / 10);
      assert Digits(n) == Digits(n / 10) + [last];
      DigitsStep(Digits(n / 10), last, Digits(n), n / 10);
    }
  }

  lemma OneDigitIsRead(c: char)
    requires '0' <= c <= '9'
    ensures DigitsValue([c]) == Some(c as int - '0' as int)
  {
  }

  /** Every integer is read back from its decimal text. */
  lemma WrittenIsRead(n: int)
    ensures DecimalValue(Written(n)) == Some(n) && Text.TrimSpace(Written(n)) == Written(n)
  {
    hide DigitsValue, Digits, Text.TrimSpace;
    DigitsAreRead(if n < 0 then -n else n);
    if n < 0 {
      assert Written(n)[1..] == Digits(-n);
    }
    Text.TrimNothing(Written(n));
  }

  function Int64Field(fields: map<string, Json>, keys: seq<string>): int {
    if keys == [] then 0
    else
      match Lookup(fields, keys[0])
      case Some(Num(n)) => Int64OrZero(n)
      case Some(Str(s)) =>
        var scanned := DecimalValue(Text.TrimSpace(s));
        if scanned.Some? && FitsInt64(scanned.value) then scanned.value else 0
      case _ => Int64Field(fields, keys[1..])
  }

  function ParseSquadRef(v: Option<Json>): (r: Option<string>)
    ensures r.Some? ==> r.value != ""
  {
    match v
    case Some(Str(s)) => if s != "" then Some(s) else None
    case Some(Obj(fields)) =>
      var uuid := FirstString(fields, Keys(SquadRefKeys));
      if uuid != "" then Some(uuid) else None
    case _ => None
  }

  function RefsOf(items: seq<Json>): (refs: seq<string>)
    ensures "" !in refs
  {
    if items == [] then []
    else
      var front := RefsOf(items[..|items| - 1]);
      match ParseSquadRef(Some(items[|items| - 1]))
      case Some(uuid) => front + [uuid]
      case None => front
  }

  function SquadRefs(v: Option<Json>): (refs: seq<string>)
    ensures "" !in refs
  {
    match v
    case Some(Arr(items)) => RefsOf(items)
    case _ => []
  }

  /** The loop of squadRefs: parse each item, append what parses. */
  method CollectSquadRefs(items: seq<Json>) returns (refs: seq<string>)
    ensures refs == RefsOf(items)
  {
    refs := [];
    for i := 0 to |items|
      invariant refs == RefsOf(items[..i])
    {
      assert items[..i + 1][..i] == items[..i];
      match ParseSquadRef(Some(items[i]))
      case Some(uuid) => refs := refs + [uuid];
      case None =>
    }
    assert items[..|items|] == items;
  }

  function ParseUserObject(v: Json): (r: Option<User>)
    ensures r.Some? ==> r.value.username != "" || r.value.uuid != ""
  {
    match v
    case Obj(fields) =>
      var username := StringField(fields, "username");
      var uuid := StringField(fields, "uuid");
      if username == "" && uuid == "" then None
      else Some(User(
        uuid,
        FirstString(fields, ["shortUuid", "short_uuid"]),
        username,
        Int64Field(fields, ["telegramId", "telegram_id"]),
        StringField(fields, "email"),
        SquadRefs(Lookup(fields, "internalSquads")),
        SquadRefs(Lookup(fields, "activeInternalSquads")),
        SquadRefs(Lookup(fields, "externalSquads")),
        ParseSquadRef(Lookup(fields, "externalSquad")),
        FirstString(fields, Keys(ExternalSquadKeys)),
        FirstString(fields, Keys(PageConfigKeys))))
    case _ => None
  }

  function UsersAmong(items: seq<Json>): seq<User> {
    if items == [] then []
    else
      var front := UsersAmong(items[..|items| - 1]);
      match ParseUserObject(items[|items| - 1])
      case Some(user) => front + [user]
      case None => front
  }

  function CollectUsers(v: Json): seq<User>
    decreases v, |Keys(EnvelopeKeys)| + 1
  {
    match v
    case Arr(items) => UsersAmong(items)
    case Obj(fields) =>
      (match ParseUserObject(v)
       case Some(user) => [user]
       case None => CollectUnderKeys(v, 0))
    case _ => []
  }

  /** The envelope keys are tried in order; the first one that yields users wins. */
  function CollectUnderKeys(v: Json, k: nat): seq<User>
    requires v.Obj? && k <= |Keys(EnvelopeKeys)|
    decreases v, |Keys(EnvelopeKeys)| - k
  {
    if k == |Keys(EnvelopeKeys)| then []
    else if Keys(EnvelopeKeys)[k] in v.fields && CollectUsers(v.fields[Keys(EnvelopeKeys)[k]]) != [] then
      CollectUsers(v.fields[Keys(EnvelopeKeys)[k]])
    else CollectUnderKeys(v, k + 1)
  }

  /** collectUsers as the source runs it: a loop over an array, or a loop over the envelope keys. */
  method CollectUsersLoop(v: Json) returns (users: seq<User>)
    ensures users == CollectUsers(v)
    decreases v
  {
    users := [];
    match v
    case Arr(items) =>
      for i := 0 to |items|
        invariant users == UsersAmong(items[..i])
      {
        assert items[..i + 1][..i] == items[..i];
        match ParseUserObject(items[i])
        case Some(user) => users := users + [user];
        case None =>
      }
      assert items[..|items|] == items;
    case Obj(fields) =>
      match ParseUserObject(v) {
      case Some(user) => return [user];
      case None =>
        for k := 0 to |Keys(EnvelopeKeys)|
          invariant CollectUsers(v) == CollectUnderKeys(v, k)
        {
          var key := Keys(EnvelopeKeys)[k];
          if key in fields {
            var found := CollectUsersLoop(fields[key]);
            if found != [] {
              return found;
            }
          }
        }
      }
    case _ =>
  }

  /** DecodeUser on a decoded body: exactly one user must be found. */
  function DecodeUser(body: Json): (r: Option<User>)
    ensures r.Some? ==> CollectUsers(body) == [r.value]
  {
    var users := CollectUsers(body);
    if |users| == 1 then Some(users[0]) else None
  }

  /** isEmptyUserNode: the first envelope key that is present decides. */
  predicate IsEmptyUserNode(v: Json)
    decreases v, |Keys(EnvelopeKeys)| + 1
  {
    match v
    case Arr(items) => items == []
    case Obj(_) => EmptyUnderKeys(v, 0)
    case _ => false
  }

  predicate EmptyUnderKeys(v: Json, k: nat)
    requires v.Obj? && k <= |Keys(EnvelopeKeys)|
    decreases v, |Keys(EnvelopeKeys)| - k
  {
    k < |Keys(EnvelopeKeys)| &&
    if Keys(EnvelopeKeys)[k] in v.fields then IsEmptyUserNode(v.fields[Keys(EnvelopeKeys)[k]])
    else EmptyUnderKeys(v, k + 1)
  }

  // -------------------------------------------------------------- ownership

  function ValidateUsername(c: Constraints, username: string): Outcome {
    if username == "" && (c.usernamePrefix != "" || c.usernameSuffix != "" || c.usernameContains != "" || !c.usernameRegex.NoRegex?) then
      Fail(MissingUsername)
    else if c.usernamePrefix != "" && !Text.HasPrefix(username, c.usernamePrefix) then Fail(ForeignUsername)
    else if c.usernameSuffix != "" && !Text.HasSuffix(username, c.usernameSuffix) then Fail(UsernameSuffixDenied)
    else if c.usernameContains != "" && !Text.Contains(username, c.usernameContains) then Fail(UsernameContainsDenied)
    else
      match c.usernameRegex
      case NoRegex => Pass
      case BadRegex => Fail(InvalidUsernameRegex)
      case Regex(matches) => Require(matches(username), UsernameRegexDenied)
  }

  predicate ContainsFold(xs: seq<string>, want: string) {
    exists i | 0 <= i < |xs| :: Text.Lower(xs[i]) == Text.Lower(want)
  }

  function ValidateEmail(c: Constraints, email: string): Outcome {
    if email == "" then
      Require(c.emailContains == "" && c.emailDomains == [], MissingEmail)
    else
      var lower := Text.Lower(email);
      if c.emailContains != "" && !Text.Contains(lower, Text.Lower(c.emailContains)) then Fail(EmailContainsDenied)
      else if c.emailDomains != [] then
        var domain := Text.After(lower, '@');
        Require(domain.Some? && ContainsFold(c.emailDomains, domain.value), EmailDomainDenied)
      else Pass
  }

  predicate InRanges(ranges: seq<IdRange>, id: int) {
    exists i | 0 <= i < |ranges| :: ranges[i].min <= id <= ranges[i].max
  }

  function ValidateTelegramId(c: Constraints, id: int): Outcome {
    if c.telegramIdRanges == [] then Pass
    else if id == 0 then Fail(MissingTelegramId)
    else Require(InRanges(c.telegramIdRanges, id), TelegramIdDenied)
  }

  predicate SquadsAllowed(squads: seq<string>, allowed: seq<string>) {
    forall i | 0 <= i < |squads| :: squads[i] != "" ==> squads[i] in allowed
  }

  /** squadsAllowed: build the set of allowed ids, then scan the squads. */
  method ScanSquadsAllowed(squads: seq<string>, allowed: seq<string>) returns (ok: bool)
    ensures ok == SquadsAllowed(squads, allowed)
  {
    var known: set<string> := {};
    for i := 0 to |allowed|
      invariant forall id :: id in known <==> id in allowed[..i]
    {
      known := known + {allowed[i]};
      assert allowed[..i + 1] == allowed[..i] + [allowed[i]];
    }
    assert allowed[..|allowed|] == allowed;
    for i := 0 to |squads|
      invariant forall j :: 0 <= j < i ==> squads[j] != "" ==> squads[j] in allowed
    {
      if squads[i] != "" && squads[i] !in known {
        return false;
      }
    }
    return true;
  }

  function InternalSquadsOf(user: User): seq<string> {
    user.internalSquads + user.activeInternalSquads
  }

  function ExternalSquadsOf(user: User): seq<string> {
    user.externalSquads
    + (if user.externalSquad.Some? then [user.externalSquad.value] else [])
    + (if user.externalSquadUuid != "" then [user.externalSquadUuid] else [])
  }

  function OwnsUser(tok: TokenPolicy, user: User): Outcome {
    var c := tok.constraints;
    Then(ValidateUsername(c, user.username),
    Then(ValidateEmail(c, user.email),
    Then(ValidateTelegramId(c, user.telegramId),
    Then(CheckSquads(c.allowedInternalSquads, InternalSquadsOf(user), MissingInternalSquad, InternalSquadDenied),
    Then(CheckSquads(c.allowedExternalSquads, ExternalSquadsOf(user), MissingExternalSquad, ExternalSquadDenied),
         CheckPageConfig(c, user.pageConfigUuid))))))
  }

  function CheckSquads(allowed: seq<string>, squads: seq<string>, missing: Reason, denied: Reason): Outcome {
    if allowed == [] then Pass
    else if squads == [] then Fail(missing)
    else Require(SquadsAllowed(squads, allowed), denied)
  }

  function CheckPageConfig(c: Constraints, uuid: string): Outcome {
    if c.allowedPageConfigs == [] then Pass
    else if uuid == "" then Fail(MissingSubscriptionPageConfig)
    else Require(uuid in c.allowedPageConfigs, SubscriptionPageConfigDenied)
  }

  predicate Owns(tok: TokenPolicy, user: User) {
    OwnsUser(tok, user).Pass?
  }

  /** The ownership fields: two users that agree on them are owned by the same tokens. */
  predicate SameOwnership(a: User, b: User) {
    a.username == b.username && a.email == b.email && a.telegramId == b.telegramId &&
    a.internalSquads == b.internalSquads && a.activeInternalSquads == b.activeInternalSquads &&
    a.externalSquads == b.externalSquads && a.externalSquad == b.externalSquad &&
    a.externalSquadUuid == b.externalSquadUuid && a.pageConfigUuid == b.pageConfigUuid
  }
}
