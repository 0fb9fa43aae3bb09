/** What it means to own a user, field by field and letter by letter. */
module OwnerFacts {
  import opened KeyTables
  import opened Prelude
  import opened Json
  import opened Config
  import opened Remnawave
  import Text

  // ------------------------------------------------------------------ letters

  /** The same character, or the upper-case and lower-case form of one ASCII letter. */
  predicate SameLetter(a: char, b: char) {
    a == b || ('A' <= a <= 'Z' && b as int == a as int + 32) || ('A' <= b <= 'Z' && a as int == b as int + 32)
  }

  predicate StandsAt(s: string, t: string, k: nat) {
    k + |t| <= |s| && forall i | 0 <= i < |t| :: s[k + i] == t[i]
  }

  /** The same, in whatever case. */
  predicate StandsFoldedAt(s: string, t: string, k: nat) {
    k + |t| <= |s| && forall i | 0 <= i < |t| :: SameLetter(s[k + i], t[i])
  }

  predicate Starts(s: string, t: string) {
    StandsAt(s, t, 0)
  }

  predicate Ends(s: string, t: string) {
    |t| <= |s| && StandsAt(s, t, |s| - |t|)
  }

  /** Everything behind the email's first "@" is the domain, in whatever case. */
  predicate InDomain(email: string, domain: string) {
    exists at | 0 <= at < |email| :: DomainAt(email, domain, at)
  }

  predicate DomainAt(email: string, domain: string, at: nat) {
    at < |email| && email[at] == '@' && '@' !in email[..at] && |email| == at + 1 + |domain| && StandsFoldedAt(email, domain, at + 1)
  }

  // ------------------------------------------------------------------- fields

  ghost predicate UsernameFits(c: Constraints, username: string) {
    && (username == "" ==> c.usernamePrefix == "" && c.usernameSuffix == "" && c.usernameContains == "" && c.usernameRegex.NoRegex?)
    && Starts(username, c.usernamePrefix)
    && Ends(username, c.usernameSuffix)
    && (exists k: nat :: StandsAt(username, c.usernameContains, k))
    && !c.usernameRegex.BadRegex?
    && (c.usernameRegex.Regex? ==> c.usernameRegex.matches(username))
  }

  ghost predicate EmailFits(c: Constraints, email: string) {
    && (email == "" ==> c.emailContains == "" && c.emailDomains == [])
    && (exists k: nat :: StandsFoldedAt(email, c.emailContains, k))
    && (c.emailDomains != [] ==> exists i | 0 <= i < |c.emailDomains| :: InDomain(email, c.emailDomains[i]))
  }

  /** Zero stands for an id that is not given. */
  predicate TelegramFits(c: Constraints, id: int) {
    c.telegramIdRanges != [] ==>
      id != 0 && exists i | 0 <= i < |c.telegramIdRanges| :: c.telegramIdRanges[i].min <= id && id <= c.telegramIdRanges[i].max
  }

  /** The squad is given to the user as an internal one. */
  predicate HasInternal(user: User, squad: string) {
    squad in user.internalSquads || squad in user.activeInternalSquads
  }

  predicate HasExternal(user: User, squad: string) {
    squad in user.externalSquads || user.externalSquad == Some(squad) || (squad == user.externalSquadUuid && squad != "")
  }

  ghost predicate InternalFits(c: Constraints, user: User) {
    c.allowedInternalSquads != [] ==>
      (exists squad :: HasInternal(user, squad)) &&
      (forall squad | HasInternal(user, squad) :: squad == "" || squad in c.allowedInternalSquads)
  }

  ghost predicate ExternalFits(c: Constraints, user: User) {
    c.allowedExternalSquads != [] ==>
      (exists squad :: HasExternal(user, squad)) &&
      (forall squad | HasExternal(user, squad) :: squad == "" || squad in c.allowedExternalSquads)
  }

  predicate PageConfigFits(c: Constraints, uuid: string) {
    c.allowedPageConfigs != [] ==> uuid != "" && uuid in c.allowedPageConfigs
  }

  // ------------------------------------------------------------------- proofs

  lemma LowerMeans(a: char, b: char)
    ensures Text.LowerChar(a) == Text.LowerChar(b) <==> SameLetter(a, b)
  {
  }

  lemma SliceStands(s: string, t: string, k: nat)
    requires k + |t| <= |s|
    ensures s[k..k + |t|] == t <==> StandsAt(s, t, k)
  {
    if StandsAt(s, t, k) {
      forall i | 0 <= i < |t|
        ensures s[k..k + |t|][i] == t[i]
      {
        assert s[k + i] == t[i];
      }
    } else {
      var i :| 0 <= i < |t| && s[k + i] != t[i];
      assert s[k..k + |t|][i] != t[i];
    }
  }

  lemma FoldedSliceStands(s: string, t: string, k: nat)
    requires k + |t| <= |s|
    ensures Text.Lower(s)[k..k + |t|] == Text.Lower(t) <==> StandsFoldedAt(s, t, k)
  {
    SliceStands(Text.Lower(s), Text.Lower(t), k);
    forall i | 0 <= i < |t|
      ensures Text.Lower(s)[k + i] == Text.Lower(t)[i] <==> SameLetter(s[k + i], t[i])
    {
      LowerMeans(s[k + i], t[i]);
    }
  }

  lemma ContainsMeans(s: string, t: string)
    ensures Text.Contains(s, t) <==> exists k: nat :: StandsAt(s, t, k)
  {
    forall k: nat | k + |t| <= |s|
      ensures Text.MatchesAt(s, t, k) <==> StandsAt(s, t, k)
    {
      SliceStands(s, t, k);
    }
    if k: nat :| StandsAt(s, t, k) {
      assert Text.MatchesAt(s, t, k);
    }
  }

  lemma ContainsFoldedMeans(s: string, t: string)
    ensures Text.Contains(Text.Lower(s), Text.Lower(t)) <==> exists k: nat :: StandsFoldedAt(s, t, k)
  {
    forall k: nat | k + |t| <= |s|
      ensures Text.MatchesAt(Text.Lower(s), Text.Lower(t), k) <==> StandsFoldedAt(s, t, k)
    {
      FoldedSliceStands(s, t, k);
    }
    if k: nat :| StandsFoldedAt(s, t, k) {
      assert Text.MatchesAt(Text.Lower(s), Text.Lower(t), k);
    }
  }

  lemma UsernameMeans(c: Constraints, username: string)
    ensures ValidateUsername(c, username).Pass? <==> UsernameFits(c, username)
  {
    hide StandsAt, Text.Contains, Text.HasPrefix, Text.HasSuffix;
    EmptyStands(username);
    assert StandsAt(username, "", 0) && StandsAt(username, "", |username|);
    PrefixMeans(username, c.usernamePrefix);
    SuffixMeans(username, c.usernameSuffix);
    ContainsMeans(username, c.usernameContains);
  }

  lemma PrefixMeans(s: string, t: string)
    ensures Text.HasPrefix(s, t) <==> Starts(s, t)
  {
    if |t| <= |s| {
      SliceStands(s, t, 0);
      assert s[0..|t|] == s[..|t|];
    }
  }

  lemma SuffixMeans(s: string, t: string)
    ensures Text.HasSuffix(s, t) <==> Ends(s, t)
  {
    if |t| <= |s| {
      var start := |s| - |t|;
      assert start + |t| == |s|;
      SliceStands(s, t, start);
      assert s[start..start + |t|] == s[start..];
    }
  }

  lemma EmptyStands(s: string)
    ensures forall k: nat | k <= |s| :: StandsAt(s, "", k) && StandsFoldedAt(s, "", k)
  {
  }

  predicate CutsAt(s: string, at: nat, rest: string) {
    at < |s| && s[at] == '@' && '@' !in s[..at] && s[at + 1..] == rest
  }

  lemma CutStart(s: string, at: nat, rest: string)
    requires s != "" && s[0] == '@' && 0 < at < |s|
    ensures !CutsAt(s, at, rest)
  {
    assert s[..at][0] == '@';
  }

  lemma CutTail(s: string, at: nat, rest: string)
    requires s != "" && s[0] != '@'
    ensures CutsAt(s, at + 1, rest) <==> CutsAt(s[1..], at, rest)
  {
    if at < |s| - 1 {
      assert s[..at + 1] == [s[0]] + s[1..][..at];
      assert s[1..][at + 1..] == s[at + 2..];
    }
  }

  /** The first "@" cuts the email. */
  lemma {:induction false} CutMeans(s: string, rest: string)
    ensures Text.After(s, '@') == Some(rest) <==> exists at: nat :: CutsAt(s, at, rest)
  {
    hide CutsAt;
    if s == "" {
      NothingToCut(rest);
    } else if s[0] == '@' {
      CutHere(s, rest);
    } else {
      CutMeans(s[1..], rest);
      forall at: nat
        ensures CutsAt(s, at + 1, rest) <==> CutsAt(s[1..], at, rest)
      {
        CutTail(s, at, rest);
      }
      NotCutHere(s, rest);
      if at: nat :| CutsAt(s, at, rest) {
        assert CutsAt(s[1..], at - 1, rest);
      }
      if at: nat :| CutsAt(s[1..], at, rest) {
        assert CutsAt(s, at + 1, rest);
      }
    }
  }

  lemma NothingToCut(rest: string)
    ensures forall at: nat :: !CutsAt("", at, rest)
  {
  }

  lemma CutHere(s: string, rest: string)
    requires s != "" && s[0] == '@'
    ensures (exists at: nat :: CutsAt(s, at, rest)) <==> s[1..] == rest
  {
    if s[1..] == rest {
      assert CutsAt(s, 0, rest);
    }
    if at: nat :| CutsAt(s, at, rest) {
      if 0 < at < |s| {
        CutStart(s, at, rest);
      }
    }
  }

  lemma NotCutHere(s: string, rest: string)
    requires s != "" && s[0] != '@'
    ensures !CutsAt(s, 0, rest)
  {
  }

  lemma LowerKeepsAt(s: string)
    ensures forall i | 0 <= i < |s| :: Text.Lower(s)[i] == '@' <==> s[i] == '@'
  {
  }

  lemma DomainMeans(email: string, domain: string)
    ensures InDomain(email, domain) <==> Text.After(Text.Lower(email), '@') == Some(Text.Lower(domain))
  {
    hide Text.Lower, CutsAt, DomainAt;
    var lower, want := Text.Lower(email), Text.Lower(domain);
    CutMeans(lower, want);
    forall at: nat
      ensures DomainAt(email, domain, at) <==> CutsAt(lower, at, want)
    {
      CutAt(email, domain, at);
    }
    if at: nat :| CutsAt(lower, at, want) {
      assert DomainAt(email, domain, at);
      DomainInside(email, domain, at);
    }
  }

  lemma DomainInside(email: string, domain: string, at: nat)
    requires DomainAt(email, domain, at)
    ensures at < |email|
  {
  }

  lemma CutAt(email: string, domain: string, at: nat)
    ensures DomainAt(email, domain, at) <==> CutsAt(Text.Lower(email), at, Text.Lower(domain))
  {
    hide Text.Lower, StandsFoldedAt;
    if at < |email| {
      LowerKeepsAt(email);
      SameBefore(email, Text.Lower(email), at);
      SameBehind(email, domain, at);
    }
  }

  lemma SameBefore(s: string, t: string, at: nat)
    requires |s| == |t| && at < |s| && forall i | 0 <= i < |s| :: t[i] == '@' <==> s[i] == '@'
    ensures '@' in s[..at] <==> '@' in t[..at]
  {
    forall i | 0 <= i < at
      ensures s[..at][i] == '@' <==> t[..at][i] == '@'
    {
    }
  }

  lemma SameBehind(email: string, domain: string, at: nat)
    requires at < |email|
    ensures Text.Lower(email)[at + 1..] == Text.Lower(domain) <==>
      |email| == at + 1 + |domain| && StandsFoldedAt(email, domain, at + 1)
  {
    var lower := Text.Lower(email);
    if |email| == at + 1 + |domain| {
      FoldedSliceStands(email, domain, at + 1);
      assert lower[at + 1..] == lower[at + 1..at + 1 + |domain|];
    } else {
      assert |lower[at + 1..]| != |Text.Lower(domain)|;
    }
  }

  lemma EmailMeans(c: Constraints, email: string)
    ensures ValidateEmail(c, email).Pass? <==> EmailFits(c, email)
  {
    hide StandsFoldedAt, InDomain, Text.Lower, Text.Contains, Text.After;
    EmptyStands(email);
    assert StandsFoldedAt(email, "", 0);
    ContainsFoldedMeans(email, c.emailContains);
    forall i | 0 <= i < |c.emailDomains|
      ensures InDomain(email, c.emailDomains[i]) <==> Text.After(Text.Lower(email), '@') == Some(Text.Lower(c.emailDomains[i]))
    {
      DomainMeans(email, c.emailDomains[i]);
    }
    if Text.After(Text.Lower(email), '@').Some? {
      AfterLower(email);
    }
    AtNeedsText(c);
  }

  lemma AtNeedsText(c: Constraints)
    ensures forall i | 0 <= i < |c.emailDomains| :: !InDomain("", c.emailDomains[i])
  {
  }

  /** The domain that is compared is in lower case already. */
  lemma AfterLower(email: string)
    requires Text.After(Text.Lower(email), '@').Some?
    ensures var d := Text.After(Text.Lower(email), '@').value; Text.Lower(d) == d
  {
    hide Text.After;
    var lower, d := Text.Lower(email), Text.After(Text.Lower(email), '@').value;
    CutMeans(lower, d);
    var at :| 0 <= at < |lower| && lower[at] == '@' && '@' !in lower[..at] && lower[at + 1..] == d;
    forall i | 0 <= i < |d|
      ensures Text.Lower(d)[i] == d[i]
    {
      assert d[i] == lower[at + 1 + i] == Text.LowerChar(email[at + 1 + i]);
    }
  }

  /** Every non-empty squad is an allowed one. */
  predicate Listed(squads: seq<string>, allowed: seq<string>) {
    forall squad | squad in squads :: squad == "" || squad in allowed
  }

  lemma AllowedMeans(squads: seq<string>, allowed: seq<string>)
    ensures SquadsAllowed(squads, allowed) <==> Listed(squads, allowed)
  {
    if Listed(squads, allowed) {
      forall i | 0 <= i < |squads|
        ensures squads[i] != "" ==> squads[i] in allowed
      {
        assert squads[i] in squads;
      }
    }
  }

  lemma SquadsMean(allowed: seq<string>, squads: seq<string>, missing: Reason, denied: Reason)
    ensures CheckSquads(allowed, squads, missing, denied).Pass? <==>
      (allowed != [] ==> squads != [] && Listed(squads, allowed))
  {
    hide SquadsAllowed, Listed;
    if allowed != [] && squads != [] {
      AllowedMeans(squads, allowed);
    }
  }

  lemma InternalMeans(c: Constraints, user: User)
    ensures CheckSquads(c.allowedInternalSquads, InternalSquadsOf(user), MissingInternalSquad, InternalSquadDenied).Pass? <==>
            InternalFits(c, user)
  {
    hide CheckSquads;
    var squads := InternalSquadsOf(user);
    SquadsMean(c.allowedInternalSquads, squads, MissingInternalSquad, InternalSquadDenied);
    assert forall squad :: HasInternal(user, squad) <==> squad in squads;
    if squads != [] {
      assert HasInternal(user, squads[0]);
    }
  }

  lemma ExternalMeans(c: Constraints, user: User)
    ensures CheckSquads(c.allowedExternalSquads, ExternalSquadsOf(user), MissingExternalSquad, ExternalSquadDenied).Pass? <==>
            ExternalFits(c, user)
  {
    hide CheckSquads;
    var squads := ExternalSquadsOf(user);
    SquadsMean(c.allowedExternalSquads, squads, MissingExternalSquad, ExternalSquadDenied);
    assert forall squad :: HasExternal(user, squad) <==> squad in squads;
    if squads != [] {
      assert HasExternal(user, squads[0]);
    }
  }

  /** For every token and user: exactly what owning the user takes. */
  lemma OwnsMeans(tok: TokenPolicy, user: User)
    ensures var c := tok.constraints;
      Owns(tok, user) <==>
      && UsernameFits(c, user.username) && EmailFits(c, user.email) && TelegramFits(c, user.telegramId)
      && InternalFits(c, user) && ExternalFits(c, user) && PageConfigFits(c, user.pageConfigUuid)
  {
    hide ValidateUsername, ValidateEmail, CheckSquads, UsernameFits, EmailFits, InternalFits, ExternalFits;
    var c := tok.constraints;
    UsernameMeans(c, user.username);
    EmailMeans(c, user.email);
    InternalMeans(c, user);
    ExternalMeans(c, user);
  }

  // ------------------------------------------------------------------ reasons

  lemma UsernameReasons(c: Constraints, username: string)
    ensures ValidateUsername(c, username) == Fail(MissingUsername) <==>
      username == "" && !(c.usernamePrefix == "" && c.usernameSuffix == "" && c.usernameContains == "" && c.usernameRegex.NoRegex?)
    ensures ValidateUsername(c, username) == Fail(ForeignUsername) <==> username != "" && !Starts(username, c.usernamePrefix)
    ensures ValidateUsername(c, username) == Fail(UsernameSuffixDenied) <==>
      username != "" && Starts(username, c.usernamePrefix) && !Ends(username, c.usernameSuffix)
    ensures ValidateUsername(c, username) == Fail(UsernameContainsDenied) <==>
      username != "" && Starts(username, c.usernamePrefix) && Ends(username, c.usernameSuffix) &&
      forall k: nat :: !StandsAt(username, c.usernameContains, k)
    ensures ValidateUsername(c, username) == Fail(InvalidUsernameRegex) ==> c.usernameRegex.BadRegex?
    ensures ValidateUsername(c, username) == Fail(UsernameRegexDenied) ==>
      c.usernameRegex.Regex? && !c.usernameRegex.matches(username)
    ensures ValidateUsername(c, username).Fail? ==>
      ValidateUsername(c, username).reason in
        {MissingUsername, ForeignUsername, UsernameSuffixDenied, UsernameContainsDenied, InvalidUsernameRegex, UsernameRegexDenied}
  {
    hide StandsAt, Text.Contains, Text.HasPrefix, Text.HasSuffix;
    EmptyStands(username);
    assert StandsAt(username, "", 0) && StandsAt(username, "", |username|);
    PrefixMeans(username, c.usernamePrefix);
    SuffixMeans(username, c.usernameSuffix);
    ContainsMeans(username, c.usernameContains);
  }

  lemma EmailReasons(c: Constraints, email: string)
    ensures ValidateEmail(c, email) == Fail(MissingEmail) <==> email == "" && !(c.emailContains == "" && c.emailDomains == [])
    ensures ValidateEmail(c, email) == Fail(EmailContainsDenied) <==>
      email != "" && forall k: nat :: !StandsFoldedAt(email, c.emailContains, k)
    ensures ValidateEmail(c, email) == Fail(EmailDomainDenied) <==>
      email != "" && (exists k: nat :: StandsFoldedAt(email, c.emailContains, k)) && !EmailFits(c, email)
    ensures ValidateEmail(c, email).Fail? ==> ValidateEmail(c, email).reason in {MissingEmail, EmailContainsDenied, EmailDomainDenied}
  {
    hide StandsFoldedAt, InDomain, Text.Lower, Text.Contains, Text.After, EmailFits;
    EmptyStands(email);
    assert StandsFoldedAt(email, "", 0);
    ContainsFoldedMeans(email, c.emailContains);
    EmailMeans(c, email);
  }

  lemma SquadReasons(allowed: seq<string>, squads: seq<string>, missing: Reason, denied: Reason)
    ensures CheckSquads(allowed, squads, missing, denied).Fail? ==>
      CheckSquads(allowed, squads, missing, denied).reason == if squads == [] then missing else denied
  {
    hide SquadsAllowed;
  }

  /** The refusal reported is that of the first field that does not fit, in this order. */
  lemma FirstMisfit(tok: TokenPolicy, user: User)
    ensures var c, outcome := tok.constraints, OwnsUser(tok, user);
      && (!UsernameFits(c, user.username) ==> outcome == ValidateUsername(c, user.username) && outcome.Fail?)
      && (UsernameFits(c, user.username) && !EmailFits(c, user.email) ==> outcome == ValidateEmail(c, user.email) && outcome.Fail?)
      && (UsernameFits(c, user.username) && EmailFits(c, user.email) && !TelegramFits(c, user.telegramId) ==>
            outcome == Fail(if user.telegramId == 0 then MissingTelegramId else TelegramIdDenied))
      && (UsernameFits(c, user.username) && EmailFits(c, user.email) && TelegramFits(c, user.telegramId) && !InternalFits(c, user) ==>
            outcome == Fail(if user.internalSquads == [] && user.activeInternalSquads == [] then MissingInternalSquad else InternalSquadDenied))
      && (UsernameFits(c, user.username) && EmailFits(c, user.email) && TelegramFits(c, user.telegramId) && InternalFits(c, user) &&
          !ExternalFits(c, user) ==>
            outcome == Fail(if exists squad :: HasExternal(user, squad) then ExternalSquadDenied else MissingExternalSquad))
      && (UsernameFits(c, user.username) && EmailFits(c, user.email) && TelegramFits(c, user.telegramId) && InternalFits(c, user) &&
          ExternalFits(c, user) && !PageConfigFits(c, user.pageConfigUuid) ==>
            outcome == Fail(if user.pageConfigUuid == "" then MissingSubscriptionPageConfig else SubscriptionPageConfigDenied))
  {
    hide ValidateUsername, ValidateEmail, CheckSquads, UsernameFits, EmailFits, InternalFits, ExternalFits, HasExternal;
    var c := tok.constraints;
    UsernameMeans(c, user.username);
    EmailMeans(c, user.email);
    InternalMeans(c, user);
    ExternalMeans(c, user);
    SquadReasons(c.allowedInternalSquads, InternalSquadsOf(user), MissingInternalSquad, InternalSquadDenied);
    SquadReasons(c.allowedExternalSquads, ExternalSquadsOf(user), MissingExternalSquad, ExternalSquadDenied);
    SomeExternal(user);
  }

  lemma SomeExternal(user: User)
    ensures (exists squad :: HasExternal(user, squad)) <==> ExternalSquadsOf(user) != []
  {
    var squads := ExternalSquadsOf(user);
    assert forall squad :: HasExternal(user, squad) <==> squad in squads;
    if squads != [] {
      assert HasExternal(user, squads[0]);
    }
  }

  // --------------------------------------------------------- reading a user

  predicate HasText(fields: map<string, Json>, key: string, s: string) {
    key in fields && fields[key] == Str(s)
  }

  /** The first of these members that is a non-empty string is this one. */
  predicate FirstText(fields: map<string, Json>, keys: seq<string>, s: string) {
    s != "" && exists i | 0 <= i < |keys| ::
      HasText(fields, keys[i], s) && forall k | 0 <= k < i :: !(keys[k] in fields && fields[keys[k]].Str? && fields[keys[k]].s != "")
  }

  /** A squad is named by a string, or by an object under the first of its spellings. */
  predicate NamesSquad(v: Json, squad: string) {
    (v == Str(squad) && squad != "") ||
    (v.Obj? && FirstText(v.fields, ["uuid", "squadUuid", "squad_uuid", "externalSquadUuid", "external_squad_uuid"], squad))
  }

  predicate ListsSquad(fields: map<string, Json>, key: string, squad: string) {
    key in fields && fields[key].Arr? && exists i | 0 <= i < |fields[key].items| :: NamesSquad(fields[key].items[i], squad)
  }

  /** A member that the telegram id is read from. */
  predicate Numbered(fields: map<string, Json>, key: string) {
    key in fields && (fields[key].Num? || fields[key].Str?)
  }

  /** The member is the integer, as a number or as its decimal text. */
  predicate IsNumber(fields: map<string, Json>, key: string, n: int) {
    key in fields && (fields[key] == Num(Int(n)) || fields[key] == Str(Written(n)))
  }

  /** The telegram id of an object: the first of its two spellings that is a number or a text. */
  lemma TelegramReadMeans(fields: map<string, Json>, n: int)
    requires ParseUserObject(Obj(fields)).Some? && FitsInt64(n)
    ensures var user := ParseUserObject(Obj(fields)).value;
      && (IsNumber(fields, "telegramId", n) ==> user.telegramId == n)
      && (!Numbered(fields, "telegramId") && IsNumber(fields, "telegram_id", n) ==> user.telegramId == n)
      && (!Numbered(fields, "telegramId") && !Numbered(fields, "telegram_id") ==> user.telegramId == 0)
  {
    hide Written, DecimalValue, Text.TrimSpace, SquadRefs, FirstString, StringField, Int64Field, Numbered, IsNumber;
    NumberRead(fields, ["telegramId", "telegram_id"], n);
    NumberRead(fields, ["telegram_id"], n);
    assert ["telegramId", "telegram_id"][1..] == ["telegram_id"];
    NothingToRead(fields);
    assert ["telegram_id"][1..] == [];
  }

  lemma NumberRead(fields: map<string, Json>, keys: seq<string>, n: int)
    requires keys != [] && FitsInt64(n)
    ensures IsNumber(fields, keys[0], n) ==> Int64Field(fields, keys) == n
    ensures !Numbered(fields, keys[0]) ==> Int64Field(fields, keys) == Int64Field(fields, keys[1..])
  {
    hide Written, DecimalValue, Text.TrimSpace;
    WrittenIsRead(n);
  }

  lemma NothingToRead(fields: map<string, Json>)
    ensures Int64Field(fields, []) == 0
  {
  }

  lemma {:induction false} FirstStringMeans(fields: map<string, Json>, keys: seq<string>, s: string)
    requires s != ""
    ensures FirstString(fields, keys) == s <==> FirstText(fields, keys, s)
  {
    if keys != [] {
      FirstStringMeans(fields, keys[1..], s);
      if StringField(fields, keys[0]) == "" {
        if i :| 0 <= i < |keys[1..]| && HasText(fields, keys[1..][i], s) &&
                forall k | 0 <= k < i :: !(keys[1..][k] in fields && fields[keys[1..][k]].Str? && fields[keys[1..][k]].s != "") {
          assert keys[i + 1] == keys[1..][i];
          assert forall k | 0 < k < i + 1 :: keys[k] == keys[1..][k - 1];
        }
        if i :| 0 <= i < |keys| && HasText(fields, keys[i], s) &&
                forall k | 0 <= k < i :: !(keys[k] in fields && fields[keys[k]].Str? && fields[keys[k]].s != "") {
          assert i > 0 && keys[1..][i - 1] == keys[i];
          assert forall k | 0 <= k < i - 1 :: keys[1..][k] == keys[k + 1];
        }
      }
    }
  }

  lemma RefMeans(v: Json, squad: string)
    ensures ParseSquadRef(Some(v)) == Some(squad) <==> NamesSquad(v, squad)
  {
    hide FirstString, FirstText;
    assert Keys(SquadRefKeys) == ["uuid", "squadUuid", "squad_uuid", "externalSquadUuid", "external_squad_uuid"];
    if v.Obj? && squad != "" {
      FirstStringMeans(v.fields, Keys(SquadRefKeys), squad);
    }
    NoEmptyText();
  }

  lemma NoEmptyText()
    ensures forall fields, keys :: !FirstText(fields, keys, "")
  {
  }

  lemma {:induction false} RefsMean(items: seq<Json>, squad: string)
    ensures squad in RefsOf(items) <==> exists i | 0 <= i < |items| :: NamesSquad(items[i], squad)
  {
    hide NamesSquad, ParseSquadRef;
    if items != [] {
      var front, last := items[..|items| - 1], |items| - 1;
      RefsMean(front, squad);
      RefMeans(items[last], squad);
      if i :| 0 <= i < |front| && NamesSquad(front[i], squad) {
        assert NamesSquad(items[i], squad);
      }
      if i :| 0 <= i < |items| && NamesSquad(items[i], squad) {
        assert i < last ==> NamesSquad(front[i], squad);
      }
    }
  }

  lemma ListMeans(fields: map<string, Json>, key: string, squad: string)
    ensures squad in SquadRefs(Lookup(fields, key)) <==> ListsSquad(fields, key, squad)
  {
    hide NamesSquad, RefsOf;
    if key in fields && fields[key].Arr? {
      RefsMean(fields[key].items, squad);
    }
  }

  /** What is read as a user, and which squads it has, from the members of an object. */
  lemma UserReadMeans(fields: map<string, Json>)
    ensures ParseUserObject(Obj(fields)).Some? <==> exists s :: s != "" && (HasText(fields, "username", s) || HasText(fields, "uuid", s))
    ensures ParseUserObject(Obj(fields)).Some? ==>
      var user := ParseUserObject(Obj(fields)).value;
      && (forall s | s != "" :: user.username == s <==> HasText(fields, "username", s))
      && (forall s | s != "" :: user.uuid == s <==> HasText(fields, "uuid", s))
      && (forall s | s != "" :: user.email == s <==> HasText(fields, "email", s))
      && (forall squad :: HasInternal(user, squad) <==>
            ListsSquad(fields, "internalSquads", squad) || ListsSquad(fields, "activeInternalSquads", squad))
      && (forall squad :: HasExternal(user, squad) <==>
            || ListsSquad(fields, "externalSquads", squad)
            || ("externalSquad" in fields && NamesSquad(fields["externalSquad"], squad))
            || FirstText(fields, ["externalSquadUuid", "external_squad_uuid"], squad))
      && (forall s | s != "" :: user.pageConfigUuid == s <==>
            FirstText(fields, ["subscriptionPageConfigUuid", "subscriptionPageConfigUUID", "subscription_page_config_uuid"], s))
  {
    hide FirstString, FirstText, SquadRefs, ParseSquadRef, NamesSquad, ListsSquad, Int64Field;
    assert Keys(ExternalSquadKeys) == ["externalSquadUuid", "external_squad_uuid"];
    assert Keys(PageConfigKeys) == ["subscriptionPageConfigUuid", "subscriptionPageConfigUUID", "subscription_page_config_uuid"];
    hide Keys;
    NoEmptyText();
    if StringField(fields, "username") != "" {
      assert HasText(fields, "username", StringField(fields, "username"));
    }
    if StringField(fields, "uuid") != "" {
      assert HasText(fields, "uuid", StringField(fields, "uuid"));
    }
    forall s: string | s != ""
      ensures FirstString(fields, Keys(ExternalSquadKeys)) == s <==> FirstText(fields, Keys(ExternalSquadKeys), s)
      ensures FirstString(fields, Keys(PageConfigKeys)) == s <==> FirstText(fields, Keys(PageConfigKeys), s)
    {
      FirstStringMeans(fields, Keys(ExternalSquadKeys), s);
      FirstStringMeans(fields, Keys(PageConfigKeys), s);
    }
    forall squad: string
      ensures squad in SquadRefs(Lookup(fields, "internalSquads")) <==> ListsSquad(fields, "internalSquads", squad)
      ensures squad in SquadRefs(Lookup(fields, "activeInternalSquads")) <==> ListsSquad(fields, "activeInternalSquads", squad)
      ensures squad in SquadRefs(Lookup(fields, "externalSquads")) <==> ListsSquad(fields, "externalSquads", squad)
      ensures ParseSquadRef(Lookup(fields, "externalSquad")) == Some(squad) <==>
        "externalSquad" in fields && NamesSquad(fields["externalSquad"], squad)
    {
      ListMeans(fields, "internalSquads", squad);
      ListMeans(fields, "activeInternalSquads", squad);
      ListMeans(fields, "externalSquads", squad);
      if "externalSquad" in fields {
        RefMeans(fields["externalSquad"], squad);
      } else {
        NoRefHere(fields);
      }
    }
  }

  lemma NoRefHere(fields: map<string, Json>)
    requires "externalSquad" !in fields
    ensures ParseSquadRef(Lookup(fields, "externalSquad")) == None
  {
  }
}
