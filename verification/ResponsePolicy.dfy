/** What an upstream answer must satisfy, and how it is rewritten, before a restricted token may see it. */
module ResponsePolicy {
  import opened KeyTables
  import opened Prelude
  import opened Json
  import opened Config
  import opened Routes
  import opened Remnawave
  import opened ListFilter
  import opened PanelList
  import opened Upstream

  function ObjectUuid(v: Json): string {
    if v.Obj? then StringField(v.fields, "uuid") else ""
  }

  // ------------------------------------------------------------------ squads


  /** sanitizeSquadNode: the first squad object found keeps three fields; None when there is none. */
  function SanitizeSquadNode(v: Json): Option<Json>
    decreases v, |Keys(SquadKeys)| + 1
  {
    if !v.Obj? then None
    else if ObjectUuid(v) != "" then Some(Obj(map key | key in v.fields && key in Keys(SquadFields) :: v.fields[key]))
    else SanitizeUnder(v, 0)
  }

  function SanitizeUnder(v: Json, k: nat): Option<Json>
    requires v.Obj? && k <= |Keys(SquadKeys)|
    decreases v, |Keys(SquadKeys)| - k
  {
    if k == |Keys(SquadKeys)| then None
    else if Keys(SquadKeys)[k] in v.fields && SanitizeSquadNode(v.fields[Keys(SquadKeys)[k]]).Some? then
      Some(Obj(v.fields[Keys(SquadKeys)[k] := SanitizeSquadNode(v.fields[Keys(SquadKeys)[k]]).value]))
    else SanitizeUnder(v, k + 1)
  }

  function SanitizeListObject(item: Json): Json {
    if item.Obj? then Obj(map key | key in item.fields && key !in Keys(RawInboundFields) :: item.fields[key]) else item
  }

  function SquadItem(allowed: seq<string>): Keep {
    item => if allowed == [] || ObjectUuid(item) in allowed then Some(SanitizeListObject(item)) else None
  }

  // ------------------------------------------------------------ page configs


  predicate PageConfigAllowed(tok: TokenPolicy, uuid: string) {
    tok.constraints.allowedPageConfigs == [] || (uuid != "" && uuid in tok.constraints.allowedPageConfigs)
  }

  predicate PageConfigNodeAllowed(tok: TokenPolicy, v: Json) {
    match v
    case Obj(fields) =>
      || PageConfigAllowed(tok, ObjectUuid(v))
      || (exists i | 0 <= i < |Keys(PageConfigIdKeys)| ::
            Keys(PageConfigIdKeys)[i] in fields && fields[Keys(PageConfigIdKeys)[i]].Str? &&
            PageConfigAllowed(tok, fields[Keys(PageConfigIdKeys)[i]].s))
      || (exists i | 0 <= i < |Keys(PageConfigNodeKeys)| ::
            Keys(PageConfigNodeKeys)[i] in fields && PageConfigNodeAllowed(tok, fields[Keys(PageConfigNodeKeys)[i]]))
    case Arr(items) => exists i | 0 <= i < |items| :: PageConfigNodeAllowed(tok, items[i])
    case _ => false
  }

  function PageConfigItem(tok: TokenPolicy): Keep {
    item => if PageConfigAllowed(tok, ObjectUuid(item)) then Some(item) else None
  }

  // ------------------------------------------------------------ the two gates

  function WithBody(a: Answer, body: Option<Json>, reason: Reason): Result<Answer, Reason>
    requires a.Answer?
  {
    if body.Some? then Ok(Answer(a.status, body)) else Err(reason)
  }

  /** enforceResponsePolicy. */
  function EnforceResponse(route: Route, tok: TokenPolicy, a: Answer): (r: Result<Answer, Reason>)
    requires a.Answer?
    ensures r.Ok? ==> r.value.Answer? && r.value.status == a.status
  {
    if route.support != PolicyEnforced || !Success(a) then Ok(a)
    else
      match route.name
      case UserRead(_) =>
        if a.body.None? then Err(InvalidJson)
        else if DecodeUser(a.body.value).None? then
          (if IsEmptyUserNode(a.body.value) then Ok(a) else Err(UnparseableUserResponse))
        else
          (match OwnsUser(tok, DecodeUser(a.body.value).value)
           case Pass => Ok(a)
           case Fail(reason) => Err(reason))
      case SquadRead(_) =>
        if a.body.None? then Err(InvalidJson)
        else WithBody(a, SanitizeSquadNode(a.body.value), UnfilterableSquadResponse)
      case PageConfigRead =>
        if tok.constraints.allowedPageConfigs == [] then Ok(a)
        else if a.body.None? then Err(InvalidJson)
        else if PageConfigNodeAllowed(tok, a.body.value) then Ok(a)
        else Err(SubscriptionPageConfigDenied)
      case _ => Ok(a)
  }

  function FilterBody(a: Answer, page: Option<Page>, keep: Keep): (r: Result<Answer, Reason>)
    requires a.Answer?
    ensures r.Ok? ==> r.value.Answer? && r.value.status == a.status
  {
    if a.body.None? then Err(InvalidJson)
    else WithBody(a, FilterList(a.body.value, page, keep), UnfilterableListResponse)
  }

  /** filterResponsePolicy. */
  function FilterResponse(route: Route, tok: TokenPolicy, a: Answer, page: Option<Page>): (r: Result<Answer, Reason>)
    requires a.Answer?
    ensures r.Ok? ==> r.value.Answer? && r.value.status == a.status
  {
    if route.support != PolicyEnforced || !Success(a) || HasPrivilegedScope(tok.scopes) then Ok(a)
    else
      match route.name
      case UserList => FilterBody(a, page, OwnedItem(tok))
      case SquadList(true) => FilterBody(a, None, SquadItem(tok.constraints.allowedInternalSquads))
      case SquadList(false) => FilterBody(a, None, SquadItem(tok.constraints.allowedExternalSquads))
      case PageConfigList => FilterBody(a, None, PageConfigItem(tok))
      case _ => Ok(a)
  }

  /** Both gates, in the pipeline's order. */
  function GateResponse(route: Route, tok: TokenPolicy, a: Answer, page: Option<Page>): (r: Result<Answer, Reason>)
    requires a.Answer?
    ensures r.Ok? ==> r.value.Answer? && r.value.status == a.status
  {
    match EnforceResponse(route, tok, a)
    case Err(reason) => Err(reason)
    case Ok(enforced) => FilterResponse(route, tok, enforced, page)
  }

  /** Cutting the requested page out of the filtered user list panics. */
  predicate ResponseFaults(route: Route, tok: TokenPolicy, a: Answer, page: Option<Page>)
    requires a.Answer?
  {
    route.support == PolicyEnforced && Success(a) && !HasPrivilegedScope(tok.scopes) && route.name == UserList && a.body.Some? &&
    var filtered := FilterNode(a.body.value, page, OwnedItem(tok));
    filtered.Filtered? && SliceFaults(filtered.count, page)
  }
}
