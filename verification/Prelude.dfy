/** Result shapes shared by the whole model. */
module Prelude {

  datatype Option<+T> = None | Some(value: T) {
    function UnwrapOr(default: T): T {
      if this.Some? then value else default
    }
  }

  datatype Result<+T, +E> = Ok(value: T) | Err(error: E)

  /** Why a request is refused. */
  datatype Reason =
    | AuthRequired | BodyTooLarge | ConfigProfileDenied | ContentEncodingDenied | DescriptionTooLong
    | EmailContainsDenied | EmailDomainDenied | ExternalSquadDenied | ForeignUsername | HostDenied
    | InternalSquadDenied | InvalidDescription | InvalidEmail | InvalidExternalSquad | InvalidInternalSquads
    | InvalidJson | InvalidSubscriptionPageConfig | InvalidTelegramId | InvalidToken | InvalidTrafficLimit
    | InvalidUsername | InvalidUsernameRegex | InvalidUuids | JsonContentTypeRequired | MissingEmail
    | MissingExternalSquad | MissingInternalSquad | MissingScope | MissingSubscriptionPageConfig
    | MissingTelegramId | MissingToken | MissingUserUuid | MissingUsername | MissingUuid | MissingUuids
    | NodeDenied | PanelAuthDenied | PanelAuthStateLimit | PanelAuthUnsupported | PostWriteUnverifiable
    | PreflightDenied | PreflightFailed | PrivilegedScopeRequired | PublicSubscriptionConcurrency
    | PublicSubscriptionNotAuthenticated | PublicSubscriptionRateLimit | PublicSubscriptionsDisabled
    | RateLimited | RequestFieldDenied | SubscriptionPageConfigDenied | SubscriptionTemplateDenied
    | TelegramIdDenied | TokenConcurrency | TokenRateLimit | TrafficLimitTooLarge | UnfilterableListResponse
    | UnfilterableSquadResponse | UnknownJsonField | UnknownRoute | UnlimitedTrafficDenied
    | UnparseableUserResponse | UnsupportedRoute | UpstreamError | UpstreamUnavailable | UserDenied
    | UsernameContainsDenied | UsernameRegexDenied | UsernameSuffixDenied | VersionGuard | WriteSafetyNotEnabled
    | MissingBoolean(field: string) | InvalidBoolean(field: string) | JsonObjectRequired
    | DuplicateJsonKey(key: string) | JsonSyntax | MalformedRequest(text: string)

  /** A check that passes or gives the reason that is reported to the caller. */
  datatype Outcome = Pass | Fail(reason: Reason)

  /** The source's chains of "if err := f(); err != nil { return err }". */
  function Then(first: Outcome, second: Outcome): (r: Outcome)
    ensures r.Pass? <==> first.Pass? && second.Pass?
  {
    if first.Fail? then first else second
  }

  function Require(ok: bool, reason: Reason): (r: Outcome)
    ensures r.Pass? <==> ok
  {
    if ok then Pass else Fail(reason)
  }
}
