/** The tables of JSON keys that the code tries in order. */
module KeyTables {

  datatype KeyList =
    | EnvelopeKeys | SquadRefKeys | ExternalSquadKeys | PageConfigKeys
    | ListKeys | CountKeys | ChainKeys
    | SquadKeys | SquadFields | RawInboundFields | PageConfigIdKeys | PageConfigNodeKeys
    | CreateFields | UpdateFields

  function Keys(list: KeyList): seq<string> {
    match list
    // Remnawave answers
    case EnvelopeKeys => ["response", "user", "users", "items", "data"]
    case SquadRefKeys => ["uuid", "squadUuid", "squad_uuid", "externalSquadUuid", "external_squad_uuid"]
    case ExternalSquadKeys => ["externalSquadUuid", "external_squad_uuid"]
    case PageConfigKeys => ["subscriptionPageConfigUuid", "subscriptionPageConfigUUID", "subscription_page_config_uuid"]
    // list filtering
    case ListKeys =>
      ["response", "users", "internalSquads", "externalSquads", "subscriptionPageConfigs", "subscription_page_configs",
       "configs", "items", "data"]
    case CountKeys => ["total", "count", "totalItems", "total_items", "recordsTotal", "records_total"]
    case ChainKeys => ["response", "meta", "pagination"]
    // squad and page config answers
    case SquadKeys => ["response", "squad", "internalSquad", "externalSquad"]
    case SquadFields => ["uuid", "name", "viewPosition"]
    case RawInboundFields => ["rawInbound", "rawInbounds", "raw_inbound", "raw_inbounds"]
    case PageConfigIdKeys => ["subscriptionPageConfigUuid", "subscriptionPageConfigUUID", "subscription_page_config_uuid", "uuid"]
    case PageConfigNodeKeys =>
      ["response", "config", "subscriptionPageConfig", "subscription_page_config", "subpageConfig", "subpage_config"]
    // field allowlists of the user writes
    case CreateFields =>
      ["username", "status", "shortUuid", "short_uuid", "trojanPassword", "vlessUuid", "ssPassword", "expireAt", "createdAt",
       "lastTrafficResetAt", "trafficLimitBytes", "trafficLimitStrategy", "telegramId", "telegram_id", "email", "description", "tag",
       "activeInternalSquads", "hwidDeviceLimit", "uuid", "externalSquadUuid", "external_squad_uuid", "subscriptionPageConfigUuid",
       "subscriptionPageConfigUUID", "subscription_page_config_uuid"]
    case UpdateFields =>
      ["username", "uuid", "status", "expireAt", "trafficLimitBytes", "trafficLimitStrategy", "telegramId", "telegram_id", "email",
       "description", "tag", "activeInternalSquads", "hwidDeviceLimit", "externalSquadUuid", "external_squad_uuid",
       "subscriptionPageConfigUuid", "subscriptionPageConfigUUID", "subscription_page_config_uuid"]
  }
}
