/**
 * The server configuration: the domain registry, the maintenance flag, the
 * provider's credential and base URL, the fixed record settings and the
 * supported record types. The source reads the process environment once at
 * load time; here the environment is a map given to LoadConfig, and the
 * result is an immutable value handed to the request handlers.
 */
module Config {
  import opened Values

  /** A registry entry. An empty zoneId means the domain is not configured. */
  datatype DomainConfig = DomainConfig(name: string, zoneId: string, description: Option<string>)

  /** The record types the server accepts. */
  datatype RecordType = A | CNAME | TXT | MX | NS

  /** SUPPORTED_RECORD_TYPES, in the source's order. */
  const SUPPORTED_RECORD_TYPES: seq<string> := ["A", "CNAME", "TXT", "MX", "NS"]

  /** The string a record type is written as. */
  function RecordTypeName(t: RecordType): (name: string)
    ensures name in SUPPORTED_RECORD_TYPES
  {
    match t
    case A => "A"
    case CNAME => "CNAME"
    case TXT => "TXT"
    case MX => "MX"
    case NS => "NS"
  }

  /** The supported list is exactly the five record types' names, in declaration order, each once. */
  lemma SupportedRecordTypesEnumerated()
    ensures SUPPORTED_RECORD_TYPES == [RecordTypeName(A), RecordTypeName(CNAME), RecordTypeName(TXT), RecordTypeName(MX), RecordTypeName(NS)]
    ensures forall i, j | 0 <= i < j < |SUPPORTED_RECORD_TYPES| :: SUPPORTED_RECORD_TYPES[i] != SUPPORTED_RECORD_TYPES[j]
    ensures forall t1: RecordType, t2: RecordType :: RecordTypeName(t1) == RecordTypeName(t2) ==> t1 == t2
  {
  }

  /** CLOUDFLARE_API_BASE_URL. */
  const API_BASE_URL: string := "https://api.cloudflare.com/client/v4"

  /** DNS_RECORD_CONFIG: ttl 1 means automatic; proxied false means DNS only. */
  const RECORD_TTL: int := 1
  const RECORD_PROXIED: bool := false

  /** The process environment: variable name to value. */
  type Env = map<string, string>

  /** `process.env[key] || ""`: the value when set, and "" when unset (an empty value is "" either way). */
  function EnvOrEmpty(env: Env, key: string): (v: string)
    ensures key !in env ==> v == ""
    ensures key in env ==> v == env[key]
  {
    if key in env && env[key] != "" then env[key] else ""
  }

  /** LIST_DOMAIN, given the zone id read for its one entry. */
  function Registry(zoneId1: string): seq<DomainConfig> {
    [DomainConfig("nepuh.web.id", zoneId1, Some("Primary domain"))]
  }

  /** Everything the request handlers read from the configuration. */
  datatype ServerConfig = ServerConfig(maintenance: bool, apiToken: string, domains: seq<DomainConfig>)

  /** The configuration as the source builds it from the environment at load time. */
  function LoadConfig(env: Env): (cfg: ServerConfig)
    ensures cfg.maintenance <==> "MAINTENANCE_MODE" in env && env["MAINTENANCE_MODE"] == "true"
    ensures cfg.apiToken == "" <==> "CF_API_TOKEN" !in env || env["CF_API_TOKEN"] == ""
    ensures "CF_API_TOKEN" in env ==> cfg.apiToken == env["CF_API_TOKEN"]
    ensures |cfg.domains| == 1 && cfg.domains[0].name == "nepuh.web.id"
    ensures cfg.domains[0].zoneId == "" <==> "CF_ZONE_ID_1" !in env || env["CF_ZONE_ID_1"] == ""
    ensures "CF_ZONE_ID_1" in env ==> cfg.domains[0].zoneId == env["CF_ZONE_ID_1"]
    ensures cfg.domains[0].description == Some("Primary domain")
  {
    ServerConfig(
      "MAINTENANCE_MODE" in env && env["MAINTENANCE_MODE"] == "true",
      EnvOrEmpty(env, "CF_API_TOKEN"),
      Registry(EnvOrEmpty(env, "CF_ZONE_ID_1")))
  }

  /** Only the exact value "true" turns maintenance on. */
  lemma MaintenanceFlagIsExact()
    ensures LoadConfig(map["MAINTENANCE_MODE" := "true"]).maintenance
    ensures !LoadConfig(map["MAINTENANCE_MODE" := "TRUE"]).maintenance
    ensures !LoadConfig(map["MAINTENANCE_MODE" := "1"]).maintenance
    ensures !LoadConfig(map[]).maintenance
  {
  }
}
