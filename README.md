# DNS record submission pipeline, modelled in Dafny

This project models the server side of a small web service that lets a visitor
create a DNS record under a registered domain. The service checks the
request, builds one record and sends it to the Cloudflare DNS API. The model
covers three parts of the server:

- **Config** (`config.dfy`) holds the configuration: the domain registry, the
  maintenance flag, the API token, the base URL, the fixed record settings
  (TTL 1, not proxied) and the supported record types. The source reads the
  process environment once at load time. Here `LoadConfig` takes the
  environment as a map and returns an immutable `ServerConfig`.
- **Patterns** (`patterns.dfy`) holds the three validation patterns `ipv4`,
  `subdomain` and `hostname`. Each anchored regular expression is written as
  a predicate that follows its structure: `IsOctet`, `OctetRun`/`IsIPv4`,
  `IsLabel` and `IsHostname`. Each is then proved equal to an independent
  description. A label is compared with a flat reading (length and
  characters, `LabelShaped`). An octet is compared with its decimal value
  (`OctetValued`). The IPv4 and hostname patterns are compared with the
  string cut at its dots, the way `split(".")` cuts it (`SplitDots`).
- **DnsUtils** (`dns_utils.dfy`) holds what the route uses: the three
  validators, the record-type detector, record-name construction and the two
  response builders. It also restates the unit-test cases as lemmas.
- **DnsRoutes** (`dns_routes.dfy`) holds the two handlers.
  - `GetDomains` is the GET /domains listing.
  - POST /create-dns is split in two. `Decide` is the chain of early
    returns, ending either in a rejection or in the one provider request.
    `Answer` maps the provider's outcome to a status and a body.
  - `CreateDns` composes `Decide` and `Answer`.
  - The chain is also written as a table of independent checks (`Checks`).
    A first-failure-wins reading of that table (`FirstFailure`) is proved to
    agree with `Decide`.
- **Values** (`values.dfy`) holds the JSON values and the `Option` type.

All operations in the source are pure or straight-line code with no loops.
They are modelled as functions, and their properties as lemmas.

Three behaviours of the code are worth knowing:

- GET /domains does not look at the maintenance flag. It lists the
  configured domains even in maintenance (`GetDomainsIgnoresMaintenance`),
  and it never answers 503. The client, however, shows its maintenance page
  only when `/api/domains` answers 503 (client/src/App.tsx:18-21). With the
  server as written, that page is never shown, even during maintenance;
  only POST /create-dns refuses with 503.
- Every error body carries `details: {}`. The route always calls
  `buildErrorResponse` without details, and the builder then adds an empty
  object (`Fail`, `BuildErrorResponse`).
- The IPv4 branch of `validateTarget` adds nothing. Every IPv4 address is
  also a hostname (`IPv4IsHostname`), so a target is valid exactly when the
  hostname pattern accepts it (`ValidateTargetMeaning`,
  `ValidateTargetShape`). A dotted quad with an octet above 255, such as
  `300.1.1.1`, is therefore accepted as a hostname and, when the request
  gives no record type, sent as a CNAME record (`OutOfRangeQuadIsCname`).

## Model

| member | source | states |
|---|---|---|
| Patterns.IsLabel | server/config.ts:70 | No contract of its own. It follows the subdomain pattern piece by piece; `LabelMeaning` states what it accepts. |
| Patterns.IsOctet | server/config.ts:68 | No contract of its own. It follows the octet alternation branch by branch; `OctetMeaning` states what it accepts. |
| Patterns.IsIPv4 | server/config.ts:68 | No contract of its own. It is the octet run with three repetitions; `IPv4Meaning` and `OctetRunSplit` state what it accepts. |
| Patterns.IsHostname | server/config.ts:72 | No contract of its own. It follows the hostname pattern, a repeated label and dot, a label, and an optional dot; `HostnameMeaning` states what it accepts. |
| Patterns.LabelMeaning | server/config.ts:70 | The label pattern accepts exactly 1 to 63 characters from [A-Za-z0-9-] that start and end with a letter or digit. |
| Patterns.OctetMeaning | server/config.ts:68 | The octet alternation accepts exactly the 1- to 3-digit decimal spellings of 0..255, leading zeros included. |
| Patterns.OctetRunSplit | server/config.ts:68 | A run of n repetitions of OCTET followed by a dot, then a final OCTET, is exactly a string that splits on "." into n+1 pieces, each an octet. |
| Patterns.IPv4Meaning | server/config.ts:68 | The IPv4 pattern accepts exactly the strings that split on "." into four pieces, each 1 to 3 digits with value at most 255. |
| Patterns.HostnameMeaning | server/config.ts:72 | The hostname pattern accepts exactly one or more labels joined by ".", with at most one "." after the last label. |
| Patterns.SplitDotsRoundTrip | server/config.ts:68-72 | Joining the dot-separated pieces with "." gives back the original string, so the split reading loses nothing. |
| Patterns.SplitDotsPiecesUndotted | server/config.ts:68-72 | No piece of the split contains a dot. |
| Patterns.IPv4IsHostname | server/config.ts:68-72 | Every string the IPv4 pattern accepts is also accepted by the hostname pattern. |
| Patterns.LabelIsHostname | server/config.ts:70-72 | Every string the subdomain pattern accepts is a one-label hostname. |
| Patterns.OctetIsLabel | server/config.ts:68-72 | Every octet is also a label. |
| Patterns.HostnameCons | server/config.ts:72 | A label, a dot and a hostname make a hostname. |
| Patterns.QuadIsIPv4 | server/config.ts:68 | Four octets joined by dots make an IPv4 address. |
| Patterns.OctetRunStartsWithDigit | server/config.ts:68 | Every string accepted by the octet-run pattern is non-empty and starts with a digit. |
| Config.RecordTypeName | server/config.ts:60-61 | Every record type is written as one of the supported names. |
| Config.SupportedRecordTypesEnumerated | server/config.ts:60-61 | The supported list is exactly A, CNAME, TXT, MX, NS, in that order, with no repeats, and each record type has its own name. |
| Config.EnvOrEmpty | server/config.ts:26 | An unset variable reads as "", and a set one reads as its value. |
| Config.Registry | server/config.ts:23-35 | No contract of its own. It is LIST_DOMAIN, given the zone id read for its one entry; `LoadConfig` states that entry field by field. |
| Config.LoadConfig | server/config.ts:23-46 | Maintenance is on exactly when MAINTENANCE_MODE is exactly "true". The token is empty exactly when CF_API_TOKEN is unset or empty, and is its value when set. The registry has one entry, "nepuh.web.id" with description "Primary domain". Its zone id is the value of CF_ZONE_ID_1 when set, and is empty exactly when that variable is unset or empty. |
| Config.MaintenanceFlagIsExact | server/config.ts:41 | "true" turns maintenance on. "TRUE", "1" and an unset variable do not. |
| DnsUtils.DetectRecordType | server/dns-utils.ts:8-13 | No contract of its own. It answers A when the IPv4 pattern matches and CNAME otherwise; `DetectRecordTypeMeaning` states what that means. |
| DnsUtils.ValidateSubdomain | server/dns-utils.ts:18-20 | No contract of its own. It is the subdomain pattern; `ValidateSubdomainMeaning` states what it accepts. |
| DnsUtils.ValidateTarget | server/dns-utils.ts:25-30 | No contract of its own. It is the IPv4 pattern or the hostname pattern; `ValidateTargetMeaning` and `ValidateTargetShape` state what it accepts. |
| DnsUtils.ValidateRecordType | server/dns-utils.ts:35-37 | No contract of its own. It is membership in the five names; `ValidateRecordTypeMeaning` states what it accepts. |
| DnsUtils.DetectRecordTypeMeaning | server/dns-utils.ts:8-13 | The detector answers A exactly for four dot-separated octets 0..255, and CNAME otherwise. It never answers TXT, MX or NS, and its answer always passes the record-type validator. |
| DnsUtils.ValidateSubdomainMeaning | server/dns-utils.ts:18-20 | A valid subdomain is a single label of 1 to 63 characters. It contains no dot and no underscore, and it is also a hostname. |
| DnsUtils.ValidateTargetMeaning | server/dns-utils.ts:25-30 | A target is valid exactly when the hostname pattern accepts it, so the IPv4 branch adds nothing. The empty target is never valid. |
| DnsUtils.ValidateTargetShape | server/dns-utils.ts:25-30 | A target is valid exactly when it is one or more labels joined by dots, with at most one dot after the last. |
| DnsUtils.ValidateRecordTypeMeaning | server/dns-utils.ts:35-37 | A type string is valid exactly when it is in the supported list, that is, when it is the name of some record type. |
| DnsUtils.BuildRecordName | server/dns-utils.ts:42-44 | The name is the subdomain, then ".", then the domain. Its length is \|s\|+\|d\|+1, and no case folding is applied. |
| DnsUtils.BuildRecordNameInjective | server/dns-utils.ts:42-44 | For valid subdomains, the record name determines both the subdomain and the domain. |
| DnsUtils.BuildRecordNameIsHostname | server/dns-utils.ts:42-44 | A valid subdomain in front of a hostname makes a hostname. |
| DnsUtils.BuildErrorResponse | server/dns-utils.ts:49-58 | The body fails, carries the message, and has the given details, or {} when none are given. |
| DnsUtils.BuildSuccessResponse | server/dns-utils.ts:63-68 | The body succeeds and carries the data unchanged. |
| DnsUtils.NotIPv4IfLeadingLetter | server/dns-utils.ts:8-13 | No string that starts with a non-digit is an IPv4 address. |
| DnsUtils.NotIPv4IfFirstPieceNotOctet | server/dns-utils.ts:8-13 | A dotted string whose piece before the first dot is not an octet is not an IPv4 address. |
| DnsUtils.OutOfRangeQuadIsCname | server/dns-utils.ts:8-30 | "300.1.1.1" is a valid target, is not an IPv4 address, and is detected as CNAME. |
| DnsUtils.DetectRecordTypeIPv4Cases | server/dns-utils.test.ts:14-18 | "192.168.1.1", "10.0.0.1" and "255.255.255.255" are detected as A. |
| DnsUtils.DetectRecordTypeHostnameCases | server/dns-utils.test.ts:20-24 | "example.com", "api.example.com" and "subdomain.domain.co.uk" are detected as CNAME. |
| DnsUtils.ValidateSubdomainAcceptedCases | server/dns-utils.test.ts:28-34 | "api", "www", "mail", "api-v2" and "test123" are valid subdomains. |
| DnsUtils.ValidateSubdomainRejectedCases | server/dns-utils.test.ts:36-42 | "-api", "api-", "api_test", "api.test" and "" are rejected. |
| DnsUtils.ValidateTargetIPv4Cases | server/dns-utils.test.ts:46-60 | The three test addresses are valid targets, and "" is not. |
| DnsUtils.ValidateTargetHostnameCases | server/dns-utils.test.ts:52-56 | The three test hostnames are valid targets. |
| DnsUtils.ValidateRecordTypeCases | server/dns-utils.test.ts:63-76 | The five upper-case names are valid. "AAAA", "SOA", "invalid", and the lower-case "a" and "cname", are not. Every other string is covered by ValidateRecordTypeMeaning. |
| DnsUtils.BuildRecordNameCases | server/dns-utils.test.ts:80-84 | "api" under "example.com" and "www" under "nepuh.web.id" give the expected names. |
| DnsUtils.BuildRecordNameMoreCases | server/dns-utils.test.ts:80-88 | "mail" under "domain.co.uk" and the one-character "a" under "example.com" give the expected names. |
| DnsUtils.ResponseBuilderCases | server/dns-utils.test.ts:91-114 | The error builder gives {} without details and the given details otherwise. The success builder keeps its data. |
| DnsRoutes.Fail | server/routes/dns.ts:27 | An early error reply has the given status and an error body with the message and details {}. |
| DnsRoutes.ListDomains | server/routes/dns.ts:9-12 | The filter and map of the registry. Its own contract only bounds the length; `ListDomainsAppend`, `ListDomainsSingle` and `ListDomainsMembership` state what it lists and in which order. |
| DnsRoutes.ListDomainsAppend | server/routes/dns.ts:9-12 | Listing a concatenation gives the concatenation of the listings, so registry order is kept. |
| DnsRoutes.ListDomainsSingle | server/routes/dns.ts:9-12 | One entry is listed, as only its name and description, exactly when its zone id is non-empty. |
| DnsRoutes.ListDomainsMembership | server/routes/dns.ts:9-12 | A summary is listed exactly when some entry with a non-empty zone id has that name and description. |
| DnsRoutes.GetDomains | server/routes/dns.ts:7-17 | GET /domains answers 200 with a successful body whose domains are exactly the listing of the registry: configured entries only, in order, as name and description. |
| DnsRoutes.GetDomainsIgnoresMaintenance | server/routes/dns.ts:7-17 | The listing does not depend on the maintenance flag or the token. |
| DnsRoutes.DefaultRegistryListing | server/routes/dns.ts:9-12 | With the loaded configuration, "nepuh.web.id" ("Primary domain") is listed exactly when CF_ZONE_ID_1 is set and non-empty, and nothing is listed otherwise. |
| DnsRoutes.FindDomain | server/routes/dns.ts:44 | The lookup finds nothing exactly when no entry has that exact name. Otherwise it returns the first entry with that name. |
| DnsRoutes.ChosenRecordType | server/routes/dns.ts:49-54 | A truthy supplied type is used as given. An absent or empty one is replaced by the type detected from the target. |
| DnsRoutes.RecordsUrl | server/routes/dns.ts:61 | No contract of its own. It is the provider endpoint for a zone; `CallSendsRecord` states the URL the handler posts to. |
| DnsRoutes.Decide | server/routes/dns.ts:26-76 | A rejection is a failure reply with status 400, 500 or 503. A call is made only outside maintenance, with a non-empty token and a present target, and the target is sent as the record's content. `DecideFollowsChecks`, `CallSendsRecord` and `CallRecordTypeSupported` state the rest. |
| DnsRoutes.Checks | server/routes/dns.ts:26-58 | The seven checks of the chain, each with its own status and message. Its own contract only fixes the count; `DecideFollowsChecks` and `CallIffAllChecksPass` tie the table to the handler. |
| DnsRoutes.FirstFailureAt | server/routes/dns.ts:26-58 | When the checks before position i pass and check i fails, check i's reply is the result. |
| DnsRoutes.FirstFailureNone | server/routes/dns.ts:26-58 | No check fails exactly when every check passes. |
| DnsRoutes.FirstFailingExists | server/routes/dns.ts:26-58 | Every table has a first failing position, or every check in it passes. |
| DnsRoutes.DecideFollowsChecks | server/routes/dns.ts:26-58 | The handler rejects exactly when one of the seven checks fails, in the order maintenance, presence, subdomain, target, domain, record type, token. It rejects with the reply of the first check that fails. |
| DnsRoutes.CallIffAllChecksPass | server/routes/dns.ts:26-63 | The provider is called exactly when all seven checks pass. |
| DnsRoutes.MaintenanceRejectsEverything | server/routes/dns.ts:26-28 | In maintenance, every request gets 503 "Service is under maintenance", whatever the provider would do, and the provider is not called. |
| DnsRoutes.MissingFieldsRejected | server/routes/dns.ts:32-34 | Outside maintenance, an absent or empty domain, subdomain or target gets 400 "Missing required fields", with no call. |
| DnsRoutes.EmptyTokenNeverCalls | server/routes/dns.ts:56-58 | With an empty token the provider is never called. The reply is a 500 exactly when all the client-side checks before the token check pass, and it is then 500 "Cloudflare API token not configured" with no details. |
| DnsRoutes.RejectIgnoresOutcome | server/routes/dns.ts:26-58 | A rejected request gets a failure reply that does not depend on the provider. |
| DnsRoutes.CallSendsRecord | server/routes/dns.ts:60-76 | The request goes to the first registry entry with the exact domain name, which has a non-empty zone id, at /zones/{zoneId}/dns_records under the base URL. It carries "Bearer " and the non-empty token, JSON content, name subdomain + "." + domain, the target as content, TTL 1 and proxied false. |
| DnsRoutes.CallRecordTypeSupported | server/routes/dns.ts:49-54 | The type sent is always a supported one. A supplied type is never overridden. An omitted type is A exactly when the target is an IPv4 address, and CNAME otherwise. |
| DnsRoutes.ProviderErrorMessage | server/routes/dns.ts:82 | The message is never empty. `ProviderErrorMessageMeaning` states when the fallback is used. |
| DnsRoutes.ProviderErrorMessageMeaning | server/routes/dns.ts:82 | The message is never empty. It falls back to "Failed to create DNS record" exactly when there is no first error with a non-empty message, or when that message is the fallback text itself. |
| DnsRoutes.CreatedData | server/routes/dns.ts:86-89 | The data holds the message "DNS record created successfully: " + name. It holds "record" exactly when the provider returned a result, and then that result. There are no other keys. |
| DnsRoutes.Answer | server/routes/dns.ts:80-94 | The reply succeeds exactly when the provider answered with a 2xx status. Its status is 200, 500, or the provider's own non-2xx status. |
| DnsRoutes.CreateDns | server/routes/dns.ts:24-95 | A successful reply is a 200 and only ever follows a provider call. `StatusesOfCreateDns`, `SuccessIffProviderOk` and `DecideFollowsChecks` state the rest. |
| DnsRoutes.SuccessIffProviderOk | server/routes/dns.ts:80-89 | The reply succeeds exactly when the provider was called and answered with a 2xx status. |
| DnsRoutes.SuccessReply | server/routes/dns.ts:86-89 | A 2xx provider answer gives 200, with the provider's result (when present) and the message naming subdomain.domain. |
| DnsRoutes.ProviderFailurePassedOn | server/routes/dns.ts:80-84 | A non-2xx answer is passed on with the provider's own status and with errors[0].message when it is present and non-empty, or "Failed to create DNS record" otherwise. |
| DnsRoutes.ThrowGives500 | server/routes/dns.ts:90-94 | An exception after the checks gives 500 with the Error's message, or "Internal server error" for anything else thrown. |
| DnsRoutes.StatusesOfCreateDns | server/routes/dns.ts:24-95 | The handler's own statuses are 200, 400, 500 and 503. Any other status is the provider's non-2xx one, passed on. |
| DnsRoutes.ExampleUnknownDomain | server/routes/dns.ts:44-47 | A domain not in the registry gets 400 "Domain not found or not configured", and an invalid record type is never looked at. |
| DnsRoutes.ExampleProviderConflict | server/routes/dns.ts:80-84 | A 409 answer with one error message is passed on as 409 with that message. |

## Left out

- The React client, the Express mounting and the body parser are not part of this model. A request is the four fields destructured from an already-parsed body.
- Request fields are either absent or strings. A non-string JSON value in a field, such as a number or an object, is not modelled (the source would test its truthiness and may throw later).
- A missing body (`req.body` undefined) makes the destructuring throw in the source, and the catch then answers 500. The model always has a body.
- The `fetch` call, the parsing of the provider's reply and the logging are not modelled. The provider is an input outcome: a reply with its status, its `errors` array and its `result`, each possibly absent, or a thrown exception with an optional message.
- A provider `errors` value that is present but not an array, or a `message` that is not a string, is not modelled.
- The catch block of GET /domains is not modelled. With a registry of records, nothing in that handler can throw, so the model has no path to it.
- HTTP method, headers other than Authorization and Content-Type, and JSON serialisation of the record body are not modelled. The request is the URL, those two headers, and the body as a record.
- JSON numbers are integers. Provider results with fractional numbers are outside the model.
- Express's handling of an out-of-range status passed to `res.status` is not modelled. The provider's status is passed on as given.
- The listing order of GET /domains is stated through `ListDomainsAppend` and `ListDomainsSingle`, not as a standalone statement about positions.
