/**
 * The two request handlers of the DNS router: GET /domains, which lists the
 * configured registry entries, and POST /create-dns, which runs a fixed chain
 * of checks, makes at most one call to the DNS provider and maps the
 * provider's answer to an HTTP status and a uniform response body.
 *
 * The handler of POST /create-dns is split the way it behaves: Decide is the
 * straight-line chain of early returns up to the provider call, and Answer
 * maps what the provider did. The provider itself is an input outcome.
 */
module DnsRoutes {
  import opened Values
  import opened Patterns
  import opened Config
  import opened DnsUtils

  /** An HTTP status with the JSON body sent along with it. */
  datatype HttpReply = HttpReply(status: int, body: ApiResponse)

  /** An error reply with the given status, built without details. */
  function Fail(status: int, message: string): (reply: HttpReply)
    ensures reply.status == status && reply.body == ErrorResponse(message, map[])
  {
    HttpReply(status, BuildErrorResponse(message, None))
  }

  // ---------------------------------------------------------------------
  // GET /domains
  // ---------------------------------------------------------------------

  /** A registry entry as the listing shows it. */
  function Summary(entry: DomainConfig): DomainSummary {
    DomainSummary(entry.name, entry.description)
  }

  /** Keep the entries with a non-empty zone id, in order, and drop the zone id. */
  function ListDomains(domains: seq<DomainConfig>): (listed: seq<DomainSummary>)
    ensures |listed| <= |domains|
  {
    if domains == [] then []
    else (if domains[0].zoneId != "" then [Summary(domains[0])] else []) + ListDomains(domains[1..])
  }

  /** The listing of a concatenation is the concatenation of the listings: the registry order is kept. */
  lemma {:induction false} ListDomainsAppend(a: seq<DomainConfig>, b: seq<DomainConfig>)
    ensures ListDomains(a + b) == ListDomains(a) + ListDomains(b)
  {
    if a == [] {
      assert a + b == b;
    } else {
      assert (a + b)[0] == a[0];
      assert (a + b)[1..] == a[1..] + b;
      ListDomainsAppend(a[1..], b);
    }
  }

  /** One entry is listed exactly when its zone id is non-empty. */
  lemma ListDomainsSingle(entry: DomainConfig)
    ensures ListDomains([entry]) == if entry.zoneId != "" then [Summary(entry)] else []
  {
    assert [entry][1..] == [];
  }

  /** A summary is listed exactly when some configured entry has that name and description. */
  lemma {:induction false} ListDomainsMembership(domains: seq<DomainConfig>, s: DomainSummary)
    ensures s in ListDomains(domains) <==>
      exists i | 0 <= i < |domains| :: domains[i].zoneId != "" && Summary(domains[i]) == s
  {
    if domains != [] {
      ListDomainsMembership(domains[1..], s);
      if s in ListDomains(domains[1..]) {
        var i :| 0 <= i < |domains[1..]| && domains[1..][i].zoneId != "" && Summary(domains[1..][i]) == s;
        assert domains[i + 1] == domains[1..][i];
      }
      if s !in ListDomains(domains[1..]) {
        forall i | 1 <= i < |domains|
          ensures !(domains[i].zoneId != "" && Summary(domains[i]) == s)
        {
          assert domains[i] == domains[1..][i - 1];
        }
      }
    }
  }

  /** The GET /domains reply: status 200 and the listing. */
  function GetDomains(cfg: ServerConfig): (reply: HttpReply)
    ensures reply.status == 200 && reply.body.DomainsResponse? && reply.body.Succeeded()
    ensures reply.body.domains == ListDomains(cfg.domains)
  {
    HttpReply(200, DomainsResponse(ListDomains(cfg.domains)))
  }

  /** The listing does not consult the maintenance flag or the token. */
  lemma GetDomainsIgnoresMaintenance(cfg: ServerConfig, maintenance: bool, apiToken: string)
    ensures GetDomains(cfg.(maintenance := maintenance, apiToken := apiToken)) == GetDomains(cfg)
  {
  }

  /** With the configuration loaded from the environment, the one entry is listed exactly when its zone id is set. */
  lemma DefaultRegistryListing(env: Env)
    ensures GetDomains(LoadConfig(env)).body.domains ==
      if "CF_ZONE_ID_1" in env && env["CF_ZONE_ID_1"] != "" then [DomainSummary("nepuh.web.id", Some("Primary domain"))] else []
  {
    ListDomainsSingle(LoadConfig(env).domains[0]);
  }

  // ---------------------------------------------------------------------
  // Domain lookup
  // ---------------------------------------------------------------------

  /** The first registry entry whose name equals the given name exactly. */
  function FindDomain(domains: seq<DomainConfig>, name: string): (found: Option<DomainConfig>)
    ensures found.None? <==> forall i | 0 <= i < |domains| :: domains[i].name != name
    ensures found.Some? ==> found.value.name == name && exists i | 0 <= i < |domains| ::
      domains[i] == found.value && forall j | 0 <= j < i :: domains[j].name != name
  {
    if domains == [] then None
    else if domains[0].name == name then Some(domains[0])
    else
      var rest := FindDomain(domains[1..], name);
      assert forall i | 1 <= i < |domains| :: domains[i] == domains[1..][i - 1];
      rest
  }

  // ---------------------------------------------------------------------
  // POST /create-dns: the checks before the provider call
  // ---------------------------------------------------------------------

  /** The fields the handler destructures from the JSON body; None when absent. */
  datatype CreateDnsRequest = CreateDnsRequest(
    domain: Option<string>, subdomain: Option<string>, recordType: Option<string>, target: Option<string>)

  /** JavaScript truthiness of an optional string field: present and non-empty. */
  predicate Truthy(field: Option<string>) {
    field.Some? && field.value != ""
  }

  const MAINTENANCE_MESSAGE: string := "Service is under maintenance"
  const MISSING_FIELDS_MESSAGE: string := "Missing required fields"
  const INVALID_SUBDOMAIN_MESSAGE: string := "Invalid subdomain name"
  const INVALID_TARGET_MESSAGE: string := "Invalid target (IP or hostname)"
  const UNKNOWN_DOMAIN_MESSAGE: string := "Domain not found or not configured"
  const INVALID_RECORD_TYPE_MESSAGE: string := "Invalid record type"
  const NO_TOKEN_MESSAGE: string := "Cloudflare API token not configured"

  /** The record the provider is asked to create. */
  datatype RecordBody = RecordBody(recordType: string, name: string, content: string, ttl: int, proxied: bool)

  /** The one POST the handler sends to the provider. */
  datatype ProviderRequest = ProviderRequest(url: string, authorization: string, contentType: string, body: RecordBody)

  /** How the chain of checks ends: an early reply, or the provider call. */
  datatype Decision = Reject(reply: HttpReply) | Call(request: ProviderRequest)

  /** The record type sent: the one supplied when it is truthy, otherwise the detected one. */
  function ChosenRecordType(recordType: Option<string>, target: string): (chosen: string)
    ensures Truthy(recordType) ==> chosen == recordType.value
    ensures !Truthy(recordType) ==> chosen == RecordTypeName(DetectRecordType(target))
  {
    if Truthy(recordType) then recordType.value else RecordTypeName(DetectRecordType(target))
  }

  /** The provider endpoint for a zone. */
  function RecordsUrl(zoneId: string): string {
    API_BASE_URL + "/zones/" + zoneId + "/dns_records"
  }

  /** The chain of early returns of POST /create-dns, ending in the provider request. */
  function Decide(cfg: ServerConfig, req: CreateDnsRequest): (decision: Decision)
    ensures decision.Reject? ==> decision.reply.status in {400, 500, 503} && !decision.reply.body.Succeeded()
    ensures decision.Call? ==> !cfg.maintenance && cfg.apiToken != "" && Truthy(req.target) && decision.request.body.content == req.target.value
  {
    if cfg.maintenance then Reject(Fail(503, MAINTENANCE_MESSAGE))
    else if !Truthy(req.domain) || !Truthy(req.subdomain) || !Truthy(req.target) then Reject(Fail(400, MISSING_FIELDS_MESSAGE))
    else if !ValidateSubdomain(req.subdomain.value) then Reject(Fail(400, INVALID_SUBDOMAIN_MESSAGE))
    else if !ValidateTarget(req.target.value) then Reject(Fail(400, INVALID_TARGET_MESSAGE))
    else
      var entry := FindDomain(cfg.domains, req.domain.value);
      if entry.None? || entry.value.zoneId == "" then Reject(Fail(400, UNKNOWN_DOMAIN_MESSAGE))
      else if Truthy(req.recordType) && !ValidateRecordType(req.recordType.value) then Reject(Fail(400, INVALID_RECORD_TYPE_MESSAGE))
      else if cfg.apiToken == "" then Reject(Fail(500, NO_TOKEN_MESSAGE))
      else
        var body := RecordBody(
          ChosenRecordType(req.recordType, req.target.value),
          BuildRecordName(req.subdomain.value, req.domain.value),
          req.target.value, RECORD_TTL, RECORD_PROXIED);
        Call(ProviderRequest(RecordsUrl(entry.value.zoneId), "Bearer " + cfg.apiToken, "application/json", body))
  }

  // ---------------------------------------------------------------------
  // The checks as a table, and first-failure-wins
  // ---------------------------------------------------------------------

  /** One check of the chain: whether it passes, and the reply when it does not. */
  datatype Check = Check(passes: bool, failure: HttpReply)

  /** The checks in the order the handler runs them, each stated on its own. */
  function Checks(cfg: ServerConfig, req: CreateDnsRequest): (checks: seq<Check>)
    ensures |checks| == 7
  {
    var entry := if req.domain.Some? then FindDomain(cfg.domains, req.domain.value) else None;
    [ Check(!cfg.maintenance, Fail(503, MAINTENANCE_MESSAGE)),
      Check(Truthy(req.domain) && Truthy(req.subdomain) && Truthy(req.target), Fail(400, MISSING_FIELDS_MESSAGE)),
      Check(req.subdomain.Some? && ValidateSubdomain(req.subdomain.value), Fail(400, INVALID_SUBDOMAIN_MESSAGE)),
      Check(req.target.Some? && ValidateTarget(req.target.value), Fail(400, INVALID_TARGET_MESSAGE)),
      Check(entry.Some? && entry.value.zoneId != "", Fail(400, UNKNOWN_DOMAIN_MESSAGE)),
      Check(!Truthy(req.recordType) || ValidateRecordType(req.recordType.value), Fail(400, INVALID_RECORD_TYPE_MESSAGE)),
      Check(cfg.apiToken != "", Fail(500, NO_TOKEN_MESSAGE)) ]
  }

  /** The reply of the first check that does not pass, if any. */
  function FirstFailure(checks: seq<Check>): Option<HttpReply> {
    if checks == [] then None
    else if !checks[0].passes then Some(checks[0].failure)
    else FirstFailure(checks[1..])
  }

  /** When every earlier check passes and check i does not, check i's reply wins. */
  lemma {:induction false} FirstFailureAt(checks: seq<Check>, i: nat)
    requires i < |checks| && !checks[i].passes
    requires forall j | 0 <= j < i :: checks[j].passes
    ensures FirstFailure(checks) == Some(checks[i].failure)
  {
    if i > 0 {
      assert checks[1..][i - 1] == checks[i];
      FirstFailureAt(checks[1..], i - 1);
    }
  }

  /** No failure exactly when every check passes. */
  lemma {:induction false} FirstFailureNone(checks: seq<Check>)
    ensures FirstFailure(checks).None? <==> forall j | 0 <= j < |checks| :: checks[j].passes
  {
    if checks != [] {
      FirstFailureNone(checks[1..]);
      assert forall j | 1 <= j < |checks| :: checks[j] == checks[1..][j - 1];
    }
  }

  /** Check i is the first that fails, or i is the end and every check passes. */
  predicate FirstFailing(checks: seq<Check>, i: nat) {
    && i <= |checks|
    && (forall j | 0 <= j < i :: checks[j].passes)
    && (i < |checks| ==> !checks[i].passes)
  }

  /** Every table of checks has its first failing position. */
  lemma {:induction false} FirstFailingExists(checks: seq<Check>)
    ensures exists i: nat :: FirstFailing(checks, i)
  {
    if checks != [] && checks[0].passes {
      FirstFailingExists(checks[1..]);
      var i: nat :| FirstFailing(checks[1..], i);
      assert forall j | 1 <= j < i + 1 :: checks[j] == checks[1..][j - 1];
      assert i + 1 < |checks| ==> checks[i + 1] == checks[1..][i];
      assert FirstFailing(checks, i + 1);
    } else {
      assert FirstFailing(checks, 0);
    }
  }

  /** The handler rejects exactly when some check fails, and then with the first failing check's reply. */
  lemma DecideFollowsChecks(cfg: ServerConfig, req: CreateDnsRequest)
    ensures Decide(cfg, req).Reject? <==> FirstFailure(Checks(cfg, req)).Some?
    ensures Decide(cfg, req).Reject? ==> FirstFailure(Checks(cfg, req)) == Some(Decide(cfg, req).reply)
  {
    var checks := Checks(cfg, req);
    FirstFailureNone(checks);
    FirstFailingExists(checks);
    var i: nat :| FirstFailing(checks, i);
    if i < 7 {
      FirstFailureAt(checks, i);
      assert checks[i] == Checks(cfg, req)[i];
      if i >= 1 { assert checks[0].passes; }
      if i >= 2 { assert checks[1].passes; }
      if i >= 3 { assert checks[2].passes; }
      if i >= 4 { assert checks[3].passes; }
      if i >= 5 { assert checks[4].passes; }
      if i >= 6 { assert checks[5].passes; }
      if i >= 4 {
        var entry := FindDomain(cfg.domains, req.domain.value);
        assert i == 4 <==> entry.None? || entry.value.zoneId == "";
      }
    } else {
      assert forall j | 0 <= j < 7 :: checks[j].passes;
      assert checks[0].passes && checks[1].passes && checks[2].passes && checks[3].passes;
      assert checks[4].passes && checks[5].passes && checks[6].passes;
    }
  }

  /** The provider is called exactly when every check passes. */
  lemma CallIffAllChecksPass(cfg: ServerConfig, req: CreateDnsRequest)
    ensures Decide(cfg, req).Call? <==> forall j | 0 <= j < 7 :: Checks(cfg, req)[j].passes
  {
    DecideFollowsChecks(cfg, req);
    FirstFailureNone(Checks(cfg, req));
  }

  // ---------------------------------------------------------------------
  // POST /create-dns: mapping the provider's answer
  // ---------------------------------------------------------------------

  /** One entry of the provider's `errors` array. */
  datatype ProviderError = ProviderError(message: Option<string>)

  /**
   * What the provider call came to: a reply with its HTTP status, its
   * `errors` array and its `result` (each possibly absent), or an exception
   * from the call or from parsing its body, an Error's message or None for
   * anything else thrown.
   */
  datatype ProviderOutcome =
    | Replied(status: int, errors: Option<seq<ProviderError>>, result: Option<Json>)
    | Threw(message: Option<string>)

  /** The fetch `ok` flag. */
  predicate Ok(status: int) {
    200 <= status <= 299
  }

  const PROVIDER_FAILED_MESSAGE: string := "Failed to create DNS record"
  const INTERNAL_ERROR_MESSAGE: string := "Internal server error"
  const CREATED_MESSAGE_PREFIX: string := "DNS record created successfully: "

  /** `errors?.[0]?.message || "Failed to create DNS record"`. */
  function ProviderErrorMessage(errors: Option<seq<ProviderError>>): (message: string)
    ensures message != ""
  {
    if errors.Some? && |errors.value| > 0 && errors.value[0].message.Some? && errors.value[0].message.value != ""
    then errors.value[0].message.value
    else PROVIDER_FAILED_MESSAGE
  }

  /** The provider's message is used when the first error carries a non-empty one; the reply never has an empty message. */
  lemma ProviderErrorMessageMeaning(errors: Option<seq<ProviderError>>)
    ensures ProviderErrorMessage(errors) != ""
    ensures ProviderErrorMessage(errors) == PROVIDER_FAILED_MESSAGE <==>
      (errors.None? || errors.value == [] || !Truthy(errors.value[0].message) || errors.value[0].message.value == PROVIDER_FAILED_MESSAGE)
  {
  }

  /** The success data: the provider's result under "record" (dropped when absent, as JSON serialisation drops undefined) and the message. */
  function CreatedData(result: Option<Json>, recordName: string): (data: map<string, Json>)
    ensures "message" in data && data["message"] == JString(CREATED_MESSAGE_PREFIX + recordName)
    ensures "record" in data <==> result.Some?
    ensures result.Some? ==> data["record"] == result.value
    ensures data.Keys <= {"record", "message"}
  {
    var message := map["message" := JString(CREATED_MESSAGE_PREFIX + recordName)];
    if result.Some? then message["record" := result.value] else message
  }

  /** The reply once the provider has been called for a record with the given name. */
  function Answer(outcome: ProviderOutcome, recordName: string): (reply: HttpReply)
    ensures reply.body.Succeeded() <==> outcome.Replied? && Ok(outcome.status)
    ensures reply.status == 200 || reply.status == 500 || (outcome.Replied? && reply.status == outcome.status && !Ok(outcome.status))
  {
    match outcome
    case Replied(status, errors, result) =>
      if !Ok(status) then Fail(status, ProviderErrorMessage(errors))
      else HttpReply(200, BuildSuccessResponse(CreatedData(result, recordName)))
    case Threw(message) =>
      Fail(500, if message.Some? then message.value else INTERNAL_ERROR_MESSAGE)
  }

  /** POST /create-dns: the status and body the handler sends. */
  function CreateDns(cfg: ServerConfig, req: CreateDnsRequest, outcome: ProviderOutcome): (reply: HttpReply)
    ensures reply.body.Succeeded() ==> Decide(cfg, req).Call? && reply.status == 200
  {
    match Decide(cfg, req)
    case Reject(reply) => reply
    case Call(request) => Answer(outcome, request.body.name)
  }

  // ---------------------------------------------------------------------
  // Properties of POST /create-dns
  // ---------------------------------------------------------------------

  /** In maintenance every request gets 503 and the provider is not called. */
  lemma MaintenanceRejectsEverything(cfg: ServerConfig, req: CreateDnsRequest, outcome: ProviderOutcome)
    requires cfg.maintenance
    ensures Decide(cfg, req).Reject?
    ensures CreateDns(cfg, req, outcome) == HttpReply(503, ErrorResponse(MAINTENANCE_MESSAGE, map[]))
  {
  }

  /** Outside maintenance, a missing or empty domain, subdomain or target gets 400 before any other check. */
  lemma MissingFieldsRejected(cfg: ServerConfig, req: CreateDnsRequest, outcome: ProviderOutcome)
    requires !cfg.maintenance
    requires !Truthy(req.domain) || !Truthy(req.subdomain) || !Truthy(req.target)
    ensures Decide(cfg, req).Reject?
    ensures CreateDns(cfg, req, outcome) == HttpReply(400, ErrorResponse(MISSING_FIELDS_MESSAGE, map[]))
  {
  }

  /** Without a token no request reaches the provider; the token error comes only after every client-side check has passed. */
  lemma EmptyTokenNeverCalls(cfg: ServerConfig, req: CreateDnsRequest)
    requires cfg.apiToken == ""
    ensures Decide(cfg, req).Reject?
    ensures Decide(cfg, req).reply.status == 500 <==> forall j | 0 <= j < 6 :: Checks(cfg, req)[j].passes
    ensures (forall j | 0 <= j < 6 :: Checks(cfg, req)[j].passes) ==> Decide(cfg, req).reply == Fail(500, NO_TOKEN_MESSAGE)
  {
    var checks := Checks(cfg, req);
    FirstFailingExists(checks);
    var i: nat :| FirstFailing(checks, i);
    assert !checks[6].passes;
    FirstFailureAt(checks, i);
    DecideFollowsChecks(cfg, req);
  }

  /** A rejected request gets a failure reply that does not depend on the provider. */
  lemma RejectIgnoresOutcome(cfg: ServerConfig, req: CreateDnsRequest, outcome1: ProviderOutcome, outcome2: ProviderOutcome)
    requires Decide(cfg, req).Reject?
    ensures CreateDns(cfg, req, outcome1) == CreateDns(cfg, req, outcome2)
    ensures !CreateDns(cfg, req, outcome1).body.Succeeded()
  {
  }

  /** The record sent: the name, content, TTL, proxy flag, endpoint and credential the source fixes. */
  lemma CallSendsRecord(cfg: ServerConfig, req: CreateDnsRequest)
    requires Decide(cfg, req).Call?
    ensures var r := Decide(cfg, req).request;
      && r.body.name == req.subdomain.value + "." + req.domain.value
      && r.body.content == req.target.value
      && r.body.ttl == 1 && !r.body.proxied
      && r.authorization == "Bearer " + cfg.apiToken && cfg.apiToken != ""
      && r.contentType == "application/json"
      && exists i | 0 <= i < |cfg.domains| ::
           && cfg.domains[i].name == req.domain.value && cfg.domains[i].zoneId != ""
           && r.url == API_BASE_URL + "/zones/" + cfg.domains[i].zoneId + "/dns_records"
           && forall j | 0 <= j < i :: cfg.domains[j].name != req.domain.value
  {
    var entry := FindDomain(cfg.domains, req.domain.value);
    var i :| 0 <= i < |cfg.domains| && cfg.domains[i] == entry.value && forall j | 0 <= j < i :: cfg.domains[j].name != req.domain.value;
  }

  /** The type sent is always supported; a supplied type is never overridden, an omitted one is detected from the target. */
  lemma CallRecordTypeSupported(cfg: ServerConfig, req: CreateDnsRequest)
    requires Decide(cfg, req).Call?
    ensures Decide(cfg, req).request.body.recordType in SUPPORTED_RECORD_TYPES
    ensures Truthy(req.recordType) ==> Decide(cfg, req).request.body.recordType == req.recordType.value
    ensures !Truthy(req.recordType) ==>
      (Decide(cfg, req).request.body.recordType == "A" <==> IsIPv4(req.target.value)) &&
      (Decide(cfg, req).request.body.recordType == "CNAME" <==> !IsIPv4(req.target.value))
  {
    if Truthy(req.recordType) {
      ValidateRecordTypeMeaning(req.recordType.value);
    }
  }

  /** The reply succeeds exactly when the provider was called and answered with a 2xx status. */
  lemma SuccessIffProviderOk(cfg: ServerConfig, req: CreateDnsRequest, outcome: ProviderOutcome)
    ensures CreateDns(cfg, req, outcome).body.Succeeded() <==>
      Decide(cfg, req).Call? && outcome.Replied? && Ok(outcome.status)
  {
  }

  /** A successful reply is 200 with the provider's result and the name of the record created. */
  lemma SuccessReply(cfg: ServerConfig, req: CreateDnsRequest, outcome: ProviderOutcome)
    requires Decide(cfg, req).Call? && outcome.Replied? && Ok(outcome.status)
    ensures var reply := CreateDns(cfg, req, outcome);
      && reply.status == 200 && reply.body.SuccessResponse?
      && reply.body.data["message"] == JString(CREATED_MESSAGE_PREFIX + req.subdomain.value + "." + req.domain.value)
      && ("record" in reply.body.data <==> outcome.result.Some?)
      && (outcome.result.Some? ==> reply.body.data["record"] == outcome.result.value)
  {
    var name := Decide(cfg, req).request.body.name;
    assert name == BuildRecordName(req.subdomain.value, req.domain.value);
    assert CreateDns(cfg, req, outcome) == Answer(outcome, name);
  }

  /** A non-2xx provider reply is passed on with its own status and the provider's first error message, or the fixed one. */
  lemma ProviderFailurePassedOn(cfg: ServerConfig, req: CreateDnsRequest, outcome: ProviderOutcome)
    requires Decide(cfg, req).Call? && outcome.Replied? && !Ok(outcome.status)
    ensures CreateDns(cfg, req, outcome).status == outcome.status
    ensures CreateDns(cfg, req, outcome).body.ErrorResponse?
    ensures var e := outcome.errors;
      CreateDns(cfg, req, outcome).body.error ==
        if e.Some? && |e.value| > 0 && Truthy(e.value[0].message) then e.value[0].message.value else "Failed to create DNS record"
  {
  }

  /** An exception after the checks gives 500 with the Error's message, or the fixed one for anything else thrown. */
  lemma ThrowGives500(cfg: ServerConfig, req: CreateDnsRequest, outcome: ProviderOutcome)
    requires Decide(cfg, req).Call? && outcome.Threw?
    ensures CreateDns(cfg, req, outcome).status == 500
    ensures CreateDns(cfg, req, outcome).body.ErrorResponse?
    ensures CreateDns(cfg, req, outcome).body.error ==
      if outcome.message.Some? then outcome.message.value else "Internal server error"
  {
  }

  /** The handler's own statuses are 200, 400, 500 and 503; any other status is the provider's non-2xx one. */
  lemma StatusesOfCreateDns(cfg: ServerConfig, req: CreateDnsRequest, outcome: ProviderOutcome)
    ensures var s := CreateDns(cfg, req, outcome).status;
      s in {200, 400, 500, 503} || (Decide(cfg, req).Call? && outcome.Replied? && s == outcome.status && !Ok(s))
  {
  }

  // ---------------------------------------------------------------------
  // Worked requests
  // ---------------------------------------------------------------------

  /** A configured server: the default registry with its zone id and a token. */
  function ExampleConfig(): ServerConfig {
    LoadConfig(map["CF_ZONE_ID_1" := "zone1", "CF_API_TOKEN" := "token"])
  }

  /** A domain outside the registry is refused before the record type is looked at. */
  lemma ExampleUnknownDomain(outcome: ProviderOutcome)
    ensures var req := CreateDnsRequest(Some("example.com"), Some("www"), Some("BOGUS"), Some("www"));
      CreateDns(ExampleConfig(), req, outcome) == HttpReply(400, ErrorResponse("Domain not found or not configured", map[]))
  {
    LabelIsHostname("www");
  }

  /** A provider conflict is passed on with the provider's status and message. */
  lemma ExampleProviderConflict()
    ensures var req := CreateDnsRequest(Some("nepuh.web.id"), Some("www"), Some("CNAME"), Some("www"));
      var outcome := Replied(409, Some([ProviderError(Some("Record already exists."))]), None);
      CreateDns(ExampleConfig(), req, outcome) == HttpReply(409, ErrorResponse("Record already exists.", map[]))
  {
    LabelIsHostname("www");
  }
}
