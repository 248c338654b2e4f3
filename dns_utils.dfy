/**
 * The helpers of the record submission pipeline: the three validators,
 * the record-type detector, record-name construction and the two response
 * builders, each with the properties the server and its unit tests rely on.
 */
module DnsUtils {
  import opened Values
  import opened Patterns
  import opened Config

  // ---------------------------------------------------------------------
  // Record-type detection
  // ---------------------------------------------------------------------

  /** A for an IPv4 address, CNAME for anything else. */
  function DetectRecordType(target: string): RecordType {
    if IsIPv4(target) then A else CNAME
  }

  /**
   * The detector answers A exactly for four dot-separated decimal octets
   * 0..255 and CNAME otherwise; it never infers TXT, MX or NS, and what it
   * answers is always a supported type.
   */
  lemma DetectRecordTypeMeaning(target: string)
    ensures DetectRecordType(target) == A <==>
      (|SplitDots(target)| == 4 && forall i | 0 <= i < 4 :: OctetValued(SplitDots(target)[i]))
    ensures DetectRecordType(target) in {A, CNAME}
    ensures ValidateRecordType(RecordTypeName(DetectRecordType(target)))
  {
    IPv4Meaning(target);
  }

  // ---------------------------------------------------------------------
  // Validators
  // ---------------------------------------------------------------------

  /** The subdomain pattern. */
  predicate ValidateSubdomain(subdomain: string) {
    IsLabel(subdomain)
  }

  /**
   * A valid subdomain is one label: 1 to 63 characters of [A-Za-z0-9-],
   * alphanumeric at both ends, so no dot and no underscore; and it is a
   * hostname of its own.
   */
  lemma ValidateSubdomainMeaning(subdomain: string)
    ensures ValidateSubdomain(subdomain) <==> LabelShaped(subdomain)
    ensures ValidateSubdomain(subdomain) ==> forall i | 0 <= i < |subdomain| :: subdomain[i] != '.' && subdomain[i] != '_'
    ensures ValidateSubdomain(subdomain) ==> IsHostname(subdomain)
  {
    LabelMeaning(subdomain);
  }

  /** An IPv4 address or a hostname. */
  predicate ValidateTarget(target: string) {
    IsIPv4(target) || IsHostname(target)
  }

  /**
   * The IPv4 branch adds nothing: a target is valid exactly when the hostname
   * pattern accepts it, so dotted quads with octets above 255 pass too.
   */
  lemma ValidateTargetMeaning(target: string)
    ensures ValidateTarget(target) <==> IsHostname(target)
    ensures ValidateTarget(target) ==> target != ""
  {
    if IsIPv4(target) {
      IPv4IsHostname(target);
    }
  }

  /** A valid target is one or more labels joined by dots, with at most one dot after the last. */
  lemma ValidateTargetShape(target: string)
    ensures ValidateTarget(target) <==>
      (DottedLabels(target) || (|target| >= 1 && target[|target| - 1] == '.' && DottedLabels(target[..|target| - 1])))
  {
    ValidateTargetMeaning(target);
    HostnameMeaning(target);
  }

  /** Membership in the literal list of the five upper-case names. */
  predicate ValidateRecordType(recordType: string) {
    recordType in ["A", "CNAME", "TXT", "MX", "NS"]
  }

  /** A type string is valid exactly when it names one of the five record types; the check is case-sensitive. */
  lemma ValidateRecordTypeMeaning(recordType: string)
    ensures ValidateRecordType(recordType) <==> recordType in SUPPORTED_RECORD_TYPES
    ensures ValidateRecordType(recordType) <==> exists t: RecordType :: RecordTypeName(t) == recordType
  {
    if ValidateRecordType(recordType) {
      var t := if recordType == "A" then A
        else if recordType == "CNAME" then CNAME
        else if recordType == "TXT" then TXT
        else if recordType == "MX" then MX
        else NS;
      assert RecordTypeName(t) == recordType;
    }
  }

  /** A dotted string whose first piece is not an octet is not an IPv4 address. */
  lemma NotIPv4IfFirstPieceNotOctet(head: string, rest: string)
    requires Undotted(head) && !IsOctet(head)
    ensures !IsIPv4(head + "." + rest)
  {
    var s := head + "." + rest;
    OctetRunSplit(s, 3);
    SplitAfterUndotted(head, rest);
    assert SplitDots(s)[0] == head;
  }

  /** A dotted quad with an octet above 255 passes as a hostname and is detected as CNAME. */
  lemma OutOfRangeQuadIsCname()
    ensures ValidateTarget("300.1.1.1") && !IsIPv4("300.1.1.1") && DetectRecordType("300.1.1.1") == CNAME
  {
    assert "300.1.1.1" == "300" + "." + "1.1.1";
    NotIPv4IfFirstPieceNotOctet("300", "1.1.1");
    HostnameCons("1", "1");
    assert "1" + "." + "1" == "1.1";
    HostnameCons("1", "1.1");
    assert "1" + "." + "1.1" == "1.1.1";
    HostnameCons("300", "1.1.1");
  }

  // ---------------------------------------------------------------------
  // Record names
  // ---------------------------------------------------------------------

  /** `${subdomain}.${domain}`, with no case folding or other normalisation. */
  function BuildRecordName(subdomain: string, domain: string): (name: string)
    ensures |name| == |subdomain| + |domain| + 1
    ensures name[..|subdomain|] == subdomain && name[|subdomain|] == '.' && name[|subdomain| + 1..] == domain
  {
    subdomain + "." + domain
  }

  /** For valid subdomains the name determines both parts: the subdomain is what precedes the first dot. */
  lemma BuildRecordNameInjective(sub1: string, dom1: string, sub2: string, dom2: string)
    requires ValidateSubdomain(sub1) && ValidateSubdomain(sub2)
    requires BuildRecordName(sub1, dom1) == BuildRecordName(sub2, dom2)
    ensures sub1 == sub2 && dom1 == dom2
  {
    LabelUndotted(sub1);
    LabelUndotted(sub2);
    FirstDotAfterUndotted(sub1, dom1);
    FirstDotAfterUndotted(sub2, dom2);
    var name := BuildRecordName(sub1, dom1);
    assert sub1 == name[..|sub1|] && sub2 == name[..|sub2|];
  }

  /** A valid subdomain under a hostname makes a hostname. */
  lemma BuildRecordNameIsHostname(subdomain: string, domain: string)
    requires ValidateSubdomain(subdomain) && IsHostname(domain)
    ensures IsHostname(BuildRecordName(subdomain, domain))
  {
    HostnameCons(subdomain, domain);
  }

  // ---------------------------------------------------------------------
  // Response bodies
  // ---------------------------------------------------------------------

  /** A registry entry as GET /domains shows it: no zone id. */
  datatype DomainSummary = DomainSummary(name: string, description: Option<string>)

  /** The JSON bodies the server sends. */
  datatype ApiResponse =
    | ErrorResponse(error: string, details: map<string, Json>)
    | SuccessResponse(data: map<string, Json>)
    | DomainsResponse(domains: seq<DomainSummary>)
  {
    /** The body's `success` field. */
    predicate Succeeded() { !ErrorResponse? }
  }

  /** `{success: false, error: message, details: details || {}}`. */
  function BuildErrorResponse(message: string, details: Option<map<string, Json>>): (r: ApiResponse)
    ensures !r.Succeeded() && r.ErrorResponse?
    ensures r.error == message
    ensures details.Some? ==> r.details == details.value
    ensures details.None? ==> r.details == map[]
  {
    ErrorResponse(message, if details.Some? then details.value else map[])
  }

  /** `{success: true, data}`, the data passed through unchanged. */
  function BuildSuccessResponse(data: map<string, Json>): (r: ApiResponse)
    ensures r.Succeeded() && r.SuccessResponse?
    ensures r.data == data
  {
    SuccessResponse(data)
  }

  // ---------------------------------------------------------------------
  // The unit-test cases
  // ---------------------------------------------------------------------

  /** The detector's IPv4 cases in the unit tests. */
  lemma DetectRecordTypeIPv4Cases()
    ensures DetectRecordType("192.168.1.1") == A
    ensures DetectRecordType("10.0.0.1") == A
    ensures DetectRecordType("255.255.255.255") == A
  {
    QuadCase192();
    QuadCase10();
    QuadCase255();
  }

  lemma QuadCase192()
    ensures IsIPv4("192.168.1.1")
  {
    assert "192.168.1.1" == "192" + "." + ("168" + "." + ("1" + "." + "1"));
    QuadIsIPv4("192", "168", "1", "1");
  }

  lemma QuadCase10()
    ensures IsIPv4("10.0.0.1")
  {
    assert "10.0.0.1" == "10" + "." + ("0" + "." + ("0" + "." + "1"));
    QuadIsIPv4("10", "0", "0", "1");
  }

  lemma QuadCase255()
    ensures IsIPv4("255.255.255.255")
  {
    assert "255.255.255.255" == "255" + "." + ("255" + "." + ("255" + "." + "255"));
    QuadIsIPv4("255", "255", "255", "255");
  }

  /** The detector's hostname cases in the unit tests. */
  lemma DetectRecordTypeHostnameCases()
    ensures DetectRecordType("example.com") == CNAME
    ensures DetectRecordType("api.example.com") == CNAME
    ensures DetectRecordType("subdomain.domain.co.uk") == CNAME
  {
    NotIPv4IfLeadingLetter("example.com");
    NotIPv4IfLeadingLetter("api.example.com");
    NotIPv4IfLeadingLetter("subdomain.domain.co.uk");
  }

  /** No string starting with a non-digit is an IPv4 address. */
  lemma NotIPv4IfLeadingLetter(s: string)
    requires |s| > 0 && !IsDigit(s[0])
    ensures !IsIPv4(s)
  {
    if IsIPv4(s) {
      OctetRunStartsWithDigit(s, 3);
    }
  }

  /** The subdomain validator's accepted cases in the unit tests. */
  lemma ValidateSubdomainAcceptedCases()
    ensures ValidateSubdomain("api") && ValidateSubdomain("www") && ValidateSubdomain("mail")
    ensures ValidateSubdomain("api-v2") && ValidateSubdomain("test123")
  {
  }

  /** The subdomain validator's rejected cases in the unit tests. */
  lemma ValidateSubdomainRejectedCases()
    ensures !ValidateSubdomain("-api") && !ValidateSubdomain("api-")
    ensures !ValidateSubdomain("api_test") && !ValidateSubdomain("api.test") && !ValidateSubdomain("")
  {
    assert !IsLdh("api_test"[3]);
    assert !IsLdh("api.test"[3]);
  }

  /** The target validator's IPv4 and empty cases in the unit tests. */
  lemma ValidateTargetIPv4Cases()
    ensures ValidateTarget("192.168.1.1") && ValidateTarget("10.0.0.1") && ValidateTarget("255.255.255.255")
    ensures !ValidateTarget("")
  {
    DetectRecordTypeIPv4Cases();
    ValidateTargetMeaning("");
  }

  /** The target validator's hostname cases in the unit tests. */
  lemma ValidateTargetHostnameCases()
    ensures ValidateTarget("example.com") && ValidateTarget("api.example.com")
    ensures ValidateTarget("subdomain.domain.co.uk")
  {
    HostnameCaseApi();
    HostnameCaseSubdomain();
  }

  lemma HostnameCaseExample()
    ensures IsHostname("example.com")
  {
    assert "example.com" == "example" + "." + "com";
    HostnameCons("example", "com");
  }

  lemma HostnameCaseApi()
    ensures IsHostname("example.com") && IsHostname("api.example.com")
  {
    HostnameCaseExample();
    assert "api.example.com" == "api" + "." + "example.com";
    HostnameCons("api", "example.com");
  }

  lemma HostnameCaseCoUk()
    ensures IsHostname("domain.co.uk")
  {
    assert "co.uk" == "co" + "." + "uk";
    HostnameCons("co", "uk");
    assert "domain.co.uk" == "domain" + "." + "co.uk";
    HostnameCons("domain", "co.uk");
  }

  lemma HostnameCaseSubdomain()
    ensures IsHostname("subdomain.domain.co.uk")
  {
    HostnameCaseCoUk();
    assert "subdomain.domain.co.uk" == "subdomain" + "." + "domain.co.uk";
    HostnameCons("subdomain", "domain.co.uk");
  }

  /** The record-type validator's cases in the unit tests, and the case-sensitivity they imply. */
  lemma ValidateRecordTypeCases()
    ensures ValidateRecordType("A") && ValidateRecordType("CNAME") && ValidateRecordType("TXT")
    ensures ValidateRecordType("MX") && ValidateRecordType("NS")
    ensures !ValidateRecordType("AAAA") && !ValidateRecordType("SOA") && !ValidateRecordType("invalid")
    ensures !ValidateRecordType("a") && !ValidateRecordType("cname")
  {
  }

  /** The record-name cases in the unit tests. */
  lemma BuildRecordNameCases()
    ensures BuildRecordName("api", "example.com") == "api.example.com"
    ensures BuildRecordName("www", "nepuh.web.id") == "www.nepuh.web.id"
  {
  }

  /** More record-name cases in the unit tests, one with a single-character subdomain. */
  lemma BuildRecordNameMoreCases()
    ensures BuildRecordName("mail", "domain.co.uk") == "mail.domain.co.uk"
    ensures BuildRecordName("a", "example.com") == "a.example.com"
  {
  }

  /** The response-builder cases in the unit tests. */
  lemma ResponseBuilderCases()
    ensures var r := BuildErrorResponse("Test error", None); !r.Succeeded() && r.error == "Test error" && r.details == map[]
    ensures var d := map["field" := JString("subdomain"), "reason" := JString("invalid")];
      var r := BuildErrorResponse("Test error", Some(d)); !r.Succeeded() && r.error == "Test error" && r.details == d
    ensures var d := map["id" := JString("123"), "name" := JString("test")];
      var r := BuildSuccessResponse(d); r.Succeeded() && r.data == d
  {
  }
}
