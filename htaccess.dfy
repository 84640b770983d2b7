/** The verb-tampering probe of the scanner: a resource that answered with an
    access-denial status is requested again with a made-up HTTP method, and a
    reply that is no longer a denial is reported as a weak restriction.

    The transport is not modelled: what it answered is an `Outcome` the
    caller passes in. */
module Htaccess {

  type Path = string

  /** A previously crawled request together with the status it got. An empty
      `referer` stands for "no referer": `if referer:` at
      wapitiCore/attack/mod_htaccess.py:53 tests it for truthiness. */
  datatype Request = Request(path: Path, pathId: int, status: int, referer: string)

  /** The tampered request itself: the bare path and the made-up verb. This
      is what a finding records; it carries no headers. */
  datatype ProbeRequest = ProbeRequest(path: Path, verb: string)

  /** What is handed to the transport: the tampered request and the headers
      sent along with it. */
  datatype Probe = Probe(request: ProbeRequest, headers: map<string, string>)

  /** What the transport gave back for the probe. */
  datatype Outcome = TransportError | Response(status: int, content: string)

  datatype Severity = Low | Medium | High

  datatype Finding = Finding(
    severity: Severity,
    requestId: int,
    category: string,
    request: ProbeRequest,
    info: string,
    wstg: seq<string>)

  /** The probe's session state: the paths already probed, the number of
      transport failures and the findings handed to the report sink. */
  datatype ProbeState = ProbeState(attackedGet: seq<Path>, networkErrors: nat, findings: seq<Finding>)

  /** The non-standard verb sent instead of the original method. */
  const BypassMethod: string := "ABC"

  /** Original statuses that signal an access restriction worth probing. */
  const BlockedStatuses: set<int> := {401, 402, 403, 407}

  /** Category and test-catalog reference of this check. */
  const Category: string := "Htaccess Bypass"
  const WstgCode: seq<string> := ["WSTG-CONF-06"]

  /** Text that follows the probe's URL in the finding. */
  const InfoSuffix: string := " bypassable weak restriction"

  /** The eligibility rule: a path not probed yet whose original reply was a
      denial from the blocked set. */
  predicate Eligible(attacked: seq<Path>, request: Request)
  {
    request.path !in attacked && request.status in BlockedStatuses
  }

  /** The probe for `request`: same path, the tampered verb, and a referer
      header exactly when the original request carried a referer. */
  function ProbeFor(request: Request): (p: Probe)
    ensures p.request.path == request.path && p.request.verb == BypassMethod
    ensures p.headers.Keys <= {"referer"}
    ensures "referer" in p.headers <==> request.referer != ""
    ensures "referer" in p.headers ==> p.headers["referer"] == request.referer
  {
    Probe(ProbeRequest(request.path, BypassMethod),
          if request.referer != "" then map["referer" := request.referer] else map[])
  }

  /** The classifier: the probe's status counts as a bypass unless it is a
      client-error status (400..499) other than "not found". */
  function IsBypass(status: int): (r: bool)
    ensures r <==> !(400 <= status <= 499) || status == 404
    ensures r ==> status !in BlockedStatuses
  {
    status == 404 || status < 400 || status >= 500
  }

  /** The finding recorded when the probe for `request` got through. */
  function BypassFinding(request: Request): Finding
  {
    var evil := ProbeFor(request).request;
    Finding(Medium, request.pathId, Category, evil, evil.path + InfoSuffix, WstgCode)
  }

  /** The effect of one attack on the probe's state, given what the transport
      answered. */
  function Step(s: ProbeState, request: Request, outcome: Outcome): (t: ProbeState)
    // a transport failure is counted and nothing else changes
    ensures outcome.TransportError? ==>
              t.attackedGet == s.attackedGet && t.findings == s.findings &&
              t.networkErrors == s.networkErrors + 1
    // a received response records the path once, whatever the verdict
    ensures outcome.Response? ==>
              t.attackedGet == s.attackedGet + [request.path] && t.networkErrors == s.networkErrors
    // old findings are kept; one is added exactly when the response is a bypass
    ensures |s.findings| <= |t.findings| && t.findings[..|s.findings|] == s.findings
    ensures |t.findings| == |s.findings| + (if outcome.Response? && IsBypass(outcome.status) then 1 else 0)
    ensures forall f :: f in t.findings[|s.findings|..] ==>
              f.severity == Medium && f.requestId == request.pathId && f.category == Category &&
              f.wstg == WstgCode && f.request == ProbeRequest(request.path, BypassMethod) &&
              f.info == request.path + InfoSuffix
  {
    match outcome
    case TransportError =>
      s.(networkErrors := s.networkErrors + 1)
    case Response(status, _) =>
      var found := if IsBypass(status) then [BypassFinding(request)] else [];
      ProbeState(s.attackedGet + [request.path], s.networkErrors, s.findings + found)
  }

  /** The probe object: its session ledger, its failure counter and the
      findings it has reported. */
  class ModuleHtaccess {
    var attackedGet: seq<Path>
    var networkErrors: nat
    var findings: seq<Finding>

    ghost function State(): ProbeState
      reads this
    {
      ProbeState(attackedGet, networkErrors, findings)
    }

    constructor ()
      ensures State() == ProbeState([], 0, [])
    {
      attackedGet := [];
      networkErrors := 0;
      findings := [];
    }

    /** Whether the orchestrator should send `request` to `Attack`. */
    method MustAttack(request: Request) returns (r: bool)
      ensures r == Eligible(attackedGet, request)
    {
      if request.path in attackedGet {
        return false;
      }
      r := request.status in BlockedStatuses;
    }

    /** Sends the probe for `request` (returned as `probe`) and records what
        the transport answered. */
    method Attack(request: Request, outcome: Outcome) returns (probe: Probe)
      modifies this
      ensures probe == ProbeFor(request)
      ensures State() == Step(old(State()), request, outcome)
    {
      var url := request.path;
      var referer := request.referer;
      var headers: map<string, string> := map[];
      if referer != "" {
        headers := headers["referer" := referer];
      }
      var evil := ProbeRequest(url, BypassMethod);
      probe := Probe(evil, headers);
      match outcome
      case TransportError =>
        networkErrors := networkErrors + 1;
        return;
      case Response(status, _) =>
        if status == 404 || status < 400 || status >= 500 {
          findings := findings + [Finding(Medium, request.pathId, Category, evil, evil.path + InfoSuffix, WstgCode)];
        }
        attackedGet := attackedGet + [url];
    }
  }

  /** A path already in the ledger is never eligible, whatever its status. */
  lemma AttackedPathNeverEligible(attacked: seq<Path>, request: Request)
    requires request.path in attacked
    ensures !Eligible(attacked, request)
  {
  }

  /** For a path not probed yet, eligibility depends on the status alone:
      the four denial statuses pass, success, "not found" and server errors
      do not. */
  lemma EligibleStatuses(attacked: seq<Path>, request: Request)
    requires request.path !in attacked
    ensures Eligible(attacked, request) <==> request.status in {401, 402, 403, 407}
    ensures request.status in {200, 404, 500} ==> !Eligible(attacked, request)
  {
  }

  /** The classifier's boundaries. */
  lemma ClassifierBoundaries()
    ensures IsBypass(399) && IsBypass(404) && IsBypass(500)
    ensures !IsBypass(400) && !IsBypass(401) && !IsBypass(403) && !IsBypass(405) && !IsBypass(499)
  {
  }

  /** After a received response, no request with the same path is eligible;
      after a transport failure, eligibility is what it was. */
  lemma StepThenSkip(s: ProbeState, request: Request, outcome: Outcome, again: Request)
    requires again.path == request.path
    ensures outcome.Response? ==> !Eligible(Step(s, request, outcome).attackedGet, again)
    ensures outcome.TransportError? ==>
              Eligible(Step(s, request, outcome).attackedGet, again) == Eligible(s.attackedGet, again)
  {
  }
}
