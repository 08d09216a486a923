/**
 * The request dispatcher of the scan endpoint (scan_ports): read the request
 * fields with their defaults, reject a blank or unresolvable host, pick the
 * scan the request names and run it on the one shared scanner. HTTP and JSON
 * are not modelled: the request arrives as a value, the response is a value,
 * and name resolution is an oracle.
 */
module Api {
  import opened Wrappers
  import opened Probing
  import opened Profiles
  import opened Aggregation
  import opened Scanner

  /** The JSON body of a scan request; a field the caller left out is None. */
  datatype ScanRequest = ScanRequest(
    host: Option<string>,
    scanType: Option<string>,
    ports: Option<seq<int>>,
    startPort: Option<int>,
    endPort: Option<int>,
    maxThreads: Option<int>,
    timeout: Option<real>)

  /** What resolving the host gave: an address, a resolver failure, or some other exception. */
  datatype ResolveOutcome = Resolved | GaiError | OtherError(message: string)

  /** The endpoint's answers: the summary (200), a client error (400) or a server error (500). */
  datatype Response = Scanned(result: ScanSummary) | BadRequest(error: string) | ServerError(error: string)

  /** The branch of the dispatch a request takes. */
  datatype ScanKind = QuickKind | ComprehensiveKind | CustomKind | RangeKind | DefaultKind

  /** A request that passed validation: the trimmed host, the branch taken and what it scans. */
  datatype Job = Job(host: string, kind: ScanKind, plan: ScanPlan)

  const HostRequired := "Host is required"
  const InvalidHost := "Invalid hostname or IP address"

  function StatusCode(resp: Response): (code: int)
    ensures code == 200 <==> resp.Scanned?
    ensures code == 400 <==> resp.BadRequest?
    ensures code == 500 <==> resp.ServerError?
  {
    match resp
    case Scanned(_) => 200
    case BadRequest(_) => 400
    case ServerError(_) => 500
  }

  function GetOr<T>(o: Option<T>, default: T): (v: T)
    ensures o.Some? ==> v == o.value
    ensures o.None? ==> v == default
  {
    if o.Some? then o.value else default
  }

  /** The characters Python's str.isspace accepts, which str.strip removes. */
  predicate IsSpace(c: char)
  {
    ('\t' <= c <= '\r') || ('\U{1C}' <= c <= ' ') || c == '\U{85}' || c == '\U{A0}' || c == '\U{1680}'
    || ('\U{2000}' <= c <= '\U{200A}') || c == '\U{2028}' || c == '\U{2029}' || c == '\U{202F}'
    || c == '\U{205F}' || c == '\U{3000}'
  }

  /** `s` with its leading whitespace removed. */
  function TrimLeft(s: string): (r: string)
    ensures |r| <= |s| && r == s[|s| - |r|..]
    ensures r == [] || !IsSpace(r[0])
    ensures forall i :: 0 <= i < |s| - |r| ==> IsSpace(s[i])
  {
    if s != [] && IsSpace(s[0]) then TrimLeft(s[1..]) else s
  }

  /** `s` with its trailing whitespace removed. */
  function TrimRight(s: string): (r: string)
    ensures |r| <= |s| && r == s[..|r|]
    ensures r == [] || !IsSpace(r[|r| - 1])
    ensures forall i :: |r| <= i < |s| ==> IsSpace(s[i])
  {
    if s != [] && IsSpace(s[|s| - 1]) then TrimRight(s[..|s| - 1]) else s
  }

  /** str.strip(): whitespace removed from both ends. */
  function Strip(s: string): (r: string)
  {
    TrimRight(TrimLeft(s))
  }

  /** Stripping leaves nothing exactly when the host is all whitespace. */
  lemma StripEmpty(s: string)
    ensures Strip(s) == [] <==> forall i :: 0 <= i < |s| ==> IsSpace(s[i])
  {
  }

  /**
   * Stripping removes a whitespace prefix and a whitespace suffix and keeps
   * the run between them.
   */
  lemma StripIsInnerRun(s: string)
    ensures |s| - |TrimLeft(s)| + |Strip(s)| <= |s|
    ensures Strip(s) == s[|s| - |TrimLeft(s)|..|s| - |TrimLeft(s)| + |Strip(s)|]
    ensures forall i :: 0 <= i < |s| - |TrimLeft(s)| ==> IsSpace(s[i])
    ensures forall i :: |s| - |TrimLeft(s)| + |Strip(s)| <= i < |s| ==> IsSpace(s[i])
  {
    var l := TrimLeft(s);
    InnerRun(s, |s| - |l|, l, TrimRight(l));
  }

  /** The stripped host neither starts nor ends with whitespace. */
  lemma StripIsTrimmed(s: string)
    ensures Strip(s) == [] || (!IsSpace(Strip(s)[0]) && !IsSpace(Strip(s)[|Strip(s)| - 1]))
  {
    var l := TrimLeft(s);
    var r := TrimRight(l);
    if r != [] {
      assert r[0] == l[0];
    }
  }

  /** Removing a prefix of length `a` and then a whitespace suffix leaves the run starting at `a`. */
  lemma InnerRun(s: string, a: nat, l: string, r: string)
    requires a <= |s| && l == s[a..]
    requires |r| <= |l| && r == l[..|r|]
    requires forall i :: |r| <= i < |l| ==> IsSpace(l[i])
    ensures a + |r| <= |s| && r == s[a..a + |r|]
    ensures forall i :: a + |r| <= i < |s| ==> IsSpace(s[i])
  {
    forall i | a + |r| <= i < |s| ensures IsSpace(s[i]) {
      assert s[i] == l[i - a];
    }
  }

  /**
   * The if/elif chain of scan_ports: quick and comprehensive ignore the
   * caller's settings, custom needs a non-empty list, range takes the two
   * bounds as they are, and everything else scans the default list.
   */
  function SelectPlan(scanType: string, ports: seq<int>, start: int, end: int, maxThreads: int, timeout: real): (choice: (ScanKind, ScanPlan))
    ensures choice.0 == DefaultKind <==>
      scanType !in {"quick", "comprehensive", "range"} && (scanType != "custom" || ports == [])
    ensures choice.0 == CustomKind ==> choice.1.ports == ports && |choice.1.ports| > 0
    ensures choice.0 == RangeKind ==> choice.1.ports == PortRange(start, end)
    ensures choice.0 == DefaultKind ==> choice.1.ports == CommonPorts
    ensures choice.0 == QuickKind <==> scanType == "quick"
    ensures choice.0 == ComprehensiveKind <==> scanType == "comprehensive"
    ensures choice.0 == CustomKind <==> scanType == "custom" && ports != []
    ensures choice.0 == RangeKind <==> scanType == "range"
    ensures choice.0 == QuickKind ==> choice.1 == QuickPlan()
    ensures choice.0 == ComprehensiveKind ==> choice.1 == ComprehensivePlan()
    ensures choice.0 !in {QuickKind, ComprehensiveKind} ==> choice.1.maxThreads == maxThreads && choice.1.timeout == timeout
  {
    if scanType == "quick" then (QuickKind, QuickPlan())
    else if scanType == "comprehensive" then (ComprehensiveKind, ComprehensivePlan())
    else if scanType == "custom" && ports != [] then (CustomKind, ScanPlan(ports, maxThreads, timeout))
    else if scanType == "range" then (RangeKind, RangePlan(start, end, maxThreads, timeout))
    else (DefaultKind, ScanPlan(CommonPorts, maxThreads, timeout))
  }

  /** Reads the request with its defaults, validates the host, and selects the scan. */
  function Route(req: ScanRequest, resolve: string -> ResolveOutcome): (r: Result<Job, Response>)
  {
    var host := Strip(GetOr(req.host, ""));
    if host == [] then Failure(BadRequest(HostRequired))
    else match resolve(host)
      case GaiError => Failure(BadRequest(InvalidHost))
      case OtherError(message) => Failure(ServerError(message))
      case Resolved =>
        var (kind, plan) := SelectPlan(GetOr(req.scanType, "quick"), GetOr(req.ports, []),
          GetOr(req.startPort, 1), GetOr(req.endPort, 1000),
          GetOr(req.maxThreads, DefaultThreads), GetOr(req.timeout, DefaultTimeout));
        Success(Job(host, kind, plan))
  }

  /**
   * A request gets to scan exactly when its trimmed host is non-empty and
   * resolves; the job then carries the trimmed host. A blank host is turned
   * away before the resolver is asked, so any resolver gives the same answer.
   */
  lemma RouteAdmits(req: ScanRequest, resolve: string -> ResolveOutcome, other: string -> ResolveOutcome)
    ensures var host := Strip(GetOr(req.host, ""));
      Route(req, resolve).Success? <==> host != [] && resolve(host) == Resolved
    ensures Route(req, resolve) == Failure(BadRequest(HostRequired))
      <==> forall i :: 0 <= i < |GetOr(req.host, "")| ==> IsSpace(GetOr(req.host, "")[i])
    ensures Strip(GetOr(req.host, "")) == [] ==> Route(req, resolve) == Route(req, other)
    ensures Route(req, resolve).Success? ==> Route(req, resolve).value.host == Strip(GetOr(req.host, ""))
  {
    StripEmpty(GetOr(req.host, ""));
  }

  /**
   * Fields the request leaves out take the endpoint's defaults: 100 workers,
   * a one-second timeout, the bounds 1 and 1000, and no custom list.
   */
  lemma RequestDefaults(req: ScanRequest, resolve: string -> ResolveOutcome)
    requires Route(req, resolve).Success?
    ensures var job := Route(req, resolve).value;
      req.maxThreads.None? && job.kind !in {QuickKind, ComprehensiveKind} ==> job.plan.maxThreads == 100
    ensures var job := Route(req, resolve).value;
      req.timeout.None? && job.kind !in {QuickKind, ComprehensiveKind} ==> job.plan.timeout == 1.0
    ensures var job := Route(req, resolve).value;
      req.scanType == Some("range") && req.startPort.None? && req.endPort.None? ==> job.plan.ports == PortRange(1, 1000)
    ensures req.ports.None? ==> Route(req, resolve).value.kind != CustomKind
  {
  }

  /** An unresolvable host is a client error; any other resolver exception is a server error with its message. */
  lemma RouteResolverFailures(req: ScanRequest, resolve: string -> ResolveOutcome)
    requires Strip(GetOr(req.host, "")) != []
    ensures resolve(Strip(GetOr(req.host, ""))) == GaiError ==> Route(req, resolve) == Failure(BadRequest(InvalidHost))
    ensures resolve(Strip(GetOr(req.host, ""))).OtherError? ==>
      Route(req, resolve) == Failure(ServerError(resolve(Strip(GetOr(req.host, ""))).message))
  {
  }

  /** A request that names no scan type gets the quick scan, whatever else it says. */
  lemma MissingTypeIsQuick(req: ScanRequest, resolve: string -> ResolveOutcome)
    requires req.scanType.None? && Route(req, resolve).Success?
    ensures Route(req, resolve).value.kind == QuickKind && Route(req, resolve).value.plan == QuickPlan()
  {
  }

  /** A custom scan with an empty list is the same scan as an unknown scan type. */
  lemma EmptyCustomFallsBack(unknown: string, start: int, end: int, start': int, end': int, maxThreads: int, timeout: real)
    requires unknown !in {"quick", "comprehensive", "custom", "range"}
    ensures SelectPlan("custom", [], start, end, maxThreads, timeout) == SelectPlan(unknown, [], start', end', maxThreads, timeout)
    ensures SelectPlan("custom", [], start, end, maxThreads, timeout) == (DefaultKind, ScanPlan(CommonPorts, maxThreads, timeout))
  {
  }

  /** The quick and comprehensive scans ignore the caller's ports, bounds, workers and timeout. */
  lemma FixedProfilesIgnoreSettings(scanType: string, ports: seq<int>, start: int, end: int, maxThreads: int, timeout: real,
                                    ports': seq<int>, start': int, end': int, maxThreads': int, timeout': real)
    requires scanType in {"quick", "comprehensive"}
    ensures SelectPlan(scanType, ports, start, end, maxThreads, timeout) == SelectPlan(scanType, ports', start', end', maxThreads', timeout')
    ensures SelectPlan(scanType, ports, start, end, maxThreads, timeout).1.maxThreads >= 50
  {
  }

  /** Only an inverted range gives an empty port list; every other branch scans something. */
  lemma EmptyPlanOnlyForInvertedRange(scanType: string, ports: seq<int>, start: int, end: int, maxThreads: int, timeout: real)
    ensures SelectPlan(scanType, ports, start, end, maxThreads, timeout).1.ports == [] <==> scanType == "range" && start > end
  {
  }

  /** Only a worker count the caller supplied can be below one, and then the pool refuses to start. */
  lemma PoolFailureNeedsCallerThreads(scanType: string, ports: seq<int>, start: int, end: int, maxThreads: int, timeout: real)
    ensures SelectPlan(scanType, ports, start, end, maxThreads, timeout).1.maxThreads < 1 <==>
      maxThreads < 1 && scanType !in {"quick", "comprehensive"}
  {
  }

  /** The answer to a job whose futures completed as `cs`. */
  function Answer(job: Job, cs: seq<Completion>, scanTime: real, finishedAt: Timestamp): (resp: Response)
  {
    if job.plan.maxThreads < 1 then ServerError(PoolSizeMessage)
    else Scanned(Summarize(job.host, job.plan.ports, cs, scanTime, finishedAt))
  }

  /** The endpoint's whole answer to a request whose futures completed as `cs`. */
  function Respond(req: ScanRequest, resolve: string -> ResolveOutcome, cs: seq<Completion>, scanTime: real, finishedAt: Timestamp): Response
  {
    match Route(req, resolve)
    case Failure(resp) => resp
    case Success(job) => Answer(job, cs, scanTime, finishedAt)
  }

  /**
   * The status code of the answer: 400 exactly for a blank or unresolvable
   * host, 200 exactly when the host resolves and the pool starts, 500 for a
   * resolver exception or a worker count below one.
   */
  lemma ResponseStatus(req: ScanRequest, resolve: string -> ResolveOutcome, cs: seq<Completion>, scanTime: real, finishedAt: Timestamp)
    ensures var host := Strip(GetOr(req.host, ""));
      StatusCode(Respond(req, resolve, cs, scanTime, finishedAt)) == 400 <==> host == [] || resolve(host) == GaiError
    ensures var host := Strip(GetOr(req.host, ""));
      (StatusCode(Respond(req, resolve, cs, scanTime, finishedAt)) == 200)
      <==> host != [] && resolve(host) == Resolved && Route(req, resolve).value.plan.maxThreads >= 1
    ensures var host := Strip(GetOr(req.host, ""));
      (StatusCode(Respond(req, resolve, cs, scanTime, finishedAt)) == 500)
      <==> host != [] && (resolve(host).OtherError? || (resolve(host) == Resolved && Route(req, resolve).value.plan.maxThreads < 1))
  {
  }

  /**
   * When the pool starts and every probe yields a record, the answer
   * accounts for each port of the list once per occurrence.
   */
  lemma AnswerAccountsForEveryPort(job: Job, cs: seq<Completion>, scanTime: real, finishedAt: Timestamp)
    requires job.plan.maxThreads >= 1
    requires AllCompleted(cs) && multiset(PortsOf(cs)) == multiset(job.plan.ports)
    ensures Answer(job, cs, scanTime, finishedAt).Scanned?
    ensures var s := Answer(job, cs, scanTime, finishedAt).result;
      s.totalPorts == |job.plan.ports| && |s.openPorts| + |s.closedPorts| + |s.errorPorts| == s.totalPorts
  {
    EveryPortAccounted(job.host, job.plan.ports, cs, scanTime, finishedAt);
  }

  /**
   * scan_ports: validate, dispatch to the scanner method the scan type names,
   * and wrap its outcome. A rejected request leaves the scanner as it was.
   */
  method ScanPorts(scanner: PortScanner, req: ScanRequest, resolve: string -> ResolveOutcome,
                   cs: seq<Completion>, scanTime: real, finishedAt: Timestamp)
    returns (resp: Response)
    modifies scanner
    ensures resp == Respond(req, resolve, cs, scanTime, finishedAt)
    ensures Route(req, resolve).Failure? ==> resp == Route(req, resolve).error && unchanged(scanner)
    ensures Route(req, resolve).Success? ==> scanner.scanning
    ensures Route(req, resolve).Success? ==> resp == Answer(Route(req, resolve).value, cs, scanTime, finishedAt)
    ensures Route(req, resolve).Success? ==>
      scanner.results == if Route(req, resolve).value.plan.maxThreads < 1 then [] else Collected(cs)
  {
    var host := Strip(GetOr(req.host, ""));
    var scanType := GetOr(req.scanType, "quick");
    var customPorts := GetOr(req.ports, []);
    var startPort := GetOr(req.startPort, 1);
    var endPort := GetOr(req.endPort, 1000);
    var maxThreads := GetOr(req.maxThreads, DefaultThreads);
    var timeout := GetOr(req.timeout, DefaultTimeout);

    if host == [] {
      return BadRequest(HostRequired);
    }
    match resolve(host) {
      case GaiError => return BadRequest(InvalidHost);
      case OtherError(message) => return ServerError(message);
      case Resolved =>
    }

    var result: Result<ScanSummary, string>;
    if scanType == "quick" {
      var summary := scanner.QuickScan(host, cs, scanTime, finishedAt);
      result := Success(summary);
    } else if scanType == "comprehensive" {
      var summary := scanner.ComprehensiveScan(host, cs, scanTime, finishedAt);
      result := Success(summary);
    } else if scanType == "custom" && customPorts != [] {
      result := scanner.ScanHost(host, Some(customPorts), maxThreads, timeout, cs, scanTime, finishedAt);
    } else if scanType == "range" {
      result := scanner.ScanPortRange(host, startPort, endPort, maxThreads, timeout, cs, scanTime, finishedAt);
    } else {
      result := scanner.ScanHost(host, Some(scanner.commonPorts), maxThreads, timeout, cs, scanTime, finishedAt);
    }

    match result {
      case Success(summary) => resp := Scanned(summary);
      case Failure(message) => resp := ServerError(message);
    }
  }
}
