/**
 * One probe of one port (PortScanner.scan_port). The socket work is not
 * modelled: what the connection attempt did arrives as a ProbeOutcome, and the
 * clock reading taken for the record arrives as a Timestamp.
 */
module Probing {
  import opened Wrappers
  import opened Services

  /** An ISO-8601 time string, as the clock produced it; never inspected. */
  type Timestamp = string

  /** What the connection attempt did: connect_ex returned a code, or something raised. */
  datatype ProbeOutcome = Connected(code: int) | Raised(message: string)

  /** The three values the record's status field takes. */
  datatype Status = Open | Closed | Error

  /** The record scan_port returns; `error` is present only on the exception path. */
  datatype ProbeResult = ProbeResult(
    port: int,
    status: Status,
    service: string,
    error: Option<string>,
    timestamp: Timestamp)

  /** Service label of a port that did not answer. */
  const ClosedService := "unknown"

  /** Service label of a port whose probe raised. */
  const ErrorService := "error"

  /**
   * Classifies one connection outcome: code 0 is open and named from the
   * service table, any other code is closed, an exception is an error that
   * keeps its message.
   */
  function ScanPort(port: int, outcome: ProbeOutcome, now: Timestamp): (r: ProbeResult)
    ensures r.port == port && r.timestamp == now
    ensures r.status == Open <==> outcome == Connected(0)
    ensures r.status == Closed <==> outcome.Connected? && outcome.code != 0
    ensures r.status == Error <==> outcome.Raised?
    ensures r.status == Open ==> r.service == ServiceName(port)
    ensures r.status == Closed ==> r.service == ClosedService
    ensures r.status == Error ==> r.service == ErrorService && r.error == Some(outcome.message)
    ensures r.error.Some? <==> r.status == Error
  {
    match outcome
    case Connected(code) =>
      if code == 0 then ProbeResult(port, Open, ServiceName(port), None, now)
      else ProbeResult(port, Closed, ClosedService, None, now)
    case Raised(message) =>
      ProbeResult(port, Error, ErrorService, Some(message), now)
  }

  /**
   * The label of an open port and the label of a closed or failed one never
   * coincide, so the service field alone tells an open port apart.
   */
  lemma OpenServiceIsDistinct(port: int, outcome: ProbeOutcome, now: Timestamp)
    ensures ScanPort(port, outcome, now).status == Open
        <==> ScanPort(port, outcome, now).service !in {ClosedService, ErrorService}
  {
    var name := ServiceName(port);
    assert name in ServiceTable.Values || name == UnknownService;
  }
}
