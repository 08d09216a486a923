/**
 * The PortScanner object: it remembers the records of the latest scan and a
 * flag saying a scan was started, and runs scans over port lists. The worker
 * pool is not modelled; its completions arrive as a sequence in completion
 * order, and the wall-clock readings arrive as parameters.
 */
module Scanner {
  import opened Wrappers
  import opened Probing
  import opened Profiles
  import opened Aggregation

  /** What scan_host returns: the host, elapsed seconds, the list length and the three buckets. */
  datatype ScanSummary = ScanSummary(
    host: string,
    scanTime: real,
    totalPorts: nat,
    openPorts: seq<ProbeResult>,
    closedPorts: seq<ProbeResult>,
    errorPorts: seq<ProbeResult>,
    timestamp: Timestamp)

  /** The message ThreadPoolExecutor raises for a worker count below one. */
  const PoolSizeMessage := "max_workers must be greater than 0"

  /** The summary of a scan of `ports` whose futures completed as `cs`. */
  function Summarize(host: string, ports: seq<int>, cs: seq<Completion>, scanTime: real, finishedAt: Timestamp): (s: ScanSummary)
    ensures s.host == host && s.totalPorts == |ports|
    ensures forall r :: r in s.openPorts <==> r in Collected(cs) && r.status == Open
    ensures forall r :: r in s.closedPorts <==> r in Collected(cs) && r.status == Closed
    ensures forall r :: r in s.errorPorts <==> r in Collected(cs) && r.status == Error
    ensures |s.openPorts| + |s.closedPorts| + |s.errorPorts| == |Collected(cs)|
    ensures Subsequence(s.openPorts, Collected(cs))
    ensures Subsequence(s.closedPorts, Collected(cs))
    ensures Subsequence(s.errorPorts, Collected(cs))
  {
    var rs := Collected(cs);
    BucketSizes(rs);
    WithStatusMembers(rs, Open);
    WithStatusMembers(rs, Closed);
    WithStatusMembers(rs, Error);
    BucketKeepsOrder(rs, Open);
    BucketKeepsOrder(rs, Closed);
    BucketKeepsOrder(rs, Error);
    ScanSummary(host, scanTime, |ports|, WithStatus(rs, Open), WithStatus(rs, Closed), WithStatus(rs, Error), finishedAt)
  }

  /** The ports scan_host probes: the list given, or the default list when none is. */
  function PortsToScan(ports: Option<seq<int>>): (ps: seq<int>)
    ensures ports.None? ==> ps == CommonPorts && |ps| == 23
    ensures ports.Some? ==> ps == ports.value
  {
    if ports.None? then CommonPorts else ports.value
  }

  /**
   * A scan given no list probes 23 distinct ports, exactly the ones the
   * service table names, so every open port it finds has a service name.
   */
  lemma DefaultScanIsNamedPorts()
    ensures |PortsToScan(None)| == 23
    ensures forall p :: p in PortsToScan(None) <==> Services.ServiceName(p) != Services.UnknownService
    ensures forall i, j :: 0 <= i < j < 23 ==> PortsToScan(None)[i] != PortsToScan(None)[j]
  {
    CommonPortsAreNamed();
  }

  /**
   * When every submitted future yields and the completions are the
   * submitted ports in some order, the buckets account for every list
   * element, duplicates included.
   */
  lemma EveryPortAccounted(host: string, ports: seq<int>, cs: seq<Completion>, scanTime: real, finishedAt: Timestamp)
    requires AllCompleted(cs) && multiset(PortsOf(cs)) == multiset(ports)
    ensures var s := Summarize(host, ports, cs, scanTime, finishedAt);
      |s.openPorts| + |s.closedPorts| + |s.errorPorts| == s.totalPorts
  {
    RecordsMatchPorts(cs, ports);
  }

  /** Every record in a bucket carries the service label its status calls for. */
  lemma BucketLabels(host: string, ports: seq<int>, cs: seq<Completion>, scanTime: real, finishedAt: Timestamp)
    ensures var s := Summarize(host, ports, cs, scanTime, finishedAt);
      (forall r :: r in s.openPorts ==> r.service == Services.ServiceName(r.port) && r.error.None?) &&
      (forall r :: r in s.closedPorts ==> r.service == ClosedService && r.error.None?) &&
      (forall r :: r in s.errorPorts ==> r.service == ErrorService && r.error.Some?)
  {
    CollectedRecords(cs);
  }

  /** Every collected record is the classification of some completion's outcome. */
  lemma {:induction false} CollectedRecords(cs: seq<Completion>)
    ensures forall r :: r in Collected(cs) ==>
      exists i :: 0 <= i < |cs| && cs[i].Completed? && r == ScanPort(cs[i].port, cs[i].outcome, cs[i].stamp)
  {
    if cs != [] {
      var init, last := cs[..|cs| - 1], cs[|cs| - 1];
      CollectedRecords(init);
      forall r | r in Collected(cs)
        ensures exists i :: 0 <= i < |cs| && cs[i].Completed? && r == ScanPort(cs[i].port, cs[i].outcome, cs[i].stamp)
      {
        if r in Collected(init) {
          var i :| 0 <= i < |init| && init[i].Completed? && r == ScanPort(init[i].port, init[i].outcome, init[i].stamp);
          assert cs[i] == init[i];
        } else {
          assert r in Yield(last);
          assert cs[|cs| - 1] == last;
        }
      }
    }
  }

  class PortScanner {
    /** The records of the latest scan, in completion order. */
    var results: seq<ProbeResult>
    /** Set when a scan starts; nothing ever clears it. */
    var scanning: bool
    /** The default port list; the scanner never changes it. */
    const commonPorts: seq<int> := CommonPorts

    constructor ()
      ensures results == [] && !scanning
    {
      results := [];
      scanning := false;
    }

    /**
     * scan_host: clear the records, raise the flag, then take the completions
     * in order, appending each yielded record to the records and to the bucket
     * of its status. A worker count below one makes the pool refuse to start,
     * after the flag and the records were already reset.
     */
    method ScanHost(host: string, ports: Option<seq<int>>, maxThreads: int, timeout: real,
                    cs: seq<Completion>, scanTime: real, finishedAt: Timestamp)
      returns (r: Result<ScanSummary, string>)
      modifies this
      ensures scanning
      ensures maxThreads < 1 ==> results == [] && r == Failure(PoolSizeMessage)
      ensures maxThreads >= 1 ==> results == Collected(cs)
      ensures maxThreads >= 1 ==> r == Success(Summarize(host, PortsToScan(ports), cs, scanTime, finishedAt))
    {
      var toScan := if ports.None? then commonPorts else ports.value;
      scanning := true;
      results := [];
      var openPorts, closedPorts, errorPorts := [], [], [];
      if maxThreads < 1 {
        return Failure(PoolSizeMessage);
      }
      var i := 0;
      ghost var done: seq<Completion> := [];
      while i < |cs|
        invariant 0 <= i <= |cs| && scanning
        invariant done == cs[..i]
        invariant results == Collected(done)
        invariant openPorts == WithStatus(results, Open)
        invariant closedPorts == WithStatus(results, Closed)
        invariant errorPorts == WithStatus(results, Error)
      {
        CollectedStep(done, cs[i]);
        assert cs[..i + 1] == done + [cs[i]];
        // future.result(): the probe's record, or nothing when fetching it raised
        var fetched := Yield(cs[i]);
        if fetched != [] {
          var result := fetched[0];
          assert fetched == [result];
          WithStatusStep(results, result, Open);
          WithStatusStep(results, result, Closed);
          WithStatusStep(results, result, Error);
          results := results + [result];
          if result.status == Open {
            openPorts := openPorts + [result];
          } else if result.status == Closed {
            closedPorts := closedPorts + [result];
          } else {
            errorPorts := errorPorts + [result];
          }
        }
        done := done + [cs[i]];
        i := i + 1;
      }
      assert done == cs;
      r := Success(ScanSummary(host, scanTime, |toScan|, openPorts, closedPorts, errorPorts, finishedAt));
    }

    /** scan_port_range: scan start..end inclusive with the caller's workers and timeout. */
    method ScanPortRange(host: string, start: int, end: int, maxThreads: int, timeout: real,
                         cs: seq<Completion>, scanTime: real, finishedAt: Timestamp)
      returns (r: Result<ScanSummary, string>)
      modifies this
      ensures scanning
      ensures maxThreads < 1 ==> results == [] && r == Failure(PoolSizeMessage)
      ensures maxThreads >= 1 ==> results == Collected(cs)
      ensures maxThreads >= 1 ==> r == Success(Summarize(host, PortRange(start, end), cs, scanTime, finishedAt))
    {
      var plan := RangePlan(start, end, maxThreads, timeout);
      r := ScanHost(host, Some(plan.ports), plan.maxThreads, plan.timeout, cs, scanTime, finishedAt);
    }

    /** quick_scan: the 16-port list with 50 workers and a half-second timeout. */
    method QuickScan(host: string, cs: seq<Completion>, scanTime: real, finishedAt: Timestamp)
      returns (summary: ScanSummary)
      modifies this
      ensures scanning && results == Collected(cs)
      ensures summary == Summarize(host, QuickPorts, cs, scanTime, finishedAt)
    {
      var plan := QuickPlan();
      var r := ScanHost(host, Some(plan.ports), plan.maxThreads, plan.timeout, cs, scanTime, finishedAt);
      summary := r.value;
    }

    /** comprehensive_scan: ports 1 to 1000 with 200 workers and a one-second timeout. */
    method ComprehensiveScan(host: string, cs: seq<Completion>, scanTime: real, finishedAt: Timestamp)
      returns (summary: ScanSummary)
      modifies this
      ensures scanning && results == Collected(cs)
      ensures summary == Summarize(host, PortRange(1, 1000), cs, scanTime, finishedAt)
    {
      var plan := ComprehensivePlan();
      var r := ScanHost(host, Some(plan.ports), plan.maxThreads, plan.timeout, cs, scanTime, finishedAt);
      summary := r.value;
    }
  }
}
