/**
 * The port lists and worker settings each kind of scan uses: the scanner's
 * default list, the quick list, the 1..1000 sweep and an inclusive range.
 */
module Profiles {
  import opened Services

  /** The scanner's default list (`common_ports`), 23 ports. */
  const CommonPorts: seq<int> := [
    21, 22, 23, 25, 53, 80, 110, 135, 139, 143, 443, 993, 995,
    1723, 3389, 5900, 8080, 8443, 8888, 9090, 3000, 5000, 8000
  ]

  /** The quick scan's fixed list: the default list less PPTP and the alternative web ports. */
  const QuickPorts: seq<int> := [21, 22, 23, 25, 53, 80, 110, 135, 139, 143, 443, 993, 995, 3389, 5900, 8080]

  const QuickThreads := 50
  const QuickTimeout := 0.5
  const ComprehensiveThreads := 200
  const ComprehensiveTimeout := 1.0

  /** Worker count and timeout a scan request gets when it names none. */
  const DefaultThreads := 100
  const DefaultTimeout := 1.0

  /** The ports a scan probes and the worker pool and socket timeout it uses. */
  datatype ScanPlan = ScanPlan(ports: seq<int>, maxThreads: int, timeout: real)

  /** `list(range(start, end + 1))`: every port from start to end inclusive, ascending. */
  function PortRange(start: int, end: int): (r: seq<int>)
    ensures |r| == if start <= end then end - start + 1 else 0
    ensures forall i :: 0 <= i < |r| ==> r[i] == start + i
    decreases end - start
  {
    if start > end then [] else [start] + PortRange(start + 1, end)
  }

  /** A range holds exactly the ports between its bounds, each once, in ascending order. */
  lemma PortRangeMembers(start: int, end: int)
    ensures forall p :: p in PortRange(start, end) <==> start <= p <= end
    ensures forall i, j :: 0 <= i < j < |PortRange(start, end)| ==> PortRange(start, end)[i] < PortRange(start, end)[j]
  {
    var r := PortRange(start, end);
    forall p | start <= p <= end ensures p in r {
      assert r[p - start] == p;
    }
  }

  /** quick_scan: the fixed 16-port list with 50 workers and half a second per probe. */
  function QuickPlan(): (plan: ScanPlan)
    ensures |plan.ports| == 16 && plan.maxThreads == 50 && plan.timeout == 0.5
    ensures forall p :: p in plan.ports ==> p in CommonPorts && ServiceName(p) != UnknownService
  {
    ScanPlan(QuickPorts, QuickThreads, QuickTimeout)
  }

  /** comprehensive_scan: ports 1 to 1000 with 200 workers and one second per probe. */
  function ComprehensivePlan(): (plan: ScanPlan)
    ensures |plan.ports| == 1000 && plan.maxThreads == 200 && plan.timeout == 1.0
    ensures forall i :: 0 <= i < 1000 ==> plan.ports[i] == i + 1
  {
    ScanPlan(PortRange(1, 1000), ComprehensiveThreads, ComprehensiveTimeout)
  }

  /** scan_port_range: the inclusive range, with the caller's workers and timeout, and no check of the bounds. */
  function RangePlan(start: int, end: int, maxThreads: int, timeout: real): (plan: ScanPlan)
    ensures start > end ==> plan.ports == []
    ensures start <= end ==> |plan.ports| == end - start + 1 && plan.ports[0] == start && plan.ports[|plan.ports| - 1] == end
    ensures forall i :: 0 <= i < |plan.ports| ==> plan.ports[i] == start + i
    ensures plan.maxThreads == maxThreads && plan.timeout == timeout
  {
    ScanPlan(PortRange(start, end), maxThreads, timeout)
  }

  /** The default list is the service table's key list: every default port has a name, every other port none. */
  lemma CommonPortsAreNamed()
    ensures |CommonPorts| == 23
    ensures forall i, j :: 0 <= i < j < |CommonPorts| ==> CommonPorts[i] != CommonPorts[j]
    ensures forall p :: ServiceName(p) != UnknownService <==> p in CommonPorts
  {
  }
}
