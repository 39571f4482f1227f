/** Flow records of the VPC log pipeline: vpclogs/pkg/transform.go and the flow
    metric it takes from Skydive. All numbers are unbounded here; the counters
    are non-negative 64-bit values in the program, and differences of such values
    do not overflow. */
module VpcFlow {

  datatype FlowMetric = FlowMetric(abPackets: int, abBytes: int, baPackets: int, baBytes: int,
                                   start: int, last: int, rtt: int)

  const ZERO_METRIC := FlowMetric(0, 0, 0, 0, 0, 0, 0)

  datatype Flow = Flow(uuid: string, l3TrackingID: string, nodeTID: string,
                       metric: FlowMetric, lastUpdateMetric: FlowMetric)

  datatype Verdict = Unset | Accept | Reject

  /** The fields that are written out, as derived from the two metrics of a record. */
  datatype Externalized = Externalized(
    startSecs: int, endSecs: int, connectionStartSecs: int,
    cumulative: FlowCounts, delta: FlowCounts, transportProtocol: int)

  datatype FlowCounts = FlowCounts(bytesFromInitiator: int, packetsFromInitiator: int,
                                   bytesFromTarget: int, packetsFromTarget: int)
  {
    function Plus(c: FlowCounts): FlowCounts {
      FlowCounts(bytesFromInitiator + c.bytesFromInitiator, packetsFromInitiator + c.packetsFromInitiator,
                 bytesFromTarget + c.bytesFromTarget, packetsFromTarget + c.packetsFromTarget)
    }

    predicate AtMost(c: FlowCounts) {
      && bytesFromInitiator <= c.bytesFromInitiator && packetsFromInitiator <= c.packetsFromInitiator
      && bytesFromTarget <= c.bytesFromTarget && packetsFromTarget <= c.packetsFromTarget
    }
  }

  const NO_COUNTS := FlowCounts(0, 0, 0, 0)

  datatype VpclogsFlow = VpclogsFlow(flow: Flow, lastUpdateMetric: FlowMetric, metric: FlowMetric,
                                     protocol: string, action: Verdict, wasTerminated: bool, ext: Externalized)
  {
    function SetAction(v: Verdict): VpclogsFlow {
      this.(action := v)
    }

    /** An unknown protocol keeps the transport number the record already had. */
    function DeriveExternalizedFields(): VpclogsFlow {
      this.(ext := Externalized(
        TruncDiv(lastUpdateMetric.start, 1000), TruncDiv(lastUpdateMetric.last, 1000), TruncDiv(metric.start, 1000),
        CountsOf(metric), CountsOf(lastUpdateMetric),
        if protocol == "TCP" then 6 else if protocol == "UDP" then 17
        else if protocol == "ICMP" then 1 else ext.transportProtocol))
    }
  }

  function CountsOf(m: FlowMetric): FlowCounts {
    FlowCounts(m.abBytes, m.abPackets, m.baBytes, m.baPackets)
  }

  /** Go's integer division: it truncates toward zero. */
  function TruncDiv(a: int, b: int): (q: int)
    requires b > 0
    ensures a >= 0 ==> q * b <= a < q * b + b
    ensures a <= 0 ==> q * b - b < a <= q * b
  {
    if a >= 0 then a / b else -((-a) / b)
  }
}
