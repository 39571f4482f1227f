/** What a scrape of the Prometheus store shows, said of the reports themselves: every gauge of every
    cached interface and connection, after any run of calls and cleanups. */
module PromViews {
  import opened Wrappers
  import opened PromSpec
  import opened PromStore
  import R = PromRuns

  // ----- histories of calls

  datatype InterfaceCall = Reports(reports: seq<InterfaceReport>, now: int) | InterfaceCleanup(now: int)

  datatype ConnCall = Flows(fl: seq<Flow>, now: int) | ConnCleanup(now: int)

  function InterfaceEvents(c: InterfaceCall): seq<InterfaceEvent> {
    match c
    case Reports(reports, now) => ReportEvents(reports, now)
    case InterfaceCleanup(now) => [R.Clean(now)]
  }

  /** What the calls add to the history of the store. */
  function InterfaceHistory(calls: seq<InterfaceCall>): seq<InterfaceEvent> {
    if calls == [] then [] else InterfaceHistory(Front(calls)) + InterfaceEvents(Last(calls))
  }

  function ConnEvents(c: ConnCall): seq<ConnEvent> {
    match c
    case Flows(fl, now) => FlowEvents(fl, now)
    case ConnCleanup(now) => [R.Clean(now)]
  }

  function ConnHistory(calls: seq<ConnCall>): seq<ConnEvent> {
    if calls == [] then [] else ConnHistory(Front(calls)) + ConnEvents(Last(calls))
  }

  predicate InterfaceForward(calls: seq<InterfaceCall>) {
    forall i, j | 0 <= i < j < |calls| :: calls[i].now <= calls[j].now
  }

  predicate ConnForward(calls: seq<ConnCall>) {
    forall i, j | 0 <= i < j < |calls| :: calls[i].now <= calls[j].now
  }

  // ----- facts about appended events

  lemma {:induction false} LastStoreAppend<L, S>(h: seq<R.Event<L, S>>, es: seq<R.Event<L, S>>, key: string)
    ensures R.LastStore(h + es, key) == if R.LastStore(es, key).Some? then R.LastStore(es, key) else R.LastStore(h, key)
  {
    if es == [] {
      assert h + es == h;
    } else {
      LastStoreAppend(h, Front(es), key);
      assert Front(h + es) == h + Front(es) && Last(h + es) == Last(es);
    }
  }

  ghost predicate AllAt<L(!new), S(!new)>(es: seq<R.Event<L, S>>, now: int) {
    forall e | e in es :: e.now == now
  }

  ghost predicate UpTo<L, S>(es: seq<R.Event<L, S>>, now: int) {
    (forall i, j | 0 <= i < j < |es| :: es[i].now <= es[j].now) && (es != [] ==> Last(es).now <= now)
  }

  lemma UpToAppend<L(!new), S(!new)>(h: seq<R.Event<L, S>>, es: seq<R.Event<L, S>>, before: int, now: int)
    requires UpTo(h, before) && before <= now && AllAt(es, now)
    ensures UpTo(h + es, now)
  {
    var all := h + es;
    forall i, j | 0 <= i < j < |all| ensures all[i].now <= all[j].now {
      assert i < |h| ==> all[i] == h[i] && h[i].now <= Last(h).now;
      assert i >= |h| ==> all[i] == es[i - |h|] && all[i] in es;
      assert j >= |h| ==> all[j] == es[j - |h|] && all[j] in es;
    }
    if es != [] { assert Last(all) == Last(es) && Last(es) in es; } else { assert all == h; }
  }

  // ----- interfaces

  /** The latest report of an interface in a list, and in the calls so far. */
  function LatestIn(reports: seq<InterfaceReport>, tid: string): Option<InterfaceReport> {
    if reports == [] then None else if Last(reports).tid == tid then Some(Last(reports))
      else LatestIn(Front(reports), tid)
  }

  function LatestReport(calls: seq<InterfaceCall>, tid: string): Option<InterfaceReport> {
    if calls == [] then None
    else
      var r := if Last(calls).Reports? then LatestIn(Last(calls).reports, tid) else None;
      if r.Some? then r else LatestReport(Front(calls), tid)
  }

  predicate WasReported(calls: seq<InterfaceCall>, r: InterfaceReport) {
    exists i | 0 <= i < |calls| :: calls[i].Reports? && r in calls[i].reports
  }

  /** The labels that a report gives to the series of a new interface. */
  predicate IsLabelOf(l: InterfaceLabel, r: InterfaceReport) {
    && l.interfaceName == r.name && l.host == r.host && l.interfaceType == r.kind && l.nodeTid == r.tid
    && (if r.ipv4.Some? then l.ipv4 == r.ipv4.value else l.ipv4 == "")
    && (if r.ipv6.Some? then l.ipv6 == r.ipv6.value else l.ipv6 == "")
  }

  /** The event of a report: its interface, its labels, and for every vector its own metric. */
  ghost predicate IsEventOf(e: InterfaceEvent, r: InterfaceReport) {
    && e.Store? && e.key == r.tid && IsLabelOf(e.labels, r)
    && forall l :: IsShownBy(e.values(l), l, r)
  }

  predicate IsShownBy(values: map<InterfaceSeries, int>, l: InterfaceLabel, r: InterfaceReport) {
    forall v: InterfaceVector ::
      && InterfaceSeries(v, l) in values
      && values[InterfaceSeries(v, l)] == if v in r.metrics then r.metrics[v] else 0
  }

  lemma EveryVector(v: InterfaceVector)
    ensures v in INTERFACE_VECTORS
  {
    match v
    case RxBytes =>
    case TxBytes =>
    case RxPackets =>
    case TxPackets =>
    case RxErrors =>
    case TxErrors =>
    case RxMissedErrors =>
    case TxMissedErrors =>
    case RxDropped =>
    case TxDropped =>
    case Collisions =>
  }

  lemma ReportIsEvent(r: InterfaceReport, now: int)
    ensures IsEventOf(ReportEvent(r, now), r) && ReportEvent(r, now).now == now
    ensures forall l :: ReportEvent(r, now).values(l).Keys == SeriesOfInterface(l)
  {
    forall l ensures IsShownBy(InterfaceValues(r.metrics)(l), l, r) {
      forall v: InterfaceVector
        ensures InterfaceSeries(v, l) in InterfaceValues(r.metrics)(l)
        ensures InterfaceValues(r.metrics)(l)[InterfaceSeries(v, l)] == if v in r.metrics then r.metrics[v] else 0
      {
        EveryVector(v);
        assert InterfaceSeries(v, l) in SeriesOfInterface(l);
      }
    }
  }

  lemma {:induction false} ReportsAreEvents(reports: seq<InterfaceReport>, now: int)
    ensures AllAt(ReportEvents(reports, now), now)
    ensures forall e | e in ReportEvents(reports, now) ::
      (exists r | r in reports :: IsEventOf(e, r)) && forall l :: e.values(l).Keys == SeriesOfInterface(l)
  {
    if reports != [] {
      ReportsAreEvents(Front(reports), now);
      ReportIsEvent(Last(reports), now);
      assert reports == Front(reports) + [Last(reports)];
    }
  }

  lemma {:induction false} LastReportIsEvent(reports: seq<InterfaceReport>, now: int, tid: string)
    ensures
      var d, r := R.LastStore(ReportEvents(reports, now), tid), LatestIn(reports, tid);
      (d.Some? <==> r.Some?) && (d.Some? ==> IsEventOf(d.value, r.value))
  {
    if reports != [] {
      LastReportIsEvent(Front(reports), now, tid);
      ReportIsEvent(Last(reports), now);
      var all := ReportEvents(reports, now);
      assert Front(all) == ReportEvents(Front(reports), now) && Last(all) == ReportEvent(Last(reports), now);
    }
  }

  lemma {:induction false} LatestIsEvent(calls: seq<InterfaceCall>, tid: string)
    ensures
      var d, r := R.LastStore(InterfaceHistory(calls), tid), LatestReport(calls, tid);
      (d.Some? <==> r.Some?) && (d.Some? ==> IsEventOf(d.value, r.value))
  {
    if calls != [] {
      LatestIsEvent(Front(calls), tid);
      var c := Last(calls);
      LastStoreAppend(InterfaceHistory(Front(calls)), InterfaceEvents(c), tid);
      match c
      case Reports(reports, now) => LastReportIsEvent(reports, now, tid);
      case InterfaceCleanup(now) => CleanStoresNothing<InterfaceLabel, InterfaceSeries>(now, tid);
    }
  }

  lemma CleanStoresNothing<L, S>(now: int, key: string)
    ensures R.LastStore<L, S>([R.Clean(now)], key) == None
  {
    var es: seq<R.Event<L, S>> := [R.Clean(now)];
    assert Front(es) == [];
  }

  /** Every store of the history is one of a report of the calls. */
  ghost predicate ComeFromReports(h: seq<InterfaceEvent>, calls: seq<InterfaceCall>) {
    forall e | e in h && e.Store? ::
      (exists r :: WasReported(calls, r) && IsEventOf(e, r)) && forall l :: e.values(l).Keys == SeriesOfInterface(l)
  }

  lemma CallComesFromReports(calls: seq<InterfaceCall>, e: InterfaceEvent)
    requires calls != [] && e.Store? && e in InterfaceEvents(Last(calls))
    ensures (exists r :: WasReported(calls, r) && IsEventOf(e, r))
      && forall l :: e.values(l).Keys == SeriesOfInterface(l)
  {
    var c := Last(calls);
    ReportsAreEvents(c.reports, c.now);
    var r :| r in c.reports && IsEventOf(e, r);
    assert calls[|calls| - 1] == c && WasReported(calls, r);
  }

  lemma EarlierReport(calls: seq<InterfaceCall>, r: InterfaceReport)
    requires calls != [] && WasReported(Front(calls), r)
    ensures WasReported(calls, r)
  {
    var i :| 0 <= i < |calls| - 1 && Front(calls)[i].Reports? && r in Front(calls)[i].reports;
    assert calls[i] == Front(calls)[i];
  }

  lemma {:induction false} HistoryIsReports(calls: seq<InterfaceCall>)
    ensures ComeFromReports(InterfaceHistory(calls), calls)
  {
    if calls != [] {
      HistoryIsReports(Front(calls));
      forall e | e in InterfaceHistory(calls) && e.Store?
        ensures (exists r :: WasReported(calls, r) && IsEventOf(e, r))
        ensures forall l :: e.values(l).Keys == SeriesOfInterface(l)
      {
        if e in InterfaceEvents(Last(calls)) {
          CallComesFromReports(calls, e);
        } else {
          var r :| WasReported(Front(calls), r) && IsEventOf(e, r);
          EarlierReport(calls, r);
        }
      }
    }
  }

  lemma {:induction false} HistoryIsForward(calls: seq<InterfaceCall>)
    requires InterfaceForward(calls)
    ensures UpTo(InterfaceHistory(calls), if calls == [] then 0 else Last(calls).now)
  {
    if calls != [] {
      var front, c := Front(calls), Last(calls);
      HistoryIsForward(front);
      if c.Reports? { ReportsAreEvents(c.reports, c.now); }
      var before := if front == [] then c.now else Last(front).now;
      assert before <= c.now;
      UpToAppend(InterfaceHistory(front), InterfaceEvents(c), before, c.now);
    }
  }

  /** The ID in the labels tells interfaces apart. */
  lemma InterfacesApart(calls: seq<InterfaceCall>)
    requires ComeFromReports(InterfaceHistory(calls), calls)
    ensures R.Injective(InterfaceHistory(calls), SeriesOfInterface)
  {
    var h := InterfaceHistory(calls);
    forall d, e | d in h && e in h && d.Store? && e.Store? && d.key != e.key
      ensures SeriesOfInterface(d.labels) !! SeriesOfInterface(e.labels)
    {
      var r :| WasReported(calls, r) && IsEventOf(d, r);
      var r' :| WasReported(calls, r') && IsEventOf(e, r');
      assert d.labels.nodeTid != e.labels.nodeTid;
    }
  }

  /** After any run of calls and cleanups, every gauge of every cached interface shows the metric of
      its own name in the latest report of the interface, or zero if that report has none, under
      the labels of some report of it. */
  lemma InterfacesShowLatest(calls: seq<InterfaceCall>, timeout: int, c: Entry<InterfaceLabel>)
    returns (d: InterfaceReport)
    requires InterfaceForward(calls) && c in R.Run(InterfaceHistory(calls), timeout, SeriesOfInterface).cache
    ensures WasReported(calls, d) && d.tid == c.key && IsLabelOf(c.labels, d)
    ensures LatestReport(calls, c.key).Some?
    ensures
      IsShownBy(R.Run(InterfaceHistory(calls), timeout, SeriesOfInterface).gauges, c.labels,
                LatestReport(calls, c.key).value)
  {
    var h := InterfaceHistory(calls);
    HistoryIsReports(calls);
    HistoryIsForward(calls);
    InterfacesApart(calls);
    assert R.Proper(h, SeriesOfInterface);
    R.RunShowsLatest(h, timeout, SeriesOfInterface);
    var gauges := R.Run(h, timeout, SeriesOfInterface).gauges;
    assert R.LabelsFrom(h, c) && R.ShowsLatest(h, gauges, c, SeriesOfInterface);
    LatestIsEvent(calls, c.key);
    var e :| e in h && e.Store? && e.key == c.key && e.labels == c.labels;
    d :| WasReported(calls, d) && IsEventOf(e, d);
    var latest, r := R.LastStore(h, c.key).value, LatestReport(calls, c.key).value;
    assert IsShownBy(latest.values(c.labels), c.labels, r);
  }

  // ----- connections

  /** The latest flow of a connection that has a transport layer, in a list and in the calls so far. */
  function LatestFlowIn(fl: seq<Flow>, id: string): Option<Flow> {
    if fl == [] then None
    else if Last(fl).l3TrackingID == id && Last(fl).transport.Some? then Some(Last(fl))
    else LatestFlowIn(Front(fl), id)
  }

  function LatestFlow(calls: seq<ConnCall>, id: string): Option<Flow> {
    if calls == [] then None
    else
      var f := if Last(calls).Flows? then LatestFlowIn(Last(calls).fl, id) else None;
      if f.Some? then f else LatestFlow(Front(calls), id)
  }

  /** The flow was stored; one without a transport layer is passed over. */
  predicate WasStored(calls: seq<ConnCall>, f: Flow) {
    f.transport.Some? && exists i | 0 <= i < |calls| :: calls[i].Flows? && f in calls[i].fl
  }

  predicate IsDirectionOf(l: Labels, f: Flow, d: Direction)
    requires f.transport.Some?
  {
    && l.initiatorIp == f.networkA && l.targetIp == f.networkB && l.direction == d && l.nodeTid == f.nodeTid
    && l.initiatorPort == f.transport.value.a && l.targetPort == f.transport.value.b
    && l.protocol == f.transport.value.protocol
  }

  /** The labels that a flow gives to the two directions of a new connection. */
  predicate AreLabelsOf(l: ConnLabels, f: Flow) {
    f.transport.Some? && IsDirectionOf(l.label1, f, InitiatorToTarget) && IsDirectionOf(l.label2, f, TargetToInitiator)
  }

  predicate ShowsFlow(values: map<Series, int>, l: ConnLabels, m: Metric) {
    && Series(BytesSent, l.label1) in values && values[Series(BytesSent, l.label1)] == m.abBytes
    && Series(BytesSent, l.label2) in values && values[Series(BytesSent, l.label2)] == m.baBytes
    && Series(PacketsSent, l.label1) in values && values[Series(PacketsSent, l.label1)] == m.abPackets
    && Series(PacketsSent, l.label2) in values && values[Series(PacketsSent, l.label2)] == m.baPackets
    && Series(Rtt, l.label1) in values && values[Series(Rtt, l.label1)] == m.rtt
  }

  ghost predicate IsFlowEvent(e: ConnEvent, f: Flow) {
    && e.Store? && e.key == f.l3TrackingID && AreLabelsOf(e.labels, f)
    && forall l: ConnLabels | l.label1 != l.label2 :: ShowsFlow(e.values(l), l, f.metric)
  }

  lemma FlowIsEvent(f: Flow, now: int)
    requires f.transport.Some?
    ensures IsFlowEvent(FlowEvent(f, now), f) && FlowEvent(f, now).now == now
    ensures forall l :: FlowEvent(f, now).values(l).Keys == ConnSeries(l)
  {
    forall l: ConnLabels | l.label1 != l.label2 ensures ShowsFlow(FlowEvent(f, now).values(l), l, f.metric) {
    }
  }

  lemma {:induction false} FlowsAreEvents(fl: seq<Flow>, now: int)
    ensures AllAt(FlowEvents(fl, now), now)
    ensures forall e | e in FlowEvents(fl, now) ::
      (exists f | f in fl :: IsFlowEvent(e, f)) && forall l :: e.values(l).Keys == ConnSeries(l)
  {
    if fl != [] {
      FlowsAreEvents(Front(fl), now);
      if Last(fl).transport.Some? { FlowIsEvent(Last(fl), now); }
      assert fl == Front(fl) + [Last(fl)];
    }
  }

  lemma {:induction false} LastFlowIsEvent(fl: seq<Flow>, now: int, id: string)
    ensures
      var d, f := R.LastStore(FlowEvents(fl, now), id), LatestFlowIn(fl, id);
      (d.Some? <==> f.Some?) && (d.Some? ==> IsFlowEvent(d.value, f.value))
  {
    if fl != [] {
      LastFlowIsEvent(Front(fl), now, id);
      if Last(fl).transport.Some? {
        FlowIsEvent(Last(fl), now);
        var all := FlowEvents(fl, now);
        assert Front(all) == FlowEvents(Front(fl), now) && Last(all) == FlowEvent(Last(fl), now);
      } else {
        assert FlowEvents(fl, now) == FlowEvents(Front(fl), now);
      }
    }
  }

  lemma {:induction false} LatestFlowIsEvent(calls: seq<ConnCall>, id: string)
    ensures
      var d, f := R.LastStore(ConnHistory(calls), id), LatestFlow(calls, id);
      (d.Some? <==> f.Some?) && (d.Some? ==> IsFlowEvent(d.value, f.value))
  {
    if calls != [] {
      LatestFlowIsEvent(Front(calls), id);
      var c := Last(calls);
      LastStoreAppend(ConnHistory(Front(calls)), ConnEvents(c), id);
      match c
      case Flows(fl, now) => LastFlowIsEvent(fl, now, id);
      case ConnCleanup(now) => CleanStoresNothing<ConnLabels, Series>(now, id);
    }
  }

  ghost predicate ComeFromFlows(h: seq<ConnEvent>, calls: seq<ConnCall>) {
    forall e | e in h && e.Store? ::
      (exists f :: WasStored(calls, f) && IsFlowEvent(e, f)) && forall l :: e.values(l).Keys == ConnSeries(l)
  }

  lemma CallComesFromFlows(calls: seq<ConnCall>, e: ConnEvent)
    requires calls != [] && e.Store? && e in ConnEvents(Last(calls))
    ensures (exists f :: WasStored(calls, f) && IsFlowEvent(e, f)) && forall l :: e.values(l).Keys == ConnSeries(l)
  {
    var c := Last(calls);
    FlowsAreEvents(c.fl, c.now);
    var f :| f in c.fl && IsFlowEvent(e, f);
    assert calls[|calls| - 1] == c && WasStored(calls, f);
  }

  lemma EarlierFlow(calls: seq<ConnCall>, f: Flow)
    requires calls != [] && WasStored(Front(calls), f)
    ensures WasStored(calls, f)
  {
    var i :| 0 <= i < |calls| - 1 && Front(calls)[i].Flows? && f in Front(calls)[i].fl;
    assert calls[i] == Front(calls)[i];
  }

  lemma {:induction false} HistoryIsFlows(calls: seq<ConnCall>)
    ensures ComeFromFlows(ConnHistory(calls), calls)
  {
    if calls != [] {
      HistoryIsFlows(Front(calls));
      forall e | e in ConnHistory(calls) && e.Store?
        ensures (exists f :: WasStored(calls, f) && IsFlowEvent(e, f))
        ensures forall l :: e.values(l).Keys == ConnSeries(l)
      {
        if e in ConnEvents(Last(calls)) {
          CallComesFromFlows(calls, e);
        } else {
          var f :| WasStored(Front(calls), f) && IsFlowEvent(e, f);
          EarlierFlow(calls, f);
        }
      }
    }
  }

  lemma {:induction false} ConnHistoryIsForward(calls: seq<ConnCall>)
    requires ConnForward(calls)
    ensures UpTo(ConnHistory(calls), if calls == [] then 0 else Last(calls).now)
  {
    if calls != [] {
      var front, c := Front(calls), Last(calls);
      ConnHistoryIsForward(front);
      if c.Flows? { FlowsAreEvents(c.fl, c.now); }
      var before := if front == [] then c.now else Last(front).now;
      assert before <= c.now;
      UpToAppend(ConnHistory(front), ConnEvents(c), before, c.now);
    }
  }

  /** Addresses, ports, protocol and node tell connections apart. */
  ghost predicate ConnectionsApart(calls: seq<ConnCall>) {
    forall f, g | WasStored(calls, f) && WasStored(calls, g) && f.l3TrackingID != g.l3TrackingID ::
      (f.networkA, f.networkB, f.transport, f.nodeTid) != (g.networkA, g.networkB, g.transport, g.nodeTid)
  }

  lemma ApartIsInjective(calls: seq<ConnCall>)
    requires ComeFromFlows(ConnHistory(calls), calls) && ConnectionsApart(calls)
    ensures R.Injective(ConnHistory(calls), ConnSeries)
  {
    var h := ConnHistory(calls);
    forall d, e | d in h && e in h && d.Store? && e.Store? && d.key != e.key
      ensures ConnSeries(d.labels) !! ConnSeries(e.labels)
    {
      var f :| WasStored(calls, f) && IsFlowEvent(d, f);
      var g :| WasStored(calls, g) && IsFlowEvent(e, g);
      LabelsApart(d.labels, f, e.labels, g);
    }
  }

  lemma LabelsApart(l: ConnLabels, f: Flow, k: ConnLabels, g: Flow)
    requires AreLabelsOf(l, f) && AreLabelsOf(k, g)
    requires (f.networkA, f.networkB, f.transport, f.nodeTid) != (g.networkA, g.networkB, g.transport, g.nodeTid)
    ensures ConnSeries(l) !! ConnSeries(k)
  {
    assert f.transport == Some(f.transport.value) && g.transport == Some(g.transport.value);
    assert f.transport.value == Transport(l.label1.initiatorPort, l.label1.targetPort, l.label1.protocol);
    assert g.transport.value == Transport(k.label1.initiatorPort, k.label1.targetPort, k.label1.protocol);
    assert l.label1 != k.label1 && l.label2 != k.label2 && l.label1 != k.label2 && l.label2 != k.label1;
  }

  /** After any run of calls and cleanups, when addresses, ports, protocol and node tell connections
      apart: the five gauges of every cached connection show the metric of its latest flow, each
      direction its own, under the labels of some flow of it. */
  lemma ConnectionsShowLatest(calls: seq<ConnCall>, timeout: int, c: Entry<ConnLabels>) returns (d: Flow)
    requires ConnForward(calls) && ConnectionsApart(calls)
    requires c in R.Run(ConnHistory(calls), timeout, ConnSeries).cache
    ensures WasStored(calls, d) && d.l3TrackingID == c.key && AreLabelsOf(c.labels, d)
    ensures LatestFlow(calls, c.key).Some?
    ensures ShowsFlow(R.Run(ConnHistory(calls), timeout, ConnSeries).gauges, c.labels,
                      LatestFlow(calls, c.key).value.metric)
  {
    var h := ConnHistory(calls);
    HistoryIsFlows(calls);
    ConnHistoryIsForward(calls);
    ApartIsInjective(calls);
    assert R.Proper(h, ConnSeries);
    R.RunShowsLatest(h, timeout, ConnSeries);
    var gauges := R.Run(h, timeout, ConnSeries).gauges;
    assert R.LabelsFrom(h, c) && R.ShowsLatest(h, gauges, c, ConnSeries);
    LatestFlowIsEvent(calls, c.key);
    var e :| e in h && e.Store? && e.key == c.key && e.labels == c.labels;
    d :| WasStored(calls, d) && IsFlowEvent(e, d);
    assert c.labels.label1 != c.labels.label2;
    assert ShowsFlow(R.LastStore(h, c.key).value.values(c.labels), c.labels, LatestFlow(calls, c.key).value.metric);
  }
}
