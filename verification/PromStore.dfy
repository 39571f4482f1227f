/** The Prometheus store of prom_sky_con/pkg/store_prom.go in its own form: maps of entries that
    are updated in place, lists of the same entries, and the exported gauges. Every call is
    atomic here; the program takes no lock. */
module PromStore {
  import opened Wrappers
  import opened PromSpec
  import R = PromRuns

  class CacheEntry<L> {
    const key: string
    const labels: L
    var timeStamp: int

    constructor (key: string, labels: L, timeStamp: int)
      ensures this.key == key && this.labels == labels && this.timeStamp == timeStamp
    {
      this.key, this.labels, this.timeStamp := key, labels, timeStamp;
    }

    ghost function Value(): Entry<L>
      reads this
    {
      Entry(key, labels, timeStamp)
    }
  }

  ghost function Values<L>(list: seq<CacheEntry<L>>): (v: seq<Entry<L>>)
    reads list
    ensures |v| == |list| && forall i | 0 <= i < |list| :: v[i] == list[i].Value()
  {
    if list == [] then [] else [list[0].Value()] + Values(list[1..])
  }

  ghost predicate DistinctEntries<L>(list: seq<CacheEntry<L>>) {
    forall i, j | 0 <= i < j < |list| :: list[i].key != list[j].key
  }

  /** A map and a list over the same entries; the store keeps one pair for the connections and
      one for the interfaces. */
  class RecencyCache<L> {
    var table: map<string, CacheEntry<L>>
    var list: seq<CacheEntry<L>>

    constructor ()
      ensures Valid() && table == map[] && list == []
    {
      table, list := map[], [];
    }

    /** The map and the list hold the same entries, each under its own key. */
    ghost predicate Valid()
      reads this
    {
      && DistinctEntries(list)
      && (forall e | e in list :: e.key in table && table[e.key] == e)
      && forall k | k in table :: table[k] in list && table[k].key == k
    }

    ghost function View(): seq<Entry<L>>
      reads this, list
    {
      Values(list)
    }

    method Touch(key: string, labels: L, now: int) returns (l: L)
      requires Valid()
      modifies this, list
      ensures Valid() && forall e | e in list :: e in old(list) || fresh(e)
      ensures View() == Touched(old(View()), key, labels, now) && l == LabelFor(old(View()), key, labels)
    {
      FoundInTable(table, list, key);
      if key in table {
        l := table[key].labels;
        Renew(table[key], now);
      } else {
        l := labels;
        AbsentWithout(View(), key);
        Insert(key, labels, now);
      }
    }

    method MoveToBack(i: nat)
      requires Valid() && i < |list|
      modifies this`list
      ensures Valid() && (forall x | x in list :: x in old(list)) && forall x | x in old(list) :: x in list
      ensures list == old(list)[..i] + old(list)[i + 1..] + [old(list)[i]]
    {
      MovedToBack(list, i, list[..i] + list[i + 1..] + [list[i]]);
      list := list[..i] + list[i + 1..] + [list[i]];
    }

    method MoveViewToBack(i: nat)
      requires Valid() && i < |list|
      modifies this`list
      ensures Valid() && (forall x | x in list :: x in old(list)) && forall x | x in old(list) :: x in list
      ensures View() == old(View())[..i] + old(View())[i + 1..] + [old(View())[i]]
    {
      ghost var before := list;
      MoveToBack(i);
      MovedValues(before, i, list);
    }

    method SetTime(i: nat, now: int)
      requires Valid() && i < |list|
      modifies list[i]
      ensures Valid() && View() == old(View())[i := Entry(list[i].key, list[i].labels, now)]
    {
      list[i].timeStamp := now;
    }

    /** An entry in use gets the present time and moves to the back of the list. */
    method Renew(e: CacheEntry<L>, now: int)
      requires Valid() && e in list
      modifies this`list, e
      ensures Valid() && (forall x | x in list :: x in old(list)) && forall x | x in old(list) :: x in list
      ensures View() == Without(old(View()), e.key) + [Entry(e.key, e.labels, now)]
    {
      var i :| 0 <= i < |list| && list[i] == e;
      OnlyKey(list, i);
      RenewedView(View(), i, Entry(e.key, e.labels, now));
      SetTime(i, now);
      MoveViewToBack(i);
    }

    method PopFront()
      requires Valid() && list != []
      modifies this
      ensures Valid() && list == old(list)[1..] && View() == old(View())[1..]
    {
      TailEntries(list);
      table := table - {list[0].key};
      list := list[1..];
    }

    method Insert(key: string, labels: L, now: int)
      requires Valid() && key !in table
      modifies this
      ensures Valid() && forall e | e in list :: e in old(list) || fresh(e)
      ensures View() == old(View()) + [Entry(key, labels, now)]
    {
      var e := new CacheEntry(key, labels, now);
      list := list + [e];
      table := table[key := e];
      assert View() == old(View()) + [e.Value()];
    }
  }

  lemma MovedToBack<L>(a: seq<CacheEntry<L>>, k: nat, b: seq<CacheEntry<L>>)
    requires k < |a| && b == a[..k] + a[k + 1..] + [a[k]] && DistinctEntries(a)
    ensures DistinctEntries(b)
    ensures forall x | x in a :: x in b
    ensures forall x | x in b :: x in a
  {
    forall i, j | 0 <= i < j < |b| ensures b[i].key != b[j].key {
      var i', j' := if i < k then i else i + 1, if j == |b| - 1 then k else if j < k then j else j + 1;
      assert b[i] == a[i'] && b[j] == a[j'] && i' != j';
    }
    forall x | x in a ensures x in b {
      var j :| 0 <= j < |a| && a[j] == x;
      assert b[if j < k then j else if j > k then j - 1 else |b| - 1] == x;
    }
  }

  lemma TailEntries<L>(a: seq<CacheEntry<L>>)
    requires a != [] && DistinctEntries(a)
    ensures DistinctEntries(a[1..])
    ensures forall x | x in a[1..] :: x in a && x.key != a[0].key
    ensures forall x | x in a && x != a[0] :: x in a[1..]
  {
  }

  lemma {:induction false} ValuesConcat<L>(a: seq<CacheEntry<L>>, b: seq<CacheEntry<L>>)
    ensures Values(a + b) == Values(a) + Values(b)
  {
  }

  lemma MovedValues<L>(a: seq<CacheEntry<L>>, k: nat, b: seq<CacheEntry<L>>)
    requires k < |a| && b == a[..k] + a[k + 1..] + [a[k]]
    ensures Values(b) == Values(a)[..k] + Values(a)[k + 1..] + [a[k].Value()]
  {
    ValuesConcat(a[..k] + a[k + 1..], [a[k]]);
    ValuesConcat(a[..k], a[k + 1..]);
    assert Values(a[..k]) == Values(a)[..k] && Values(a[k + 1..]) == Values(a)[k + 1..];
    assert Values([a[k]]) == [a[k].Value()];
  }

  lemma OnlyKey<L>(list: seq<CacheEntry<L>>, i: nat)
    requires DistinctEntries(list) && i < |list|
    ensures Values(list)[i].key == list[i].key
    ensures forall j | 0 <= j < |list| && j != i :: Values(list)[j].key != list[i].key
  {
  }

  lemma RenewedView<L>(v: seq<Entry<L>>, i: nat, x: Entry<L>)
    requires i < |v| && v[i].key == x.key && forall j | 0 <= j < |v| && j != i :: v[j].key != x.key
    ensures v[i := x][..i] + v[i := x][i + 1..] + [v[i := x][i]] == Without(v, x.key) + [x]
  {
    WithoutAt(v, i);
  }

  lemma FoundInTable<L>(table: map<string, CacheEntry<L>>, list: seq<CacheEntry<L>>, key: string)
    requires forall e | e in list :: e.key in table && table[e.key] == e
    requires forall k | k in table :: table[k] in list && table[k].key == k
    ensures Find(Values(list), key) == if key in table then Some(table[key].Value()) else None
  {
    var v := Values(list);
    if key in table {
      var i :| 0 <= i < |list| && list[i] == table[key];
      assert v[i] in v && v[i].key == key;
      var e := Find(v, key).value;
      var j :| 0 <= j < |v| && v[j] == e;
      assert list[j] in list;
    } else {
      assert forall j | 0 <= j < |v| :: v[j] == list[j].Value() && list[j] in list;
    }
  }

  lemma {:induction false} AbsentWithout<L>(cache: seq<Entry<L>>, key: string)
    requires Find(cache, key) == None
    ensures Without(cache, key) == cache
  {
    if cache != [] { AbsentWithout(cache[1..], key); }
  }

  lemma {:induction false} WithoutAt<L>(cache: seq<Entry<L>>, i: nat)
    requires i < |cache| && forall j | 0 <= j < |cache| && j != i :: cache[j].key != cache[i].key
    ensures Without(cache, cache[i].key) == cache[..i] + cache[i + 1..]
  {
    if i == 0 {
      AbsentWithout(cache[1..], cache[0].key);
    } else {
      WithoutAt(cache[1..], i - 1);
      assert cache[..i] + cache[i + 1..] == [cache[0]] + (cache[1..][..i - 1] + cache[1..][i..]);
    }
  }

  // ----- labels, series and reports

  datatype Direction = InitiatorToTarget | TargetToInitiator

  datatype Labels = Labels(initiatorIp: string, targetIp: string, initiatorPort: int, targetPort: int,
                           direction: Direction, nodeTid: string, protocol: string)

  /** The labels of the two directions of a connection. */
  datatype ConnLabels = ConnLabels(label1: Labels, label2: Labels)

  datatype Transport = Transport(a: int, b: int, protocol: string)

  datatype Metric = Metric(abBytes: int, baBytes: int, abPackets: int, baPackets: int, rtt: int)

  datatype Flow = Flow(l3TrackingID: string, networkA: string, networkB: string, transport: Option<Transport>,
                       nodeTid: string, metric: Metric)

  datatype Vector = BytesSent | PacketsSent | Rtt

  datatype Series = Series(vector: Vector, labels: Labels)

  function NewFlowLabels(f: Flow): ConnLabels
    requires f.transport.Some?
  {
    var t := f.transport.value;
    ConnLabels(Labels(f.networkA, f.networkB, t.a, t.b, InitiatorToTarget, f.nodeTid, t.protocol),
               Labels(f.networkA, f.networkB, t.a, t.b, TargetToInitiator, f.nodeTid, t.protocol))
  }

  /** The series of a connection: the round trip time has only one direction. */
  function ConnSeries(l: ConnLabels): set<Series> {
    {Series(BytesSent, l.label1), Series(BytesSent, l.label2),
     Series(PacketsSent, l.label1), Series(PacketsSent, l.label2), Series(Rtt, l.label1)}
  }

  function ConnValues(m: Metric): ConnLabels -> map<Series, int> {
    (l: ConnLabels) => map[
      Series(BytesSent, l.label1) := m.abBytes, Series(BytesSent, l.label2) := m.baBytes,
      Series(PacketsSent, l.label1) := m.abPackets, Series(PacketsSent, l.label2) := m.baPackets,
      Series(Rtt, l.label1) := m.rtt]
  }

  datatype InterfaceLabel = InterfaceLabel(interfaceName: string, host: string, interfaceType: string,
                                           ipv4: string, ipv6: string, nodeTid: string)

  datatype InterfaceVector = RxBytes | TxBytes | RxPackets | TxPackets | RxErrors | TxErrors
    | RxMissedErrors | TxMissedErrors | RxDropped | TxDropped | Collisions

  datatype InterfaceSeries = InterfaceSeries(vector: InterfaceVector, labels: InterfaceLabel)

  const INTERFACE_VECTORS := {RxBytes, TxBytes, RxPackets, TxPackets, RxErrors, TxErrors,
                              RxMissedErrors, TxMissedErrors, RxDropped, TxDropped, Collisions}

  function SeriesOfInterface(l: InterfaceLabel): set<InterfaceSeries> {
    set v | v in INTERFACE_VECTORS :: InterfaceSeries(v, l)
  }

  /** Metrics are reported only if not zero; a missing one is exported as zero. */
  function InterfaceValues(metrics: map<InterfaceVector, int>): InterfaceLabel -> map<InterfaceSeries, int> {
    (l: InterfaceLabel) => map s | s in SeriesOfInterface(l) :: if s.vector in metrics then metrics[s.vector] else 0
  }

  type ConnEvent = R.Event<ConnLabels, Series>
  type InterfaceEvent = R.Event<InterfaceLabel, InterfaceSeries>

  function FlowEvent(f: Flow, now: int): ConnEvent
    requires f.transport.Some?
  {
    R.Store(f.l3TrackingID, NewFlowLabels(f), now, ConnValues(f.metric))
  }

  /** The stores of a batch; a flow without a transport layer is passed over. */
  function FlowEvents(fl: seq<Flow>, now: int): seq<ConnEvent> {
    if fl == [] then []
    else FlowEvents(Front(fl), now) + if Last(fl).transport.Some? then [FlowEvent(Last(fl), now)] else []
  }

  function Batch(flows: map<string, seq<Flow>>, order: seq<string>): seq<Flow>
    requires forall t | t in order :: t in flows
  {
    if order == [] then [] else Batch(flows, Front(order)) + flows[Last(order)]
  }

  lemma {:induction false} EventsAppend(a: seq<Flow>, b: seq<Flow>, now: int)
    ensures FlowEvents(a + b, now) == FlowEvents(a, now) + FlowEvents(b, now)
  {
    if b == [] {
      assert a + b == a;
    } else {
      EventsAppend(a, Front(b), now);
      assert Front(a + b) == a + Front(b);
    }
  }

  lemma EventsStep(h: seq<ConnEvent>, fl: seq<Flow>, i: nat, now: int)
    requires i < |fl|
    ensures h + FlowEvents(fl[..i], now) + FlowEvents([fl[i]], now) == h + FlowEvents(fl[..i + 1], now)
  {
    assert fl[..i + 1] == fl[..i] + [fl[i]];
    EventsAppend(fl[..i], [fl[i]], now);
  }

  lemma BatchStep(h: seq<ConnEvent>, flows: map<string, seq<Flow>>, order: seq<string>, todo: set<string>, t: string,
                  now: int)
    requires t in todo && todo <= flows.Keys && Visits(order, flows.Keys - todo)
    ensures Visits(order + [t], flows.Keys - (todo - {t}))
    ensures h + FlowEvents(Batch(flows, order), now) + FlowEvents(flows[t], now)
         == h + FlowEvents(Batch(flows, order + [t]), now)
  {
    assert (order + [t])[..|order|] == order;
    EventsAppend(Batch(flows, order), flows[t], now);
    assert flows.Keys - (todo - {t}) == (flows.Keys - todo) + {t};
  }

  /** A batch holds the flows of every tag that is visited, in their order. */
  lemma {:induction false} BatchHolds(flows: map<string, seq<Flow>>, order: seq<string>, k: nat) returns (i: nat)
    requires (forall t | t in order :: t in flows) && k < |order|
    ensures i + |flows[order[k]]| <= |Batch(flows, order)|
    ensures Batch(flows, order)[i..i + |flows[order[k]]|] == flows[order[k]]
    ensures k == 0 ==> i == 0
    ensures k == |order| - 1 ==> i + |flows[order[k]]| == |Batch(flows, order)|
    ensures k > 0 ==> i == |Batch(flows, order[..k])|
  {
    if k == |order| - 1 {
      i := |Batch(flows, Front(order))|;
      assert order[..k] == Front(order);
    } else {
      i := BatchHolds(flows, Front(order), k);
      assert order[..k] == Front(order)[..k];
    }
  }

  lemma StoredState(s: R.State<ConnLabels, Series>, f: Flow, now: int, s': R.State<ConnLabels, Series>, timeout: int)
    requires f.transport.Some?
    requires s'.cache == Touched(s.cache, f.l3TrackingID, NewFlowLabels(f), now)
    requires s'.gauges == s.gauges + ConnValues(f.metric)(LabelFor(s.cache, f.l3TrackingID, NewFlowLabels(f)))
    ensures s' == R.Happen(s, FlowEvent(f, now), timeout, ConnSeries)
  {
  }

  datatype InterfaceReport = InterfaceReport(host: string, name: string, kind: string, tid: string,
                                             ipv4: Option<string>, ipv6: Option<string>,
                                             metrics: map<InterfaceVector, int>)

  /** An interface without an address has the empty one. */
  function NewInterfaceLabel(r: InterfaceReport): InterfaceLabel {
    InterfaceLabel(r.name, r.host, r.kind, if r.ipv4.Some? then r.ipv4.value else "",
                   if r.ipv6.Some? then r.ipv6.value else "", r.tid)
  }

  function ReportEvent(r: InterfaceReport, now: int): InterfaceEvent {
    R.Store(r.tid, NewInterfaceLabel(r), now, InterfaceValues(r.metrics))
  }

  function ReportEvents(reports: seq<InterfaceReport>, now: int): seq<InterfaceEvent> {
    if reports == [] then [] else ReportEvents(Front(reports), now) + [ReportEvent(Last(reports), now)]
  }

  lemma ReportsStep(h: seq<InterfaceEvent>, reports: seq<InterfaceReport>, i: nat, now: int)
    requires i < |reports|
    ensures h + ReportEvents(reports[..i], now) + [ReportEvent(reports[i], now)]
      == h + ReportEvents(reports[..i + 1], now)
  {
    assert reports[..i + 1][..i] == reports[..i];
  }

  lemma ReportedState(s: R.State<InterfaceLabel, InterfaceSeries>, r: InterfaceReport, now: int,
                      s': R.State<InterfaceLabel, InterfaceSeries>, timeout: int)
    requires s'.cache == Touched(s.cache, r.tid, NewInterfaceLabel(r), now)
    requires s'.gauges == s.gauges + InterfaceValues(r.metrics)(LabelFor(s.cache, r.tid, NewInterfaceLabel(r)))
    ensures s' == R.Happen(s, ReportEvent(r, now), timeout, SeriesOfInterface)
  {
  }

  lemma InterfaceExtends(h: seq<InterfaceEvent>, s: R.State<InterfaceLabel, InterfaceSeries>, r: InterfaceReport,
                         now: int, s': R.State<InterfaceLabel, InterfaceSeries>, timeout: int)
    requires s == R.Run(h, timeout, SeriesOfInterface)
    requires s'.cache == Touched(s.cache, r.tid, NewInterfaceLabel(r), now)
    requires s'.gauges == s.gauges + InterfaceValues(r.metrics)(LabelFor(s.cache, r.tid, NewInterfaceLabel(r)))
    ensures s' == R.Run(h + [ReportEvent(r, now)], timeout, SeriesOfInterface)
  {
    RunExtends(h, ReportEvent(r, now), timeout, SeriesOfInterface);
    ReportedState(s, r, now, s', timeout);
  }

  lemma DeletedInTurn(g: map<Series, int>, l: ConnLabels)
    ensures g - {Series(BytesSent, l.label1), Series(BytesSent, l.label2)}
              - {Series(PacketsSent, l.label1), Series(PacketsSent, l.label2)} - {Series(Rtt, l.label1)}
         == g - ConnSeries(l)
  {
  }

  /** Deleting the first entry, which has expired, is the first step of the cleanup. */
  lemma DeletedState<L, S>(s: R.State<L, S>, s': R.State<L, S>, t: int, series: L -> set<S>)
    requires s.cache != [] && s.cache[0].timeStamp <= t && s'.cache == s.cache[1..]
    requires s'.gauges == s.gauges - series(s.cache[0].labels)
    ensures R.CleanUp(s', t, series) == R.CleanUp(s, t, series)
  {
  }

  lemma OneEvent(f: Flow, now: int)
    ensures FlowEvents([f], now) == if f.transport.Some? then [FlowEvent(f, now)] else []
  {
    assert [f][..0] == [];
  }

  lemma PostedInTurn(g: map<Series, int>, l: ConnLabels, m: Metric)
    ensures
      g[Series(BytesSent, l.label1) := m.abBytes][Series(BytesSent, l.label2) := m.baBytes]
       [Series(PacketsSent, l.label1) := m.abPackets][Series(PacketsSent, l.label2) := m.baPackets]
       [Series(Rtt, l.label1) := m.rtt]
      == g + ConnValues(m)(l)
  {
  }

  lemma RunExtends<L, S>(h: seq<R.Event<L, S>>, e: R.Event<L, S>, timeout: int, series: L -> set<S>)
    ensures R.Run(h + [e], timeout, series) == R.Happen(R.Run(h, timeout, series), e, timeout, series)
  {
    assert Front(h + [e]) == h;
  }

  /** Different connections share no series, and a report sets exactly the series of its
      labels; likewise for the interfaces. */
  lemma SeriesApart(f: Flow, g: Flow, l: ConnLabels, m: Metric, k: InterfaceLabel, k': InterfaceLabel,
                    metrics: map<InterfaceVector, int>)
    requires f.transport.Some? && g.transport.Some?
    ensures ConnSeries(NewFlowLabels(f)) !! ConnSeries(NewFlowLabels(g)) <==> NewFlowLabels(f) != NewFlowLabels(g)
    ensures ConnValues(m)(l).Keys == ConnSeries(l)
    ensures SeriesOfInterface(k) !! SeriesOfInterface(k') <==> k != k'
    ensures InterfaceValues(metrics)(k).Keys == SeriesOfInterface(k)
  {
    assert Series(BytesSent, NewFlowLabels(f).label1) in ConnSeries(NewFlowLabels(f));
    assert RxBytes in INTERFACE_VECTORS && InterfaceSeries(RxBytes, k) in SeriesOfInterface(k);
  }

  lemma CleanExtends<L, S>(h: seq<R.Event<L, S>>, s: R.State<L, S>, now: int, timeout: int, series: L -> set<S>)
    requires s == R.Run(h, timeout, series)
    ensures R.Run(h + [R.Clean(now)], timeout, series) == R.CleanUp(s, now - timeout, series)
  {
    RunExtends(h, R.Clean(now), timeout, series);
  }

  // ----- the store

  class StorePrometheus {
    const connectionTimeout: int
    const connections: RecencyCache<ConnLabels>
    const interfaces: RecencyCache<InterfaceLabel>
    var connGauges: map<Series, int>
    var interfaceGauges: map<InterfaceSeries, int>
    ghost var connHistory: seq<ConnEvent>
    ghost var interfaceHistory: seq<InterfaceEvent>

    constructor (connectionTimeout: int)
      ensures Valid() && connHistory == [] && interfaceHistory == [] && this.connectionTimeout == connectionTimeout
      ensures fresh(connections) && fresh(interfaces) && connections.list == [] && interfaces.list == []
    {
      this.connectionTimeout := connectionTimeout;
      connections := new RecencyCache<ConnLabels>();
      interfaces := new RecencyCache<InterfaceLabel>();
      connGauges, interfaceGauges, connHistory, interfaceHistory := map[], map[], [], [];
    }

    ghost function ConnState(): R.State<ConnLabels, Series>
      reads this`connGauges, connections, connections.list
    {
      R.State(connections.View(), connGauges)
    }

    ghost function InterfaceState(): R.State<InterfaceLabel, InterfaceSeries>
      reads this`interfaceGauges, interfaces, interfaces.list
    {
      R.State(interfaces.View(), interfaceGauges)
    }

    /** The cache and the gauges are what the history of calls makes them. */
    ghost predicate ConnValid()
      reads this`connGauges, this`connHistory, connections, connections.list
    {
      connections.Valid() && ConnState() == R.Run(connHistory, connectionTimeout, ConnSeries)
    }

    ghost predicate InterfaceValid()
      reads this`interfaceGauges, this`interfaceHistory, interfaces, interfaces.list
    {
      interfaces.Valid() && InterfaceState() == R.Run(interfaceHistory, connectionTimeout, SeriesOfInterface)
    }

    ghost predicate Valid()
      reads this, connections, connections.list, interfaces, interfaces.list
    {
      ConnValid() && InterfaceValid()
    }

    method Post(l: ConnLabels, m: Metric)
      modifies this`connGauges
      ensures connGauges == old(connGauges) + ConnValues(m)(l)
    {
      PostedInTurn(connGauges, l, m);
      connGauges := connGauges[Series(BytesSent, l.label1) := m.abBytes];
      connGauges := connGauges[Series(BytesSent, l.label2) := m.baBytes];
      connGauges := connGauges[Series(PacketsSent, l.label1) := m.abPackets];
      connGauges := connGauges[Series(PacketsSent, l.label2) := m.baPackets];
      connGauges := connGauges[Series(Rtt, l.label1) := m.rtt];
    }

    method StoreFlow(f: Flow, now: int)
      requires ConnValid()
      modifies this`connGauges, this`connHistory, connections, connections.list
      ensures ConnValid() && connHistory == old(connHistory) + FlowEvents([f], now)
      ensures forall e | e in connections.list :: e in old(connections.list) || fresh(e)
    {
      OneEvent(f, now);
      if f.transport.None? {
        return;
      }
      ghost var s := ConnState();
      var l := connections.Touch(f.l3TrackingID, NewFlowLabels(f), now);
      Post(l, f.metric);
      RunExtends(connHistory, FlowEvent(f, now), connectionTimeout, ConnSeries);
      StoredState(s, f, now, ConnState(), connectionTimeout);
      connHistory := connHistory + [FlowEvent(f, now)];
    }

    method StoreTag(fl: seq<Flow>, now: int)
      requires ConnValid()
      modifies this`connGauges, this`connHistory, connections, connections.list
      ensures ConnValid() && connHistory == old(connHistory) + FlowEvents(fl, now)
      ensures forall e | e in connections.list :: e in old(connections.list) || fresh(e)
    {
      for i := 0 to |fl|
        invariant ConnValid() && connHistory == old(connHistory) + FlowEvents(fl[..i], now)
        invariant forall e | e in connections.list :: e in old(connections.list) || fresh(e)
      {
        StoreFlow(fl[i], now);
        EventsStep(old(connHistory), fl, i, now);
      }
      assert fl[..|fl|] == fl;
    }

    method StoreTags(flows: map<string, seq<Flow>>, now: int) returns (ghost order: seq<string>)
      requires ConnValid()
      modifies this`connGauges, this`connHistory, connections, connections.list
      ensures ConnValid() && Visits(order, flows.Keys)
      ensures connHistory == old(connHistory) + FlowEvents(Batch(flows, order), now)
      ensures forall e | e in connections.list :: e in old(connections.list) || fresh(e)
    {
      order := [];
      var todo := flows.Keys;
      assert connHistory + [] == connHistory && flows.Keys - todo == {};
      while todo != {}
        invariant todo <= flows.Keys && Visits(order, flows.Keys - todo)
        invariant ConnValid() && connHistory == old(connHistory) + FlowEvents(Batch(flows, order), now)
        invariant forall e | e in connections.list :: e in old(connections.list) || fresh(e)
        decreases todo
      {
        var t :| t in todo;
        StoreTag(flows[t], now);
        BatchStep(old(connHistory), flows, order, todo, t, now);
        order := order + [t];
        todo := todo - {t};
      }
      assert flows.Keys - {} == flows.Keys;
    }

    /** The flows of all tags, in the order in which Go iterates the tags. */
    method StoreFlows(flows: map<string, seq<Flow>>, now: int) returns (ghost order: seq<string>)
      requires Valid()
      modifies this`connGauges, this`connHistory, connections, connections.list
      ensures Valid() && Visits(order, flows.Keys)
      ensures connHistory == old(connHistory) + FlowEvents(Batch(flows, order), now)
    {
      order := StoreTags(flows, now);
    }

    method PostInterface(l: InterfaceLabel, metrics: map<InterfaceVector, int>)
      modifies this`interfaceGauges
      ensures interfaceGauges == old(interfaceGauges) + InterfaceValues(metrics)(l)
    {
      interfaceGauges := interfaceGauges + InterfaceValues(metrics)(l);
    }

    method TouchAndPost(r: InterfaceReport, now: int) returns (l: InterfaceLabel)
      requires interfaces.Valid()
      modifies this`interfaceGauges, interfaces, interfaces.list
      ensures interfaces.Valid() && forall e | e in interfaces.list :: e in old(interfaces.list) || fresh(e)
      ensures interfaces.View() == Touched(old(interfaces.View()), r.tid, NewInterfaceLabel(r), now)
      ensures l == LabelFor(old(interfaces.View()), r.tid, NewInterfaceLabel(r))
      ensures interfaceGauges == old(interfaceGauges) + InterfaceValues(r.metrics)(l)
    {
      l := interfaces.Touch(r.tid, NewInterfaceLabel(r), now);
      PostInterface(l, r.metrics);
    }

    method StoreInterface(r: InterfaceReport, now: int)
      requires InterfaceValid()
      modifies this`interfaceGauges, this`interfaceHistory, interfaces, interfaces.list
      ensures InterfaceValid() && interfaceHistory == old(interfaceHistory) + [ReportEvent(r, now)]
      ensures forall e | e in interfaces.list :: e in old(interfaces.list) || fresh(e)
    {
      ghost var s, h := InterfaceState(), interfaceHistory;
      var l := TouchAndPost(r, now);
      InterfaceExtends(h, s, r, now, InterfaceState(), connectionTimeout);
      interfaceHistory := h + [ReportEvent(r, now)];
    }

    method StoreInterfaceMetrics(reports: seq<InterfaceReport>, now: int)
      requires Valid()
      modifies this`interfaceGauges, this`interfaceHistory, interfaces, interfaces.list
      ensures Valid() && interfaceHistory == old(interfaceHistory) + ReportEvents(reports, now)
    {
      assert interfaceHistory + [] == interfaceHistory;
      for i := 0 to |reports|
        invariant InterfaceValid() && interfaceHistory == old(interfaceHistory) + ReportEvents(reports[..i], now)
        invariant forall e | e in interfaces.list :: e in old(interfaces.list) || fresh(e)
      {
        StoreInterface(reports[i], now);
        ReportsStep(old(interfaceHistory), reports, i, now);
      }
      assert reports[..|reports|] == reports;
    }

    method DeleteConnection()
      requires connections.Valid() && connections.list != []
      modifies this`connGauges, connections
      ensures connections.Valid() && connections.list == old(connections.list)[1..]
      ensures connections.View() == old(connections.View())[1..]
      ensures connGauges == old(connGauges) - ConnSeries(old(connections.list)[0].labels)
    {
      var l := connections.list[0].labels;
      DeletedInTurn(connGauges, l);
      connGauges := connGauges - {Series(BytesSent, l.label1), Series(BytesSent, l.label2)};
      connGauges := connGauges - {Series(PacketsSent, l.label1), Series(PacketsSent, l.label2)};
      connGauges := connGauges - {Series(Rtt, l.label1)};
      connections.PopFront();
    }

    method DeleteExpiredConnections(expireTime: int, ghost cleaned: R.State<ConnLabels, Series>)
      requires connections.Valid() && R.CleanUp(ConnState(), expireTime, ConnSeries) == cleaned
      modifies this`connGauges, connections
      ensures connections.Valid() && ConnState() == cleaned
    {
      while connections.list != [] && connections.list[0].timeStamp <= expireTime
        invariant connections.Valid() && R.CleanUp(ConnState(), expireTime, ConnSeries) == cleaned
        decreases |connections.list|
      {
        ghost var s := ConnState();
        DeleteConnection();
        DeletedState(s, ConnState(), expireTime, ConnSeries);
      }
    }

    method CleanConnections(now: int)
      requires ConnValid()
      modifies this`connGauges, this`connHistory, connections
      ensures ConnValid() && connHistory == old(connHistory) + [R.Clean(now)]
    {
      CleanExtends(connHistory, ConnState(), now, connectionTimeout, ConnSeries);
      connHistory := connHistory + [R.Clean(now)];
      DeleteExpiredConnections(now - connectionTimeout, R.Run(connHistory, connectionTimeout, ConnSeries));
    }

    method DeleteInterface()
      requires interfaces.Valid() && interfaces.list != []
      modifies this`interfaceGauges, interfaces
      ensures interfaces.Valid() && interfaces.list == old(interfaces.list)[1..]
      ensures interfaces.View() == old(interfaces.View())[1..]
      ensures interfaceGauges == old(interfaceGauges) - SeriesOfInterface(old(interfaces.list)[0].labels)
    {
      interfaceGauges := interfaceGauges - SeriesOfInterface(interfaces.list[0].labels);
      interfaces.PopFront();
    }

    method DeleteExpiredInterfaces(expireTime: int, ghost cleaned: R.State<InterfaceLabel, InterfaceSeries>)
      requires interfaces.Valid() && R.CleanUp(InterfaceState(), expireTime, SeriesOfInterface) == cleaned
      modifies this`interfaceGauges, interfaces
      ensures interfaces.Valid() && InterfaceState() == cleaned
    {
      while interfaces.list != [] && interfaces.list[0].timeStamp <= expireTime
        invariant interfaces.Valid() && R.CleanUp(InterfaceState(), expireTime, SeriesOfInterface) == cleaned
        decreases |interfaces.list|
      {
        ghost var s := InterfaceState();
        DeleteInterface();
        DeletedState(s, InterfaceState(), expireTime, SeriesOfInterface);
      }
    }

    method CleanInterfaces(now: int)
      requires InterfaceValid()
      modifies this`interfaceGauges, this`interfaceHistory, interfaces
      ensures InterfaceValid() && interfaceHistory == old(interfaceHistory) + [R.Clean(now)]
    {
      CleanExtends(interfaceHistory, InterfaceState(), now, connectionTimeout, SeriesOfInterface);
      interfaceHistory := interfaceHistory + [R.Clean(now)];
      DeleteExpiredInterfaces(now - connectionTimeout, R.Run(interfaceHistory, connectionTimeout, SeriesOfInterface));
    }

    method CleanupExpiredEntries(now: int)
      requires Valid()
      modifies this, connections, interfaces
      ensures Valid()
      ensures connHistory == old(connHistory) + [R.Clean(now)]
        && interfaceHistory == old(interfaceHistory) + [R.Clean(now)]
    {
      CleanConnections(now);
      CleanInterfaces(now);
    }
  }
}
