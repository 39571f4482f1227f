/** What one round of vpclogs/pkg/action.go does to the table entry of one tracking ID,
    as functions on values. The order in which Go yields the two keys of a map is the
    parameter `swap`; the clock reading of the round is `now`. */
module ActionSpec {
  import opened Wrappers
  import opened VpcFlow

  datatype Config = Config(tid1: string, tid2: string, rejectTimeout: int)

  /** The UUIDs that one tracking ID has at capture point 1 and at capture point 2. */
  datatype Pair = Pair(u1: string, u2: string)
  {
    function First(swap: bool): string { if swap then u2 else u1 }
    function Second(swap: bool): string { if swap then u1 else u2 }
    function Both(): set<string> { {u1, u2} }
  }

  datatype Entry = Entry(flows: map<string, VpclogsFlow>, flowsPrev: map<string, VpclogsFlow>,
                         flowReported: Option<VpclogsFlow>, metricReported: Option<FlowMetric>,
                         lastReportTime: int)
  {
    /** The latest record of every UUID seen so far. */
    function Known(): map<string, VpclogsFlow> { flowsPrev + flows }
  }

  const FRESH := Entry(map[], map[], None, None, 0)

  datatype Outcome = Outcome(entry: Entry, report: Option<VpclogsFlow>)

  // ----- collecting the records of a round

  function Reset(e: Entry): Entry {
    e.(flows := map[], flowsPrev := e.flowsPrev + e.flows)
  }

  function Collect(e: Entry, f: VpclogsFlow): Entry {
    var u := f.flow.uuid;
    if u !in e.flows || f.flow.lastUpdateMetric.last > e.flows[u].flow.lastUpdateMetric.last
    then e.(flows := e.flows[u := f])
    else e
  }

  function CollectAll(e: Entry, own: seq<VpclogsFlow>): Entry {
    if own == [] then e
    else Collect(CollectAll(e, Front(own)), Last(own))
  }

  predicate Matches(cfg: Config, f: VpclogsFlow) {
    f.flow.nodeTID == cfg.tid1 || f.flow.nodeTID == cfg.tid2
  }

  /** The records of a batch that belong to one tracking ID, in order. */
  function Own(cfg: Config, fl: seq<VpclogsFlow>, id: string): seq<VpclogsFlow> {
    if fl == [] then []
    else
      var f := Last(fl);
      Own(cfg, Front(fl), id) + if Matches(cfg, f) && f.flow.l3TrackingID == id then [f] else []
  }

  // ----- the verdict of a round

  function Min(a: int, b: int): int { if a < b then a else b }
  function Max(a: int, b: int): int { if a > b then a else b }

  function CombinedMetric(m1: FlowMetric, m2: FlowMetric): FlowMetric {
    FlowMetric(Min(m1.abPackets, m2.abPackets), Min(m1.abBytes, m2.abBytes),
               Min(m1.baPackets, m2.baPackets), Min(m1.baBytes, m2.baBytes),
               m1.start, Min(m1.last, m2.last), 0)
  }

  /** One of two records is missing for too long; symmetric in the two records. */
  predicate ExceedsTimeout(cfg: Config, f1: VpclogsFlow, f2: VpclogsFlow) {
    var d := TruncDiv(f1.flow.lastUpdateMetric.last - f2.flow.lastUpdateMetric.last, 1000);
    (if d < 0 then -d else d) > cfg.rejectTimeout
  }

  function TimeoutResponse(reported: FlowMetric, f1: VpclogsFlow): VpclogsFlow {
    f1.(lastUpdateMetric := ZERO_METRIC.(start := reported.start, last := reported.last),
        metric := reported).SetAction(Reject).DeriveExternalizedFields()
  }

  predicate TidsOk(cfg: Config, f1: VpclogsFlow, f2: VpclogsFlow) {
    var t1, t2 := f1.flow.nodeTID, f2.flow.nodeTID;
    if t1 != cfg.tid1 then t1 == cfg.tid2 && t2 == cfg.tid1 else t2 == cfg.tid2
  }

  /** The metric of an Accept report: at the end of the flow the later of the two times. */
  function AcceptedMetric(f1: VpclogsFlow, f2: VpclogsFlow): FlowMetric {
    var m := CombinedMetric(f1.flow.metric, f2.flow.metric);
    if f1.wasTerminated && f2.wasTerminated
    then m.(last := Max(f1.flow.metric.last, f2.flow.metric.last)) else m
  }

  /** What an Accept report adds to what was reported before. */
  function Increment(reported: Option<FlowMetric>, m: FlowMetric, f1: VpclogsFlow, f2: VpclogsFlow): FlowMetric {
    match reported
    case Some(r) =>
      FlowMetric(m.abPackets - r.abPackets, m.abBytes - r.abBytes,
                 m.baPackets - r.baPackets, m.baBytes - r.baBytes, r.last, m.last, 0)
    case None =>
      CombinedMetric(f1.flow.lastUpdateMetric, f2.flow.lastUpdateMetric).(start := m.start, last := m.last)
  }

  function AcceptResponse(reported: Option<FlowMetric>, f1: VpclogsFlow, f2: VpclogsFlow): VpclogsFlow {
    var m := AcceptedMetric(f1, f2);
    f1.(metric := m, lastUpdateMetric := Increment(reported, m, f1, f2))
    .SetAction(Accept).DeriveExternalizedFields()
  }

  predicate ReportedTogether(e: Entry) {
    e.flowReported.Some? <==> e.metricReported.Some?
  }

  function Combine(cfg: Config, e: Entry, k1: string, k2: string, now: int): Outcome
    requires k1 in e.flows && k2 in e.flows
  {
    var f1, f2 := e.flows[k1], e.flows[k2];
    if !TidsOk(cfg, f1, f2) then
      Outcome(e, Some(f1.SetAction(Reject)))
    else if e.metricReported == Some(CombinedMetric(f1.flow.metric, f2.flow.metric)) then
      if ExceedsTimeout(cfg, f1, f2)
      then RejectBoth(e, f1, now)
      else Outcome(e, None)
    else AcceptBoth(e, f1, f2, now)
  }

  function AcceptBoth(e: Entry, f1: VpclogsFlow, f2: VpclogsFlow, now: int): Outcome {
    var r := AcceptResponse(e.metricReported, f1, f2);
    Outcome(e.(flowReported := Some(r), metricReported := Some(r.metric), lastReportTime := now), Some(r))
  }

  function RejectBoth(e: Entry, f1: VpclogsFlow, now: int): Outcome
    requires e.metricReported.Some?
  {
    var r := TimeoutResponse(e.metricReported.value, f1);
    Outcome(e.(flowReported := Some(r), lastReportTime := now), Some(r))
  }

  predicate TimedOut(cfg: Config, e: Entry, now: int) {
    now > e.lastReportTime + cfg.rejectTimeout
  }

  /** Reject of a flow that only one capture point has seen. */
  function RejectOne(e: Entry, f: VpclogsFlow, now: int): Outcome {
    var r := f.SetAction(Reject);
    Outcome(e.(flowReported := Some(r), metricReported := Some(r.metric), lastReportTime := now), Some(r))
  }

  function OneFlow(cfg: Config, p: Pair, e: Entry, k: string, now: int, swap: bool): Outcome
    requires e.flows.Keys == {k} && k in p.Both() && e.flowsPrev.Keys <= p.Both()
  {
    if e.flowsPrev == map[] then
      Outcome(e.(lastReportTime := now), None)
    else if e.flowsPrev.Keys == {k} then
      if TimedOut(cfg, e, now)
      then RejectOne(e.(flows := e.flows[k := e.flows[k].SetAction(Reject)]), e.flows[k], now)
      else Outcome(e, None)
    else
      KeysOfPair(p, e.flowsPrev.Keys, k);
      Combine(cfg, e.(flows := e.Known()), p.First(swap), p.Second(swap), now)
  }

  function ZeroFlows(cfg: Config, p: Pair, e: Entry, now: int, swap: bool): Outcome
    requires e.flows == map[] && e.flowsPrev.Keys <= p.Both() && e.flowsPrev != map[]
    requires e.flowsPrev.Keys == p.Both() ==> e.metricReported.Some?
  {
    if e.flowsPrev.Keys != p.Both() then
      var k :| k in e.flowsPrev && e.flowsPrev.Keys == {k};
      if TimedOut(cfg, e, now)
      then RejectOne(e.(flowsPrev := e.flowsPrev[k := e.flowsPrev[k].SetAction(Reject)]), e.flowsPrev[k], now)
      else Outcome(e, None)
    else
      var e' := e.(flows := e.flowsPrev);
      var f1, f2 := e.flowsPrev[p.First(swap)], e.flowsPrev[p.Second(swap)];
      if ExceedsTimeout(cfg, f1, f2) then RejectBoth(e', f1, now) else Outcome(e', None)
  }

  // ----- proper setup and the state invariant

  /** A record captured at one of the two points, fresh from the transformer. */
  predicate Proper(cfg: Config, p: Pair, f: VpclogsFlow) {
    && ((f.flow.uuid == p.u1 && f.flow.nodeTID == cfg.tid1) || (f.flow.uuid == p.u2 && f.flow.nodeTID == cfg.tid2))
    && f.metric == f.flow.metric && f.lastUpdateMetric == f.flow.lastUpdateMetric
  }

  predicate ProperSetup(cfg: Config, p: Pair) {
    cfg.tid1 != cfg.tid2 && p.u1 != p.u2
  }

  predicate ProperFlows(cfg: Config, p: Pair, own: seq<VpclogsFlow>) {
    forall f | f in own :: Proper(cfg, p, f)
  }

  predicate KeyedFlows(cfg: Config, p: Pair, m: map<string, VpclogsFlow>) {
    forall k | k in m :: m[k].flow.uuid == k && Proper(cfg, p, m[k])
  }

  /** Holds of every entry between two steps of a round and between rounds. */
  predicate Sane(cfg: Config, p: Pair, e: Entry) {
    KeyedFlows(cfg, p, e.flows) && KeyedFlows(cfg, p, e.flowsPrev) && ReportedTogether(e)
  }

  /** Holds of an entry whose records of the round are collected. */
  predicate Ready(cfg: Config, p: Pair, e: Entry) {
    && Sane(cfg, p, e) && (e.flows != map[] || e.flowsPrev != map[])
    && (e.flowsPrev.Keys == p.Both() ==> e.metricReported.Some?)
  }

  /** Holds of every entry of the table between rounds. */
  predicate Settled(cfg: Config, p: Pair, e: Entry) {
    && Sane(cfg, p, e) && e.Known() != map[]
    && (e.Known().Keys == p.Both() ==> e.metricReported.Some?)
  }

  function Decide(cfg: Config, p: Pair, e: Entry, now: int, swap: bool): Outcome
    requires ProperSetup(cfg, p) && Ready(cfg, p, e)
  {
    KnownKeys(cfg, p, e);
    if e.flows.Keys == p.Both() then Combine(cfg, e, p.First(swap), p.Second(swap), now)
    else if e.flows == map[] then ZeroFlows(cfg, p, e, now, swap)
    else var k :| k in e.flows && e.flows.Keys == {k}; OneFlow(cfg, p, e, k, now, swap)
  }

  function Announced(o: Outcome): Outcome {
    if o.report.Some? then Outcome(o.entry.(flowReported := o.report), o.report) else o
  }

  function Dispatch(cfg: Config, p: Pair, e: Entry, now: int, swap: bool): Outcome
    requires ProperSetup(cfg, p) && Ready(cfg, p, e)
  {
    Announced(Decide(cfg, p, e, now, swap))
  }

  // ----- a round by what is known

  /** Both capture points have been seen. */
  predicate Joined(p: Pair, e: Entry) {
    e.Known().Keys == p.Both()
  }

  /** The verdict when both capture points are known: a round with a record combines the
      latest records of both, a round without one checks the gap between them. */
  function JoinedVerdict(cfg: Config, p: Pair, c: Entry, now: int, swap: bool): Outcome
    requires Joined(p, c) && (c.flows == map[] ==> c.metricReported.Some?)
  {
    var c' := c.(flows := c.Known());
    if c.flows != map[] then Combine(cfg, c', p.First(swap), p.Second(swap), now)
    else
      var f1, f2 := c.Known()[p.First(swap)], c.Known()[p.Second(swap)];
      if ExceedsTimeout(cfg, f1, f2) then RejectBoth(c', f1, now) else Outcome(c', None)
  }

  function LoneKey(p: Pair, c: Entry): string {
    if p.u1 in c.Known() then p.u1 else p.u2
  }

  /** The verdict when one capture point is known: a Reject exactly at a timeout, and never
      in the round that brings the first record. */
  function LoneVerdict(cfg: Config, p: Pair, c: Entry, now: int): Outcome
    requires LoneKey(p, c) in c.Known()
  {
    var k := LoneKey(p, c);
    if c.flowsPrev == map[] then Outcome(c.(lastReportTime := now), None)
    else if !TimedOut(cfg, c, now) then Outcome(c, None)
    else
      var f := c.Known()[k];
      var c' := if k in c.flows then c.(flows := c.flows[k := f.SetAction(Reject)])
                else c.(flowsPrev := c.flowsPrev[k := f.SetAction(Reject)]);
      RejectOne(c', f, now)
  }

  /** One round of an entry: reset, collect, verdict. ActionRounds proves that this is what
      the dispatch on the number of records of the round comes to. */
  function Round(cfg: Config, p: Pair, e: Entry, own: seq<VpclogsFlow>, now: int, swap: bool): Outcome
    requires ProperSetup(cfg, p) && ProperFlows(cfg, p, own)
    requires Settled(cfg, p, e) || (e == FRESH && own != [])
  {
    CollectReady(cfg, p, e, own);
    var c := CollectAll(Reset(e), own);
    KnownKeys(cfg, p, c);
    if Joined(p, c) then JoinedVerdict(cfg, p, c, now, swap) else LoneVerdict(cfg, p, c, now)
  }

  predicate Removable(e: Entry) {
    e.flowReported.Some? && (e.flowReported.value.action == Reject || e.flowReported.value.wasTerminated)
  }

  // ----- one tracking ID on its own

  datatype Slot = Slot(entry: Option<Entry>, report: Option<VpclogsFlow>)

  predicate SlotOk(cfg: Config, p: Pair, s: Option<Entry>) {
    s.Some? ==> Settled(cfg, p, s.value)
  }

  /** A round of one tracking ID, cleanup included; `cleanup` says that a cleanup is due. */
  function Step(cfg: Config, p: Pair, s: Option<Entry>, own: seq<VpclogsFlow>,
                now: int, swap: bool, cleanup: bool): Slot
    requires ProperSetup(cfg, p) && ProperFlows(cfg, p, own) && SlotOk(cfg, p, s)
  {
    if s.None? && own == [] then Slot(None, None)
    else
      var o := Round(cfg, p, if s.Some? then s.value else FRESH, own, now, swap);
      Slot(if cleanup && Removable(o.entry) then None else Some(o.entry), o.report)
  }

  lemma KeysOfPair(p: Pair, keys: set<string>, k: string)
    requires keys <= p.Both() && k in p.Both() && keys != {} && keys != {k}
    ensures keys + {k} == p.Both()
  {
    var x :| x in keys;
    if x == k {
      assert keys != {k};
      assert exists y :: y in keys && y != k;
    }
  }

  lemma KeyedWithin(cfg: Config, p: Pair, m: map<string, VpclogsFlow>)
    requires KeyedFlows(cfg, p, m)
    ensures m.Keys <= p.Both()
  {
  }

  lemma OneKey(p: Pair, m: map<string, VpclogsFlow>)
    requires m.Keys <= p.Both()
    ensures m != map[] && m.Keys != p.Both() ==> exists k :: k in m && m.Keys == {k}
  {
    assert m.Keys == {} <==> m == map[];
    if m != map[] && m.Keys != p.Both() {
      var k :| k in m;
      assert m.Keys == {k};
    }
  }

  lemma KnownIsUnion(e: Entry)
    ensures e.Known().Keys == e.flows.Keys + e.flowsPrev.Keys
    ensures e.flows == map[] ==> e.Known() == e.flowsPrev
    ensures e.flows != map[] || e.flowsPrev != map[] ==> e.Known().Keys != {}
  {
    assert e.flows.Keys == {} <==> e.flows == map[];
    assert e.flowsPrev.Keys == {} <==> e.flowsPrev == map[];
  }

  lemma KnownKeys(cfg: Config, p: Pair, e: Entry)
    requires Sane(cfg, p, e)
    ensures e.Known().Keys == e.flows.Keys + e.flowsPrev.Keys <= p.Both()
    ensures e.flows.Keys <= p.Both() && e.flowsPrev.Keys <= p.Both()
    ensures e.flows != map[] && e.flows.Keys != p.Both() ==>
      exists k :: k in e.flows && e.flows.Keys == {k}
    ensures e.flows != map[] || e.flowsPrev != map[] ==> LoneKey(p, e) in e.Known()
    ensures e.flows == map[] ==> e.Known() == e.flowsPrev
  {
    KeyedWithin(cfg, p, e.flows);
    KeyedWithin(cfg, p, e.flowsPrev);
    OneKey(p, e.flows);
    KnownIsUnion(e);
  }

  lemma {:induction false} CollectReady(cfg: Config, p: Pair, e: Entry, own: seq<VpclogsFlow>)
    requires ProperFlows(cfg, p, own)
    requires Settled(cfg, p, e) || e == FRESH
    ensures
      var c := CollectAll(Reset(e), own);
      && c == Reset(e).(flows := c.flows) && Sane(cfg, p, c)
      && (c.flows == map[] <==> own == []) && (Settled(cfg, p, e) || own != [] ==> Ready(cfg, p, c))
  {
    if own != [] {
      CollectReady(cfg, p, e, Front(own));
    } else {
      assert e.flowsPrev + e.flows == e.Known();
    }
  }
}
