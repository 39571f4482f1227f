/** Facts about a single round of the Accept/Reject engine, for every entry and input. */
module ActionRounds {
  import opened Wrappers
  import opened VpcFlow
  import opened ActionSpec

  function Side1(p: Pair, e: Entry): VpclogsFlow requires Joined(p, e) { e.Known()[p.u1] }
  function Side2(p: Pair, e: Entry): VpclogsFlow requires Joined(p, e) { e.Known()[p.u2] }

  /** The lesser of what the two capture points have counted. */
  function Confirmed(p: Pair, e: Entry): FlowMetric
    requires Joined(p, e)
  {
    CombinedMetric(Side1(p, e).flow.metric, Side2(p, e).flow.metric)
  }

  /** The reported metric is up to date with both capture points. */
  predicate UpToDate(p: Pair, e: Entry) {
    Joined(p, e) ==>
      var s1, s2 := Side1(p, e), Side2(p, e);
      && e.metricReported.Some?
      && CountsOf(e.metricReported.value) == CountsOf(Confirmed(p, e))
      && (e.metricReported.value.last == Confirmed(p, e).last ||
          (s1.wasTerminated && s2.wasTerminated &&
           e.metricReported.value.last == Max(s1.flow.metric.last, s2.flow.metric.last)))
  }

  predicate IsAccept(r: Option<VpclogsFlow>) { r.Some? && r.value.action == Accept }
  predicate IsReject(r: Option<VpclogsFlow>) { r.Some? && r.value.action == Reject }

  predicate Same(f: VpclogsFlow, g: VpclogsFlow) {
    f.flow == g.flow && f.wasTerminated == g.wasTerminated && f.protocol == g.protocol
  }

  /** The record of UUID `k` that a round keeps: the one with the latest update time,
      the first of those that share it. */
  function Latest(own: seq<VpclogsFlow>, k: string): (r: Option<VpclogsFlow>)
    ensures r.Some? ==> r.value in own && r.value.flow.uuid == k
    ensures r.None? ==> forall f | f in own :: f.flow.uuid != k
  {
    if own == [] then None
    else
      var r, f := Latest(Front(own), k), Last(own);
      assert own == Front(own) + [f];
      if f.flow.uuid == k && (r.None? || f.flow.lastUpdateMetric.last > r.value.flow.lastUpdateMetric.last)
      then Some(f) else r
  }

  function Lookup(m: map<string, VpclogsFlow>, k: string): Option<VpclogsFlow> {
    if k in m then Some(m[k]) else None
  }

  predicate SameAt(a: Option<VpclogsFlow>, b: Option<VpclogsFlow>) {
    a.Some? == b.Some? && (a.Some? ==> Same(a.value, b.value))
  }

  function Updated(e: Entry, own: seq<VpclogsFlow>, k: string): Option<VpclogsFlow> {
    var r := Latest(own, k);
    if r.Some? then r else Lookup(e.Known(), k)
  }

  /** After a round the entry knows the records of the round, and the earlier ones of
      UUIDs that brought none. */
  predicate KnownFrom(p: Pair, e: Entry, own: seq<VpclogsFlow>, e': Entry) {
    && SameAt(Lookup(e'.Known(), p.u1), Updated(e, own, p.u1))
    && SameAt(Lookup(e'.Known(), p.u2), Updated(e, own, p.u2))
  }

  predicate Startable(cfg: Config, p: Pair, e: Entry, own: seq<VpclogsFlow>) {
    ProperSetup(cfg, p) && ProperFlows(cfg, p, own) && (Settled(cfg, p, e) || (e == FRESH && own != []))
  }

  lemma {:induction false} CollectKeepsLatest(e: Entry, own: seq<VpclogsFlow>, k: string)
    ensures CollectAll(Reset(e), own).flowsPrev == e.Known()
    ensures Lookup(CollectAll(Reset(e), own).flows, k) == Latest(own, k)
  {
    if own != [] {
      CollectKeepsLatest(e, Front(own), k);
    }
  }

  lemma CollectKnownFrom(p: Pair, e: Entry, own: seq<VpclogsFlow>)
    ensures KnownFrom(p, e, own, CollectAll(Reset(e), own))
  {
    CollectKeepsLatest(e, own, p.u1);
    CollectKeepsLatest(e, own, p.u2);
  }

  lemma CombineSettles(cfg: Config, p: Pair, e: Entry, now: int, swap: bool)
    requires ProperSetup(cfg, p) && Sane(cfg, p, e) && e.flows.Keys == p.Both() && e.flowsPrev.Keys <= p.Both()
    ensures
      var o := Combine(cfg, e, p.First(swap), p.Second(swap), now);
      && Settled(cfg, p, o.entry) && o.entry.flows == e.flows && o.entry.flowsPrev == e.flowsPrev
      && (o.report.Some? ==> o.entry.flowReported == o.report)
  {
    KnownKeys(cfg, p, e);
    RightTids(cfg, p, e, swap);
    CombineReports(cfg, e, p.First(swap), p.Second(swap), now);
    var e' := Combine(cfg, e, p.First(swap), p.Second(swap), now).entry;
    assert e'.Known() == e.Known() && e.Known().Keys == p.Both();
    assert p.u1 in p.Both();
  }

  /** Combining changes only what the entry says of the last report. */
  lemma CombineReports(cfg: Config, e: Entry, k1: string, k2: string, now: int)
    requires k1 in e.flows && k2 in e.flows && TidsOk(cfg, e.flows[k1], e.flows[k2]) && ReportedTogether(e)
    ensures
      var o := Combine(cfg, e, k1, k2, now);
      && o.entry.flows == e.flows && o.entry.flowsPrev == e.flowsPrev
      && o.entry.flowReported.Some? && o.entry.metricReported.Some?
      && (o.report.Some? ==> o.entry.flowReported == o.report)
  {
  }

  lemma RightTids(cfg: Config, p: Pair, e: Entry, swap: bool)
    requires ProperSetup(cfg, p) && KeyedFlows(cfg, p, e.flows) && e.flows.Keys == p.Both()
    ensures TidsOk(cfg, e.flows[p.First(swap)], e.flows[p.Second(swap)])
  {
    var f1, f2 := e.flows[p.First(swap)], e.flows[p.Second(swap)];
    assert f1.flow.uuid == p.First(swap) && f2.flow.uuid == p.Second(swap);
  }

  lemma RejectKeepsKeyed(cfg: Config, p: Pair, m: map<string, VpclogsFlow>, k: string)
    requires KeyedFlows(cfg, p, m) && k in m
    ensures
      var m' := m[k := m[k].SetAction(Reject)];
      KeyedFlows(cfg, p, m') && m'.Keys == m.Keys && Same(m'[k], m[k])
  {
  }

  lemma LoneSettles(cfg: Config, p: Pair, e: Entry, e': Entry, k: string)
    requires ProperSetup(cfg, p) && Sane(cfg, p, e') && k in p.Both()
    requires e.Known().Keys == {k} == e'.Known().Keys && Same(e'.Known()[k], e.Known()[k])
    ensures Settled(cfg, p, e') && SameRecords(p, e, e')
  {
    var other := if k == p.u1 then p.u2 else p.u1;
    assert other !in e.Known() && other !in e'.Known() && other in p.Both();
    assert k in e'.Known();
  }

  lemma OneRejectSettles(cfg: Config, p: Pair, e: Entry, k: string, now: int)
    requires ProperSetup(cfg, p) && Ready(cfg, p, e) && e.flows.Keys == {k} == e.flowsPrev.Keys && k in p.Both()
    ensures
      var o := RejectOne(e.(flows := e.flows[k := e.flows[k].SetAction(Reject)]), e.flows[k], now);
      Settled(cfg, p, o.entry) && SameRecords(p, e, o.entry) && o.entry.flowReported == o.report
  {
    RejectKeepsKeyed(cfg, p, e.flows, k);
    var e' := RejectOne(e.(flows := e.flows[k := e.flows[k].SetAction(Reject)]), e.flows[k], now).entry;
    assert e.Known().Keys == {k} && e.Known()[k] == e.flows[k];
    assert e'.Known().Keys == {k} && e'.Known()[k] == e'.flows[k];
    LoneSettles(cfg, p, e, e', k);
  }

  lemma OneAloneSettles(cfg: Config, p: Pair, e: Entry, k: string, now: int, swap: bool)
    requires ProperSetup(cfg, p) && Ready(cfg, p, e) && e.flows.Keys == {k} && k in p.Both()
    requires e.flowsPrev == map[] || e.flowsPrev.Keys == {k}
    ensures
      var o := OneFlow(cfg, p, e, k, now, swap);
      Settled(cfg, p, o.entry) && SameRecords(p, e, o.entry) && (o.report.Some? ==> o.entry.flowReported == o.report)
  {
    if e.flowsPrev.Keys == {k} && TimedOut(cfg, e, now) {
      OneRejectSettles(cfg, p, e, k, now);
    } else {
      var e' := OneFlow(cfg, p, e, k, now, swap).entry;
      assert e.Known().Keys == {k} && e'.Known() == e.Known();
      LoneSettles(cfg, p, e, e', k);
    }
  }

  lemma OneSettles(cfg: Config, p: Pair, e: Entry, k: string, now: int, swap: bool)
    requires ProperSetup(cfg, p) && Ready(cfg, p, e) && e.flows.Keys == {k} && k in p.Both()
      && e.flowsPrev.Keys <= p.Both()
    ensures
      var o := OneFlow(cfg, p, e, k, now, swap);
      Settled(cfg, p, o.entry) && SameRecords(p, e, o.entry) && (o.report.Some? ==> o.entry.flowReported == o.report)
  {
    if e.flowsPrev == map[] || e.flowsPrev.Keys == {k} {
      OneAloneSettles(cfg, p, e, k, now, swap);
    } else {
      KeysOfPair(p, e.flowsPrev.Keys, k);
      KnownKeys(cfg, p, e);
      var e1 := e.(flows := e.Known());
      CombineSettles(cfg, p, e1, now, swap);
      assert e1.Known() == e.Known();
    }
  }

  lemma ZeroAloneSettles(cfg: Config, p: Pair, e: Entry, k: string, now: int, swap: bool)
    requires ProperSetup(cfg, p) && Ready(cfg, p, e) && e.flows == map[] && e.flowsPrev.Keys == {k} && k in p.Both()
    ensures
      var o := ZeroFlows(cfg, p, e, now, swap);
      Settled(cfg, p, o.entry) && SameRecords(p, e, o.entry) && (o.report.Some? ==> o.entry.flowReported == o.report)
  {
    RejectKeepsKeyed(cfg, p, e.flowsPrev, k);
    var e' := ZeroFlows(cfg, p, e, now, swap).entry;
    assert p.u1 in p.Both() && p.u2 in p.Both();
    assert e.Known() == e.flowsPrev && e'.Known() == e'.flowsPrev;
    LoneSettles(cfg, p, e, e', k);
  }

  lemma ZeroSettles(cfg: Config, p: Pair, e: Entry, now: int, swap: bool)
    requires ProperSetup(cfg, p) && Ready(cfg, p, e) && e.flows == map[] && e.flowsPrev.Keys <= p.Both()
    ensures
      var o := ZeroFlows(cfg, p, e, now, swap);
      Settled(cfg, p, o.entry) && SameRecords(p, e, o.entry) && (o.report.Some? ==> o.entry.flowReported == o.report)
  {
    if e.flowsPrev.Keys != p.Both() {
      var k :| k in e.flowsPrev && e.flowsPrev.Keys == {k};
      ZeroAloneSettles(cfg, p, e, k, now, swap);
    } else {
      assert e.(flows := e.flowsPrev).Known() == e.Known() == e.flowsPrev;
    }
  }

  predicate SameRecords(p: Pair, e: Entry, e': Entry) {
    && SameAt(Lookup(e'.Known(), p.u1), Lookup(e.Known(), p.u1))
    && SameAt(Lookup(e'.Known(), p.u2), Lookup(e.Known(), p.u2))
  }

  lemma CombineKeepsKnown(e: Entry, e': Entry)
    requires e'.flows == e.flows && e'.flowsPrev == e.flowsPrev
    ensures e'.Known() == e.Known()
  {
  }

  lemma TwoSettles(cfg: Config, p: Pair, e: Entry, now: int, swap: bool)
    requires ProperSetup(cfg, p) && Ready(cfg, p, e) && e.flows.Keys == p.Both() && e.flowsPrev.Keys <= p.Both()
    ensures
      var o := Combine(cfg, e, p.First(swap), p.Second(swap), now);
      Settled(cfg, p, o.entry) && SameRecords(p, e, o.entry) && (o.report.Some? ==> o.entry.flowReported == o.report)
  {
    assert e.Known() == e.flows;
    CombineSettles(cfg, p, e, now, swap);
    CombineKeepsKnown(e, Combine(cfg, e, p.First(swap), p.Second(swap), now).entry);
  }

  lemma VerdictSettles(cfg: Config, p: Pair, e: Entry, now: int, swap: bool)
    requires ProperSetup(cfg, p) && Ready(cfg, p, e)
    ensures
      var o := Decide(cfg, p, e, now, swap);
      Settled(cfg, p, o.entry) && SameRecords(p, e, o.entry) && (o.report.Some? ==> o.entry.flowReported == o.report)
  {
    KnownKeys(cfg, p, e);
    if e.flows.Keys == p.Both() {
      TwoSettles(cfg, p, e, now, swap);
    } else if e.flows == map[] {
      ZeroSettles(cfg, p, e, now, swap);
    } else {
      var k :| k in e.flows && e.flows.Keys == {k};
      OneSettles(cfg, p, e, k, now, swap);
    }
  }

  /** A verdict has already recorded its report, so that announcing it changes nothing. */
  lemma DispatchIsDecide(cfg: Config, p: Pair, e: Entry, now: int, swap: bool)
    requires ProperSetup(cfg, p) && Ready(cfg, p, e)
    ensures Dispatch(cfg, p, e, now, swap) == Decide(cfg, p, e, now, swap)
  {
    VerdictSettles(cfg, p, e, now, swap);
  }

  lemma DispatchSettles(cfg: Config, p: Pair, e: Entry, now: int, swap: bool)
    requires ProperSetup(cfg, p) && Ready(cfg, p, e)
    ensures
      var o := Dispatch(cfg, p, e, now, swap);
      Settled(cfg, p, o.entry) && SameRecords(p, e, o.entry) && (o.report.Some? ==> o.entry.flowReported == o.report)
  {
    VerdictSettles(cfg, p, e, now, swap);
    DispatchIsDecide(cfg, p, e, now, swap);
  }

  lemma DispatchOneJoined(cfg: Config, p: Pair, c: Entry, k: string, now: int, swap: bool)
    requires ProperSetup(cfg, p) && Ready(cfg, p, c) && Joined(p, c) && k in c.flows && c.flows.Keys == {k}
      && p.Both() != {k}
    requires c.flowsPrev.Keys <= p.Both() && k in p.Both()
    ensures OneFlow(cfg, p, c, k, now, swap) == JoinedVerdict(cfg, p, c, now, swap)
  {
    assert c.Known().Keys == c.flows.Keys + c.flowsPrev.Keys;
    assert c.flowsPrev != map[] && c.flowsPrev.Keys != {k};
  }

  lemma DispatchZeroJoined(cfg: Config, p: Pair, c: Entry, now: int, swap: bool)
    requires ProperSetup(cfg, p) && Ready(cfg, p, c) && Joined(p, c) && c.flows == map[]
    ensures c.metricReported.Some? && c.flowsPrev == c.Known()
    ensures ZeroFlows(cfg, p, c, now, swap) == JoinedVerdict(cfg, p, c, now, swap)
  {
    assert c.flowsPrev == c.Known();
  }

  lemma DecideWhenJoined(cfg: Config, p: Pair, c: Entry, now: int, swap: bool)
    requires ProperSetup(cfg, p) && Ready(cfg, p, c) && Joined(p, c)
    ensures c.flows == map[] ==> c.metricReported.Some? && c.flowsPrev == c.Known()
    ensures Decide(cfg, p, c, now, swap) == JoinedVerdict(cfg, p, c, now, swap)
  {
    KnownKeys(cfg, p, c);
    if c.flows == map[] {
      DispatchZeroJoined(cfg, p, c, now, swap);
    } else if c.flows.Keys == p.Both() {
      assert c.(flows := c.Known()) == c;
    } else {
      var k :| k in c.flows && c.flows.Keys == {k};
      DispatchOneJoined(cfg, p, c, k, now, swap);
    }
  }

  lemma DispatchWhenJoined(cfg: Config, p: Pair, c: Entry, now: int, swap: bool)
    requires ProperSetup(cfg, p) && Ready(cfg, p, c) && Joined(p, c)
    ensures c.flows == map[] ==> c.metricReported.Some? && c.flowsPrev == c.Known()
    ensures Dispatch(cfg, p, c, now, swap) == JoinedVerdict(cfg, p, c, now, swap)
  {
    DecideWhenJoined(cfg, p, c, now, swap);
    DispatchIsDecide(cfg, p, c, now, swap);
  }

  lemma DispatchWhenAlone(cfg: Config, p: Pair, c: Entry, now: int, swap: bool)
    requires ProperSetup(cfg, p) && Ready(cfg, p, c) && !Joined(p, c)
    ensures LoneKey(p, c) in c.Known() && c.Known().Keys == {LoneKey(p, c)}
    ensures Dispatch(cfg, p, c, now, swap) == LoneVerdict(cfg, p, c, now)
  {
    KnownKeys(cfg, p, c);
    var k := LoneKey(p, c);
    assert c.Known().Keys == {k};
    assert c.flows.Keys != p.Both() && c.flowsPrev.Keys != p.Both() by {
      assert p.u1 in p.Both() && p.u2 in p.Both();
    }
    if c.flows != map[] {
      var k' :| k' in c.flows && c.flows.Keys == {k'};
      assert k' == k;
      assert c.flowsPrev == map[] || c.flowsPrev.Keys == {k};
    }
  }

  lemma JoinedByKeys(cfg: Config, p: Pair, e: Entry)
    requires Sane(cfg, p, e)
    ensures Joined(p, e) <==> p.u1 in e.Known() && p.u2 in e.Known()
  {
    KnownKeys(cfg, p, e);
  }

  lemma JoinedByRecords(cfg: Config, p: Pair, e: Entry, e': Entry)
    requires Sane(cfg, p, e) && Sane(cfg, p, e') && SameRecords(p, e, e')
    ensures Joined(p, e) <==> Joined(p, e')
  {
    JoinedByKeys(cfg, p, e);
    JoinedByKeys(cfg, p, e');
  }

  /** The totality of the engine: a round starts from, and leaves, an entry in which every
      record and metric that any branch reads is present. */
  lemma RoundSettles(cfg: Config, p: Pair, e: Entry, own: seq<VpclogsFlow>, now: int, swap: bool)
    requires Startable(cfg, p, e, own)
    ensures Settled(cfg, p, Round(cfg, p, e, own, now, swap).entry)
    ensures KnownFrom(p, e, own, Round(cfg, p, e, own, now, swap).entry)
  {
    RoundIsDispatch(cfg, p, e, own, now, swap);
    CollectKnownFrom(p, e, own);
    DispatchSettles(cfg, p, CollectAll(Reset(e), own), now, swap);
  }

  /** What is known decides a round: the dispatch on its number of records comes to that. */
  lemma RoundIsDispatch(cfg: Config, p: Pair, e: Entry, own: seq<VpclogsFlow>, now: int, swap: bool)
    requires Startable(cfg, p, e, own)
    ensures
      var c := CollectAll(Reset(e), own);
      && Ready(cfg, p, c) && Round(cfg, p, e, own, now, swap) == Dispatch(cfg, p, c, now, swap)
      && (Joined(p, c) <==> Joined(p, Round(cfg, p, e, own, now, swap).entry))
  {
    CollectReady(cfg, p, e, own);
    var c := CollectAll(Reset(e), own);
    if Joined(p, c) {
      DispatchWhenJoined(cfg, p, c, now, swap);
    } else {
      DispatchWhenAlone(cfg, p, c, now, swap);
    }
    DispatchSettles(cfg, p, c, now, swap);
    JoinedByRecords(cfg, p, c, Dispatch(cfg, p, c, now, swap).entry);
  }
}
