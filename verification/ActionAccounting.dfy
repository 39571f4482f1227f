/** Accounting of the Accept/Reject engine over whole lives of a table entry: any number of
    rounds from the creation of the entry, with any records and any map-iteration order. */
module ActionAccounting {
  import opened Wrappers
  import opened VpcFlow
  import opened ActionSpec
  import opened ActionRounds

  datatype RoundIn = RoundIn(own: seq<VpclogsFlow>, now: int, swap: bool)

  datatype Life = Life(entry: Entry, reports: seq<Option<VpclogsFlow>>)

  /** A life starts with the round whose first record creates the entry. */
  predicate ProperLife(cfg: Config, p: Pair, rounds: seq<RoundIn>) {
    && ProperSetup(cfg, p)
    && (rounds != [] ==> rounds[0].own != [])
    && forall r | r in rounds :: ProperFlows(cfg, p, r.own)
  }

  function Run(cfg: Config, p: Pair, rounds: seq<RoundIn>): (l: Life)
    requires ProperLife(cfg, p, rounds)
    ensures |l.reports| == |rounds|
    ensures if rounds == [] then l.entry == FRESH else Settled(cfg, p, l.entry)
  {
    if rounds == [] then Life(FRESH, [])
    else
      var l, r := Run(cfg, p, Front(rounds)), Last(rounds);
      RoundSettles(cfg, p, l.entry, r.own, r.now, r.swap);
      var o := Round(cfg, p, l.entry, r.own, r.now, r.swap);
      Life(o.entry, l.reports + [o.report])
  }

  // ----- one round

  predicate RoundFacts(p: Pair, before: Option<FlowMetric>, o: Outcome)
    requires Joined(p, o.entry)
  {
    && UpToDate(p, o.entry)
    && (IsAccept(o.report) ==> AcceptedFrom(p, before, o))
    && (!IsAccept(o.report) ==> before.Some? && o.entry.metricReported == before)
    && (o.report.Some? ==> IsAccept(o.report) || o.report.value.ext.delta == NO_COUNTS)
  }

  lemma CombinesBoth(cfg: Config, p: Pair, e: Entry, swap: bool)
    requires ProperSetup(cfg, p) && Sane(cfg, p, e) && e.flows.Keys == p.Both() && e.flows == e.Known()
    ensures
      var f1, f2 := e.flows[p.First(swap)], e.flows[p.Second(swap)];
      && TidsOk(cfg, f1, f2) && Joined(p, e)
      && CountsOf(Confirmed(p, e)) == CountsOf(CombinedMetric(f1.flow.metric, f2.flow.metric))
      && Confirmed(p, e).last == CombinedMetric(f1.flow.metric, f2.flow.metric).last
  {
    var f1, f2 := e.flows[p.First(swap)], e.flows[p.Second(swap)];
    assert f1.flow.uuid == p.First(swap) && f2.flow.uuid == p.Second(swap);
  }

  lemma AcceptFacts(p: Pair, e: Entry, f1: VpclogsFlow, f2: VpclogsFlow, now: int, swap: bool)
    requires Joined(p, e) && f1 == e.Known()[p.First(swap)] && f2 == e.Known()[p.Second(swap)]
    ensures RoundFacts(p, e.metricReported, AcceptBoth(e, f1, f2, now))
  {
    var o := AcceptBoth(e, f1, f2, now);
    assert o.entry.Known() == e.Known();
  }

  /** A round that accepts nothing, when the reported metric is that of both sides. */
  lemma KeepFacts(p: Pair, e: Entry, o: Outcome)
    requires UpToDate(p, e) && Joined(p, e) && o.entry.Known() == e.Known()
      && o.entry.metricReported == e.metricReported
    requires o.report.Some? ==> IsReject(o.report) && o.report.value.ext.delta == NO_COUNTS
    ensures RoundFacts(p, e.metricReported, o)
  {
  }

  lemma CombineFacts(cfg: Config, p: Pair, e: Entry, now: int, swap: bool)
    requires ProperSetup(cfg, p) && Sane(cfg, p, e) && e.flows.Keys == p.Both() && e.flows == e.Known()
    ensures RoundFacts(p, e.metricReported, Combine(cfg, e, p.First(swap), p.Second(swap), now))
  {
    CombinesBoth(cfg, p, e, swap);
    var f1, f2 := e.flows[p.First(swap)], e.flows[p.Second(swap)];
    if e.metricReported == Some(CombinedMetric(f1.flow.metric, f2.flow.metric)) {
      var o := Combine(cfg, e, p.First(swap), p.Second(swap), now);
      assert o.entry.Known() == e.Known();
      KeepFacts(p, e, o);
    } else {
      AcceptFacts(p, e, f1, f2, now, swap);
    }
  }

  lemma VerdictFacts(cfg: Config, p: Pair, c: Entry, now: int, swap: bool)
    requires ProperSetup(cfg, p) && Sane(cfg, p, c) && Joined(p, c) && (c.flows == map[] ==> UpToDate(p, c))
    ensures
      var o := JoinedVerdict(cfg, p, c, now, swap);
      Joined(p, o.entry) && RoundFacts(p, c.metricReported, o)
  {
    var c' := c.(flows := c.Known());
    assert c'.Known() == c.Known();
    if c.flows != map[] {
      CombineFacts(cfg, p, c', now, swap);
    } else {
      var o := JoinedVerdict(cfg, p, c, now, swap);
      assert o.entry.Known() == c.Known();
      KeepFacts(p, c, o);
    }
  }

  lemma JoinedRound(cfg: Config, p: Pair, e: Entry, r: RoundIn)
    requires Startable(cfg, p, e, r.own) && UpToDate(p, e)
    requires Joined(p, Round(cfg, p, e, r.own, r.now, r.swap).entry)
    ensures RoundFacts(p, e.metricReported, Round(cfg, p, e, r.own, r.now, r.swap))
  {
    var c := CollectAll(Reset(e), r.own);
    RoundIsDispatch(cfg, p, e, r.own, r.now, r.swap);
    Collected(cfg, p, e, r);
    DispatchWhenJoined(cfg, p, c, r.now, r.swap);
    VerdictFacts(cfg, p, c, r.now, r.swap);
  }

  lemma Collected(cfg: Config, p: Pair, e: Entry, r: RoundIn)
    requires Startable(cfg, p, e, r.own) && UpToDate(p, e)
    ensures
      var c := CollectAll(Reset(e), r.own);
      c.metricReported == e.metricReported && (c.flows == map[] ==> UpToDate(p, c))
  {
    var c := CollectAll(Reset(e), r.own);
    CollectReady(cfg, p, e, r.own);
    CollectKeepsLatest(e, r.own, p.u1);
    if c.flows == map[] {
      assert c.flowsPrev == e.Known() == c.Known();
    }
  }

  /** What an Accept report says, and the metric it leaves as reported. */
  predicate AcceptedFrom(p: Pair, before: Option<FlowMetric>, o: Outcome)
    requires o.report.Some? && Joined(p, o.entry)
  {
    var v := o.report.value;
    && o.entry.metricReported == Some(v.metric)
    && v.ext.delta == CountsOf(v.lastUpdateMetric)
    && v.ext.delta.Plus(Owed(p, before, o.entry)) == CountsOf(Confirmed(p, o.entry))
    && v.lastUpdateMetric.start == (if before.Some? then before.value.last else v.metric.start)
    && v.lastUpdateMetric.last == v.metric.last
    && (Side1(p, o.entry).wasTerminated && Side2(p, o.entry).wasTerminated ==>
          v.metric.last == Max(Side1(p, o.entry).flow.metric.last, Side2(p, o.entry).flow.metric.last))
  }

  /** The part of the confirmed counts that an Accept report leaves out: what was reported
      before or, in the first report, what was counted before the latest update. */
  function Owed(p: Pair, before: Option<FlowMetric>, e: Entry): FlowCounts
    requires Joined(p, e)
  {
    match before
    case Some(m) => CountsOf(m)
    case None =>
      var all := CountsOf(Confirmed(p, e));
      var latest := CountsOf(CombinedMetric(Side1(p, e).flow.lastUpdateMetric, Side2(p, e).flow.lastUpdateMetric));
      FlowCounts(all.bytesFromInitiator - latest.bytesFromInitiator,
                 all.packetsFromInitiator - latest.packetsFromInitiator,
                 all.bytesFromTarget - latest.bytesFromTarget, all.packetsFromTarget - latest.packetsFromTarget)
  }

  lemma AloneRound(cfg: Config, p: Pair, e: Entry, r: RoundIn)
    requires Startable(cfg, p, e, r.own)
    requires !Joined(p, Round(cfg, p, e, r.own, r.now, r.swap).entry)
    ensures
      var o := Round(cfg, p, e, r.own, r.now, r.swap);
      && !Joined(p, e) && !IsAccept(o.report) && UpToDate(p, o.entry)
      && (o.report.Some? <==> e != FRESH && TimedOut(cfg, e, r.now))
      && o.entry.lastReportTime == (if o.report.Some? || e == FRESH then r.now else e.lastReportTime)
      && o.entry.metricReported == (if o.report.Some? then Some(o.report.value.metric) else e.metricReported)
      && (o.report.Some? ==> AloneReport(p, o))
  {
    var c := CollectAll(Reset(e), r.own);
    RoundIsDispatch(cfg, p, e, r.own, r.now, r.swap);
    CollectedAlone(cfg, p, e, r);
    DispatchWhenAlone(cfg, p, c, r.now, r.swap);
    DispatchSettles(cfg, p, c, r.now, r.swap);
    LoneReportShown(cfg, p, c, LoneKey(p, c), Round(cfg, p, e, r.own, r.now, r.swap));
  }

  lemma CollectedAlone(cfg: Config, p: Pair, e: Entry, r: RoundIn)
    requires Startable(cfg, p, e, r.own) && !Joined(p, CollectAll(Reset(e), r.own))
    ensures
      var c := CollectAll(Reset(e), r.own);
      && !Joined(p, e) && (c.flowsPrev == map[] <==> e == FRESH)
      && c.lastReportTime == e.lastReportTime && c.metricReported == e.metricReported
  {
    var c := CollectAll(Reset(e), r.own);
    CollectReady(cfg, p, e, r.own);
    CollectKeepsLatest(e, r.own, p.u1);
    KnownKeys(cfg, p, c);
    assert FRESH.Known() == map[] && e.Known().Keys <= c.Known().Keys;
  }

  lemma LoneReportShown(cfg: Config, p: Pair, c: Entry, k: string, o: Outcome)
    requires ProperSetup(cfg, p) && Sane(cfg, p, c) && c.Known().Keys == {k} && k in p.Both()
      && SameRecords(p, c, o.entry)
    ensures o.report == Some(c.Known()[k].SetAction(Reject)) ==> AloneReport(p, o)
  {
    assert c.Known()[k].flow.uuid == k;
  }

  /** A one-sided Reject shows a record that is known at the end of the round. */
  predicate AloneReport(p: Pair, o: Outcome)
    requires o.report.Some?
  {
    && o.report.value.action == Reject && o.report.value.metric == o.report.value.flow.metric
    && o.report.value.lastUpdateMetric == o.report.value.flow.lastUpdateMetric
    && var k := o.report.value.flow.uuid;
       k in p.Both() && k in o.entry.Known() && Same(o.entry.Known()[k], o.report.value)
  }

  // ----- the accepted total

  function Accepted(reports: seq<Option<VpclogsFlow>>): FlowCounts {
    if reports == [] then NO_COUNTS
    else
      var t, r := Accepted(Front(reports)), Last(reports);
      if IsAccept(r) then t.Plus(r.value.ext.delta) else t
  }

  /** The confirmed counts that no Accept report of the life contains. They are fixed in the
      round that first knows both capture points: the metric of the last one-sided Reject
      or, without one, what was counted before the first common update. */
  function Withheld(cfg: Config, p: Pair, rounds: seq<RoundIn>): FlowCounts
    requires ProperLife(cfg, p, rounds)
  {
    if rounds == [] then NO_COUNTS
    else StillWithheld(p, Run(cfg, p, Front(rounds)).entry, Withheld(cfg, p, Front(rounds)), Run(cfg, p, rounds).entry)
  }

  /** One round, seen through the entry before it and the outcome. */
  predicate Follows(p: Pair, e: Entry, now: int, timedOut: bool, o: Outcome) {
    if Joined(p, o.entry) then RoundFacts(p, e.metricReported, o)
    else
      && !Joined(p, e) && !IsAccept(o.report)
      && (o.report.Some? <==> e != FRESH && timedOut)
      && o.entry.lastReportTime == (if o.report.Some? || e == FRESH then now else e.lastReportTime)
      && o.entry.metricReported == (if o.report.Some? then Some(o.report.value.metric) else e.metricReported)
      && (o.report.Some? ==> AloneReport(p, o))
  }

  /** So is every round of an entry whose reported metric is up to date. */
  lemma RoundFollows(cfg: Config, p: Pair, e: Entry, r: RoundIn)
    requires Startable(cfg, p, e, r.own) && UpToDate(p, e)
    ensures
      var o := Round(cfg, p, e, r.own, r.now, r.swap);
      && UpToDate(p, o.entry) && Follows(p, e, r.now, TimedOut(cfg, e, r.now), o) && KnownFrom(p, e, r.own, o.entry)
  {
    RoundSettles(cfg, p, e, r.own, r.now, r.swap);
    if Joined(p, Round(cfg, p, e, r.own, r.now, r.swap).entry) {
      JoinedRound(cfg, p, e, r);
    } else {
      AloneRound(cfg, p, e, r);
    }
  }

  /** Every round of every life is such a round. */
  lemma {:induction false} RunFollows(cfg: Config, p: Pair, rounds: seq<RoundIn>)
    requires ProperLife(cfg, p, rounds) && rounds != []
    ensures
      var l0, l, r := Run(cfg, p, Front(rounds)), Run(cfg, p, rounds), Last(rounds);
      && l.reports == l0.reports + [Last(l.reports)]
      && UpToDate(p, l0.entry) && UpToDate(p, l.entry)
      && Follows(p, l0.entry, r.now, TimedOut(cfg, l0.entry, r.now), Outcome(l.entry, Last(l.reports)))
      && KnownFrom(p, l0.entry, r.own, l.entry)
  {
    if |rounds| > 1 {
      RunFollows(cfg, p, Front(rounds));
    }
    RoundFollows(cfg, p, Run(cfg, p, Front(rounds)).entry, Last(rounds));
  }

  /** The counts withheld once both capture points are known. */
  function StillWithheld(p: Pair, e: Entry, held: FlowCounts, e': Entry): FlowCounts {
    if !Joined(p, e') then NO_COUNTS
    else if Joined(p, e) then held
    else Owed(p, e.metricReported, e')
  }

  /** The accepted total and what is withheld make up the confirmed counts. */
  predicate Balanced(p: Pair, e: Entry, total: FlowCounts, held: FlowCounts) {
    if Joined(p, e) then total.Plus(held) == CountsOf(Confirmed(p, e)) else total == NO_COUNTS
  }

  lemma RoundBalances(p: Pair, e: Entry, now: int, timedOut: bool, o: Outcome, total: FlowCounts, held: FlowCounts)
    requires UpToDate(p, e) && Follows(p, e, now, timedOut, o) && Balanced(p, e, total, held)
    ensures Balanced(p, o.entry, if IsAccept(o.report) then total.Plus(o.report.value.ext.delta) else total,
                     StillWithheld(p, e, held, o.entry))
  {
  }

  /** At every moment of every life the accepted total is exactly the lesser of the two
      capture points' counters, less the counts withheld at the join. */
  lemma {:induction false} AcceptedIsConfirmed(cfg: Config, p: Pair, rounds: seq<RoundIn>)
    requires ProperLife(cfg, p, rounds)
    ensures
      var l := Run(cfg, p, rounds);
      Balanced(p, l.entry, Accepted(l.reports), Withheld(cfg, p, rounds))
  {
    if rounds != [] {
      AcceptedIsConfirmed(cfg, p, Front(rounds));
      RunFollows(cfg, p, rounds);
      var l0, l, r := Run(cfg, p, Front(rounds)), Run(cfg, p, rounds), Last(rounds);
      assert Front(l.reports) == l0.reports;
      RoundBalances(p, l0.entry, r.now, TimedOut(cfg, l0.entry, r.now), Outcome(l.entry, Last(l.reports)),
                    Accepted(l0.reports), Withheld(cfg, p, Front(rounds)));
    }
  }

  // ----- the accepted total is confirmed on both sides

  /** A record's counters are not negative and cover its latest update. */
  predicate Counted(f: VpclogsFlow) {
    && NO_COUNTS.AtMost(CountsOf(f.flow.lastUpdateMetric))
    && CountsOf(f.flow.lastUpdateMetric).AtMost(CountsOf(f.flow.metric))
  }

  predicate CountedLife(rounds: seq<RoundIn>) {
    forall r | r in rounds :: forall f | f in r.own :: Counted(f)
  }

  predicate CountedEntry(p: Pair, e: Entry) {
    && (p.u1 in e.Known() ==> Counted(e.Known()[p.u1]))
    && (p.u2 in e.Known() ==> Counted(e.Known()[p.u2]))
    && (e.metricReported.Some? ==> NO_COUNTS.AtMost(CountsOf(e.metricReported.value)))
  }

  lemma RoundCounted(p: Pair, e: Entry, r: RoundIn, timedOut: bool, o: Outcome)
    requires UpToDate(p, o.entry) && Follows(p, e, r.now, timedOut, o) && KnownFrom(p, e, r.own, o.entry)
    requires CountedEntry(p, e) && forall f | f in r.own :: Counted(f)
    ensures CountedEntry(p, o.entry)
    ensures Joined(p, o.entry) && !Joined(p, e) ==> NO_COUNTS.AtMost(Owed(p, e.metricReported, o.entry))
  {
  }

  lemma {:induction false} LifeCounted(cfg: Config, p: Pair, rounds: seq<RoundIn>)
    requires ProperLife(cfg, p, rounds) && CountedLife(rounds)
    ensures CountedEntry(p, Run(cfg, p, rounds).entry) && NO_COUNTS.AtMost(Withheld(cfg, p, rounds))
  {
    if rounds != [] {
      LifeCounted(cfg, p, Front(rounds));
      RunFollows(cfg, p, rounds);
      var l0, l, r := Run(cfg, p, Front(rounds)), Run(cfg, p, rounds), Last(rounds);
      RoundCounted(p, l0.entry, r, TimedOut(cfg, l0.entry, r.now), Outcome(l.entry, Last(l.reports)));
    }
  }

  lemma BalancedBelowSides(p: Pair, e: Entry, total: FlowCounts, held: FlowCounts)
    requires Balanced(p, e, total, held) && NO_COUNTS.AtMost(held) && Joined(p, e)
    ensures total.AtMost(CountsOf(Side1(p, e).flow.metric)) && total.AtMost(CountsOf(Side2(p, e).flow.metric))
  {
  }

  /** No byte or packet is reported as accepted that one of the capture points has not
      counted. Nothing is assumed about the order of the counters or earlier Rejects. */
  lemma AcceptedOnBothSides(cfg: Config, p: Pair, rounds: seq<RoundIn>)
    requires ProperLife(cfg, p, rounds) && CountedLife(rounds)
    ensures
      var l := Run(cfg, p, rounds);
      Joined(p, l.entry) ==>
        && Accepted(l.reports).AtMost(CountsOf(Side1(p, l.entry).flow.metric))
        && Accepted(l.reports).AtMost(CountsOf(Side2(p, l.entry).flow.metric))
  {
    var l := Run(cfg, p, rounds);
    AcceptedIsConfirmed(cfg, p, rounds);
    LifeCounted(cfg, p, rounds);
    if Joined(p, l.entry) {
      BalancedBelowSides(p, l.entry, Accepted(l.reports), Withheld(cfg, p, rounds));
    }
  }

  // ----- counters and clocks that only grow

  predicate Grows(f: VpclogsFlow, g: VpclogsFlow) {
    && CountsOf(f.flow.metric).AtMost(CountsOf(g.flow.metric))
    && f.flow.metric.last <= g.flow.metric.last && (f.wasTerminated ==> g.wasTerminated)
  }

  /** Records of one UUID grow from round to round; within a round no order is assumed. */
  predicate GrowingLife(rounds: seq<RoundIn>) {
    forall i, j | 0 <= i < j < |rounds| ::
      forall f, g | f in rounds[i].own && g in rounds[j].own && f.flow.uuid == g.flow.uuid :: Grows(f, g)
  }

  predicate GrowsAt(a: Option<VpclogsFlow>, b: Option<VpclogsFlow>) {
    a.Some? ==> b.Some? && Grows(a.value, b.value)
  }

  predicate EntryGrows(p: Pair, e: Entry, e': Entry) {
    && GrowsAt(Lookup(e.Known(), p.u1), Lookup(e'.Known(), p.u1))
    && GrowsAt(Lookup(e.Known(), p.u2), Lookup(e'.Known(), p.u2))
  }

  lemma {:induction false} KnownGrows(cfg: Config, p: Pair, rounds: seq<RoundIn>, k: string, g: VpclogsFlow)
    requires ProperLife(cfg, p, rounds) && k in p.Both()
    requires forall r | r in rounds :: forall f | f in r.own && f.flow.uuid == k :: Grows(f, g)
    ensures k in Run(cfg, p, rounds).entry.Known() ==> Grows(Run(cfg, p, rounds).entry.Known()[k], g)
  {
    if rounds != [] {
      KnownGrows(cfg, p, Front(rounds), k, g);
      RunFollows(cfg, p, rounds);
      LatestGrows(p, Run(cfg, p, Front(rounds)).entry, Last(rounds).own, Run(cfg, p, rounds).entry, k, g);
    }
  }

  lemma LatestGrows(p: Pair, e: Entry, own: seq<VpclogsFlow>, e': Entry, k: string, g: VpclogsFlow)
    requires KnownFrom(p, e, own, e') && k in p.Both()
    requires forall f | f in own && f.flow.uuid == k :: Grows(f, g)
    requires k in e.Known() ==> Grows(e.Known()[k], g)
    ensures k in e'.Known() ==> Grows(e'.Known()[k], g)
  {
    var r := Latest(own, k);
    assert SameAt(Lookup(e'.Known(), k), Updated(e, own, k));
  }

  lemma FrontBelowLast(rounds: seq<RoundIn>, g: VpclogsFlow)
    requires GrowingLife(rounds) && rounds != [] && g in Last(rounds).own
    ensures forall r | r in Front(rounds) :: forall f | f in r.own && f.flow.uuid == g.flow.uuid :: Grows(f, g)
  {
    forall q, f | q in Front(rounds) && f in q.own && f.flow.uuid == g.flow.uuid ensures Grows(f, g) {
      var i :| 0 <= i < |rounds| - 1 && rounds[i] == q;
    }
  }

  lemma GrowsByLatest(p: Pair, e: Entry, own: seq<VpclogsFlow>, e': Entry, k: string)
    requires KnownFrom(p, e, own, e') && k in p.Both()
    requires k in e.Known() && Latest(own, k).Some? ==> Grows(e.Known()[k], Latest(own, k).value)
    ensures GrowsAt(Lookup(e.Known(), k), Lookup(e'.Known(), k))
  {
  }

  lemma GrowsOrStays(cfg: Config, p: Pair, rounds: seq<RoundIn>, k: string)
    requires ProperLife(cfg, p, rounds) && rounds != [] && GrowingLife(rounds) && k in p.Both()
    ensures GrowsAt(Lookup(Run(cfg, p, Front(rounds)).entry.Known(), k), Lookup(Run(cfg, p, rounds).entry.Known(), k))
  {
    var own := Last(rounds).own;
    var r := Latest(own, k);
    if r.Some? {
      FrontBelowLast(rounds, r.value);
      KnownGrows(cfg, p, Front(rounds), k, r.value);
    }
    RunFollows(cfg, p, rounds);
    GrowsByLatest(p, Run(cfg, p, Front(rounds)).entry, own, Run(cfg, p, rounds).entry, k);
  }

  // ----- no negative report, no window that ends before it starts

  /** Every Accept report adds non-negative counts. */
  predicate CountsForward(reports: seq<Option<VpclogsFlow>>) {
    forall r | r in reports && IsAccept(r) :: NO_COUNTS.AtMost(r.value.ext.delta)
  }

  predicate WindowsForward(reports: seq<Option<VpclogsFlow>>) {
    forall r | r in reports && IsAccept(r) :: r.value.lastUpdateMetric.start <= r.value.lastUpdateMetric.last
  }

  /** When the second capture point appears after a one-sided Reject, both counters have
      reached what that Reject reported. */
  predicate CaughtUp(p: Pair, e: Entry, e': Entry) {
    Joined(p, e') && !Joined(p, e) && e.metricReported.Some? ==>
      CountsOf(e.metricReported.value).AtMost(CountsOf(Confirmed(p, e')))
  }

  /** The end of a common window: the later time once both sides have terminated. */
  function CommonEnd(p: Pair, e: Entry): int
    requires Joined(p, e)
  {
    var s1, s2 := Side1(p, e), Side2(p, e);
    if s1.wasTerminated && s2.wasTerminated
    then Max(s1.flow.metric.last, s2.flow.metric.last) else Min(s1.flow.metric.last, s2.flow.metric.last)
  }

  /** The record whose key Go's map iteration yields first. */
  function Drawn(p: Pair, e: Entry, swap: bool): VpclogsFlow
    requires Joined(p, e)
  {
    if swap then Side2(p, e) else Side1(p, e)
  }

  /** The same for the time. The first common window starts where an earlier one-sided Reject
      ended or, without one, where the record drawn first says that the connection started. */
  predicate CaughtUpInTime(p: Pair, e: Entry, e': Entry, swap: bool) {
    Joined(p, e') && !Joined(p, e) ==>
      (if e.metricReported.Some? then e.metricReported.value.last else Drawn(p, e', swap).flow.metric.start)
      <= CommonEnd(p, e')
  }

  predicate LifeCaughtUp(cfg: Config, p: Pair, rounds: seq<RoundIn>)
    requires ProperLife(cfg, p, rounds)
  {
    rounds == [] ||
    (LifeCaughtUp(cfg, p, Front(rounds)) &&
     CaughtUp(p, Run(cfg, p, Front(rounds)).entry, Run(cfg, p, rounds).entry))
  }

  predicate LifeCaughtUpInTime(cfg: Config, p: Pair, rounds: seq<RoundIn>)
    requires ProperLife(cfg, p, rounds)
  {
    rounds == [] ||
    (LifeCaughtUpInTime(cfg, p, Front(rounds)) &&
     CaughtUpInTime(p, Run(cfg, p, Front(rounds)).entry, Run(cfg, p, rounds).entry, Last(rounds).swap))
  }

  /** The start of the connection in an Accept report. */
  predicate StartsAsDrawn(p: Pair, o: Outcome, swap: bool) {
    Joined(p, o.entry) && IsAccept(o.report) ==>
      o.report.value.metric.start == Drawn(p, o.entry, swap).flow.metric.start
  }

  lemma VerdictStarts(cfg: Config, p: Pair, c: Entry, now: int, swap: bool)
    requires ProperSetup(cfg, p) && Joined(p, c) && (c.flows == map[] ==> c.metricReported.Some?)
    ensures StartsAsDrawn(p, JoinedVerdict(cfg, p, c, now, swap), swap)
  {
    var o, f1, f2 := JoinedVerdict(cfg, p, c, now, swap), c.Known()[p.First(swap)], c.Known()[p.Second(swap)];
    assert o.entry.Known() == c.Known();
    assert IsAccept(o.report) ==> o.report == Some(AcceptResponse(c.metricReported, f1, f2));
  }

  lemma RoundStarts(cfg: Config, p: Pair, e: Entry, r: RoundIn)
    requires Startable(cfg, p, e, r.own)
    ensures StartsAsDrawn(p, Round(cfg, p, e, r.own, r.now, r.swap), r.swap)
  {
    var c := CollectAll(Reset(e), r.own);
    CollectReady(cfg, p, e, r.own);
    KnownKeys(cfg, p, c);
    if Joined(p, c) {
      VerdictStarts(cfg, p, c, r.now, r.swap);
    } else {
      assert !IsAccept(LoneVerdict(cfg, p, c, r.now).report);
    }
  }

  lemma RoundForward(p: Pair, e: Entry, now: int, timedOut: bool, o: Outcome, swap: bool)
    requires UpToDate(p, e) && UpToDate(p, o.entry) && Follows(p, e, now, timedOut, o)
    requires EntryGrows(p, e, o.entry) && CountedEntry(p, o.entry) && StartsAsDrawn(p, o, swap)
    ensures CountsForward([o.report]) <==> CaughtUp(p, e, o.entry)
    ensures WindowsForward([o.report]) <==> CaughtUpInTime(p, e, o.entry, swap)
  {
    assert o.report in [o.report];
  }

  /** With growing counters, every Accept report of a life is non-negative if and only if
      the second capture point had caught up when it appeared; likewise for the windows, which
      without an earlier Reject hinge on the start of the connection. */
  lemma {:induction false} ForwardIffCaughtUp(cfg: Config, p: Pair, rounds: seq<RoundIn>)
    requires ProperLife(cfg, p, rounds) && CountedLife(rounds) && GrowingLife(rounds)
    ensures CountsForward(Run(cfg, p, rounds).reports) <==> LifeCaughtUp(cfg, p, rounds)
    ensures WindowsForward(Run(cfg, p, rounds).reports) <==> LifeCaughtUpInTime(cfg, p, rounds)
  {
    if rounds != [] {
      ForwardIffCaughtUp(cfg, p, Front(rounds));
      RunFollows(cfg, p, rounds);
      LifeCounted(cfg, p, rounds);
      GrowsOrStays(cfg, p, rounds, p.u1);
      GrowsOrStays(cfg, p, rounds, p.u2);
      var l0, l, r := Run(cfg, p, Front(rounds)), Run(cfg, p, rounds), Last(rounds);
      var o := Outcome(l.entry, Last(l.reports));
      RoundStarts(cfg, p, l0.entry, r);
      RoundForward(p, l0.entry, r.now, TimedOut(cfg, l0.entry, r.now), o, r.swap);
      SplitForward(l0.reports, o.report);
    }
  }

  lemma SplitForward(reports: seq<Option<VpclogsFlow>>, r: Option<VpclogsFlow>)
    ensures CountsForward(reports + [r]) <==> CountsForward(reports) && CountsForward([r])
    ensures WindowsForward(reports + [r]) <==> WindowsForward(reports) && WindowsForward([r])
  {
    assert r in reports + [r];
    assert forall x | x in reports :: x in reports + [r];
  }

  function SampleRecord(uuid: string, tid: string, count: int): VpclogsFlow {
    var m := FlowMetric(count, count, 0, 0, 0, count, 0);
    VpclogsFlow(Flow(uuid, "x", tid, m, m), m, m, "TCP", Unset, false,
                Externalized(0, 0, 0, CountsOf(m), CountsOf(m), 6))
  }

  lemma LoneStart(cfg: Config, p: Pair, f1: VpclogsFlow, rounds: seq<RoundIn>)
    requires ProperSetup(cfg, p) && Proper(cfg, p, f1) && f1.flow.uuid == p.u1 && rounds == [RoundIn([f1], 0, false)]
    ensures
      var e := Run(cfg, p, rounds).entry;
      SameAt(Lookup(e.Known(), p.u1), Some(f1)) && p.u2 !in e.Known() && e.lastReportTime == 0
  {
    assert Front(rounds) == [] && [f1][..0] == [];
    assert Latest([f1], p.u1) == Some(f1) && Latest([f1], p.u2) == None;
    RunFollows(cfg, p, rounds);
  }

  lemma LoneReject(cfg: Config, p: Pair, f1: VpclogsFlow, now: int)
    requires ProperSetup(cfg, p) && Proper(cfg, p, f1) && f1.flow.uuid == p.u1 && now > cfg.rejectTimeout
    ensures
      var e := Run(cfg, p, [RoundIn([f1], 0, false), RoundIn([], now, false)]).entry;
      && e.metricReported == Some(f1.flow.metric)
      && SameAt(Lookup(e.Known(), p.u1), Some(f1)) && p.u2 !in e.Known()
  {
    var rounds := [RoundIn([f1], 0, false), RoundIn([], now, false)];
    assert Front(rounds) == [RoundIn([f1], 0, false)];
    LoneStart(cfg, p, f1, Front(rounds));
    RunFollows(cfg, p, rounds);
    var e, l := Run(cfg, p, Front(rounds)).entry, Run(cfg, p, rounds);
    StaysAlone(cfg, p, e, l.entry, f1);
    LoneReport(cfg, p, e, now, Outcome(l.entry, Last(l.reports)), f1);
  }

  lemma LoneReport(cfg: Config, p: Pair, e: Entry, now: int, o: Outcome, f1: VpclogsFlow)
    requires Follows(p, e, now, true, o) && !Joined(p, o.entry) && e.Known() != map[] && Settled(cfg, p, o.entry)
    requires SameAt(Lookup(o.entry.Known(), p.u1), Some(f1)) && p.u2 !in o.entry.Known()
    ensures o.entry.metricReported == Some(f1.flow.metric)
  {
    assert FRESH.Known() == map[];
  }

  lemma StaysAlone(cfg: Config, p: Pair, e: Entry, e': Entry, f1: VpclogsFlow)
    requires KnownFrom(p, e, [], e') && ProperSetup(cfg, p) && Settled(cfg, p, e')
    requires SameAt(Lookup(e.Known(), p.u1), Some(f1)) && p.u2 !in e.Known()
    ensures SameAt(Lookup(e'.Known(), p.u1), Some(f1)) && p.u2 !in e'.Known() && !Joined(p, e')
  {
    assert Latest([], p.u1) == None && Latest([], p.u2) == None;
    JoinedByKeys(cfg, p, e');
  }

  lemma BehindIsNegative(p: Pair, e: Entry, now: int, timedOut: bool, o: Outcome)
    requires Follows(p, e, now, timedOut, o) && UpToDate(p, o.entry) && !CaughtUp(p, e, o.entry)
    ensures IsAccept(o.report) && !NO_COUNTS.AtMost(o.report.value.ext.delta)
  {
  }

  lemma BehindIsBackward(p: Pair, e: Entry, now: int, timedOut: bool, o: Outcome, swap: bool)
    requires Follows(p, e, now, timedOut, o) && UpToDate(p, o.entry) && StartsAsDrawn(p, o, swap)
    requires !CaughtUpInTime(p, e, o.entry, swap)
    ensures IsAccept(o.report) && o.report.value.lastUpdateMetric.last < o.report.value.lastUpdateMetric.start
  {
  }

  function LateJoin(f1: VpclogsFlow, f2: VpclogsFlow, now: int): seq<RoundIn> {
    [RoundIn([f1], 0, false), RoundIn([], now, false), RoundIn([f2], now, false)]
  }

  lemma LateJoinProper(cfg: Config, p: Pair, f1: VpclogsFlow, f2: VpclogsFlow, now: int)
    requires ProperSetup(cfg, p) && Proper(cfg, p, f1) && f1.flow.uuid == p.u1 && Proper(cfg, p, f2)
      && f2.flow.uuid == p.u2
    ensures ProperLife(cfg, p, LateJoin(f1, f2, now)) && GrowingLife(LateJoin(f1, f2, now))
    ensures Front(LateJoin(f1, f2, now)) == [RoundIn([f1], 0, false), RoundIn([], now, false)]
  {
  }

  lemma JoinsBy(cfg: Config, p: Pair, e: Entry, g: VpclogsFlow, e': Entry)
    requires KnownFrom(p, e, [g], e') && ProperSetup(cfg, p) && Settled(cfg, p, e') && g.flow.uuid == p.u2
    requires p.u1 in e.Known() && p.u2 !in e.Known()
    ensures Joined(p, e') && !Joined(p, e) && Same(Side2(p, e'), g)
    ensures Confirmed(p, e').abBytes <= g.flow.metric.abBytes && Confirmed(p, e').last <= g.flow.metric.last
  {
    assert [g][..0] == [];
    assert Latest([g], p.u2) == Some(g) && Latest([g], p.u1) == None;
    JoinedByKeys(cfg, p, e');
    assert p.u2 in p.Both();
  }

  /** In every life, growing or not, a second capture point that joins behind an earlier Reject
      makes a negative report. */
  lemma NegativeJoin(cfg: Config, p: Pair, rounds: seq<RoundIn>)
    requires ProperLife(cfg, p, rounds) && rounds != []
    requires !CaughtUp(p, Run(cfg, p, Front(rounds)).entry, Run(cfg, p, rounds).entry)
    ensures !CountsForward(Run(cfg, p, rounds).reports)
  {
    RunFollows(cfg, p, rounds);
    var e, l, now := Run(cfg, p, Front(rounds)).entry, Run(cfg, p, rounds), Last(rounds).now;
    BehindIsNegative(p, e, now, TimedOut(cfg, e, now), Outcome(l.entry, Last(l.reports)));
    assert Last(l.reports) in l.reports;
  }

  /** And one that joins behind in time makes a window that ends before it starts. */
  lemma BackwardJoin(cfg: Config, p: Pair, rounds: seq<RoundIn>)
    requires ProperLife(cfg, p, rounds) && rounds != []
    requires !CaughtUpInTime(p, Run(cfg, p, Front(rounds)).entry, Run(cfg, p, rounds).entry, Last(rounds).swap)
    ensures !WindowsForward(Run(cfg, p, rounds).reports)
  {
    RunFollows(cfg, p, rounds);
    var e, l, r := Run(cfg, p, Front(rounds)).entry, Run(cfg, p, rounds), Last(rounds);
    RoundStarts(cfg, p, e, r);
    BehindIsBackward(p, e, r.now, TimedOut(cfg, e, r.now), Outcome(l.entry, Last(l.reports)), r.swap);
    assert Last(l.reports) in l.reports;
  }

  /** The conditions do fail: a flow is rejected with what the first capture point has; when the
      other one turns up having counted less, the next Accept is negative, and when it turns up
      with an earlier time, its window ends before it starts. */
  lemma RejectThenBehind(cfg: Config, p: Pair, f1: VpclogsFlow, f2: VpclogsFlow, now: int)
    requires ProperSetup(cfg, p) && Proper(cfg, p, f1) && f1.flow.uuid == p.u1 && now > cfg.rejectTimeout
    requires Proper(cfg, p, f2) && f2.flow.uuid == p.u2
    ensures
      var rounds := LateJoin(f1, f2, now);
      && ProperLife(cfg, p, rounds) && GrowingLife(rounds)
      && (f2.flow.metric.abBytes < f1.flow.metric.abBytes ==> !CountsForward(Run(cfg, p, rounds).reports))
      && (f2.flow.metric.last < f1.flow.metric.last && !f2.wasTerminated ==>
          !WindowsForward(Run(cfg, p, rounds).reports))
  {
    LateJoinProper(cfg, p, f1, f2, now);
    LoneReject(cfg, p, f1, now);
    var rounds := LateJoin(f1, f2, now);
    var e, e' := Run(cfg, p, Front(rounds)).entry, Run(cfg, p, rounds).entry;
    RunFollows(cfg, p, rounds);
    JoinsBy(cfg, p, e, f2, e');
    if f2.flow.metric.abBytes < f1.flow.metric.abBytes {
      NegativeJoin(cfg, p, rounds);
    }
    if f2.flow.metric.last < f1.flow.metric.last && !f2.wasTerminated {
      BackwardJoin(cfg, p, rounds);
    }
  }

  lemma SampleInputs(cfg: Config, p: Pair, f1: VpclogsFlow, f2: VpclogsFlow)
    requires cfg == Config("1", "2", 5) && p == Pair("a", "b")
    requires f1 == SampleRecord("a", "1", 10) && f2 == SampleRecord("b", "2", 4)
    ensures ProperSetup(cfg, p) && Proper(cfg, p, f1) && Proper(cfg, p, f2) && Counted(f1) && Counted(f2)
    ensures f1.flow.uuid == p.u1 && f2.flow.uuid == p.u2
  {
    assert "1"[0] != "2"[0] && "a"[0] != "b"[0];
  }

  /** On concrete numbers: ten packets up to time ten are rejected, then four up to time four
      turn up on the other side. */
  lemma RejectTenConfirmFour() returns (cfg: Config, p: Pair, rounds: seq<RoundIn>)
    ensures ProperLife(cfg, p, rounds) && CountedLife(rounds) && GrowingLife(rounds)
    ensures !CountsForward(Run(cfg, p, rounds).reports) && !WindowsForward(Run(cfg, p, rounds).reports)
  {
    cfg, p := Config("1", "2", 5), Pair("a", "b");
    var f1, f2, now := SampleRecord("a", "1", 10), SampleRecord("b", "2", 4), 100;
    SampleInputs(cfg, p, f1, f2);
    rounds := LateJoin(f1, f2, now);
    assert CountedLife(rounds);
    RejectThenBehind(cfg, p, f1, f2, now);
  }

  /** The latest end of an accepted window. */
  function AcceptedUntil(reports: seq<Option<VpclogsFlow>>): Option<int> {
    if reports == [] then None
    else if IsAccept(Last(reports)) then Some(Last(reports).value.lastUpdateMetric.last)
    else AcceptedUntil(Front(reports))
  }

  lemma {:induction false} ReportedUntil(cfg: Config, p: Pair, rounds: seq<RoundIn>)
    requires ProperLife(cfg, p, rounds)
    ensures
      var l := Run(cfg, p, rounds);
      AcceptedUntil(l.reports).Some? ==>
        Joined(p, l.entry) && l.entry.metricReported.Some? &&
        l.entry.metricReported.value.last == AcceptedUntil(l.reports).value
  {
    if rounds != [] {
      ReportedUntil(cfg, p, Front(rounds));
      RunFollows(cfg, p, rounds);
      assert Front(Run(cfg, p, rounds).reports) == Run(cfg, p, Front(rounds)).reports;
    }
  }

  /** The windows of the Accept reports of a life tile time: each starts where the one
      before it ended, whatever Rejects for a timeout lie in between. */
  lemma WindowsTile(cfg: Config, p: Pair, rounds: seq<RoundIn>)
    requires ProperLife(cfg, p, rounds) && rounds != []
    ensures
      var before, now := AcceptedUntil(Run(cfg, p, Front(rounds)).reports), Last(Run(cfg, p, rounds).reports);
      IsAccept(now) && before.Some? ==> now.value.lastUpdateMetric.start == before.value
  {
    ReportedUntil(cfg, p, Front(rounds));
    RunFollows(cfg, p, rounds);
  }

  // ----- when one-sided flows are rejected

  /** The clock of one-sided Rejects: which rounds reject, and the time they count from. */
  datatype Alarm = Alarm(rings: seq<bool>, since: int)

  function Alarms(timeout: int, times: seq<int>): (a: Alarm)
    ensures |a.rings| == |times|
  {
    if times == [] then Alarm([], 0)
    else
      var a, now := Alarms(timeout, Front(times)), Last(times);
      var ring := |times| > 1 && now > a.since + timeout;
      Alarm(a.rings + [ring], if ring || |times| == 1 then now else a.since)
  }

  function Times(rounds: seq<RoundIn>): (t: seq<int>)
    ensures |t| == |rounds|
  {
    if rounds == [] then [] else Times(Front(rounds)) + [Last(rounds).now]
  }

  predicate RejectsAt(reports: seq<Option<VpclogsFlow>>, rings: seq<bool>) {
    && |reports| == |rings|
    && forall i | 0 <= i < |rings| :: (reports[i].Some? <==> rings[i]) && (rings[i] ==> IsReject(reports[i]))
  }

  lemma AloneStep(cfg: Config, p: Pair, rounds: seq<RoundIn>)
    requires ProperLife(cfg, p, rounds) && rounds != []
    ensures
      var l0, l, now := Run(cfg, p, Front(rounds)), Run(cfg, p, rounds), Last(rounds).now;
      var first := |rounds| == 1;
      !Joined(p, l.entry) ==>
        && !Joined(p, l0.entry)
        && l.reports == l0.reports + [Last(l.reports)]
        && (Last(l.reports).Some? <==> !first && now > l0.entry.lastReportTime + cfg.rejectTimeout)
        && (Last(l.reports).Some? ==> IsReject(Last(l.reports)))
        && l.entry.lastReportTime == (if Last(l.reports).Some? || first then now else l0.entry.lastReportTime)
  {
    RunFollows(cfg, p, rounds);
    var l0 := Run(cfg, p, Front(rounds));
    assert l0.entry.Known() != map[] ==> l0.entry != FRESH by {
      assert FRESH.Known() == map[];
    }
  }

  lemma RejectsExtend(reports: seq<Option<VpclogsFlow>>, rings: seq<bool>, r: Option<VpclogsFlow>, ring: bool)
    requires RejectsAt(reports, rings) && (r.Some? <==> ring) && (ring ==> IsReject(r))
    ensures RejectsAt(reports + [r], rings + [ring])
  {
  }

  /** While one capture point is known, the rounds that report are those at which the alarm
      rings; which rounds bring a record plays no part. Every such report is a Reject. */
  lemma {:induction false} AloneRejectsAtAlarms(cfg: Config, p: Pair, rounds: seq<RoundIn>)
    requires ProperLife(cfg, p, rounds)
    ensures
      var l, a := Run(cfg, p, rounds), Alarms(cfg.rejectTimeout, Times(rounds));
      !Joined(p, l.entry) ==>
        RejectsAt(l.reports, a.rings) && (rounds != [] ==> l.entry.lastReportTime == a.since)
  {
    if rounds != [] && !Joined(p, Run(cfg, p, rounds).entry) {
      AloneStep(cfg, p, rounds);
      AloneRejectsAtAlarms(cfg, p, Front(rounds));
      assert Front(Times(rounds)) == Times(Front(rounds));
      var a0, a := Alarms(cfg.rejectTimeout, Times(Front(rounds))), Alarms(cfg.rejectTimeout, Times(rounds));
      RejectsExtend(Run(cfg, p, Front(rounds)).reports, a0.rings, Last(Run(cfg, p, rounds).reports), Last(a.rings));
      assert a.rings == a0.rings + [Last(a.rings)];
    }
  }

  /** Alarms are more than a timeout apart, and more than a timeout after the first round. */
  lemma {:induction false} AlarmsApart(timeout: int, times: seq<int>)
    requires timeout >= 0 && forall i, j | 0 <= i < j < |times| :: times[i] <= times[j]
    ensures
      var a := Alarms(timeout, times);
      && (times != [] ==> times[0] <= a.since)
      && (forall i | 0 <= i < |times| :: a.rings[i] || i == 0 ==> times[i] <= a.since)
      && forall i, j | 0 <= i < j < |times| :: (a.rings[i] || i == 0) && a.rings[j] ==> times[j] > times[i] + timeout
  {
    if times != [] {
      AlarmsApart(timeout, Front(times));
      var a0, a := Alarms(timeout, Front(times)), Alarms(timeout, times);
      assert forall i | 0 <= i < |times| - 1 :: a.rings[i] == a0.rings[i] && times[i] == Front(times)[i];
    }
  }
}
