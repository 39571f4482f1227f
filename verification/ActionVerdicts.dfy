/** What the Accept/Reject engine reports in a round, said of the records and the earlier report
    alone: which verdict, when, and with which fields. */
module ActionVerdicts {
  import opened Wrappers
  import opened VpcFlow
  import opened ActionSpec
  import opened ActionRounds
  import opened ActionAccounting

  // ----- which records a round looks at

  /** The records of a tracking ID are those of a batch that carry it and come from either capture
      point, all of them and in order. */
  lemma {:induction false} OwnIsPicked(cfg: Config, fl: seq<VpclogsFlow>, id: string) returns (at: seq<nat>)
    ensures Increasing(at, |fl|) && |at| == |Own(cfg, fl, id)|
    ensures forall j | 0 <= j < |at| :: Own(cfg, fl, id)[j] == fl[at[j]]
    ensures forall i: nat | i < |fl| ::
      i in at <==> fl[i].flow.l3TrackingID == id && (fl[i].flow.nodeTID == cfg.tid1 || fl[i].flow.nodeTID == cfg.tid2)
  {
    at := [];
    if fl != [] {
      var f := Last(fl);
      at := OwnIsPicked(cfg, Front(fl), id);
      var picked := f.flow.l3TrackingID == id && (f.flow.nodeTID == cfg.tid1 || f.flow.nodeTID == cfg.tid2);
      at := PickNext(at, |fl| - 1, picked);
    }
  }

  /** Of the records of a UUID in a round the one with the latest update time counts, the first of
      those that share it. */
  lemma {:induction false} LatestIsFirstOfLatest(own: seq<VpclogsFlow>, k: string) returns (i: nat)
    ensures Latest(own, k).None? <==> forall j | 0 <= j < |own| :: own[j].flow.uuid != k
    ensures Latest(own, k).Some? ==>
      && i < |own| && own[i] == Latest(own, k).value && own[i].flow.uuid == k
      && forall j | 0 <= j < |own| && own[j].flow.uuid == k ::
        var last, last' := own[j].flow.lastUpdateMetric.last, own[i].flow.lastUpdateMetric.last;
        if j < i then last < last' else last <= last'
  {
    i := 0;
    if own != [] {
      var front, n := Front(own), |own| - 1;
      i := LatestIsFirstOfLatest(front, k);
      assert forall j | 0 <= j < n :: own[j] == front[j];
      var r := Latest(front, k);
      if own[n].flow.uuid == k &&
         (r.None? || own[n].flow.lastUpdateMetric.last > r.value.flow.lastUpdateMetric.last)
      {
        i := n;
      }
    }
  }

  // ----- the combined metric and the gap

  predicate IsLesser(x: int, a: int, b: int) {
    x <= a && x <= b && (x == a || x == b)
  }

  /** Every count of `m` is the lesser of those of both sides. */
  predicate LesserCounts(m: FlowMetric, a: FlowMetric, b: FlowMetric) {
    && IsLesser(m.abPackets, a.abPackets, b.abPackets) && IsLesser(m.abBytes, a.abBytes, b.abBytes)
    && IsLesser(m.baPackets, a.baPackets, b.baPackets) && IsLesser(m.baBytes, a.baBytes, b.baBytes)
  }

  /** The counts are what both sides have, and the start that of the record drawn first. */
  predicate CountsAgree(m: FlowMetric, first: VpclogsFlow, other: VpclogsFlow) {
    LesserCounts(m, first.flow.metric, other.flow.metric) && m.start == first.flow.metric.start && m.rtt == 0
  }

  predicate AgreesWith(m: FlowMetric, first: VpclogsFlow, other: VpclogsFlow) {
    CountsAgree(m, first, other) && IsLesser(m.last, first.flow.metric.last, other.flow.metric.last)
  }

  lemma AgreesIff(m: FlowMetric, first: VpclogsFlow, other: VpclogsFlow)
    ensures AgreesWith(m, first, other) <==> m == CombinedMetric(first.flow.metric, other.flow.metric)
  {
  }

  /** What is confirmed is, in every count and in its end, the lesser of both sides; what an Accept
      without an earlier report counts is the lesser of the latest updates. */
  lemma ConfirmedIsLesser(p: Pair, e: Entry)
    requires Joined(p, e)
    ensures
      var s1, s2 := Side1(p, e).flow, Side2(p, e).flow;
      var c, u := Confirmed(p, e), CombinedMetric(s1.lastUpdateMetric, s2.lastUpdateMetric);
      && LesserCounts(c, s1.metric, s2.metric) && IsLesser(c.last, s1.metric.last, s2.metric.last)
      && LesserCounts(u, s1.lastUpdateMetric, s2.lastUpdateMetric)
      && Owed(p, None, e).Plus(CountsOf(u)) == CountsOf(c)
  {
  }

  /** The latest updates of both sides are more than the timeout apart, in whole seconds. */
  predicate FarApart(timeout: int, f: VpclogsFlow, g: VpclogsFlow) {
    var d := f.flow.lastUpdateMetric.last - g.flow.lastUpdateMetric.last;
    d >= 1000 * (timeout + 1) || -d >= 1000 * (timeout + 1)
  }

  lemma GapIff(cfg: Config, f: VpclogsFlow, g: VpclogsFlow)
    ensures ExceedsTimeout(cfg, f, g) <==> FarApart(cfg.rejectTimeout, f, g)
  {
    var d := f.flow.lastUpdateMetric.last - g.flow.lastUpdateMetric.last;
    var q := TruncDiv(d, 1000);
  }

  /** Two records are combined if and only if they come from the two capture points, in whatever
      order; otherwise the first is rejected and the entry stays as it is. */
  lemma WrongPointsReject(cfg: Config, e: Entry, k1: string, k2: string, now: int)
    requires k1 in e.flows && k2 in e.flows
    ensures
      var t1, t2 := e.flows[k1].flow.nodeTID, e.flows[k2].flow.nodeTID;
      var o := Combine(cfg, e, k1, k2, now);
      !((t1 == cfg.tid1 && t2 == cfg.tid2) || (t1 == cfg.tid2 && t2 == cfg.tid1)) ==>
        o.entry == e && IsReject(o.report) && Same(o.report.value, e.flows[k1])
  {
  }

  // ----- the fields of a report

  /** The fields that are written out follow from the two metrics of the report. */
  predicate Externalizes(v: VpclogsFlow) {
    var x, u, m := v.ext, v.lastUpdateMetric, v.metric;
    && IsSeconds(x.startSecs, u.start) && IsSeconds(x.endSecs, u.last) && IsSeconds(x.connectionStartSecs, m.start)
    && x.cumulative == FlowCounts(m.abBytes, m.abPackets, m.baBytes, m.baPackets)
    && x.delta == FlowCounts(u.abBytes, u.abPackets, u.baBytes, u.baPackets)
    && (v.protocol == "TCP" ==> x.transportProtocol == 6)
    && (v.protocol == "UDP" ==> x.transportProtocol == 17)
    && (v.protocol == "ICMP" ==> x.transportProtocol == 1)
  }

  /** Whole seconds of a time in milliseconds, without the fraction. */
  predicate IsSeconds(secs: int, ms: int) {
    if ms >= 0 then secs * 1000 <= ms < secs * 1000 + 1000 else secs * 1000 - 1000 < ms <= secs * 1000
  }

  lemma DerivedExternalizes(v: VpclogsFlow)
    ensures Externalizes(v.DeriveExternalizedFields())
    ensures v.DeriveExternalizedFields() == v.(ext := v.DeriveExternalizedFields().ext)
  {
    var d := v.DeriveExternalizedFields();
    assert "TCP"[0] == 'T' && "UDP"[0] == 'U' && "ICMP"[0] == 'I';
  }

  /** An Accept is a copy of the record drawn first, with what both sides have. */
  predicate IsAcceptOf(v: VpclogsFlow, first: VpclogsFlow, other: VpclogsFlow) {
    && v.action == Accept && Same(v, first) && Externalizes(v)
    && CountsAgree(v.metric, first, other)
    && (if first.wasTerminated && other.wasTerminated
        then v.metric.last >= first.flow.metric.last && v.metric.last >= other.flow.metric.last
             && (v.metric.last == first.flow.metric.last || v.metric.last == other.flow.metric.last)
        else IsLesser(v.metric.last, first.flow.metric.last, other.flow.metric.last))
  }

  /** A Reject for a timeout repeats the reported metric and counts nothing. */
  predicate IsTimeoutOf(v: VpclogsFlow, first: VpclogsFlow, reported: FlowMetric) {
    && v.action == Reject && Same(v, first) && v.metric == reported && Externalizes(v)
    && v.lastUpdateMetric == FlowMetric(0, 0, 0, 0, reported.start, reported.last, 0)
  }

  lemma AcceptIsOf(reported: Option<FlowMetric>, f1: VpclogsFlow, f2: VpclogsFlow)
    ensures IsAcceptOf(AcceptResponse(reported, f1, f2), f1, f2)
  {
    var m := AcceptedMetric(f1, f2);
    DerivedExternalizes(f1.(metric := m, lastUpdateMetric := Increment(reported, m, f1, f2)).SetAction(Accept));
  }

  lemma TimeoutIsOf(reported: FlowMetric, f1: VpclogsFlow)
    ensures IsTimeoutOf(TimeoutResponse(reported, f1), f1, reported)
  {
    var u := ZERO_METRIC.(start := reported.start, last := reported.last);
    DerivedExternalizes(f1.(lastUpdateMetric := u, metric := reported).SetAction(Reject));
  }

  // ----- the verdict of a round that knows both sides

  function Other(p: Pair, e: Entry, swap: bool): VpclogsFlow
    requires Joined(p, e)
  {
    if swap then Side1(p, e) else Side2(p, e)
  }

  /** A round with records accepts if and only if both sides together have something that is not
      reported yet. Otherwise it rejects if and only if they are too far apart, and is silent if
      they are not. */
  predicate Decides(timeout: int, p: Pair, before: Option<FlowMetric>, brings: bool, swap: bool, o: Outcome)
    requires Joined(p, o.entry)
  {
    var first, other := Drawn(p, o.entry, swap), Other(p, o.entry, swap);
    var news := brings && (before.None? || !AgreesWith(before.value, first, other));
    && (IsAccept(o.report) <==> news)
    && (IsReject(o.report) <==> !news && FarApart(timeout, first, other))
    && (o.report.Some? ==> IsAccept(o.report) || IsReject(o.report))
    && (IsAccept(o.report) ==> IsAcceptOf(o.report.value, first, other))
    && (IsReject(o.report) ==> before.Some? && IsTimeoutOf(o.report.value, first, before.value))
  }

  lemma AcceptDecides(timeout: int, p: Pair, c: Entry, now: int, swap: bool)
    requires Joined(p, c)
    requires c.metricReported.None? || !AgreesWith(c.metricReported.value, Drawn(p, c, swap), Other(p, c, swap))
    ensures
      var o := AcceptBoth(c, Drawn(p, c, swap), Other(p, c, swap), now);
      Joined(p, o.entry) && Decides(timeout, p, c.metricReported, true, swap, o)
  {
    AcceptIsOf(c.metricReported, Drawn(p, c, swap), Other(p, c, swap));
    assert AcceptBoth(c, Drawn(p, c, swap), Other(p, c, swap), now).entry.Known() == c.Known();
  }

  /** Nothing new: the gap decides between a Reject and silence. */
  lemma OldDecides(timeout: int, p: Pair, c: Entry, brings: bool, swap: bool, o: Outcome)
    requires Joined(p, c) && o.entry.Known() == c.Known() && c.metricReported.Some?
    requires brings ==> AgreesWith(c.metricReported.value, Drawn(p, c, swap), Other(p, c, swap))
    requires o.report == if FarApart(timeout, Drawn(p, c, swap), Other(p, c, swap))
                         then Some(TimeoutResponse(c.metricReported.value, Drawn(p, c, swap))) else None
    ensures Joined(p, o.entry) && Decides(timeout, p, c.metricReported, brings, swap, o)
  {
    TimeoutIsOf(c.metricReported.value, Drawn(p, c, swap));
  }

  lemma CombineDecides(cfg: Config, p: Pair, c: Entry, now: int, swap: bool)
    requires ProperSetup(cfg, p) && Sane(cfg, p, c) && Joined(p, c) && c.flows == c.Known()
    ensures
      var o := Combine(cfg, c, p.First(swap), p.Second(swap), now);
      Joined(p, o.entry) && Decides(cfg.rejectTimeout, p, c.metricReported, true, swap, o)
  {
    var f1, f2 := Drawn(p, c, swap), Other(p, c, swap);
    RightTids(cfg, p, c, swap);
    if c.metricReported == Some(CombinedMetric(f1.flow.metric, f2.flow.metric)) {
      AgreesIff(c.metricReported.value, f1, f2);
      GapIff(cfg, f1, f2);
      var o := Combine(cfg, c, p.First(swap), p.Second(swap), now);
      assert o.entry.Known() == c.Known();
      OldDecides(cfg.rejectTimeout, p, c, true, swap, o);
    } else {
      if c.metricReported.Some? { AgreesIff(c.metricReported.value, f1, f2); }
      AcceptDecides(cfg.rejectTimeout, p, c, now, swap);
    }
  }

  lemma GapDecides(cfg: Config, p: Pair, c: Entry, now: int, swap: bool)
    requires Joined(p, c) && c.flows == map[] && c.metricReported.Some?
    ensures
      var o := JoinedVerdict(cfg, p, c, now, swap);
      Joined(p, o.entry) && Decides(cfg.rejectTimeout, p, c.metricReported, false, swap, o)
  {
    var o := JoinedVerdict(cfg, p, c, now, swap);
    assert o.entry.Known() == c.Known();
    GapIff(cfg, Drawn(p, c, swap), Other(p, c, swap));
    OldDecides(cfg.rejectTimeout, p, c, false, swap, o);
  }

  lemma RoundDecides(cfg: Config, p: Pair, e: Entry, r: RoundIn)
    requires Startable(cfg, p, e, r.own)
    ensures
      var o := Round(cfg, p, e, r.own, r.now, r.swap);
      Joined(p, o.entry) ==> Decides(cfg.rejectTimeout, p, e.metricReported, r.own != [], r.swap, o)
  {
    var c := CollectAll(Reset(e), r.own);
    CollectReady(cfg, p, e, r.own);
    KnownKeys(cfg, p, c);
    if Joined(p, c) {
      JoinedDecides(cfg, p, c, r.own != [], r.now, r.swap);
    } else {
      RoundIsDispatch(cfg, p, e, r.own, r.now, r.swap);
    }
  }

  lemma JoinedDecides(cfg: Config, p: Pair, c: Entry, brings: bool, now: int, swap: bool)
    requires ProperSetup(cfg, p) && Sane(cfg, p, c) && Joined(p, c) && (c.flows == map[] ==> c.metricReported.Some?)
    requires brings <==> c.flows != map[]
    ensures
      var o := JoinedVerdict(cfg, p, c, now, swap);
      Joined(p, o.entry) && Decides(cfg.rejectTimeout, p, c.metricReported, brings, swap, o)
  {
    if brings {
      var c' := c.(flows := c.Known());
      assert c'.Known() == c.Known();
      CombineDecides(cfg, p, c', now, swap);
    } else {
      GapDecides(cfg, p, c, now, swap);
    }
  }

  /** So does every round of every life that knows both sides. */
  lemma RunDecides(cfg: Config, p: Pair, rounds: seq<RoundIn>)
    requires ProperLife(cfg, p, rounds) && rounds != []
    ensures
      var l0, l, r := Run(cfg, p, Front(rounds)), Run(cfg, p, rounds), Last(rounds);
      Joined(p, l.entry) ==>
        Decides(cfg.rejectTimeout, p, l0.entry.metricReported, r.own != [], r.swap, Outcome(l.entry, Last(l.reports)))
  {
    assert Startable(cfg, p, Run(cfg, p, Front(rounds)).entry, Last(rounds).own);
    RoundDecides(cfg, p, Run(cfg, p, Front(rounds)).entry, Last(rounds));
  }

  // ----- what the entry remembers of the reports

  /** The latest report of a life. */
  function LastReport(reports: seq<Option<VpclogsFlow>>): Option<VpclogsFlow> {
    if reports == [] then None else if Last(reports).Some? then Last(reports) else LastReport(Front(reports))
  }

  predicate Remembers(before: Option<VpclogsFlow>, o: Outcome) {
    o.entry.flowReported == if o.report.Some? then o.report else before
  }

  lemma VerdictRemembers(cfg: Config, p: Pair, c: Entry, now: int, swap: bool)
    requires ProperSetup(cfg, p) && Sane(cfg, p, c) && Joined(p, c) && (c.flows == map[] ==> c.metricReported.Some?)
    ensures Remembers(c.flowReported, JoinedVerdict(cfg, p, c, now, swap))
  {
    var c' := c.(flows := c.Known());
    if c.flows != map[] { RightTids(cfg, p, c', swap); }
  }

  lemma LoneRemembers(cfg: Config, p: Pair, c: Entry, now: int)
    requires LoneKey(p, c) in c.Known()
    ensures Remembers(c.flowReported, LoneVerdict(cfg, p, c, now))
  {
  }

  lemma RoundRemembers(cfg: Config, p: Pair, e: Entry, r: RoundIn)
    requires Startable(cfg, p, e, r.own)
    ensures Remembers(e.flowReported, Round(cfg, p, e, r.own, r.now, r.swap))
  {
    var c := CollectAll(Reset(e), r.own);
    CollectReady(cfg, p, e, r.own);
    KnownKeys(cfg, p, c);
    if Joined(p, c) {
      VerdictRemembers(cfg, p, c, r.now, r.swap);
    } else {
      LoneRemembers(cfg, p, c, r.now);
    }
  }

  lemma {:induction false} RunRemembers(cfg: Config, p: Pair, rounds: seq<RoundIn>)
    requires ProperLife(cfg, p, rounds)
    ensures Run(cfg, p, rounds).entry.flowReported == LastReport(Run(cfg, p, rounds).reports)
  {
    if rounds != [] {
      var l0, l, r := Run(cfg, p, Front(rounds)), Run(cfg, p, rounds), Last(rounds);
      RunRemembers(cfg, p, Front(rounds));
      assert Startable(cfg, p, l0.entry, r.own);
      RoundRemembers(cfg, p, l0.entry, r);
      assert Front(l.reports) == l0.reports;
    }
  }
}
