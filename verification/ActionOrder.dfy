/** The iteration order of Go maps and the verdicts of the Accept/Reject engine. */
module ActionOrder {
  import opened Wrappers
  import opened VpcFlow
  import opened ActionSpec
  import opened ActionRounds

  /** What a report says apart from which of the two records it was copied from. */
  datatype View = View(action: Verdict, metric: FlowMetric, lastUpdateMetric: FlowMetric)

  function ViewOf(r: Option<VpclogsFlow>): Option<View> {
    match r
    case None => None
    case Some(v) => Some(View(v.action, v.metric, v.lastUpdateMetric))
  }

  /** Entries that differ at most in the copied record of the last report. */
  predicate Alike(e: Entry, e': Entry) {
    && e.flows == e'.flows && e.flowsPrev == e'.flowsPrev
    && e.metricReported == e'.metricReported && e.lastReportTime == e'.lastReportTime
    && e.flowReported.Some? == e'.flowReported.Some?
    && (e.flowReported.Some? ==>
          && e.flowReported.value.action == e'.flowReported.value.action
          && e.flowReported.value.wasTerminated == e'.flowReported.value.wasTerminated)
  }

  predicate SameStart(p: Pair, e: Entry) {
    Joined(p, e) ==> Side1(p, e).flow.metric.start == Side2(p, e).flow.metric.start
  }

  predicate SameTermination(p: Pair, e: Entry) {
    Joined(p, e) ==> Side1(p, e).wasTerminated == Side2(p, e).wasTerminated
  }

  lemma CombineViews(cfg: Config, e: Entry, e': Entry, k1: string, k2: string, l1: string, l2: string, now: int)
    requires Alike(e, e') && k1 in e.flows && k2 in e.flows
    requires (l1, l2) == (k1, k2) || (l1, l2) == (k2, k1)
    requires TidsOk(cfg, e.flows[k1], e.flows[k2]) && TidsOk(cfg, e.flows[k2], e.flows[k1])
    requires e.flows[k1].flow.metric.start == e.flows[k2].flow.metric.start
    ensures
      var o, o' := Combine(cfg, e, k1, k2, now), Combine(cfg, e', l1, l2, now);
      && ViewOf(o.report) == ViewOf(o'.report)
      && (e.flows[k1].wasTerminated == e.flows[k2].wasTerminated ==> Alike(o.entry, o'.entry))
  {
    var f1, f2 := e.flows[k1], e.flows[k2];
    assert CombinedMetric(f1.flow.metric, f2.flow.metric) == CombinedMetric(f2.flow.metric, f1.flow.metric);
    assert ExceedsTimeout(cfg, f1, f2) == ExceedsTimeout(cfg, f2, f1);
    if e.metricReported != Some(CombinedMetric(f1.flow.metric, f2.flow.metric)) {
      AcceptViews(e, e', f1, f2, e'.flows[l1], e'.flows[l2], now);
    }
  }

  lemma AcceptViews(e: Entry, e': Entry, f1: VpclogsFlow, f2: VpclogsFlow, g1: VpclogsFlow, g2: VpclogsFlow, now: int)
    requires Alike(e, e') && ((g1, g2) == (f1, f2) || (g1, g2) == (f2, f1))
      && f1.flow.metric.start == f2.flow.metric.start
    ensures
      var o, o' := AcceptBoth(e, f1, f2, now), AcceptBoth(e', g1, g2, now);
      && ViewOf(o.report) == ViewOf(o'.report)
      && (f1.wasTerminated == f2.wasTerminated ==> Alike(o.entry, o'.entry))
  {
    assert AcceptedMetric(f1, f2) == AcceptedMetric(f2, f1);
  }

  lemma BothTidsOk(cfg: Config, p: Pair, c: Entry)
    requires ProperSetup(cfg, p) && Sane(cfg, p, c) && Joined(p, c)
    ensures TidsOk(cfg, Side1(p, c), Side2(p, c)) && TidsOk(cfg, Side2(p, c), Side1(p, c))
  {
    assert Side1(p, c).flow.uuid == p.u1 && Side2(p, c).flow.uuid == p.u2;
  }

  lemma JoinedViews(cfg: Config, p: Pair, c: Entry, c': Entry, now: int, swap: bool, swap': bool)
    requires ProperSetup(cfg, p) && Sane(cfg, p, c) && Sane(cfg, p, c') && Joined(p, c) && Alike(c, c')
    requires c.flows == map[] ==> c.metricReported.Some?
    requires SameStart(p, c)
    ensures
      var o, o' := JoinedVerdict(cfg, p, c, now, swap), JoinedVerdict(cfg, p, c', now, swap');
      ViewOf(o.report) == ViewOf(o'.report) && (SameTermination(p, c) ==> Alike(o.entry, o'.entry))
  {
    BothTidsOk(cfg, p, c);
    if c.flows != map[] {
      CombineViews(cfg, c.(flows := c.Known()), c'.(flows := c.Known()),
                   p.First(swap), p.Second(swap), p.First(swap'), p.Second(swap'), now);
    } else {
      assert ExceedsTimeout(cfg, Side1(p, c), Side2(p, c)) == ExceedsTimeout(cfg, Side2(p, c), Side1(p, c));
    }
  }

  /** When the starts differ, a round that combines two records tells the orders apart. */
  lemma JoinedViewsDiffer(cfg: Config, p: Pair, c: Entry, now: int)
    requires ProperSetup(cfg, p) && Sane(cfg, p, c) && Joined(p, c) && c.flows != map[] && !SameStart(p, c)
    ensures ViewOf(JoinedVerdict(cfg, p, c, now, false).report) != ViewOf(JoinedVerdict(cfg, p, c, now, true).report)
  {
    var f1, f2 := Side1(p, c), Side2(p, c);
    assert f1.flow.uuid == p.u1 && f2.flow.uuid == p.u2;
    assert TidsOk(cfg, f1, f2) && TidsOk(cfg, f2, f1);
  }

  /** A round without records compares only times, in which the two records are symmetric. */
  lemma GapViews(cfg: Config, p: Pair, c: Entry, now: int)
    requires Joined(p, c) && c.flows == map[] && c.metricReported.Some?
    ensures ViewOf(JoinedVerdict(cfg, p, c, now, false).report) == ViewOf(JoinedVerdict(cfg, p, c, now, true).report)
  {
    assert ExceedsTimeout(cfg, Side1(p, c), Side2(p, c)) == ExceedsTimeout(cfg, Side2(p, c), Side1(p, c));
  }

  /** A round gives the same report in both orders if and only if it brings no records, or the
      capture points agree on the start of the connection, or only one of them is known. */
  lemma OrderIrrelevantIffSameStart(cfg: Config, p: Pair, e: Entry, own: seq<VpclogsFlow>, now: int)
    requires Startable(cfg, p, e, own)
    ensures
      ViewOf(Round(cfg, p, e, own, now, false).report) == ViewOf(Round(cfg, p, e, own, now, true).report)
      <==> own == [] || SameStart(p, CollectAll(Reset(e), own))
  {
    var c := CollectAll(Reset(e), own);
    CollectReady(cfg, p, e, own);
    KnownKeys(cfg, p, c);
    if !Joined(p, c) {
      LoneViews(cfg, p, c, c, now);
    } else if own == [] {
      GapViews(cfg, p, c, now);
    } else if SameStart(p, c) {
      JoinedViews(cfg, p, c, c, now, false, true);
    } else {
      JoinedViewsDiffer(cfg, p, c, now);
    }
  }

  lemma LoneViews(cfg: Config, p: Pair, c: Entry, c': Entry, now: int)
    requires Alike(c, c') && LoneKey(p, c) in c.Known()
    ensures
      var o, o' := LoneVerdict(cfg, p, c, now), LoneVerdict(cfg, p, c', now);
      Alike(o.entry, o'.entry) && ViewOf(o.report) == ViewOf(o'.report)
  {
  }

  // ----- whole runs, cleanup included

  datatype SlotIn = SlotIn(own: seq<VpclogsFlow>, now: int, swap: bool, cleanup: bool)

  datatype History = History(slot: Option<Entry>, reports: seq<Option<VpclogsFlow>>)

  predicate ProperIns(cfg: Config, p: Pair, ins: seq<SlotIn>) {
    ProperSetup(cfg, p) && forall i | i in ins :: ProperFlows(cfg, p, i.own)
  }

  /** A run of one tracking ID: any number of lives of its entry. */
  function SlotRun(cfg: Config, p: Pair, ins: seq<SlotIn>): (h: History)
    requires ProperIns(cfg, p, ins)
    ensures SlotOk(cfg, p, h.slot) && |h.reports| == |ins|
  {
    if ins == [] then History(None, [])
    else
      var h, i := SlotRun(cfg, p, Front(ins)), Last(ins);
      StepSettles(cfg, p, h.slot, i);
      var s := Step(cfg, p, h.slot, i.own, i.now, i.swap, i.cleanup);
      History(s.entry, h.reports + [s.report])
  }

  lemma StepSettles(cfg: Config, p: Pair, s: Option<Entry>, i: SlotIn)
    requires ProperSetup(cfg, p) && ProperFlows(cfg, p, i.own) && SlotOk(cfg, p, s)
    ensures SlotOk(cfg, p, Step(cfg, p, s, i.own, i.now, i.swap, i.cleanup).entry)
  {
    if s.Some? || i.own != [] {
      RoundSettles(cfg, p, if s.Some? then s.value else FRESH, i.own, i.now, i.swap);
    }
  }

  lemma SlotRunStep(cfg: Config, p: Pair, ins: seq<SlotIn>, i: SlotIn)
    requires ProperIns(cfg, p, ins) && ProperFlows(cfg, p, i.own)
    ensures ProperIns(cfg, p, ins + [i])
    ensures
      var h := SlotRun(cfg, p, ins);
      var s := Step(cfg, p, h.slot, i.own, i.now, i.swap, i.cleanup);
      SlotRun(cfg, p, ins + [i]) == History(s.entry, h.reports + [s.report])
  {
    assert Front(ins + [i]) == ins;
  }

  /** The latest round of the run finds an entry or creates one. */
  predicate Lives(cfg: Config, p: Pair, ins: seq<SlotIn>)
    requires ProperIns(cfg, p, ins)
  {
    ins != [] && (SlotRun(cfg, p, Front(ins)).slot.Some? || Last(ins).own != [])
  }

  /** The entry that a round of the slot starts from. */
  function EntryFor(s: Option<Entry>): Entry {
    if s.Some? then s.value else FRESH
  }

  /** The records that a round of the slot has at hand. */
  function AtHand(s: Option<Entry>, own: seq<VpclogsFlow>): Entry {
    CollectAll(Reset(EntryFor(s)), own)
  }

  /** In every round the two capture points agree on the start and on termination. */
  predicate Agreeing(cfg: Config, p: Pair, ins: seq<SlotIn>)
    requires ProperIns(cfg, p, ins)
  {
    ins == [] ||
    (Agreeing(cfg, p, Front(ins)) &&
     var c := AtHand(SlotRun(cfg, p, Front(ins)).slot, Last(ins).own);
     SameStart(p, c) && SameTermination(p, c))
  }

  predicate SlotsAlike(s: Option<Entry>, s': Option<Entry>) {
    s.Some? == s'.Some? && (s.Some? ==> Alike(s.value, s'.value))
  }

  /** Two runs with the same records, clock and cleanups, in any map-iteration order. */
  predicate SameInputs(ins: seq<SlotIn>, ins': seq<SlotIn>) {
    |ins| == |ins'| && forall i | 0 <= i < |ins| :: ins[i].(swap := false) == ins'[i].(swap := false)
  }

  lemma {:induction false} CollectAlike(e: Entry, e': Entry, own: seq<VpclogsFlow>)
    requires Alike(e, e')
    ensures Alike(CollectAll(Reset(e), own), CollectAll(Reset(e'), own))
  {
    if own != [] {
      CollectAlike(e, e', Front(own));
    }
  }

  lemma RoundAlike(cfg: Config, p: Pair, e: Entry, e': Entry, own: seq<VpclogsFlow>, now: int, swap: bool, swap': bool)
    requires Startable(cfg, p, e, own) && Startable(cfg, p, e', own) && Alike(e, e')
    requires SameStart(p, CollectAll(Reset(e), own)) && SameTermination(p, CollectAll(Reset(e), own))
    ensures
      var o, o' := Round(cfg, p, e, own, now, swap), Round(cfg, p, e', own, now, swap');
      Alike(o.entry, o'.entry) && ViewOf(o.report) == ViewOf(o'.report)
  {
    var c, c' := CollectAll(Reset(e), own), CollectAll(Reset(e'), own);
    CollectAlike(e, e', own);
    CollectReady(cfg, p, e, own);
    CollectReady(cfg, p, e', own);
    KnownKeys(cfg, p, c);
    if Joined(p, c) {
      JoinedViews(cfg, p, c, c', now, swap, swap');
    } else {
      LoneViews(cfg, p, c, c', now);
    }
  }

  lemma StepAlike(cfg: Config, p: Pair, s: Option<Entry>, s': Option<Entry>, i: SlotIn, i': SlotIn)
    requires ProperSetup(cfg, p) && ProperFlows(cfg, p, i.own) && SlotOk(cfg, p, s) && SlotOk(cfg, p, s')
    requires SlotsAlike(s, s') && i.(swap := false) == i'.(swap := false)
    requires SameStart(p, AtHand(s, i.own)) && SameTermination(p, AtHand(s, i.own))
    ensures
      var t := Step(cfg, p, s, i.own, i.now, i.swap, i.cleanup);
      var t' := Step(cfg, p, s', i'.own, i'.now, i'.swap, i'.cleanup);
      SlotsAlike(t.entry, t'.entry) && ViewOf(t.report) == ViewOf(t'.report)
  {
    if s.Some? || i.own != [] {
      RoundAlike(cfg, p, if s.Some? then s.value else FRESH, if s'.Some? then s'.value else FRESH,
                 i.own, i.now, i.swap, i'.swap);
    }
  }

  /** Over whole runs, cleanups included: where the capture points agree on start and
      termination, every iteration order gives the same reports round by round, and keeps
      and removes the entry in the same rounds. */
  lemma {:induction false} OrderIrrelevantInRuns(cfg: Config, p: Pair, ins: seq<SlotIn>, ins': seq<SlotIn>)
    requires ProperIns(cfg, p, ins) && ProperIns(cfg, p, ins') && SameInputs(ins, ins') && Agreeing(cfg, p, ins)
    ensures
      var h, h' := SlotRun(cfg, p, ins), SlotRun(cfg, p, ins');
      && SlotsAlike(h.slot, h'.slot)
      && forall i | 0 <= i < |ins| :: ViewOf(h.reports[i]) == ViewOf(h'.reports[i])
  {
    if ins != [] {
      var front, front' := Front(ins), Front(ins');
      OrderIrrelevantInRuns(cfg, p, front, front');
      var s, s' := SlotRun(cfg, p, front).slot, SlotRun(cfg, p, front').slot;
      StepAlike(cfg, p, s, s', Last(ins), Last(ins'));
    }
  }

  /** Agreement on termination is needed for cleanups: after an Accept, the two orders agree on
      whether a cleanup removes the entry if and only if the sides agree on termination. */
  lemma RemovalAgreesIffSameTermination(cfg: Config, p: Pair, e: Entry, own: seq<VpclogsFlow>, now: int)
    requires Startable(cfg, p, e, own) && own != []
    requires
      var c := CollectAll(Reset(e), own);
      Joined(p, c) && SameStart(p, c) && IsAccept(Round(cfg, p, e, own, now, false).report)
    ensures
      (Removable(Round(cfg, p, e, own, now, false).entry) <==> Removable(Round(cfg, p, e, own, now, true).entry))
      <==> SameTermination(p, CollectAll(Reset(e), own))
  {
    var c := CollectAll(Reset(e), own);
    CollectReady(cfg, p, e, own);
    OrderIrrelevantIffSameStart(cfg, p, e, own, now);
    AcceptCopies(cfg, p, c, now, false);
    AcceptCopies(cfg, p, c, now, true);
  }

  /** An Accept report is a copy of the record that is drawn first. */
  lemma AcceptCopies(cfg: Config, p: Pair, c: Entry, now: int, swap: bool)
    requires ProperSetup(cfg, p) && Sane(cfg, p, c) && Joined(p, c) && c.flows != map[]
    requires IsAccept(JoinedVerdict(cfg, p, c, now, swap).report)
    ensures Removable(JoinedVerdict(cfg, p, c, now, swap).entry) == c.Known()[p.First(swap)].wasTerminated
  {
    BothTidsOk(cfg, p, c);
  }

  /** A run that tells the orders apart: one side has terminated when the flow is first accepted. */
  lemma TerminationTellsOrders(cfg: Config, p: Pair, f1: VpclogsFlow, f2: VpclogsFlow, now: int)
    requires ProperSetup(cfg, p) && Proper(cfg, p, f1) && Proper(cfg, p, f2) && f1.flow.uuid == p.u1
      && f2.flow.uuid == p.u2
    requires f1.flow.metric.start == f2.flow.metric.start && f1.wasTerminated && !f2.wasTerminated
    ensures
      var ins, ins' := [SlotIn([f1, f2], now, false, true)], [SlotIn([f1, f2], now, true, true)];
      && ProperIns(cfg, p, ins) && ProperIns(cfg, p, ins') && SameInputs(ins, ins')
      && SlotRun(cfg, p, ins).slot.None? && SlotRun(cfg, p, ins').slot.Some?
  {
    FirstRun(cfg, p, f1, f2, now, false);
    FirstRun(cfg, p, f1, f2, now, true);
  }

  /** A cleanup in the first round removes the entry if the record drawn first has terminated. */
  lemma FirstRun(cfg: Config, p: Pair, f1: VpclogsFlow, f2: VpclogsFlow, now: int, swap: bool)
    requires ProperSetup(cfg, p) && Proper(cfg, p, f1) && Proper(cfg, p, f2) && f1.flow.uuid == p.u1
      && f2.flow.uuid == p.u2
    ensures
      var ins := [SlotIn([f1, f2], now, swap, true)];
      ProperIns(cfg, p, ins) && (SlotRun(cfg, p, ins).slot.None? <==> (if swap then f2 else f1).wasTerminated)
  {
    var c, ins := CollectAll(Reset(FRESH), [f1, f2]), [SlotIn([f1, f2], now, swap, true)];
    assert ins[..0] == [];
    FirstSight(cfg, p, f1, f2);
    FirstCombineAccepts(cfg, p, c, now, swap);
    AcceptCopies(cfg, p, c, now, swap);
  }

  /** Both sides turn up in the same round. */
  lemma FirstSight(cfg: Config, p: Pair, f1: VpclogsFlow, f2: VpclogsFlow)
    requires ProperSetup(cfg, p) && Proper(cfg, p, f1) && Proper(cfg, p, f2) && f1.flow.uuid == p.u1
      && f2.flow.uuid == p.u2
    ensures
      var c := CollectAll(Reset(FRESH), [f1, f2]);
      && Sane(cfg, p, c) && Joined(p, c) && c.flows != map[] && c.metricReported.None?
      && Side1(p, c) == f1 && Side2(p, c) == f2
  {
    var own := [f1, f2];
    var c := CollectAll(Reset(FRESH), own);
    assert own[..1] == [f1] && [f1][..0] == [];
    assert Latest(own, p.u1) == Some(f1) && Latest(own, p.u2) == Some(f2);
    CollectKeepsLatest(FRESH, own, p.u1);
    CollectKeepsLatest(FRESH, own, p.u2);
    CollectReady(cfg, p, FRESH, own);
    JoinedByKeys(cfg, p, c);
  }

  lemma FirstCombineAccepts(cfg: Config, p: Pair, c: Entry, now: int, swap: bool)
    requires ProperSetup(cfg, p) && Sane(cfg, p, c) && Joined(p, c) && c.flows != map[] && c.metricReported.None?
    ensures IsAccept(JoinedVerdict(cfg, p, c, now, swap).report)
  {
    BothTidsOk(cfg, p, c);
  }
}
