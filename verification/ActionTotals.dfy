/** The accepted total of a tracking ID over all lives of its table entry, cleanups included: a
    cleanup forgets what was reported, and the next life begins with an increment only. */
module ActionTotals {
  import opened Wrappers
  import opened VpcFlow
  import opened ActionSpec
  import opened ActionRounds
  import opened ActionAccounting
  import opened ActionOrder

  // ----- the latest record of a UUID in the whole history

  function Next(seen: Option<VpclogsFlow>, own: seq<VpclogsFlow>, k: string): Option<VpclogsFlow> {
    var r := Latest(own, k);
    if r.Some? then r else seen
  }

  /** The latest record that some round has kept. */
  function Seen(ins: seq<SlotIn>, k: string): Option<VpclogsFlow> {
    if ins == [] then None else Next(Seen(Front(ins), k), Last(ins).own, k)
  }

  predicate CountedRun(ins: seq<SlotIn>) {
    forall i | i in ins :: forall f | f in i.own :: Counted(f)
  }

  /** The counters of a later record contain those of an earlier one and its own latest update. */
  predicate Covers(f: VpclogsFlow, g: VpclogsFlow) {
    CountsOf(f.flow.metric).Plus(CountsOf(g.flow.lastUpdateMetric)).AtMost(CountsOf(g.flow.metric))
  }

  /** Records of one UUID cover those of earlier rounds. */
  predicate CoveringRun(ins: seq<SlotIn>) {
    forall i, j | 0 <= i < j < |ins| ::
      forall f, g | f in ins[i].own && g in ins[j].own && f.flow.uuid == g.flow.uuid :: Covers(f, g)
  }

  lemma {:induction false} SeenInRound(ins: seq<SlotIn>, k: string) returns (i: nat)
    requires Seen(ins, k).Some?
    ensures i < |ins| && Seen(ins, k).value in ins[i].own && Seen(ins, k).value.flow.uuid == k
  {
    if Latest(Last(ins).own, k).Some? {
      i := |ins| - 1;
    } else {
      i := SeenInRound(Front(ins), k);
    }
  }

  /** What a round keeps of a UUID is counted, and covers what was seen before. */
  predicate Continues(seen: Option<VpclogsFlow>, own: seq<VpclogsFlow>, k: string) {
    var r := Latest(own, k);
    r.Some? ==> Counted(r.value) && (seen.Some? ==> Covers(seen.value, r.value))
  }

  lemma RoundContinues(ins: seq<SlotIn>, k: string)
    requires CountedRun(ins) && CoveringRun(ins) && ins != []
    ensures Continues(Seen(Front(ins), k), Last(ins).own, k)
  {
    var r := Latest(Last(ins).own, k);
    if r.Some? {
      assert Last(ins) in ins;
      if Seen(Front(ins), k).Some? {
        var i := SeenInRound(Front(ins), k);
        assert Front(ins)[i] == ins[i] && Last(ins) == ins[|ins| - 1];
      }
    }
  }

  // ----- the invariant

  /** The total is within the latest counters of a UUID, and zero before there are any. */
  predicate Within(total: FlowCounts, seen: Option<VpclogsFlow>) {
    if seen.Some? then Counted(seen.value) && total.AtMost(CountsOf(seen.value.flow.metric))
    else total == NO_COUNTS
  }

  predicate KnownIsSeen(e: Entry, k: string, seen: Option<VpclogsFlow>) {
    k in e.Known() ==> seen.Some? && Same(e.Known()[k], seen.value)
  }

  /** There is room for the latest update of a known record on top of the total. */
  predicate HasRoom(e: Entry, k: string, total: FlowCounts) {
    k in e.Known() ==>
      var f := e.Known()[k].flow;
      Counted(e.Known()[k]) && total.Plus(CountsOf(f.lastUpdateMetric)).AtMost(CountsOf(f.metric))
  }

  /** What an entry must owe to the total of the lives before it. */
  predicate EntryWithin(p: Pair, e: Entry, total: FlowCounts) {
    if Joined(p, e) then total.AtMost(CountsOf(Confirmed(p, e)))
    else
      && HasRoom(e, p.u1, total) && HasRoom(e, p.u2, total)
      && (e.metricReported.Some? ==> total.AtMost(CountsOf(e.metricReported.value)))
  }

  predicate Tracked(p: Pair, e: Entry, total: FlowCounts, seen1: Option<VpclogsFlow>, seen2: Option<VpclogsFlow>) {
    && UpToDate(p, e) && EntryWithin(p, e, total)
    && KnownIsSeen(e, p.u1, seen1) && KnownIsSeen(e, p.u2, seen2)
    && Within(total, seen1) && Within(total, seen2)
  }

  // ----- one round

  function Total(total: FlowCounts, report: Option<VpclogsFlow>): FlowCounts {
    if IsAccept(report) then total.Plus(report.value.ext.delta) else total
  }

  lemma KeptIsSeen(p: Pair, e: Entry, own: seq<VpclogsFlow>, e': Entry, k: string, seen: Option<VpclogsFlow>)
    requires KnownFrom(p, e, own, e') && k in p.Both() && KnownIsSeen(e, k, seen)
    ensures KnownIsSeen(e', k, Next(seen, own, k))
  {
    assert SameAt(Lookup(e'.Known(), k), Updated(e, own, k));
  }

  lemma RoomKept(p: Pair, e: Entry, own: seq<VpclogsFlow>, e': Entry, k: string, seen: Option<VpclogsFlow>,
                 total: FlowCounts)
    requires KnownFrom(p, e, own, e') && k in p.Both()
    requires HasRoom(e, k, total) && Within(total, seen) && Continues(seen, own, k)
    ensures HasRoom(e', k, total)
  {
    assert SameAt(Lookup(e'.Known(), k), Updated(e, own, k));
  }

  lemma NextWithin(own: seq<VpclogsFlow>, k: string, seen: Option<VpclogsFlow>, total: FlowCounts)
    requires Within(total, seen) && Continues(seen, own, k)
    ensures Within(total, Next(seen, own, k))
  {
  }

  /** A round that leaves the second side unknown adds nothing. */
  lemma AloneWithin(p: Pair, e: Entry, now: int, timedOut: bool, o: Outcome, total: FlowCounts)
    requires Follows(p, e, now, timedOut, o) && !Joined(p, o.entry) && EntryWithin(p, e, total)
    requires HasRoom(o.entry, p.u1, total) && HasRoom(o.entry, p.u2, total)
    ensures EntryWithin(p, o.entry, Total(total, o.report))
  {
  }

  /** The first round that knows both sides leaves out as much as the total before it. */
  lemma JoinWithin(p: Pair, e: Entry, now: int, timedOut: bool, o: Outcome, total: FlowCounts)
    requires Follows(p, e, now, timedOut, o) && !Joined(p, e) && Joined(p, o.entry) && EntryWithin(p, e, total)
    requires HasRoom(o.entry, p.u1, total) && HasRoom(o.entry, p.u2, total)
    ensures EntryWithin(p, o.entry, Total(total, o.report))
  {
    assert p.u1 in p.Both() && p.u2 in p.Both();
  }

  lemma JoinedWithin(p: Pair, e: Entry, now: int, timedOut: bool, o: Outcome, total: FlowCounts)
    requires Follows(p, e, now, timedOut, o) && Joined(p, e) && UpToDate(p, e) && EntryWithin(p, e, total)
    ensures Joined(p, o.entry) && EntryWithin(p, o.entry, Total(total, o.report))
  {
  }

  lemma SideWithin(p: Pair, e: Entry, total: FlowCounts, seen1: Option<VpclogsFlow>, seen2: Option<VpclogsFlow>)
    requires Joined(p, e) && total.AtMost(CountsOf(Confirmed(p, e)))
    requires KnownIsSeen(e, p.u1, seen1) && KnownIsSeen(e, p.u2, seen2)
    requires (seen1.Some? ==> Counted(seen1.value)) && (seen2.Some? ==> Counted(seen2.value))
    ensures Within(total, seen1) && Within(total, seen2)
  {
    assert p.u1 in p.Both() && p.u2 in p.Both();
  }

  lemma RoundTracked(p: Pair, e: Entry, own: seq<VpclogsFlow>, now: int, timedOut: bool, o: Outcome, total: FlowCounts,
                     seen1: Option<VpclogsFlow>, seen2: Option<VpclogsFlow>)
    requires Tracked(p, e, total, seen1, seen2) && Continues(seen1, own, p.u1) && Continues(seen2, own, p.u2)
    requires UpToDate(p, o.entry) && Follows(p, e, now, timedOut, o) && KnownFrom(p, e, own, o.entry)
    ensures Tracked(p, o.entry, Total(total, o.report), Next(seen1, own, p.u1), Next(seen2, own, p.u2))
  {
    KeptIsSeen(p, e, own, o.entry, p.u1, seen1);
    KeptIsSeen(p, e, own, o.entry, p.u2, seen2);
    NextWithin(own, p.u1, seen1, total);
    NextWithin(own, p.u2, seen2, total);
    if Joined(p, e) {
      JoinedWithin(p, e, now, timedOut, o, total);
    } else {
      RoomKept(p, e, own, o.entry, p.u1, seen1, total);
      RoomKept(p, e, own, o.entry, p.u2, seen2, total);
      if Joined(p, o.entry) {
        JoinWithin(p, e, now, timedOut, o, total);
      } else {
        AloneWithin(p, e, now, timedOut, o, total);
      }
    }
    if Joined(p, o.entry) {
      SideWithin(p, o.entry, Total(total, o.report), Next(seen1, own, p.u1), Next(seen2, own, p.u2));
    }
  }

  // ----- all rounds of all lives

  predicate SlotTracked(p: Pair, s: Option<Entry>, total: FlowCounts, seen1: Option<VpclogsFlow>,
                        seen2: Option<VpclogsFlow>)
  {
    && Within(total, seen1) && Within(total, seen2)
    && (s.Some? ==> Tracked(p, s.value, total, seen1, seen2))
  }

  lemma StepTracked(cfg: Config, p: Pair, s: Option<Entry>, i: SlotIn, total: FlowCounts,
                    seen1: Option<VpclogsFlow>, seen2: Option<VpclogsFlow>)
    requires ProperSetup(cfg, p) && ProperFlows(cfg, p, i.own) && SlotOk(cfg, p, s)
    requires SlotTracked(p, s, total, seen1, seen2) && Continues(seen1, i.own, p.u1) && Continues(seen2, i.own, p.u2)
    ensures
      var t := Step(cfg, p, s, i.own, i.now, i.swap, i.cleanup);
      SlotTracked(p, t.entry, Total(total, t.report), Next(seen1, i.own, p.u1), Next(seen2, i.own, p.u2))
  {
    if s.Some? || i.own != [] {
      var e, r := EntryFor(s), RoundIn(i.own, i.now, i.swap);
      assert FRESH.Known() == map[];
      RoundFollows(cfg, p, e, r);
      RoundTracked(p, e, i.own, i.now, TimedOut(cfg, e, i.now), Round(cfg, p, e, i.own, i.now, i.swap), total, seen1,
                   seen2);
    } else {
      assert Latest(i.own, p.u1) == None && Latest(i.own, p.u2) == None;
    }
  }

  lemma {:induction false} RunTracked(cfg: Config, p: Pair, ins: seq<SlotIn>)
    requires ProperIns(cfg, p, ins) && CountedRun(ins) && CoveringRun(ins)
    ensures
      var h := SlotRun(cfg, p, ins);
      SlotTracked(p, h.slot, Accepted(h.reports), Seen(ins, p.u1), Seen(ins, p.u2))
  {
    if ins != [] {
      RunTracked(cfg, p, Front(ins));
      RoundContinues(ins, p.u1);
      RoundContinues(ins, p.u2);
      var h0, h := SlotRun(cfg, p, Front(ins)), SlotRun(cfg, p, ins);
      assert Front(h.reports) == h0.reports;
      StepTracked(cfg, p, h0.slot, Last(ins), Accepted(h0.reports), Seen(Front(ins), p.u1), Seen(Front(ins), p.u2));
    }
  }

  /** Over all lives of the entry, cleanups in between, nothing is accepted twice: the sum of all
      Accept reports stays within the latest counters of either capture point, and is zero before
      a capture point has any. Nothing is assumed about one-sided Rejects. */
  lemma AcceptedOverAllLives(cfg: Config, p: Pair, ins: seq<SlotIn>)
    requires ProperIns(cfg, p, ins) && CountedRun(ins) && CoveringRun(ins)
    ensures Within(Accepted(SlotRun(cfg, p, ins).reports), Seen(ins, p.u1))
    ensures Within(Accepted(SlotRun(cfg, p, ins).reports), Seen(ins, p.u2))
  {
    RunTracked(cfg, p, ins);
  }

  // ----- exactly when nothing is accepted twice

  /** What the latest round of the run makes of the entry, before a cleanup. */
  function LatestOutcome(cfg: Config, p: Pair, ins: seq<SlotIn>): Outcome
    requires ProperIns(cfg, p, ins) && Lives(cfg, p, ins)
  {
    var s, i := SlotRun(cfg, p, Front(ins)).slot, Last(ins);
    Round(cfg, p, EntryFor(s), i.own, i.now, i.swap)
  }

  /** After every round that knows both sides, the total of all lives is confirmed by both. */
  predicate AlwaysConfirmed(cfg: Config, p: Pair, ins: seq<SlotIn>)
    requires ProperIns(cfg, p, ins)
  {
    ins == [] ||
    (AlwaysConfirmed(cfg, p, Front(ins)) &&
     (Lives(cfg, p, ins) ==> ConfirmedIn(p, LatestOutcome(cfg, p, ins).entry, Accepted(SlotRun(cfg, p, ins).reports))))
  }

  predicate ConfirmedIn(p: Pair, e: Entry, total: FlowCounts) {
    Joined(p, e) ==> total.AtMost(CountsOf(Confirmed(p, e)))
  }

  /** A round that brings the two sides together leaves out at least the total before it: the
      counts of an earlier one-sided Reject or, without one, those before the latest updates. */
  predicate LeavesOut(p: Pair, e: Entry, e': Entry, total: FlowCounts) {
    Joined(p, e') && !Joined(p, e) ==> total.AtMost(Owed(p, e.metricReported, e'))
  }

  predicate JoinsLeaveOut(cfg: Config, p: Pair, ins: seq<SlotIn>)
    requires ProperIns(cfg, p, ins)
  {
    ins == [] ||
    (JoinsLeaveOut(cfg, p, Front(ins)) &&
     (Lives(cfg, p, ins) ==>
      var h := SlotRun(cfg, p, Front(ins));
      LeavesOut(p, EntryFor(h.slot), LatestOutcome(cfg, p, ins).entry, Accepted(h.reports))))
  }

  lemma RoundConfirmedIff(p: Pair, e: Entry, now: int, timedOut: bool, o: Outcome, total: FlowCounts)
    requires UpToDate(p, e) && UpToDate(p, o.entry) && Follows(p, e, now, timedOut, o) && ConfirmedIn(p, e, total)
    ensures ConfirmedIn(p, o.entry, Total(total, o.report)) <==> LeavesOut(p, e, o.entry, total)
  {
  }

  predicate SlotConfirmed(p: Pair, s: Option<Entry>, total: FlowCounts) {
    s.Some? ==> ConfirmedIn(p, s.value, total)
  }

  lemma {:induction false} SlotUpToDate(cfg: Config, p: Pair, ins: seq<SlotIn>)
    requires ProperIns(cfg, p, ins)
    ensures
      var s := SlotRun(cfg, p, ins).slot;
      s.Some? ==> UpToDate(p, s.value)
  {
    if Lives(cfg, p, ins) {
      SlotUpToDate(cfg, p, Front(ins));
      WorkFollows(cfg, p, ins);
    }
  }

  lemma WorkFollows(cfg: Config, p: Pair, ins: seq<SlotIn>)
    requires ProperIns(cfg, p, ins) && Lives(cfg, p, ins)
    requires
      var s := SlotRun(cfg, p, Front(ins)).slot;
      s.Some? ==> UpToDate(p, s.value)
    ensures
      var h0, h, o := SlotRun(cfg, p, Front(ins)), SlotRun(cfg, p, ins), LatestOutcome(cfg, p, ins);
      var e := EntryFor(h0.slot);
      && UpToDate(p, e) && UpToDate(p, o.entry)
      && Follows(p, e, Last(ins).now, TimedOut(cfg, e, Last(ins).now), o)
      && h.reports == h0.reports + [o.report] && (h.slot.Some? ==> h.slot.value == o.entry)
  {
    var h0, i := SlotRun(cfg, p, Front(ins)), Last(ins);
    assert FRESH.Known() == map[];
    RoundFollows(cfg, p, EntryFor(h0.slot), RoundIn(i.own, i.now, i.swap));
  }

  /** In every run, whatever its records, the total of all lives is confirmed by both sides at all
      times if and only if every round that brings them together leaves out the total so far. */
  lemma {:induction false} AlwaysConfirmedIff(cfg: Config, p: Pair, ins: seq<SlotIn>)
    requires ProperIns(cfg, p, ins)
    ensures AlwaysConfirmed(cfg, p, ins) <==> JoinsLeaveOut(cfg, p, ins)
    ensures
      var h := SlotRun(cfg, p, ins);
      AlwaysConfirmed(cfg, p, ins) ==> SlotConfirmed(p, h.slot, Accepted(h.reports))
  {
    if ins != [] {
      AlwaysConfirmedIff(cfg, p, Front(ins));
      if Lives(cfg, p, ins) && AlwaysConfirmed(cfg, p, Front(ins)) {
        LatestConfirmedIff(cfg, p, ins);
      }
    }
  }

  lemma LatestConfirmedIff(cfg: Config, p: Pair, ins: seq<SlotIn>)
    requires ProperIns(cfg, p, ins) && Lives(cfg, p, ins)
    requires
      var h0 := SlotRun(cfg, p, Front(ins));
      SlotConfirmed(p, h0.slot, Accepted(h0.reports))
    ensures
      var h0, h, o := SlotRun(cfg, p, Front(ins)), SlotRun(cfg, p, ins), LatestOutcome(cfg, p, ins);
      && (ConfirmedIn(p, o.entry, Accepted(h.reports)) <==>
          LeavesOut(p, EntryFor(h0.slot), o.entry, Accepted(h0.reports)))
      && (ConfirmedIn(p, o.entry, Accepted(h.reports)) ==> SlotConfirmed(p, h.slot, Accepted(h.reports)))
  {
    var h0, h, o := SlotRun(cfg, p, Front(ins)), SlotRun(cfg, p, ins), LatestOutcome(cfg, p, ins);
    var e := EntryFor(h0.slot);
    SlotUpToDate(cfg, p, Front(ins));
    WorkFollows(cfg, p, ins);
    assert Front(h.reports) == h0.reports;
    assert FRESH.Known() == map[];
    RoundConfirmedIff(p, e, Last(ins).now, TimedOut(cfg, e, Last(ins).now), o, Accepted(h0.reports));
  }

  lemma FirstAccept(cfg: Config, p: Pair, f1: VpclogsFlow, f2: VpclogsFlow, now: int, swap: bool)
    requires ProperSetup(cfg, p) && Proper(cfg, p, f1) && Proper(cfg, p, f2)
      && f1.flow.uuid == p.u1 && f2.flow.uuid == p.u2
    ensures ProperFlows(cfg, p, [f1, f2])
    ensures
      var r := Round(cfg, p, FRESH, [f1, f2], now, swap).report;
      IsAccept(r) && r.value.ext.delta == CountsOf(CombinedMetric(f1.flow.lastUpdateMetric, f2.flow.lastUpdateMetric))
  {
    var c := CollectAll(Reset(FRESH), [f1, f2]);
    FirstSight(cfg, p, f1, f2);
    FirstCombineAccepts(cfg, p, c, now, swap);
  }

  /** That later records cover earlier ones is needed: when the same records come again after a
      cleanup has removed the entry, their latest update is accepted a second time. */
  lemma ResentIsAcceptedTwice(cfg: Config, p: Pair, f1: VpclogsFlow, f2: VpclogsFlow, now: int)
    requires ProperSetup(cfg, p) && Proper(cfg, p, f1) && Proper(cfg, p, f2)
      && f1.flow.uuid == p.u1 && f2.flow.uuid == p.u2 && f1.wasTerminated
    ensures
      var ins := [SlotIn([f1, f2], now, false, true), SlotIn([f1, f2], now, false, false)];
      var once := CountsOf(CombinedMetric(f1.flow.lastUpdateMetric, f2.flow.lastUpdateMetric));
      ProperIns(cfg, p, ins) && Accepted(SlotRun(cfg, p, ins).reports) == once.Plus(once)
  {
    var i, i' := SlotIn([f1, f2], now, false, true), SlotIn([f1, f2], now, false, false);
    FirstAccept(cfg, p, f1, f2, now, false);
    FirstRun(cfg, p, f1, f2, now, false);
    SlotRunStep(cfg, p, [], i);
    assert [] + [i] == [i] && [i] + [i'] == [i, i'];
    SlotRunStep(cfg, p, [i], i');
    var r := Round(cfg, p, FRESH, [f1, f2], now, false).report;
    TwoReports(r, SlotRun(cfg, p, [i, i']).reports);
  }

  lemma TwoReports(r: Option<VpclogsFlow>, reports: seq<Option<VpclogsFlow>>)
    requires IsAccept(r) && reports == [r] + [r]
    ensures Accepted(reports) == r.value.ext.delta.Plus(r.value.ext.delta)
  {
    assert Front(reports) == [r] && Front([r]) == [];
    assert Accepted([r]) == r.value.ext.delta;
  }
}
