/** The Accept/Reject engine of vpclogs/pkg/action.go in its own form: a table of entries that
    every round updates in place. Each method is proved against the functions of ActionSpec;
    the order in which Go iterates a map is an arbitrary choice made by the method. */
module ActionEngine {
  import opened Wrappers
  import opened VpcFlow
  import opened ActionSpec
  import opened ActionRounds

  const TIMEOUT_PERIOD_CLEANUP := 20

  class CombinedFlowInfo {
    var flows: map<string, VpclogsFlow>
    var flowsPrev: map<string, VpclogsFlow>
    var flowReported: Option<VpclogsFlow>
    var metricReported: Option<FlowMetric>
    var lastReportTime: int

    constructor ()
      ensures Value() == FRESH
    {
      flows, flowsPrev, flowReported, metricReported, lastReportTime := map[], map[], None, None, 0;
    }

    ghost function Value(): Entry
      reads this
    {
      Entry(flows, flowsPrev, flowReported, metricReported, lastReportTime)
    }
  }

  function EntryAt(t: map<string, Entry>, id: string): Option<Entry> {
    if id in t then Some(t[id]) else None
  }

  function EntryOrFresh(t: map<string, Entry>, id: string): Entry {
    if id in t then t[id] else FRESH
  }

  /** The reports of a round, in the order in which the table was visited. */
  function Emitted(order: seq<string>, reports: map<string, Option<VpclogsFlow>>): seq<VpclogsFlow>
    requires forall id | id in order :: id in reports
  {
    if order == [] then []
    else
      var r := reports[Last(order)];
      Emitted(Front(order), reports) + if r.Some? then [r.value] else []
  }

  /** `at` are the positions of the tracking IDs with a report. */
  predicate ArePicked(order: seq<string>, reports: map<string, Option<VpclogsFlow>>, at: seq<nat>)
    requires forall id | id in order :: id in reports
  {
    forall i | 0 <= i < |order| :: (i in at) == reports[order[i]].Some?
  }

  predicate AreReportsAt(order: seq<string>, reports: map<string, Option<VpclogsFlow>>, at: seq<nat>,
                         newFl: seq<VpclogsFlow>)
    requires (forall id | id in order :: id in reports) && Increasing(at, |order|)
  {
    |at| == |newFl| && forall j | 0 <= j < |at| :: reports[order[at[j]]] == Some(newFl[j])
  }

  lemma PicksGrow(order: seq<string>, reports: map<string, Option<VpclogsFlow>>, at: seq<nat>)
    requires order != [] && (forall id | id in order :: id in reports) && Increasing(at, |order| - 1)
    requires ArePicked(Front(order), reports, at)
    ensures ArePicked(order, reports, PickNext(at, |order| - 1, reports[Last(order)].Some?))
  {
    var at' := PickNext(at, |order| - 1, reports[Last(order)].Some?);
    forall i | 0 <= i < |order| ensures (i in at') == reports[order[i]].Some? {
      if i < |order| - 1 { assert Front(order)[i] == order[i]; }
    }
  }

  lemma ReportsGrow(order: seq<string>, reports: map<string, Option<VpclogsFlow>>, at: seq<nat>,
                    newFl: seq<VpclogsFlow>)
    requires order != [] && (forall id | id in order :: id in reports) && Increasing(at, |order| - 1)
    requires AreReportsAt(Front(order), reports, at, newFl)
    ensures
      var r := reports[Last(order)];
      AreReportsAt(order, reports, PickNext(at, |order| - 1, r.Some?), if r.Some? then newFl + [r.value] else newFl)
  {
    var r := reports[Last(order)];
    var at', newFl' := PickNext(at, |order| - 1, r.Some?), if r.Some? then newFl + [r.value] else newFl;
    forall j | 0 <= j < |at'| ensures reports[order[at'[j]]] == Some(newFl'[j]) {
      if j < |at| { assert at'[j] == at[j] && newFl'[j] == newFl[j] && Front(order)[at[j]] == order[at[j]]; }
    }
  }

  /** The output is every report that there is, once and in the order of the visit. */
  lemma {:induction false} EmittedIsPicked(order: seq<string>, reports: map<string, Option<VpclogsFlow>>)
    returns (at: seq<nat>)
    requires forall id | id in order :: id in reports
    ensures Increasing(at, |order|) && ArePicked(order, reports, at)
    ensures AreReportsAt(order, reports, at, Emitted(order, reports))
  {
    at := [];
    if order != [] {
      at := EmittedIsPicked(Front(order), reports);
      PicksGrow(order, reports, at);
      ReportsGrow(order, reports, at, Emitted(Front(order), reports));
      at := PickNext(at, |order| - 1, reports[Last(order)].Some?);
    }
  }

  predicate Distinct(order: seq<string>) {
    forall i, j | 0 <= i < j < |order| :: order[i] != order[j]
  }

  // ----- proper setup of a whole table

  ghost predicate ProperPairs(cfg: Config, pairs: string -> Pair) {
    forall id :: ProperSetup(cfg, pairs(id))
  }

  ghost predicate ProperTable(cfg: Config, pairs: string -> Pair, t: map<string, Entry>) {
    ProperPairs(cfg, pairs) && forall id | id in t :: Settled(cfg, pairs(id), t[id])
  }

  /** Every record that matches a capture point belongs to its tracking ID's pair. */
  ghost predicate ProperBatch(cfg: Config, pairs: string -> Pair, fl: seq<VpclogsFlow>) {
    forall f | f in fl && Matches(cfg, f) :: Proper(cfg, pairs(f.flow.l3TrackingID), f)
  }

  ghost predicate ReadyTable(cfg: Config, pairs: string -> Pair, t: map<string, Entry>) {
    ProperPairs(cfg, pairs) && forall id | id in t :: Ready(cfg, pairs(id), t[id])
  }

  lemma {:induction false} OwnProper(cfg: Config, pairs: string -> Pair, fl: seq<VpclogsFlow>, id: string)
    requires ProperBatch(cfg, pairs, fl)
    ensures ProperFlows(cfg, pairs(id), Own(cfg, fl, id))
  {
    if fl != [] {
      OwnProper(cfg, pairs, Front(fl), id);
      assert Last(fl) in fl;
    }
  }

  /** Every tracking ID on its own: its slot after a round, and its report. */
  ghost function Slots(cfg: Config, pairs: string -> Pair, t: map<string, Entry>, fl: seq<VpclogsFlow>,
                       now: int, swaps: map<string, bool>, cleanup: bool): map<string, Slot>
    requires ProperTable(cfg, pairs, t) && ProperBatch(cfg, pairs, fl)
  {
    map id | id in swaps ::
      (OwnProper(cfg, pairs, fl, id);
       Step(cfg, pairs(id), EntryAt(t, id), Own(cfg, fl, id), now, swaps[id], cleanup))
  }

  ghost function SlotReports(slots: map<string, Slot>): map<string, Option<VpclogsFlow>> {
    map id | id in slots :: slots[id].report
  }

  /** A round of the table: its batch, the choices that Go's map iteration makes, its output. */
  datatype TableRound = TableRound(fl: seq<VpclogsFlow>, now: int, cleanup: bool,
                                   swaps: map<string, bool>, order: seq<string>, newFl: seq<VpclogsFlow>)

  ghost predicate ProperRound(cfg: Config, pairs: string -> Pair, t: map<string, Entry>, r: TableRound) {
    && ProperTable(cfg, pairs, t) && ProperBatch(cfg, pairs, r.fl)
    && Distinct(r.order) && (set id | id in r.order) == r.swaps.Keys
    && forall id :: id in r.swaps <==> id in t || Own(cfg, r.fl, id) != []
  }

  ghost function SlotsOf(cfg: Config, pairs: string -> Pair, t: map<string, Entry>, r: TableRound): map<string, Slot>
    requires ProperRound(cfg, pairs, t, r)
  {
    Slots(cfg, pairs, t, r.fl, r.now, r.swaps, r.cleanup)
  }

  /** `t'` follows `t` in a round in which every tracking ID moves and reports as it does on
      its own. */
  ghost predicate TableMoves(cfg: Config, pairs: string -> Pair, t: map<string, Entry>, r: TableRound,
                             t': map<string, Entry>)
  {
    && ProperRound(cfg, pairs, t, r)
    && var slots := SlotsOf(cfg, pairs, t, r);
       && r.newFl == Emitted(r.order, SlotReports(slots))
       && forall id :: EntryAt(t', id) == if id in slots then slots[id].entry else None
  }

  /** The outcomes of all entries of a table, before cleanup. */
  ghost predicate AreVerdicts(cfg: Config, pairs: string -> Pair, t: map<string, Entry>, now: int,
                              swaps: map<string, bool>, outs: map<string, Outcome>)
    requires ReadyTable(cfg, pairs, t)
  {
    && outs.Keys == swaps.Keys <= t.Keys
    && forall id | id in outs :: outs[id] == Dispatch(cfg, pairs(id), t[id], now, swaps[id])
  }

  lemma VerdictsMore(cfg: Config, pairs: string -> Pair, t: map<string, Entry>, now: int, swaps: map<string, bool>,
                     outs: map<string, Outcome>, id: string, swap: bool, o: Outcome)
    requires ReadyTable(cfg, pairs, t) && AreVerdicts(cfg, pairs, t, now, swaps, outs)
    requires id in t && o == Dispatch(cfg, pairs(id), t[id], now, swap)
    ensures AreVerdicts(cfg, pairs, t, now, swaps[id := swap], outs[id := o])
  {
  }

  /** A table of which some entries have their outcomes. */
  function Overlay(t: map<string, Entry>, outs: map<string, Outcome>): map<string, Entry> {
    map id | id in t :: if id in outs then outs[id].entry else t[id]
  }

  /** The keys of a table are visited one after another; those of `todo` are left. */
  predicate Visited(keys: set<string>, todo: set<string>, order: seq<string>, done: set<string>) {
    todo <= keys && done == keys - todo && Distinct(order) && (set id | id in order) == done
  }

  lemma VisitedMore(keys: set<string>, todo: set<string>, order: seq<string>, done: set<string>, id: string)
    requires Visited(keys, todo, order, done) && id in todo
    ensures Visited(keys, todo - {id}, order + [id], done + {id})
    ensures id !in order && forall x | x in order :: x in done
  {
    assert forall x | x in order :: x in (set y | y in order);
  }

  /** Part of a round: the entries of `todo` are still to be reported. */
  ghost predicate Progress(cfg: Config, pairs: string -> Pair, t: map<string, Entry>, now: int, todo: set<string>,
                           order: seq<string>, swaps: map<string, bool>, outs: map<string, Outcome>,
                           newFl: seq<VpclogsFlow>)
    requires ReadyTable(cfg, pairs, t)
  {
    && Visited(t.Keys, todo, order, swaps.Keys)
    && AreVerdicts(cfg, pairs, t, now, swaps, outs)
    && newFl == Emitted(order, OutcomeReports(outs))
  }

  lemma ProgressMore(cfg: Config, pairs: string -> Pair, t: map<string, Entry>, now: int, todo: set<string>,
                     order: seq<string>, swaps: map<string, bool>, outs: map<string, Outcome>, newFl: seq<VpclogsFlow>,
                     id: string, swap: bool, o: Outcome)
    requires ReadyTable(cfg, pairs, t) && Progress(cfg, pairs, t, now, todo, order, swaps, outs, newFl)
    requires id in todo && o == Dispatch(cfg, pairs(id), t[id], now, swap)
    ensures Progress(cfg, pairs, t, now, todo - {id}, order + [id], swaps[id := swap], outs[id := o],
                     newFl + if o.report.Some? then [o.report.value] else [])
    ensures Overlay(t, outs)[id] == t[id]
    ensures Overlay(t, outs[id := o]) == Overlay(t, outs)[id := o.entry]
  {
    VisitedMore(t.Keys, todo, order, swaps.Keys, id);
    EmittedMore(order, outs, id, o);
    VerdictsMore(cfg, pairs, t, now, swaps, outs, id, swap, o);
    assert swaps[id := swap].Keys == swaps.Keys + {id};
    OverlayMore(t, outs, id, o);
  }

  lemma OverlayMore(t: map<string, Entry>, outs: map<string, Outcome>, id: string, o: Outcome)
    requires id in t && id !in outs
    ensures Overlay(t, outs)[id] == t[id]
    ensures Overlay(t, outs[id := o]) == Overlay(t, outs)[id := o.entry]
  {
  }

  lemma EmittedMore(order: seq<string>, outs: map<string, Outcome>, id: string, o: Outcome)
    requires (forall x | x in order :: x in outs) && id !in outs
    ensures Emitted(order + [id], OutcomeReports(outs[id := o]))
         == Emitted(order, OutcomeReports(outs)) + if o.report.Some? then [o.report.value] else []
  {
    assert (order + [id])[..|order|] == order;
    EmittedFrom(order, OutcomeReports(outs), OutcomeReports(outs[id := o]));
  }

  ghost function OutcomeReports(outs: map<string, Outcome>): map<string, Option<VpclogsFlow>> {
    map id | id in outs :: outs[id].report
  }

  lemma {:induction false} EmittedFrom(order: seq<string>, reports: map<string, Option<VpclogsFlow>>,
                                       reports': map<string, Option<VpclogsFlow>>)
    requires forall id | id in order :: id in reports && id in reports' && reports[id] == reports'[id]
    ensures Emitted(order, reports) == Emitted(order, reports')
  {
    if order != [] {
      EmittedFrom(Front(order), reports, reports');
    }
  }

  function CollectInto(cfg: Config, t: map<string, Entry>, f: VpclogsFlow): map<string, Entry> {
    var id := f.flow.l3TrackingID;
    if Matches(cfg, f) then t[id := Collect(EntryOrFresh(t, id), f)] else t
  }

  function CollectTable(cfg: Config, t: map<string, Entry>, fl: seq<VpclogsFlow>): map<string, Entry> {
    if fl == [] then t else CollectInto(cfg, CollectTable(cfg, t, Front(fl)), Last(fl))
  }

  /** Collecting a batch gives every tracking ID its own records, in order, and no others. */
  lemma {:induction false} CollectTableIsOwn(cfg: Config, t: map<string, Entry>, fl: seq<VpclogsFlow>, id: string)
    ensures id in CollectTable(cfg, t, fl) <==> id in t || Own(cfg, fl, id) != []
    ensures EntryOrFresh(CollectTable(cfg, t, fl), id) == CollectAll(EntryOrFresh(t, id), Own(cfg, fl, id))
  {
    if fl != [] {
      var front, f := Front(fl), Last(fl);
      CollectTableIsOwn(cfg, t, front, id);
      if Matches(cfg, f) && f.flow.l3TrackingID == id {
        assert Front(Own(cfg, fl, id)) == Own(cfg, front, id);
      } else {
        assert Own(cfg, fl, id) == Own(cfg, front, id);
      }
    }
  }

  class Action {
    const cfg: Config
    var flowInfOState: map<string, CombinedFlowInfo>
    var timeOfLastCleanup: int

    constructor (cfg: Config, now: int)
      ensures Valid() && Table() == map[] && this.cfg == cfg && timeOfLastCleanup == now
    {
      this.cfg := cfg;
      flowInfOState, timeOfLastCleanup := map[], now;
    }

    /** Different tracking IDs have different entries. */
    ghost predicate Valid()
      reads this
    {
      forall i, j | i in flowInfOState && j in flowInfOState && i != j :: flowInfOState[i] != flowInfOState[j]
    }

    ghost function Table(): map<string, Entry>
      reads this, flowInfOState.Values
    {
      map id | id in flowInfOState :: flowInfOState[id].Value()
    }

    // ----- methods on one entry

    method ResetEntry(f: CombinedFlowInfo)
      requires forall k | k in f.flows :: f.flows[k].flow.uuid == k
      modifies f
      ensures f.Value() == Reset(old(f.Value()))
    {
      ghost var known := f.Value().Known();
      while f.flows != map[]
        invariant f.Value() == old(f.Value()).(flows := f.flows, flowsPrev := f.flowsPrev)
        invariant forall k | k in f.flows :: f.flows[k].flow.uuid == k
        invariant f.Value().Known() == known
        decreases f.flows.Keys
      {
        var k :| k in f.flows;
        var u := f.flows[k].flow.uuid;
        MoveToKnown(f.flowsPrev, f.flows, u);
        f.flowsPrev := f.flowsPrev[u := f.flows[u]];
        f.flows := f.flows - {u};
      }
      assert f.flowsPrev + f.flows == f.flowsPrev;
    }

    method ObtainKeys(m: map<string, VpclogsFlow>) returns (k1: string, k2: string)
      ensures |m| == 2 ==> m.Keys == {k1, k2} && k1 != k2
      ensures |m| != 2 ==> k1 == k2 == ""
    {
      if |m| != 2 {
        return "", "";
      }
      k1 :| k1 in m;
      var rest := m.Keys - {k1};
      assert |rest| == 1;
      k2 :| k2 in rest;
      assert |rest - {k2}| == 0;
      assert m.Keys == {k1, k2};
    }

    method ExceedTimeoutThreshold(f: CombinedFlowInfo, ghost p: Pair) returns (b: bool)
      requires p.u1 != p.u2 && f.flows.Keys == p.Both()
      ensures b == ExceedsTimeout(cfg, f.flows[p.u1], f.flows[p.u2])
      ensures b == ExceedsTimeout(cfg, f.flows[p.u2], f.flows[p.u1])
    {
      CardinalityOfPair(p, f.flows);
      var k1, k2 := ObtainKeys(f.flows);
      ghost var swap := PairOrder(p, k1, k2);
      var last1, last2 := f.flows[k1].flow.lastUpdateMetric.last, f.flows[k2].flow.lastUpdateMetric.last;
      var timeDifference := TruncDiv(last1 - last2, 1000);
      if timeDifference < 0 {
        timeDifference := -timeDifference;
      }
      return timeDifference > cfg.rejectTimeout;
    }

    method PrepareTimeoutResponse(f: CombinedFlowInfo, flow1: VpclogsFlow, now: int) returns (r: Option<VpclogsFlow>)
      requires f.metricReported.Some?
      modifies f
      ensures Outcome(f.Value(), r) == RejectBoth(old(f.Value()), flow1, now)
    {
      var newLastUpdateMetric := ZERO_METRIC.(start := f.metricReported.value.start,
                                              last := f.metricReported.value.last);
      var newF := flow1.(lastUpdateMetric := newLastUpdateMetric, metric := f.metricReported.value);
      newF := newF.SetAction(Reject);
      newF := newF.DeriveExternalizedFields();
      f.flowReported := Some(newF);
      f.lastReportTime := now;
      return Some(newF);
    }

    method CombineFlows(f: CombinedFlowInfo, now: int, ghost p: Pair) returns (r: Option<VpclogsFlow>, ghost swap: bool)
      requires p.u1 != p.u2 && f.flows.Keys == p.Both() && ReportedTogether(f.Value())
      modifies f
      ensures Outcome(f.Value(), r) == Combine(cfg, old(f.Value()), p.First(swap), p.Second(swap), now)
    {
      CardinalityOfPair(p, f.flows);
      var k1, k2 := ObtainKeys(f.flows);
      swap := PairOrder(p, k1, k2);
      var flow1, flow2 := f.flows[k1], f.flows[k2];
      var tidOK := true;
      if flow1.flow.nodeTID != cfg.tid1 {
        if flow1.flow.nodeTID != cfg.tid2 || flow2.flow.nodeTID != cfg.tid1 {
          tidOK := false;
        }
      } else if flow2.flow.nodeTID != cfg.tid2 {
        tidOK := false;
      }
      if !tidOK {
        return Some(flow1.SetAction(Reject)), swap;
      }
      var m := CombinedMetric(flow1.flow.metric, flow2.flow.metric);
      if f.metricReported.Some? && m == f.metricReported.value {
        var exceeded := ExceedTimeoutThreshold(f, p);
        if exceeded {
          r := PrepareTimeoutResponse(f, flow1, now);
          return r, swap;
        }
        return None, swap;
      }
      r := AcceptFlows(f, flow1, flow2, m, now);
    }

    method AcceptFlows(f: CombinedFlowInfo, flow1: VpclogsFlow, flow2: VpclogsFlow, combined: FlowMetric, now: int)
      returns (r: Option<VpclogsFlow>)
      requires ReportedTogether(f.Value()) && combined == CombinedMetric(flow1.flow.metric, flow2.flow.metric)
      modifies f
      ensures Outcome(f.Value(), r) == AcceptBoth(old(f.Value()), flow1, flow2, now)
    {
      var m := combined;
      if flow1.wasTerminated && flow2.wasTerminated {
        m := m.(last := Max(flow1.flow.metric.last, flow2.flow.metric.last));
      }
      var update;
      if f.flowReported.Some? {
        var reported := f.metricReported.value;
        update := ZERO_METRIC.(abPackets := m.abPackets - reported.abPackets, abBytes := m.abBytes - reported.abBytes,
                               baPackets := m.baPackets - reported.baPackets, baBytes := m.baBytes - reported.baBytes,
                               start := reported.last);
      } else {
        update := CombinedMetric(flow1.flow.lastUpdateMetric, flow2.flow.lastUpdateMetric);
        update := update.(start := m.start);
      }
      update := update.(last := m.last);
      var newF := flow1.(metric := m, lastUpdateMetric := update);
      newF := newF.SetAction(Accept);
      newF := newF.DeriveExternalizedFields();
      f.metricReported := Some(m);
      f.flowReported := Some(newF);
      f.lastReportTime := now;
      return Some(newF);
    }

    method OneFlow(f: CombinedFlowInfo, now: int, ghost p: Pair, ghost k: string)
      returns (r: Option<VpclogsFlow>, ghost swap: bool)
      requires p.u1 != p.u2 && k in p.Both() && f.flows.Keys == {k} && f.flowsPrev.Keys <= p.Both()
      requires ReportedTogether(f.Value())
      modifies f
      ensures Outcome(f.Value(), r) == ActionSpec.OneFlow(cfg, p, old(f.Value()), k, now, swap)
    {
      KeysWithin(p, f.flowsPrev);
      swap := false;
      var k1 :| k1 in f.flows;
      if |f.flowsPrev| == 0 {
        f.lastReportTime := now;
        return None, swap;
      } else if |f.flowsPrev| == 1 {
        var k2 :| k2 in f.flowsPrev;
        if k1 == k2 {
          if now > f.lastReportTime + cfg.rejectTimeout {
            f.flows := f.flows[k1 := f.flows[k1].SetAction(Reject)];
            f.flowReported := Some(f.flows[k1]);
            f.metricReported := Some(f.flows[k1].metric);
            f.lastReportTime := now;
            return Some(f.flows[k1]), swap;
          }
          return None, swap;
        }
        JoinsOther(cfg, p, f.Value(), k1, k2);
        f.flows := f.flows[k2 := f.flowsPrev[k2]];
        r, swap := CombineFlows(f, now, p);
        return;
      }
      var k1Prev, k2Prev := ObtainKeys(f.flowsPrev);
      JoinsOther(cfg, p, f.Value(), k1, if k1 == k1Prev then k2Prev else k1Prev);
      if k1 == k1Prev {
        f.flows := f.flows[k2Prev := f.flowsPrev[k2Prev]];
      } else {
        f.flows := f.flows[k1Prev := f.flowsPrev[k1Prev]];
      }
      r, swap := CombineFlows(f, now, p);
    }

    method ZeroFlows(f: CombinedFlowInfo, now: int, ghost p: Pair) returns (r: Option<VpclogsFlow>, ghost swap: bool)
      requires p.u1 != p.u2 && f.flows == map[] && f.flowsPrev != map[] && f.flowsPrev.Keys <= p.Both()
      requires ReportedTogether(f.Value()) && (f.flowsPrev.Keys == p.Both() ==> f.metricReported.Some?)
      modifies f
      ensures Outcome(f.Value(), r) == ActionSpec.ZeroFlows(cfg, p, old(f.Value()), now, swap)
    {
      KeysWithin(p, f.flowsPrev);
      swap := false;
      if |f.flowsPrev| == 1 {
        var k :| k in f.flowsPrev;
        if now > f.lastReportTime + cfg.rejectTimeout {
          f.flowsPrev := f.flowsPrev[k := f.flowsPrev[k].SetAction(Reject)];
          f.flowReported := Some(f.flowsPrev[k]);
          f.metricReported := Some(f.flowsPrev[k].metric);
          f.lastReportTime := now;
          return Some(f.flowsPrev[k]), swap;
        }
        return None, swap;
      }
      var k1, k2 := ObtainKeys(f.flowsPrev);
      swap := PairOrder(p, k1, k2);
      f.flows := f.flows[k1 := f.flowsPrev[k1]];
      f.flows := f.flows[k2 := f.flowsPrev[k2]];
      assert f.flows == f.flowsPrev;
      var exceeded := ExceedTimeoutThreshold(f, p);
      if exceeded {
        r := PrepareTimeoutResponse(f, f.flowsPrev[k1], now);
        return r, swap;
      }
      return None, swap;
    }

    /** The verdict on one entry; with proper setup there are never three records. */
    method Report(f: CombinedFlowInfo, now: int, ghost p: Pair) returns (f2: Option<VpclogsFlow>, ghost swap: bool)
      requires ProperSetup(cfg, p) && Ready(cfg, p, f.Value())
      modifies f
      ensures Outcome(f.Value(), f2) == Dispatch(cfg, p, old(f.Value()), now, swap)
    {
      KnownKeys(cfg, p, f.Value());
      KeysWithin(p, f.flows);
      KeysWithin(p, f.flowsPrev);
      if |f.flows| == 2 {
        f2, swap := CombineFlows(f, now, p);
      } else if |f.flows| == 0 {
        f2, swap := ZeroFlows(f, now, p);
      } else {
        assert |f.flows| == 1;
        ghost var k :| k in f.flows && f.flows.Keys == {k};
        f2, swap := OneFlow(f, now, p, k);
      }
      if f2.Some? {
        f.flowReported := f2;
      }
    }

    // ----- methods on the table

    method ResetFlowInfoState()
      requires Valid()
      requires forall id | id in Table() :: forall k | k in Table()[id].flows :: Table()[id].flows[k].flow.uuid == k
      modifies flowInfOState.Values
      ensures Table().Keys == old(Table()).Keys
      ensures forall id | id in Table() :: Table()[id] == Reset(old(Table())[id])
    {
      var todo := flowInfOState.Keys;
      while todo != {}
        invariant todo <= flowInfOState.Keys
        invariant forall id | id in flowInfOState ::
          flowInfOState[id].Value() == if id in todo then old(Table())[id] else Reset(old(Table())[id])
        decreases todo
      {
        var id :| id in todo;
        ResetEntry(flowInfOState[id]);
        todo := todo - {id};
      }
    }

    method EnsureEntry(id: string)
      requires Valid()
      modifies this`flowInfOState
      ensures Valid() && id in flowInfOState && fresh(flowInfOState.Values - old(flowInfOState.Values))
      ensures Table() == old(Table())[id := EntryOrFresh(old(Table()), id)]
    {
      if id !in flowInfOState {
        var cfi := new CombinedFlowInfo();
        flowInfOState := flowInfOState[id := cfi];
      }
    }

    method Keep(id: string, f: VpclogsFlow)
      requires Valid() && id in flowInfOState
      modifies flowInfOState[id]
      ensures Table() == old(Table())[id := Collect(old(Table())[id], f)]
    {
      KeepIn(flowInfOState[id], f);
    }

    method KeepIn(cfi: CombinedFlowInfo, f: VpclogsFlow)
      modifies cfi
      ensures cfi.Value() == Collect(old(cfi.Value()), f)
    {
      var u := f.flow.uuid;
      if u !in cfi.flows {
        cfi.flows := cfi.flows[u := f];
      } else if f.flow.lastUpdateMetric.last > cfi.flows[u].flow.lastUpdateMetric.last {
        cfi.flows := cfi.flows[u := f];
      }
    }

    method CollectOne(f: VpclogsFlow)
      requires Valid()
      modifies this`flowInfOState, flowInfOState.Values
      ensures Valid() && fresh(flowInfOState.Values - old(flowInfOState.Values))
      ensures Table() == CollectInto(cfg, old(Table()), f)
    {
      if f.flow.nodeTID != cfg.tid1 && f.flow.nodeTID != cfg.tid2 {
        return;
      }
      var id := f.flow.l3TrackingID;
      EnsureEntry(id);
      Keep(id, f);
    }

    method CollectFlowInfo(fl: seq<VpclogsFlow>)
      requires Valid()
      modifies this`flowInfOState, flowInfOState.Values
      ensures Valid() && fresh(flowInfOState.Values - old(flowInfOState.Values))
      ensures Table() == CollectTable(cfg, old(Table()), fl)
    {
      for i := 0 to |fl|
        invariant Valid() && fresh(flowInfOState.Values - old(flowInfOState.Values))
        invariant Table() == CollectTable(cfg, old(Table()), fl[..i])
      {
        CollectOne(fl[i]);
        assert fl[..i + 1][..i] == fl[..i];
      }
      assert fl[..|fl|] == fl;
    }

    method CleanupOldEntries(now: int)
      requires Valid()
      modifies this
      ensures Valid() && flowInfOState.Values <= old(flowInfOState.Values) && timeOfLastCleanup == now
      ensures Table() == map id | id in old(Table()) && !Removable(old(Table())[id]) :: old(Table())[id]
    {
      var kept := map[];
      var todo := flowInfOState.Keys;
      while todo != {}
        invariant todo <= flowInfOState.Keys
        invariant kept ==
          map id | id in flowInfOState && id !in todo && !Removable(flowInfOState[id].Value()) :: flowInfOState[id]
        decreases todo
      {
        var id :| id in todo;
        todo := todo - {id};
        var f := flowInfOState[id];
        if f.flowReported.Some? {
          if f.flowReported.value.action == Reject || f.flowReported.value.wasTerminated {
            continue;
          }
        }
        kept := kept[id := f];
      }
      flowInfOState := kept;
      timeOfLastCleanup := now;
    }

    method ReportAll(now: int, ghost pairs: string -> Pair)
      returns (newFl: seq<VpclogsFlow>, ghost order: seq<string>, ghost swaps: map<string, bool>,
               ghost outs: map<string, Outcome>)
      requires Valid() && ReadyTable(cfg, pairs, Table())
      modifies flowInfOState.Values
      ensures Distinct(order) && (set id | id in order) == swaps.Keys == Table().Keys == old(Table()).Keys
      ensures AreVerdicts(cfg, pairs, old(Table()), now, swaps, outs) && newFl == Emitted(order, OutcomeReports(outs))
      ensures forall id | id in Table() :: Table()[id] == outs[id].entry
    {
      newFl, order, swaps, outs := [], [], map[], map[];
      ghost var t := Table();
      var todo := flowInfOState.Keys;
      while todo != {}
        invariant todo <= flowInfOState.Keys
        invariant Progress(cfg, pairs, t, now, todo, order, swaps, outs, newFl)
        invariant Table() == Overlay(t, outs)
        decreases todo
      {
        var id :| id in todo;
        var f2;
        ghost var o, swap;
        f2, o, swap := ReportAt(id, now, pairs(id));
        ProgressMore(cfg, pairs, t, now, todo, order, swaps, outs, newFl, id, swap, o);
        if f2.Some? {
          newFl := newFl + [f2.value];
        }
        order, swaps, outs := order + [id], swaps[id := swap], outs[id := o];
        todo := todo - {id};
      }
    }

    method ReportAt(id: string, now: int, ghost p: Pair)
      returns (f2: Option<VpclogsFlow>, ghost o: Outcome, ghost swap: bool)
      requires Valid() && id in flowInfOState && ProperSetup(cfg, p) && Ready(cfg, p, flowInfOState[id].Value())
      modifies flowInfOState[id]
      ensures o == Dispatch(cfg, p, old(flowInfOState[id].Value()), now, swap)
      ensures f2 == o.report && Table() == old(Table())[id := o.entry]
    {
      f2, swap := Report(flowInfOState[id], now, p);
      o := Outcome(flowInfOState[id].Value(), f2);
    }

    /** A round of the whole table. Every tracking ID moves exactly as it does on its own:
        its report and its entry afterwards depend on its own records and the clock only. */
    method Mangle(fl: seq<VpclogsFlow>, now: int, ghost pairs: string -> Pair)
      returns (newFl: seq<VpclogsFlow>, ghost order: seq<string>, ghost swaps: map<string, bool>)
      requires Valid() && ProperTable(cfg, pairs, Table()) && ProperBatch(cfg, pairs, fl)
      modifies this, flowInfOState.Values
      ensures Valid() && ProperTable(cfg, pairs, Table())
      ensures
        var cleanup := now > old(timeOfLastCleanup) + 20;
        TableMoves(cfg, pairs, old(Table()), TableRound(fl, now, cleanup, swaps, order, newFl), Table())
      ensures timeOfLastCleanup ==
        if now > old(timeOfLastCleanup) + 20 then now else old(timeOfLastCleanup)
    {
      ghost var t0 := Table();
      ResetFlowInfoState();
      ghost var t1 := Table();
      CollectFlowInfo(fl);
      ghost var t2 := Table();
      RoundStarts(cfg, pairs, t0, t1, fl);
      ghost var outs;
      newFl, order, swaps, outs := ReportAll(now, pairs);
      ghost var t3 := Table();
      ghost var cleanup := now > timeOfLastCleanup + TIMEOUT_PERIOD_CLEANUP;
      if now > timeOfLastCleanup + TIMEOUT_PERIOD_CLEANUP {
        CleanupOldEntries(now);
      }
      RoundMoves(cfg, pairs, t0, t2, t3, Table(), TableRound(fl, now, cleanup, swaps, order, newFl), outs);
    }
  }

  lemma StepIsDispatch(cfg: Config, pairs: string -> Pair, t0: map<string, Entry>, fl: seq<VpclogsFlow>,
                       id: string, now: int, swap: bool, cleanup: bool)
    requires ProperTable(cfg, pairs, t0) && ProperBatch(cfg, pairs, fl)
    requires id in t0 || Own(cfg, fl, id) != []
    ensures
      var own, c := Own(cfg, fl, id), CollectAll(Reset(EntryOrFresh(t0, id)), Own(cfg, fl, id));
      && ProperFlows(cfg, pairs(id), own) && Ready(cfg, pairs(id), c)
      && var o := Dispatch(cfg, pairs(id), c, now, swap);
         Settled(cfg, pairs(id), o.entry) &&
         Step(cfg, pairs(id), EntryAt(t0, id), own, now, swap, cleanup)
         == Slot(if cleanup && Removable(o.entry) then None else Some(o.entry), o.report)
  {
    OwnProper(cfg, pairs, fl, id);
    RoundIsDispatch(cfg, pairs(id), EntryOrFresh(t0, id), Own(cfg, fl, id), now, swap);
    RoundSettles(cfg, pairs(id), EntryOrFresh(t0, id), Own(cfg, fl, id), now, swap);
  }

  /** The table from which the round reports: every tracking ID with its own records. */
  ghost predicate IsCollected(cfg: Config, t0: map<string, Entry>, fl: seq<VpclogsFlow>, t2: map<string, Entry>) {
    && (forall id :: id in t2 <==> id in t0 || Own(cfg, fl, id) != [])
    && forall id | id in t2 :: t2[id] == CollectAll(Reset(EntryOrFresh(t0, id)), Own(cfg, fl, id))
  }

  lemma RoundStartsAt(cfg: Config, pairs: string -> Pair, t0: map<string, Entry>, t1: map<string, Entry>,
                      fl: seq<VpclogsFlow>, id: string)
    requires ProperTable(cfg, pairs, t0) && ProperBatch(cfg, pairs, fl)
    requires t1.Keys == t0.Keys && (forall id | id in t1 :: t1[id] == Reset(t0[id]))
    ensures
      var t2 := CollectTable(cfg, t1, fl);
      && (id in t2 <==> id in t0 || Own(cfg, fl, id) != [])
      && (id in t2 ==>
            t2[id] == CollectAll(Reset(EntryOrFresh(t0, id)), Own(cfg, fl, id)) && Ready(cfg, pairs(id), t2[id]))
  {
    CollectTableIsOwn(cfg, t1, fl, id);
    assert EntryOrFresh(t1, id) == Reset(EntryOrFresh(t0, id)) by {
      assert Reset(FRESH) == FRESH;
    }
    if id in t0 || Own(cfg, fl, id) != [] {
      StepIsDispatch(cfg, pairs, t0, fl, id, 0, false, false);
    }
  }

  lemma RoundStarts(cfg: Config, pairs: string -> Pair, t0: map<string, Entry>, t1: map<string, Entry>,
                    fl: seq<VpclogsFlow>)
    requires ProperTable(cfg, pairs, t0) && ProperBatch(cfg, pairs, fl)
    requires t1.Keys == t0.Keys && (forall id | id in t1 :: t1[id] == Reset(t0[id]))
    ensures ReadyTable(cfg, pairs, CollectTable(cfg, t1, fl)) && IsCollected(cfg, t0, fl, CollectTable(cfg, t1, fl))
  {
    forall id {
      RoundStartsAt(cfg, pairs, t0, t1, fl, id);
    }
  }

  lemma RoundEndsAt(cfg: Config, pairs: string -> Pair, t0: map<string, Entry>, t2: map<string, Entry>,
                    fl: seq<VpclogsFlow>,
                    now: int, swaps: map<string, bool>, outs: map<string, Outcome>, cleanup: bool, id: string)
    requires ProperTable(cfg, pairs, t0) && ProperBatch(cfg, pairs, fl)
    requires ReadyTable(cfg, pairs, t2) && IsCollected(cfg, t0, fl, t2)
    requires AreVerdicts(cfg, pairs, t2, now, swaps, outs) && id in swaps
    ensures Slots(cfg, pairs, t0, fl, now, swaps, cleanup)[id]
         == Slot(if cleanup && Removable(outs[id].entry) then None else Some(outs[id].entry), outs[id].report)
    ensures Settled(cfg, pairs(id), outs[id].entry)
  {
    StepIsDispatch(cfg, pairs, t0, fl, id, now, swaps[id], cleanup);
  }

  predicate AreSlots(slots: map<string, Slot>, outs: map<string, Outcome>, cleanup: bool) {
    && slots.Keys == outs.Keys
    && forall id | id in outs ::
      slots[id] == Slot(if cleanup && Removable(outs[id].entry) then None else Some(outs[id].entry), outs[id].report)
  }

  lemma SlotsAre(cfg: Config, pairs: string -> Pair, t0: map<string, Entry>, t2: map<string, Entry>,
                 fl: seq<VpclogsFlow>,
                 now: int, swaps: map<string, bool>, outs: map<string, Outcome>, cleanup: bool)
    requires ProperTable(cfg, pairs, t0) && ProperBatch(cfg, pairs, fl)
    requires ReadyTable(cfg, pairs, t2) && IsCollected(cfg, t0, fl, t2)
    requires AreVerdicts(cfg, pairs, t2, now, swaps, outs)
    ensures AreSlots(Slots(cfg, pairs, t0, fl, now, swaps, cleanup), outs, cleanup)
    ensures forall id | id in outs :: Settled(cfg, pairs(id), outs[id].entry)
  {
    forall id | id in swaps
      ensures Slots(cfg, pairs, t0, fl, now, swaps, cleanup)[id]
           == Slot(if cleanup && Removable(outs[id].entry) then None else Some(outs[id].entry), outs[id].report)
      ensures Settled(cfg, pairs(id), outs[id].entry)
    {
      RoundEndsAt(cfg, pairs, t0, t2, fl, now, swaps, outs, cleanup, id);
    }
  }

  lemma RoundEnds(t3: map<string, Entry>, t4: map<string, Entry>, order: seq<string>,
                  outs: map<string, Outcome>, slots: map<string, Slot>, cleanup: bool)
    requires AreSlots(slots, outs, cleanup) && (set id | id in order) == t3.Keys == outs.Keys
    requires forall id | id in t3 :: t3[id] == outs[id].entry
    requires t4 == if cleanup then map id | id in t3 && !Removable(t3[id]) :: t3[id] else t3
    ensures Emitted(order, OutcomeReports(outs)) == Emitted(order, SlotReports(slots))
    ensures forall id :: EntryAt(t4, id) == if id in slots then slots[id].entry else None
  {
    EmittedFrom(order, OutcomeReports(outs), SlotReports(slots));
  }

  /** The parts of a round make up a move of the table. */
  lemma RoundMoves(cfg: Config, pairs: string -> Pair, t0: map<string, Entry>, t2: map<string, Entry>,
                   t3: map<string, Entry>,
                   t4: map<string, Entry>, r: TableRound, outs: map<string, Outcome>)
    requires ProperTable(cfg, pairs, t0) && ProperBatch(cfg, pairs, r.fl)
    requires ReadyTable(cfg, pairs, t2) && IsCollected(cfg, t0, r.fl, t2)
    requires AreVerdicts(cfg, pairs, t2, r.now, r.swaps, outs)
    requires Distinct(r.order) && (set id | id in r.order) == r.swaps.Keys == t3.Keys == t2.Keys
    requires r.newFl == Emitted(r.order, OutcomeReports(outs))
    requires forall id | id in t3 :: t3[id] == outs[id].entry
    requires t4 == if r.cleanup then map id | id in t3 && !Removable(t3[id]) :: t3[id] else t3
    ensures TableMoves(cfg, pairs, t0, r, t4) && ProperTable(cfg, pairs, t4)
  {
    SlotsAre(cfg, pairs, t0, t2, r.fl, r.now, r.swaps, outs, r.cleanup);
    RoundEnds(t3, t4, r.order, outs, SlotsOf(cfg, pairs, t0, r), r.cleanup);
  }

  /** The other side's latest record joins that of the round. */
  lemma JoinsOther(cfg: Config, p: Pair, e: Entry, k: string, other: string)
    requires e.flows.Keys == {k} && k in p.Both() && other != k && other in e.flowsPrev && e.flowsPrev.Keys <= p.Both()
    ensures
      var e' := e.(flows := e.flows[other := e.flowsPrev[other]]);
      && e'.flows == e.Known() && e'.flows.Keys == p.Both()
      && forall now, swap ::
        ActionSpec.OneFlow(cfg, p, e, k, now, swap) == Combine(cfg, e', p.First(swap), p.Second(swap), now)
  {
    assert other in p.Both();
  }

  lemma MoveToKnown<T>(prev: map<string, T>, cur: map<string, T>, u: string)
    requires u in cur
    ensures prev[u := cur[u]] + (cur - {u}) == prev + cur
  {
  }

  lemma CardinalityOfPair(p: Pair, m: map<string, VpclogsFlow>)
    requires p.u1 != p.u2 && m.Keys == p.Both()
    ensures |m| == 2
  {
    assert |p.Both()| == 2;
    assert |m.Keys| == |m|;
  }

  lemma KeysWithin(p: Pair, m: map<string, VpclogsFlow>)
    requires p.u1 != p.u2 && m.Keys <= p.Both()
    ensures |m| == 2 <==> m.Keys == p.Both()
    ensures |m| == 1 <==> exists k :: k in m && m.Keys == {k}
    ensures |m| == 0 <==> m == map[]
    ensures |m| <= 2
  {
    assert |m.Keys| == |m|;
    if p.u1 in m && p.u2 in m {
      assert m.Keys == p.Both() && |p.Both()| == 2;
    } else if p.u1 in m {
      assert m.Keys == {p.u1};
    } else if p.u2 in m {
      assert m.Keys == {p.u2};
    } else {
      assert m.Keys == {};
    }
  }

  ghost function PairOrder(p: Pair, k1: string, k2: string): (swap: bool)
    requires {k1, k2} == p.Both() && k1 != k2
    ensures k1 == p.First(swap) && k2 == p.Second(swap)
  {
    assert k1 in p.Both() && k2 in p.Both() && p.u1 in {k1, k2} && p.u2 in {k1, k2};
    k1 != p.u1
  }
}
