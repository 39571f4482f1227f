/** The rounds of a tracking ID fall into lives of its table entry, so what ActionAccounting
    proves of a life holds of every entry that any run of the table reaches. */
module ActionLives {
  import opened Wrappers
  import opened VpcFlow
  import opened ActionSpec
  import opened ActionRounds
  import opened ActionAccounting
  import opened ActionOrder
  import opened ActionVerdicts
  import E = ActionEngine

  /** The rounds of that entry, up to and including the latest one. */
  function LatestLife(cfg: Config, p: Pair, ins: seq<SlotIn>): seq<RoundIn>
    requires ProperIns(cfg, p, ins)
  {
    if !Lives(cfg, p, ins) then []
    else
      var r := RoundIn(Last(ins).own, Last(ins).now, Last(ins).swap);
      if SlotRun(cfg, p, Front(ins)).slot.None? then [r] else LatestLife(cfg, p, Front(ins)) + [r]
  }

  predicate IsLifeOf(cfg: Config, p: Pair, life: seq<RoundIn>, h: History, cleanup: bool) {
    ProperLife(cfg, p, life) && life != [] && Ends(h, Run(cfg, p, life), cleanup)
  }

  /** The history ends in the reports of the life, and its slot is the entry of the life unless
      a cleanup has just removed it. */
  predicate Ends(h: History, l: Life, cleanup: bool) {
    && |l.reports| <= |h.reports| && h.reports[|h.reports| - |l.reports|..] == l.reports
    && h.slot == if cleanup && Removable(l.entry) then None else Some(l.entry)
  }

  lemma RunExtends(cfg: Config, p: Pair, life: seq<RoundIn>, r: RoundIn)
    requires ProperLife(cfg, p, life) && ProperFlows(cfg, p, r.own) && life != []
    ensures ProperLife(cfg, p, life + [r])
    ensures
      var l := Run(cfg, p, life);
      var o := Round(cfg, p, l.entry, r.own, r.now, r.swap);
      Run(cfg, p, life + [r]) == Life(o.entry, l.reports + [o.report])
  {
    assert Front(life + [r]) == life && (life + [r])[0] == life[0];
  }

  lemma LifeGrows(cfg: Config, p: Pair, life: seq<RoundIn>, h: History, cleanup: bool, i: SlotIn)
    requires IsLifeOf(cfg, p, life, h, cleanup) && h.slot.Some? && SlotOk(cfg, p, h.slot) && ProperFlows(cfg, p, i.own)
    ensures
      var s := Step(cfg, p, h.slot, i.own, i.now, i.swap, i.cleanup);
      IsLifeOf(cfg, p, life + [RoundIn(i.own, i.now, i.swap)], History(s.entry, h.reports + [s.report]), i.cleanup)
  {
    var r, l := RoundIn(i.own, i.now, i.swap), Run(cfg, p, life);
    RunExtends(cfg, p, life, r);
    EndsExtend(h, l, Round(cfg, p, l.entry, r.own, r.now, r.swap), cleanup, i.cleanup);
  }

  lemma EndsExtend(h: History, l: Life, o: Outcome, cleanup: bool, cleanup': bool)
    requires Ends(h, l, cleanup)
    ensures
      var slot := if cleanup' && Removable(o.entry) then None else Some(o.entry);
      Ends(History(slot, h.reports + [o.report]), Life(o.entry, l.reports + [o.report]), cleanup')
  {
    SuffixGrows(h.reports, l.reports, o.report);
  }

  lemma SuffixGrows(a: seq<Option<VpclogsFlow>>, b: seq<Option<VpclogsFlow>>, r: Option<VpclogsFlow>)
    requires |b| <= |a| && a[|a| - |b|..] == b
    ensures (a + [r])[|a| - |b|..] == b + [r]
  {
  }

  lemma LifeStarts(cfg: Config, p: Pair, h: History, i: SlotIn)
    requires ProperSetup(cfg, p) && h.slot.None? && ProperFlows(cfg, p, i.own) && i.own != []
    ensures
      var s := Step(cfg, p, h.slot, i.own, i.now, i.swap, i.cleanup);
      IsLifeOf(cfg, p, [RoundIn(i.own, i.now, i.swap)], History(s.entry, h.reports + [s.report]), i.cleanup)
  {
    var r := RoundIn(i.own, i.now, i.swap);
    assert Front([r]) == [];
  }

  /** Every entry of every run is the outcome of its life, and the latest reports of its tracking
      ID are the reports of that life, those of a round that ends in its removal included. Rounds
      outside of lives report nothing. */
  lemma {:induction false} EntryIsItsLife(cfg: Config, p: Pair, ins: seq<SlotIn>)
    requires ProperIns(cfg, p, ins)
    ensures SlotRun(cfg, p, ins).slot.Some? ==> Lives(cfg, p, ins)
    ensures Lives(cfg, p, ins) ==> IsLifeOf(cfg, p, LatestLife(cfg, p, ins), SlotRun(cfg, p, ins), Last(ins).cleanup)
    ensures ins != [] && !Lives(cfg, p, ins) ==> Last(SlotRun(cfg, p, ins).reports) == None
  {
    if ins != [] {
      var h := SlotRun(cfg, p, Front(ins));
      EntryIsItsLife(cfg, p, Front(ins));
      if h.slot.Some? {
        LifeGrows(cfg, p, LatestLife(cfg, p, Front(ins)), h, Last(Front(ins)).cleanup, Last(ins));
      } else if Last(ins).own != [] {
        LifeStarts(cfg, p, h, Last(ins));
      }
    }
  }

  /** A round that finds or creates an entry removes it if and only if a cleanup is due and the
      latest report of its life is a Reject or of a terminated flow. */
  lemma EntryRemovedIff(cfg: Config, p: Pair, ins: seq<SlotIn>)
    requires ProperIns(cfg, p, ins) && Lives(cfg, p, ins)
    ensures ProperLife(cfg, p, LatestLife(cfg, p, ins))
    ensures
      var r := LastReport(Run(cfg, p, LatestLife(cfg, p, ins)).reports);
      SlotRun(cfg, p, ins).slot.None? <==>
        Last(ins).cleanup && r.Some? && (r.value.action == Reject || r.value.wasTerminated)
  {
    EntryIsItsLife(cfg, p, ins);
    RunRemembers(cfg, p, LatestLife(cfg, p, ins));
    EndsRemoved(SlotRun(cfg, p, ins), Run(cfg, p, LatestLife(cfg, p, ins)), Last(ins).cleanup);
  }

  lemma EndsRemoved(h: History, l: Life, cleanup: bool)
    requires Ends(h, l, cleanup)
    ensures
      var r := l.entry.flowReported;
      h.slot.None? <==> cleanup && r.Some? && (r.value.action == Reject || r.value.wasTerminated)
  {
  }

  // ----- runs of the whole table

  /** What a round of the table is to one tracking ID. */
  function InOf(cfg: Config, r: E.TableRound, id: string): SlotIn {
    SlotIn(Own(cfg, r.fl, id), r.now, id in r.swaps && r.swaps[id], r.cleanup)
  }

  function InsOf(cfg: Config, rounds: seq<E.TableRound>, id: string): (ins: seq<SlotIn>)
    ensures |ins| == |rounds|
  {
    if rounds == [] then [] else InsOf(cfg, Front(rounds), id) + [InOf(cfg, Last(rounds), id)]
  }

  ghost function ReportOf(cfg: Config, pairs: string -> Pair, t: map<string, Entry>, r: E.TableRound,
                          id: string): Option<VpclogsFlow>
    requires E.ProperRound(cfg, pairs, t, r)
  {
    var slots := E.SlotsOf(cfg, pairs, t, r);
    if id in slots then slots[id].report else None
  }

  lemma TableMovesSlot(cfg: Config, pairs: string -> Pair, t: map<string, Entry>, r: E.TableRound,
                       t': map<string, Entry>, id: string)
    requires E.TableMoves(cfg, pairs, t, r, t')
    ensures
      var i := InOf(cfg, r, id);
      && ProperSetup(cfg, pairs(id)) && ProperFlows(cfg, pairs(id), i.own) && SlotOk(cfg, pairs(id), E.EntryAt(t, id))
      && Slot(E.EntryAt(t', id), ReportOf(cfg, pairs, t, r, id))
         == Step(cfg, pairs(id), E.EntryAt(t, id), i.own, i.now, i.swap, i.cleanup)
  {
    E.OwnProper(cfg, pairs, r.fl, id);
    var slots := E.SlotsOf(cfg, pairs, t, r);
    assert id in slots <==> id in r.swaps;
  }

  /** The table starts empty and moves round by round. */
  ghost predicate TableRuns(cfg: Config, pairs: string -> Pair, tables: seq<map<string, Entry>>,
                            rounds: seq<E.TableRound>)
  {
    && |tables| == |rounds| + 1 && tables[0] == map[] && E.ProperPairs(cfg, pairs)
    && forall i | 0 <= i < |rounds| :: E.TableMoves(cfg, pairs, tables[i], rounds[i], tables[i + 1])
  }

  lemma TableRunsFront(cfg: Config, pairs: string -> Pair, tables: seq<map<string, Entry>>, rounds: seq<E.TableRound>)
    requires TableRuns(cfg, pairs, tables, rounds) && rounds != []
    ensures TableRuns(cfg, pairs, Front(tables), Front(rounds))
    ensures Last(Front(tables)) == tables[|rounds| - 1]
      && E.TableMoves(cfg, pairs, Last(Front(tables)), Last(rounds), Last(tables))
  {
  }

  /** After any number of rounds of the table the entry of a tracking ID is that of its own run:
      the other tracking IDs have played no part in it. */
  lemma {:induction false} TableRunIsSlotRun(cfg: Config, pairs: string -> Pair, tables: seq<map<string, Entry>>,
                                             rounds: seq<E.TableRound>, id: string)
    requires TableRuns(cfg, pairs, tables, rounds)
    ensures ProperIns(cfg, pairs(id), InsOf(cfg, rounds, id))
    ensures E.EntryAt(Last(tables), id) == SlotRun(cfg, pairs(id), InsOf(cfg, rounds, id)).slot
  {
    if rounds != [] {
      TableRunsFront(cfg, pairs, tables, rounds);
      TableRunIsSlotRun(cfg, pairs, Front(tables), Front(rounds), id);
      TableMovesSlot(cfg, pairs, Last(Front(tables)), Last(rounds), Last(tables), id);
      SlotRunStep(cfg, pairs(id), InsOf(cfg, Front(rounds), id), InOf(cfg, Last(rounds), id));
    }
  }

  /** And so is its report of every round. */
  lemma {:induction false} TableReportIsRunReport(cfg: Config, pairs: string -> Pair, tables: seq<map<string, Entry>>,
                                                  rounds: seq<E.TableRound>, n: nat, id: string)
    requires TableRuns(cfg, pairs, tables, rounds) && n < |rounds|
    ensures E.TableMoves(cfg, pairs, tables[n], rounds[n], tables[n + 1])
      && ProperIns(cfg, pairs(id), InsOf(cfg, rounds, id))
    ensures ReportOf(cfg, pairs, tables[n], rounds[n], id) == SlotRun(cfg, pairs(id), InsOf(cfg, rounds, id)).reports[n]
  {
    TableRunsFront(cfg, pairs, tables, rounds);
    TableRunIsSlotRun(cfg, pairs, Front(tables), Front(rounds), id);
    TableMovesSlot(cfg, pairs, Last(Front(tables)), Last(rounds), Last(tables), id);
    SlotRunStep(cfg, pairs(id), InsOf(cfg, Front(rounds), id), InOf(cfg, Last(rounds), id));
    if n < |rounds| - 1 {
      TableReportIsRunReport(cfg, pairs, Front(tables), Front(rounds), n, id);
    }
  }

  /** The reports that the runs of the tracking IDs have for a round. */
  ghost function RunReports(cfg: Config, pairs: string -> Pair, rounds: seq<E.TableRound>, n: nat)
    : map<string, Option<VpclogsFlow>>
    requires n < |rounds| && forall id :: ProperIns(cfg, pairs(id), InsOf(cfg, rounds, id))
  {
    map id | id in rounds[n].swaps :: SlotRun(cfg, pairs(id), InsOf(cfg, rounds, id)).reports[n]
  }

  /** So the output of every round of the table is made up of the reports of the runs, one per
      tracking ID at most, and what is proved of the reports of a run holds of the output. */
  lemma TableEmitsRunReports(cfg: Config, pairs: string -> Pair, tables: seq<map<string, Entry>>,
                             rounds: seq<E.TableRound>, n: nat)
    requires TableRuns(cfg, pairs, tables, rounds) && n < |rounds|
    ensures forall id :: ProperIns(cfg, pairs(id), InsOf(cfg, rounds, id))
    ensures (forall id | id in rounds[n].order :: id in rounds[n].swaps) && E.Distinct(rounds[n].order)
    ensures rounds[n].newFl == E.Emitted(rounds[n].order, RunReports(cfg, pairs, rounds, n))
  {
    var r := rounds[n];
    assert E.TableMoves(cfg, pairs, tables[n], r, tables[n + 1]);
    forall id
      ensures ProperIns(cfg, pairs(id), InsOf(cfg, rounds, id))
      ensures ReportOf(cfg, pairs, tables[n], r, id) == SlotRun(cfg, pairs(id), InsOf(cfg, rounds, id)).reports[n]
    {
      TableReportIsRunReport(cfg, pairs, tables, rounds, n, id);
    }
    var slots := E.SlotsOf(cfg, pairs, tables[n], r);
    forall id | id in r.order
      ensures id in slots && slots[id].report == ReportOf(cfg, pairs, tables[n], r, id)
    {
      assert id in (set x | x in r.order);
    }
    E.EmittedFrom(r.order, E.SlotReports(slots), RunReports(cfg, pairs, rounds, n));
  }

  /** Said of the output alone: it is the reports that the tracking IDs with an entry or a record
      make in their own runs, each once, in the order in which the table is visited. */
  lemma TableOutputIsReports(cfg: Config, pairs: string -> Pair, tables: seq<map<string, Entry>>,
                             rounds: seq<E.TableRound>, n: nat) returns (at: seq<nat>)
    requires TableRuns(cfg, pairs, tables, rounds) && n < |rounds|
    ensures forall id :: ProperIns(cfg, pairs(id), InsOf(cfg, rounds, id))
    ensures E.Distinct(rounds[n].order)
    ensures forall id :: id in rounds[n].order <==> id in tables[n] || Own(cfg, rounds[n].fl, id) != []
    ensures Increasing(at, |rounds[n].order|) && |at| == |rounds[n].newFl|
    ensures forall j | 0 <= j < |at| ::
      var id := rounds[n].order[at[j]];
      SlotRun(cfg, pairs(id), InsOf(cfg, rounds, id)).reports[n] == Some(rounds[n].newFl[j])
    ensures forall i: nat | i < |rounds[n].order| ::
      var id := rounds[n].order[i];
      i in at <==> SlotRun(cfg, pairs(id), InsOf(cfg, rounds, id)).reports[n].Some?
  {
    TableEmitsRunReports(cfg, pairs, tables, rounds, n);
    assert E.TableMoves(cfg, pairs, tables[n], rounds[n], tables[n + 1]);
    forall id ensures id in rounds[n].order <==> id in rounds[n].swaps {
      assert id in rounds[n].order <==> id in (set x | x in rounds[n].order);
    }
    at := E.EmittedIsPicked(rounds[n].order, RunReports(cfg, pairs, rounds, n));
  }
}
