/** Conservation, object names and losses of the buffered store, over all runs of a tag. */
module ObjectStoreRuns {
  import opened Wrappers
  import opened ObjectStoreSpec

  // ----- conservation

  function Flatten<F>(trace: seq<Segment<F>>): seq<F> {
    if trace == [] then [] else trace[0].Flows() + Flatten(trace[1..])
  }

  lemma {:induction false} FlattenConcat<F>(a: seq<Segment<F>>, b: seq<Segment<F>>)
    ensures Flatten(a + b) == Flatten(a) + Flatten(b)
  {
    if a == [] {
      assert a + b == b;
    } else {
      FlattenConcat(a[1..], b);
      assert (a + b)[0] == a[0] && (a + b)[1..] == a[1..] + b;
      Assoc(a[0].Flows(), Flatten(a[1..]), Flatten(b));
    }
  }

  function Received<F>(ins: seq<TagIn<F>>): seq<F> {
    if ins == [] then [] else Received(Front(ins)) + Last(ins).incoming
  }

  lemma Assoc<T>(a: seq<T>, b: seq<T>, c: seq<T>)
    ensures (a + b) + c == a + (b + c)
  {
  }

  lemma SplitAt<T>(s: seq<T>, n: nat)
    requires n <= |s|
    ensures s[..n] + s[n..] == s
  {
  }

  /** The flush loop only moves flows from the front of the queue into objects. */
  lemma {:induction false} LoopConserves<F>(cfg: Config, s: TagState<F>, now: int, limit: Option<nat>)
    requires cfg.Sane() && s.lastFlush.Some?
    ensures
      var p := FlushLoop(cfg, s, now, limit);
      && Flatten(p.trace) + p.state.flows == s.flows
      && forall seg | seg in p.trace :: seg.Written?
    decreases |s.flows|
  {
    if MustFlush(cfg, s, now) && limit != Some(0) {
      var s', o := AfterFlush(cfg, s, now), NextObject(cfg, s, now);
      LoopConserves(cfg, s', now, Fewer(limit));
      var rest := FlushLoop(cfg, s', now, Fewer(limit));
      FlattenCons(Written(o), rest.trace);
      Assoc(o.flows, Flatten(rest.trace), rest.state.flows);
      SplitAt(s.flows, ObjectSize(cfg, |s.flows|));
    }
  }

  lemma FlattenCons<F>(seg: Segment<F>, trace: seq<Segment<F>>)
    ensures Flatten([seg] + trace) == seg.Flows() + Flatten(trace)
    ensures Flatten([seg]) == seg.Flows()
  {
    assert ([seg] + trace)[1..] == trace;
    assert [seg][1..] == [];
  }

  /** Dropping the front of a queue adds the dropped flows to what has left. */
  lemma DropConserves<F>(trace: seq<Segment<F>>, seg: Segment<F>, rest: seq<F>)
    ensures Flatten(trace + [seg]) + rest == Flatten(trace) + (seg.Flows() + rest)
  {
    FlattenConcat(trace, [seg]);
    FlattenCons(seg, []);
    Assoc(Flatten(trace), seg.Flows(), rest);
  }

  lemma TrimConserves<F>(cfg: Config, p: Progress<F>)
    requires cfg.Sane()
    ensures Flatten(Trim(cfg, p).trace) + Trim(cfg, p).state.flows == Flatten(p.trace) + p.state.flows
  {
    var overflow := |p.state.flows| - cfg.maxFlowArraySize;
    if overflow > 0 {
      DropConserves(p.trace, Trimmed(p.state.flows[..overflow]), p.state.flows[overflow..]);
      assert p.state.flows[..overflow] + p.state.flows[overflow..] == p.state.flows;
    }
  }

  lemma CompactConserves<F>(p: Progress<F>)
    ensures Flatten(Compact(p).trace) + Compact(p).state.flows == Flatten(p.trace) + p.state.flows
  {
    if p.state.flows != [] {
      DropConserves(p.trace, Compacted(p.state.flows), []);
      assert p.state.flows + [] == p.state.flows;
    }
  }

  lemma StoreConserves<F>(cfg: Config, s: TagState<F>, incoming: seq<F>, now: int, limit: Option<nat>)
    requires cfg.Sane()
    ensures
      var p := StoreTag(cfg, s, incoming, now, limit);
      Flatten(p.trace) + p.state.flows == s.flows + incoming
  {
    var looped := FlushLoop(cfg, Sighted(s, incoming, now), now, limit);
    LoopConserves(cfg, Sighted(s, incoming, now), now, limit);
    TrimConserves(cfg, looped);
    CompactConserves(Trim(cfg, looped));
  }

  /** Over any run, the flows received so far are, in order and each exactly once, the
      written objects, the dropped segments and what is still queued. */
  lemma {:induction false} RunConserves<F>(cfg: Config, ins: seq<TagIn<F>>)
    requires cfg.Sane()
    ensures Flatten(Run(cfg, ins).trace) + Run(cfg, ins).state.flows == Received(ins)
  {
    if ins != [] {
      RunConserves(cfg, Front(ins));
      var r, i := Run(cfg, Front(ins)), Last(ins);
      var p := StoreTag(cfg, r.state, i.incoming, i.now, i.limit);
      StoreConserves(cfg, r.state, i.incoming, i.now, i.limit);
      FlattenConcat(r.trace, p.trace);
      Assoc(Flatten(r.trace), Flatten(p.trace), p.state.flows);
      Assoc(Flatten(r.trace), r.state.flows, i.incoming);
    }
  }

  // ----- object names

  function Objects<F>(trace: seq<Segment<F>>): seq<Object<F>> {
    if trace == [] then []
    else Objects(Front(trace)) + if Last(trace).Written? then [Last(trace).obj] else []
  }

  lemma {:induction false} ObjectsConcat<F>(a: seq<Segment<F>>, b: seq<Segment<F>>)
    ensures Objects(a + b) == Objects(a) + Objects(b)
  {
    if b == [] {
      assert a + b == a;
    } else {
      ObjectsConcat(a, Front(b));
      assert Front(a + b) == a + Front(b) && Last(a + b) == Last(b);
      Assoc(Objects(a), Objects(Front(b)), if Last(b).Written? then [Last(b).obj] else []);
    }
  }

  /** `o` may follow `prev` in the objects of a tag: it takes the next number of the same
      stream or starts a new stream, and its time range starts where the other ended. */
  predicate MayFollow<F>(cfg: Config, prev: Object<F>, o: Object<F>) {
    && o.start == prev.end
    && if o.streamId == prev.streamId && o.seqNumber != 0
       then o.seqNumber == prev.seqNumber + 1 && o.end - o.streamId < SECOND * cfg.maxSecondsPerStream
       else o.seqNumber == 0 && o.streamId == o.end && o.streamId - prev.streamId >= SECOND * cfg.maxSecondsPerStream
  }

  predicate Chained<F>(cfg: Config, objs: seq<Object<F>>) {
    && (objs != [] ==> objs[0].seqNumber == 0 && objs[0].streamId == objs[0].end)
    && forall i | 0 < i < |objs| :: MayFollow(cfg, objs[i - 1], objs[i])
  }

  /** The state from which the next object of the tag will follow. */
  predicate Continues<F>(objs: seq<Object<F>>, s: TagState<F>) {
    if objs == [] then s.stream.None?
    else s.stream == Some(Stream(Last(objs).streamId, Last(objs).seqNumber + 1)) && s.lastFlush == Some(Last(objs).end)
  }

  lemma {:induction false} LoopChains<F>(cfg: Config, objs: seq<Object<F>>, s: TagState<F>, now: int,
                                         limit: Option<nat>)
    requires cfg.Sane() && s.lastFlush.Some? && Chained(cfg, objs) && Continues(objs, s)
    ensures
      var p := FlushLoop(cfg, s, now, limit);
      var all := objs + Objects(p.trace);
      Chained(cfg, all) && Continues(all, p.state)
    decreases |s.flows|
  {
    var p := FlushLoop(cfg, s, now, limit);
    if MustFlush(cfg, s, now) && limit != Some(0) {
      var o, s' := NextObject(cfg, s, now), AfterFlush(cfg, s, now);
      if objs != [] { assert MayFollow(cfg, Last(objs), o); }
      LoopChains(cfg, objs + [o], s', now, Fewer(limit));
      var rest := FlushLoop(cfg, s', now, Fewer(limit));
      ObjectsConcat([Written(o)], rest.trace);
      assert Front([Written(o)]) == [];
      assert objs + Objects(p.trace) == objs + [o] + Objects(rest.trace);
    } else {
      assert objs + Objects(p.trace) == objs;
    }
  }

  lemma StoreObjects<F>(cfg: Config, s: TagState<F>, incoming: seq<F>, now: int, limit: Option<nat>)
    requires cfg.Sane()
    ensures
      var looped := FlushLoop(cfg, Sighted(s, incoming, now), now, limit);
      var p := StoreTag(cfg, s, incoming, now, limit);
      Objects(p.trace) == Objects(looped.trace) && p.state.stream == looped.state.stream
        && p.state.lastFlush == looped.state.lastFlush
  {
    var looped := FlushLoop(cfg, Sighted(s, incoming, now), now, limit);
    var trimmed := Trim(cfg, looped);
    var p := StoreTag(cfg, s, incoming, now, limit);
    if trimmed.trace != looped.trace { assert Front(trimmed.trace) == looped.trace; }
    if p.trace != trimmed.trace { assert Front(p.trace) == trimmed.trace; }
  }

  /** Until there are objects the flush time is that of the first sighting, and from then on the
      first object keeps it. */
  predicate SightedAt<F>(objs: seq<Object<F>>, s: TagState<F>, first: int) {
    if objs == [] then s.lastFlush == Some(first) else objs[0].start == first
  }

  lemma {:induction false} LoopKeepsSighting<F>(cfg: Config, objs: seq<Object<F>>, s: TagState<F>, now: int,
                                                limit: Option<nat>, first: int)
    requires cfg.Sane() && s.lastFlush.Some? && SightedAt(objs, s, first)
    ensures
      var p := FlushLoop(cfg, s, now, limit);
      SightedAt(objs + Objects(p.trace), p.state, first)
    decreases |s.flows|
  {
    var p := FlushLoop(cfg, s, now, limit);
    if MustFlush(cfg, s, now) && limit != Some(0) {
      var o, s' := NextObject(cfg, s, now), AfterFlush(cfg, s, now);
      LoopKeepsSighting(cfg, objs + [o], s', now, Fewer(limit), first);
      var rest := FlushLoop(cfg, s', now, Fewer(limit));
      ObjectsConcat([Written(o)], rest.trace);
      assert Front([Written(o)]) == [];
      assert objs + Objects(p.trace) == objs + [o] + Objects(rest.trace);
    } else {
      assert objs + Objects(p.trace) == objs;
    }
  }

  /** Over any run, the first object of a tag starts at the call that sighted the tag. */
  lemma {:induction false} RunStartsAtSighting<F>(cfg: Config, ins: seq<TagIn<F>>)
    requires cfg.Sane() && ins != []
    ensures SightedAt(Objects(Run(cfg, ins).trace), Run(cfg, ins).state, ins[0].now)
  {
    var r, i := Run(cfg, Front(ins)), Last(ins);
    if |ins| > 1 {
      RunStartsAtSighting(cfg, Front(ins));
    }
    LoopKeepsSighting(cfg, Objects(r.trace), Sighted(r.state, i.incoming, i.now), i.now, i.limit, ins[0].now);
    StoreObjects(cfg, r.state, i.incoming, i.now, i.limit);
    ObjectsConcat(r.trace, StoreTag(cfg, r.state, i.incoming, i.now, i.limit).trace);
  }

  /** Over any run, the objects of a tag form one chain: numbers 0, 1, 2, ... within every
      stream, failed writes taking none, and time ranges that abut from the call that
      sighted the tag. */
  lemma {:induction false} RunChains<F>(cfg: Config, ins: seq<TagIn<F>>)
    requires cfg.Sane()
    ensures Chained(cfg, Objects(Run(cfg, ins).trace)) && Continues(Objects(Run(cfg, ins).trace), Run(cfg, ins).state)
    ensures Objects(Run(cfg, ins).trace) != [] ==> ins != [] && Objects(Run(cfg, ins).trace)[0].start == ins[0].now
  {
    if ins != [] {
      RunChains(cfg, Front(ins));
      var r, i := Run(cfg, Front(ins)), Last(ins);
      LoopChains(cfg, Objects(r.trace), Sighted(r.state, i.incoming, i.now), i.now, i.limit);
      StoreObjects(cfg, r.state, i.incoming, i.now, i.limit);
      ObjectsConcat(r.trace, StoreTag(cfg, r.state, i.incoming, i.now, i.limit).trace);
      RunStartsAtSighting(cfg, ins);
    }
  }

  /** An object of a call ends at the call and holds some flows, at most a full object. */
  ghost predicate Stamped<F>(cfg: Config, objs: seq<Object<F>>, now: int) {
    forall o | o in objs :: o.end == now && 0 < |o.flows| <= cfg.maxFlowsPerObject
  }

  lemma {:induction false} LoopStamps<F>(cfg: Config, s: TagState<F>, now: int, limit: Option<nat>)
    requires cfg.Sane() && s.lastFlush.Some?
    ensures Stamped(cfg, Objects(FlushLoop(cfg, s, now, limit).trace), now)
    decreases |s.flows|
  {
    if MustFlush(cfg, s, now) && limit != Some(0) {
      var o, s' := NextObject(cfg, s, now), AfterFlush(cfg, s, now);
      LoopStamps(cfg, s', now, Fewer(limit));
      ObjectsConcat([Written(o)], FlushLoop(cfg, s', now, Fewer(limit)).trace);
      assert Front([Written(o)]) == [];
    }
  }

  /** Over any run, a call adds objects to those before it that are its own. */
  lemma RunStamps<F>(cfg: Config, ins: seq<TagIn<F>>) returns (added: seq<Object<F>>)
    requires cfg.Sane() && ins != []
    ensures Objects(Run(cfg, ins).trace) == Objects(Run(cfg, Front(ins)).trace) + added
    ensures Stamped(cfg, added, Last(ins).now)
  {
    var r, i := Run(cfg, Front(ins)), Last(ins);
    added := Objects(StoreTag(cfg, r.state, i.incoming, i.now, i.limit).trace);
    LoopStamps(cfg, Sighted(r.state, i.incoming, i.now), i.now, i.limit);
    StoreObjects(cfg, r.state, i.incoming, i.now, i.limit);
    ObjectsConcat(r.trace, StoreTag(cfg, r.state, i.incoming, i.now, i.limit).trace);
  }

  predicate KeyBefore(a: (int, nat), b: (int, nat)) {
    a.0 < b.0 || (a.0 == b.0 && a.1 < b.1)
  }

  lemma {:induction false} ChainOrdersKeys<F>(cfg: Config, objs: seq<Object<F>>, i: nat, j: nat)
    requires Chained(cfg, objs) && cfg.maxSecondsPerStream >= 1 && i < j < |objs|
    ensures KeyBefore(objs[i].Key(), objs[j].Key())
    decreases j
  {
    assert MayFollow(cfg, objs[j - 1], objs[j]);
    if i < j - 1 {
      ChainOrdersKeys(cfg, objs, i, j - 1);
    }
  }

  predicate DistinctKeys<F>(objs: seq<Object<F>>) {
    forall i, j | 0 <= i < j < |objs| :: objs[i].Key() != objs[j].Key()
  }

  /** With streams that last no time, a call with two full objects writes them under one key. */
  lemma SameKeyTwice<F>(cfg: Config, full: seq<F>, now: int) returns (ins: seq<TagIn<F>>)
    requires cfg.Sane() && cfg.maxSecondsPerStream < 1 && |full| == cfg.maxFlowsPerObject
    ensures ClockForward(ins) && !DistinctKeys(Objects(Run(cfg, ins).trace))
  {
    ins := [TagIn(full + full, now, None)];
    assert ins[..0] == [];
    var s := Sighted(Emptied(), full + full, now);
    var s1 := AfterFlush(cfg, s, now);
    var s2 := AfterFlush(cfg, s1, now);
    var o1, o2 := NextObject(cfg, s, now), NextObject(cfg, s1, now);
    var looped := FlushLoop(cfg, s, now, None);
    assert s1.flows == full && s2.flows == [];
    assert FlushLoop(cfg, s2, now, None).trace == [];
    assert FlushLoop(cfg, s1, now, None).trace == [Written(o2)];
    assert looped.trace == [Written(o1), Written(o2)];
    assert Front(looped.trace) == [Written(o1)] && Front([Written(o1)]) == [];
    ObjectsConcat([Written(o1)], [Written(o2)]);
    assert Front([Written(o2)]) == [];
    assert Objects(looped.trace) == [o1, o2];
    StoreObjects(cfg, Emptied(), full + full, now, None);
    assert Run(cfg, ins).trace == StoreTag(cfg, Emptied(), full + full, now, None).trace;
    var objs := Objects(Run(cfg, ins).trace);
    assert objs == [o1, o2] && objs[0].Key() == objs[1].Key();
  }

  /** All objects of a tag have different names, in every run with a forward clock, if and
      only if streams last at least the second to which their start is printed. */
  lemma KeysDistinctIff<F(!new)>(cfg: Config, full: seq<F>)
    requires cfg.Sane() && |full| == cfg.maxFlowsPerObject
    ensures
      (forall ins: seq<TagIn<F>> | ClockForward(ins) :: DistinctKeys(Objects(Run(cfg, ins).trace)))
      <==> cfg.maxSecondsPerStream >= 1
  {
    if cfg.maxSecondsPerStream >= 1 {
      forall ins: seq<TagIn<F>> ensures DistinctKeys(Objects(Run(cfg, ins).trace)) {
        RunChains(cfg, ins);
        var objs := Objects(Run(cfg, ins).trace);
        forall i, j | 0 <= i < j < |objs| ensures objs[i].Key() != objs[j].Key() {
          ChainOrdersKeys(cfg, objs, i, j);
        }
      }
    } else {
      var ins := SameKeyTwice(cfg, full, 0);
    }
  }

  // ----- what a call leaves in the queue

  lemma {:induction false} LoopEnds<F>(cfg: Config, s: TagState<F>, now: int, limit: Option<nat>)
    requires cfg.Sane() && s.lastFlush.Some?
    ensures
      var p := FlushLoop(cfg, s, now, limit);
      && (!p.failed ==> !MustFlush(cfg, p.state, now))
      && (p.failed ==> limit.Some? && |Objects(p.trace)| == limit.value)
      && |p.state.flows| <= |s.flows|
      && (limit.None? ==> !p.failed)
    decreases |s.flows|
  {
    if MustFlush(cfg, s, now) && limit != Some(0) {
      var s', o := AfterFlush(cfg, s, now), NextObject(cfg, s, now);
      LoopEnds(cfg, s', now, Fewer(limit));
      ObjectsConcat([Written(o)], FlushLoop(cfg, s', now, Fewer(limit)).trace);
      assert Front([Written(o)]) == [];
    }
  }

  /** After a call the queue is within its bound, and below the size of a full object unless
      a write failed in this very call. */
  lemma QueueBounded<F>(cfg: Config, s: TagState<F>, incoming: seq<F>, now: int, limit: Option<nat>)
    requires cfg.Sane()
    ensures
      var p := StoreTag(cfg, s, incoming, now, limit);
      && |p.state.flows| <= cfg.maxFlowArraySize
      && (!p.failed ==> |p.state.flows| < cfg.maxFlowsPerObject && !MustFlush(cfg, p.state, now))
      && (limit.None? ==> !p.failed)
  {
    LoopEnds(cfg, Sighted(s, incoming, now), now, limit);
  }

  // ----- which calls lose flows

  function Lost<F>(trace: seq<Segment<F>>): seq<F> {
    if trace == [] then []
    else Lost(Front(trace)) + if Last(trace).Written? then [] else Last(trace).Flows()
  }

  /** How many objects a call wants to write from a queue of `n` flows. */
  function DueObjects(cfg: Config, n: nat, due: bool): nat
    requires cfg.Sane()
  {
    var full := n / cfg.maxFlowsPerObject;
    if n == 0 then 0
    else if cfg.maxSecondsPerObject <= 0 then if n % cfg.maxFlowsPerObject == 0 then full else full + 1
    else if due && full == 0 then 1 else full
  }

  function WrittenObjects(cfg: Config, n: nat, due: bool, limit: Option<nat>): nat
    requires cfg.Sane()
  {
    var wanted := DueObjects(cfg, n, due);
    if limit.Some? && limit.value < wanted then limit.value else wanted
  }

  lemma DivSteps(n: nat, m: nat)
    requires m >= 1
    ensures n < m ==> n / m == 0 && n % m == n
    ensures n >= m ==> n / m == 1 + (n - m) / m && n % m == (n - m) % m
  {
    if n >= m {
      assert n == m * (n / m) + n % m;
      assert n - m == m * (n / m - 1) + n % m;
      DivUnique(n - m, m, n / m - 1, n % m);
    } else {
      DivUnique(n, m, 0, n);
    }
  }

  lemma DivUnique(n: nat, m: nat, q: int, r: nat)
    requires m >= 1 && r < m && n == m * q + r
    ensures n / m == q && n % m == r
  {
    var d := n / m - q;
    MulStep(m, d);
    MulStep(m, -d);
    assert m * d == m * (n / m) - m * q;
    assert m * d == r - n % m;
    assert m * -d == -(m * d);
  }

  lemma MulStep(m: nat, d: int)
    requires m >= 1
    ensures d >= 1 ==> m * d >= m
  {
  }

  /** One object written brings the number of due objects down by one. */
  lemma DueSteps(cfg: Config, n: nat, due: bool)
    requires cfg.Sane() && n > 0 && (n >= cfg.maxFlowsPerObject || due) && (cfg.maxSecondsPerObject <= 0 ==> due)
    ensures DueObjects(cfg, n, due) == 1 + DueObjects(cfg, n - ObjectSize(cfg, n), cfg.maxSecondsPerObject <= 0)
  {
    DivSteps(n, cfg.maxFlowsPerObject);
    DivSteps(0, cfg.maxFlowsPerObject);
  }

  predicate IsDue<F>(cfg: Config, s: TagState<F>, now: int)
    requires s.lastFlush.Some?
  {
    now - s.lastFlush.value >= SECOND * cfg.maxSecondsPerObject
  }

  function Remaining(cfg: Config, n: nat, written: nat): nat {
    if written * cfg.maxFlowsPerObject >= n then 0 else n - written * cfg.maxFlowsPerObject
  }

  lemma RemainingSteps(cfg: Config, n: nat, written: nat)
    requires cfg.Sane() && written >= 1
    ensures Remaining(cfg, n, written) == Remaining(cfg, n - ObjectSize(cfg, n), written - 1)
  {
    assert written * cfg.maxFlowsPerObject == (written - 1) * cfg.maxFlowsPerObject + cfg.maxFlowsPerObject;
  }

  /** The loop writes the due objects, unless a write fails, and leaves the rest. */
  lemma {:induction false} LoopWrites<F>(cfg: Config, s: TagState<F>, now: int, limit: Option<nat>)
    requires cfg.Sane() && s.lastFlush.Some? && s.lastFlush.value <= now
    ensures
      var p := FlushLoop(cfg, s, now, limit);
      var written := WrittenObjects(cfg, |s.flows|, IsDue(cfg, s, now), limit);
      |p.trace| == written && |p.state.flows| == Remaining(cfg, |s.flows|, written)
    decreases |s.flows|
  {
    var n := |s.flows|;
    DivSteps(n, cfg.maxFlowsPerObject);
    if MustFlush(cfg, s, now) {
      DueSteps(cfg, n, IsDue(cfg, s, now));
      if limit != Some(0) {
        var written := WrittenObjects(cfg, n, IsDue(cfg, s, now), limit);
        LoopWrites(cfg, AfterFlush(cfg, s, now), now, Fewer(limit));
        RemainingSteps(cfg, n, written);
      }
    }
  }

  lemma LostAppend<F>(trace: seq<Segment<F>>, seg: Segment<F>)
    ensures Lost(trace + [seg]) == Lost(trace) + if seg.Written? then [] else seg.Flows()
  {
    assert Front(trace + [seg]) == trace;
  }

  lemma {:induction false} WrittenLosesNothing<F>(trace: seq<Segment<F>>)
    requires forall seg | seg in trace :: seg.Written?
    ensures Lost(trace) == []
  {
    if trace != [] {
      WrittenLosesNothing(Front(trace));
    }
  }

  /** How many flows a call drops from a queue of `n` flows: after an object is written all
      that the loop leaves, otherwise what exceeds the queue's bound. */
  function LossOf(cfg: Config, n: nat, due: bool, limit: Option<nat>): nat
    requires cfg.Sane()
  {
    var written := WrittenObjects(cfg, n, due, limit);
    if written > 0 then Remaining(cfg, n, written)
    else if n > cfg.maxFlowArraySize then n - cfg.maxFlowArraySize else 0
  }

  lemma TrimLoses<F>(cfg: Config, p: Progress<F>)
    requires cfg.Sane() && Lost(p.trace) == []
    ensures |Lost(Trim(cfg, p).trace)| + |Trim(cfg, p).state.flows| == |p.state.flows|
    ensures |Trim(cfg, p).state.flows| ==
      if |p.state.flows| > cfg.maxFlowArraySize then cfg.maxFlowArraySize else |p.state.flows|
  {
    var overflow := |p.state.flows| - cfg.maxFlowArraySize;
    if overflow > 0 {
      LostAppend(p.trace, Trimmed(p.state.flows[..overflow]));
    }
  }

  lemma CompactLoses<F>(p: Progress<F>)
    ensures |Lost(Compact(p).trace)| == |Lost(p.trace)| + |p.state.flows|
  {
    if p.state.flows != [] {
      LostAppend(p.trace, Compacted(p.state.flows));
    }
  }

  /** The exact loss of a call, from the length of the queue and the clock alone. */
  lemma CallLoses<F>(cfg: Config, s: TagState<F>, incoming: seq<F>, now: int, limit: Option<nat>)
    requires cfg.Sane() && (s.lastFlush.Some? ==> s.lastFlush.value <= now)
    ensures
      var s1 := Sighted(s, incoming, now);
      |Lost(StoreTag(cfg, s, incoming, now, limit).trace)| == LossOf(cfg, |s1.flows|, IsDue(cfg, s1, now), limit)
  {
    var s1 := Sighted(s, incoming, now);
    LoopWrites(cfg, s1, now, limit);
    LoopConserves(cfg, s1, now, limit);
    var looped := FlushLoop(cfg, s1, now, limit);
    WrittenLosesNothing(looped.trace);
    TrimLoses(cfg, looped);
    CompactLoses(Trim(cfg, looped));
  }

  /** With successful writes, a call loses no flow if and only if it writes nothing and the
      queue fits its bound, or what it writes comes out even: a single object on time, any
      number of full ones, or everything when objects last no time. */
  lemma CallLosesNothingIff<F>(cfg: Config, s: TagState<F>, incoming: seq<F>, now: int)
    requires cfg.Sane() && (s.lastFlush.Some? ==> s.lastFlush.value <= now)
    ensures
      var s1 := Sighted(s, incoming, now);
      var n := |s1.flows|;
      Lost(StoreTag(cfg, s, incoming, now, None).trace) == [] <==>
        if n < cfg.maxFlowsPerObject then IsDue(cfg, s1, now) || n <= cfg.maxFlowArraySize
        else cfg.maxSecondsPerObject <= 0 || n % cfg.maxFlowsPerObject == 0
  {
    var s1 := Sighted(s, incoming, now);
    CallLoses(cfg, s, incoming, now, None);
    EvenSplit(cfg, |s1.flows|, IsDue(cfg, s1, now));
  }

  lemma EvenSplit(cfg: Config, n: nat, due: bool)
    requires cfg.Sane() && (cfg.maxSecondsPerObject <= 0 ==> due)
    ensures LossOf(cfg, n, due, None) == 0 <==>
        if n < cfg.maxFlowsPerObject then due || n <= cfg.maxFlowArraySize
        else cfg.maxSecondsPerObject <= 0 || n % cfg.maxFlowsPerObject == 0
  {
    var m := cfg.maxFlowsPerObject;
    DivSteps(n, m);
    assert n == m * (n / m) + n % m;
    assert (n / m + 1) * m == m * (n / m) + m;
    assert (n / m) * m == m * (n / m);
  }

  /** On concrete numbers: four flows in objects of three lose the fourth, though every write
      succeeds and the queue could hold it. */
  lemma FourthFlowLost<F>(cfg: Config, s: TagState<F>, incoming: seq<F>, now: int)
    requires cfg == Config(3, 100, 60, 86400) && s == Emptied() && |incoming| == 4
    ensures |Lost(StoreTag(cfg, s, incoming, now, None).trace)| == 1
  {
    CallLoses(cfg, s, incoming, now, None);
  }
}
