/** One batch through core/pipeline.go: filter, split by tag, transform, mangle, store. The
    classifier and the filter are arbitrary functions, the transformer is the update counter of
    secadvisor, and the mangler an arbitrary function on the records of one tag. */
module Pipeline {
  import opened Wrappers
  import opened UpdateCount

  // ----- what each stage makes of a batch

  function Filtered(classify: Flow -> string, excluded: string -> bool, fl: seq<Flow>): seq<Flow> {
    if fl == [] then []
    else Filtered(classify, excluded, Front(fl)) + if excluded(classify(Last(fl))) then [] else [Last(fl)]
  }

  function Splitted(classify: Flow -> string, fl: seq<Flow>): map<string, seq<Flow>> {
    if fl == [] then map[]
    else
      var m, t := Splitted(classify, Front(fl)), classify(Last(fl));
      m[t := (if t in m then m[t] else []) + [Last(fl)]]
  }

  /** The flows of one tag, in arrival order. */
  function OfTag(classify: Flow -> string, fl: seq<Flow>, tag: string): seq<Flow> {
    if fl == [] then []
    else OfTag(classify, Front(fl), tag) + if classify(Last(fl)) == tag then [Last(fl)] else []
  }

  datatype Batch = Batch(cache: Cache, records: seq<Record>)

  function TransformedSeq(exclude: bool, cache: Cache, fl: seq<Flow>, now: int): Batch {
    if fl == [] then Batch(cache, [])
    else
      var b := TransformedSeq(exclude, cache, Front(fl), now);
      var r := Transformed(exclude, b.cache, Last(fl), now);
      Batch(Counted(b.cache, Last(fl), now), b.records + if r.Some? then [r.value] else [])
  }

  datatype Batches = Batches(cache: Cache, records: map<string, seq<Record>>)

  /** The tags one after another, in the order in which Go iterates the map; a tag without
      records has no entry. */
  function TransformedInOrder(exclude: bool, cache: Cache, split: map<string, seq<Flow>>, order: seq<string>,
                              now: int): Batches
    requires forall t | t in order :: t in split
  {
    if order == [] then Batches(cache, map[])
    else
      var bs, t := TransformedInOrder(exclude, cache, split, Front(order), now), Last(order);
      var b := TransformedSeq(exclude, bs.cache, split[t], now);
      Batches(b.cache, if b.records == [] then bs.records else bs.records[t := b.records])
  }

  function Mangled(mangler: seq<Record> -> seq<Record>, records: map<string, seq<Record>>): map<string, seq<Record>> {
    map t | t in records :: mangler(records[t])
  }

  // ----- filter and split

  /** After filter and split every tag that is not excluded has its flows, all of them and in
      arrival order, and no other flow; excluded tags have none. */
  lemma {:induction false} SplitIsOfTag(classify: Flow -> string, excluded: string -> bool, fl: seq<Flow>, tag: string)
    ensures
      var m := Splitted(classify, Filtered(classify, excluded, fl));
      && (tag in m <==> !excluded(tag) && OfTag(classify, fl, tag) != [])
      && (tag in m ==> m[tag] == OfTag(classify, fl, tag))
  {
    if fl != [] {
      SplitIsOfTag(classify, excluded, Front(fl), tag);
      var filtered := Filtered(classify, excluded, fl);
      if excluded(classify(Last(fl))) {
        assert filtered == Filtered(classify, excluded, Front(fl));
        if classify(Last(fl)) != tag { assert OfTag(classify, fl, tag) == OfTag(classify, Front(fl), tag); }
      } else {
        assert Front(filtered) == Filtered(classify, excluded, Front(fl)) && Last(filtered) == Last(fl);
        if classify(Last(fl)) != tag { assert OfTag(classify, fl, tag) == OfTag(classify, Front(fl), tag); }
      }
    }
  }

  /** The flows of a tag are those that are classified so, all of them and in arrival order. */
  lemma {:induction false} OfTagIsPicked(classify: Flow -> string, fl: seq<Flow>, tag: string) returns (at: seq<nat>)
    ensures Increasing(at, |fl|) && |at| == |OfTag(classify, fl, tag)|
    ensures forall j | 0 <= j < |at| :: OfTag(classify, fl, tag)[j] == fl[at[j]]
    ensures forall i: nat | i < |fl| :: i in at <==> classify(fl[i]) == tag
  {
    at := [];
    if fl != [] {
      at := OfTagIsPicked(classify, Front(fl), tag);
      at := PickNext(at, |fl| - 1, classify(Last(fl)) == tag);
    }
  }

  // ----- the records of a sequence of flows

  /** A history that ends by `now`. */
  ghost predicate Until(events: seq<Event>, now: int) {
    Forward(events) && (events != [] ==> Last(events).now <= now)
  }

  function Seens(fl: seq<Flow>, now: int): (events: seq<Event>)
    ensures |events| == |fl|
  {
    if fl == [] then [] else Seens(Front(fl), now) + [Seen(Last(fl), now)]
  }

  /** The streak of every flow's UUID in the history and the flows before it. */
  function Streaks(events: seq<Event>, fl: seq<Flow>, now: int): (streaks: seq<nat>)
    ensures |streaks| == |fl|
  {
    if fl == [] then []
    else Streaks(events, Front(fl), now) + [Streak(Sights(events + Seens(Front(fl), now), Last(fl).uuid), now)]
  }

  lemma {:induction false} StreaksAt(events: seq<Event>, fl: seq<Flow>, now: int, i: nat)
    requires i < |fl|
    ensures Streaks(events, fl, now)[i] == Streak(Sights(events + Seens(fl[..i], now), fl[i].uuid), now)
  {
    if i == |fl| - 1 {
      assert fl[..i] == Front(fl);
    } else {
      StreaksAt(events, Front(fl), now, i);
      assert fl[..i] == Front(fl)[..i];
    }
  }

  /** One record for every flow but those dropped, in order: `at` says of which flows. A flow is
      dropped if started flows are excluded, it has not finished and its streak is zero. */
  predicate AreRecords(exclude: bool, fl: seq<Flow>, streaks: seq<nat>, records: seq<Record>, at: seq<nat>)
    requires |streaks| == |fl|
  {
    Increasing(at, |fl|) && ArePicked(exclude, fl, streaks, at) && AreOf(fl, streaks, records, at)
  }

  predicate AreOf(fl: seq<Flow>, streaks: seq<nat>, records: seq<Record>, at: seq<nat>)
    requires |streaks| == |fl| && Increasing(at, |fl|)
  {
    |at| == |records| && forall j | 0 <= j < |at| :: IsRecordOf(records[j], fl[at[j]], streaks[at[j]])
  }

  predicate Drops(exclude: bool, f: Flow, streak: nat) {
    exclude && f.finishType == NotFinished && streak == 0
  }

  predicate ArePicked(exclude: bool, fl: seq<Flow>, streaks: seq<nat>, at: seq<nat>)
    requires |streaks| == |fl|
  {
    forall i | 0 <= i < |fl| :: (i in at) == !Drops(exclude, fl[i], streaks[i])
  }

  predicate IsRecordOf(r: Record, f: Flow, streak: nat) {
    r.flow == f && r.updateCount == streak && HasStatus(r.status, f, streak)
  }

  lemma SeensUntil(events: seq<Event>, fl: seq<Flow>, now: int)
    requires Until(events, now)
    ensures Until(events + Seens(fl, now), now)
  {
    SeensAreNow(fl, now);
    if events != [] { assert forall i | 0 <= i < |events| :: events[i].now <= Last(events).now; }
  }

  lemma {:induction false} SeensAreNow(fl: seq<Flow>, now: int)
    ensures forall e | e in Seens(fl, now) :: e.now == now
  {
    if fl != [] { SeensAreNow(Front(fl), now); }
  }

  /** After any history a sequence of flows leaves the counters of the history that it extends. */
  lemma {:induction false} SeqExtendsHistory(exclude: bool, events: seq<Event>, fl: seq<Flow>, now: int)
    ensures TransformedSeq(exclude, Run(events), fl, now).cache == Run(events + Seens(fl, now))
  {
    if fl == [] {
      assert events + [] == events;
    } else {
      SeqExtendsHistory(exclude, events, Front(fl), now);
      var history := events + Seens(Front(fl), now);
      assert events + Seens(fl, now) == history + [Seen(Last(fl), now)];
      assert Front(history + [Seen(Last(fl), now)]) == history;
    }
  }

  /** The records of the flows that are not dropped, one by one. */
  predicate RecordsFor(exclude: bool, fl: seq<Flow>, streaks: seq<nat>, records: seq<Record>)
    requires |streaks| == |fl|
  {
    if fl == [] then records == []
    else if Drops(exclude, Last(fl), Last(streaks)) then RecordsFor(exclude, Front(fl), Front(streaks), records)
    else
      && records != [] && IsRecordOf(Last(records), Last(fl), Last(streaks))
      && RecordsFor(exclude, Front(fl), Front(streaks), Front(records))
  }

  lemma RecordsForNext(exclude: bool, fl: seq<Flow>, streaks: seq<nat>, records: seq<Record>, r: Option<Record>)
    requires fl != [] && |streaks| == |fl| && RecordsFor(exclude, Front(fl), Front(streaks), records)
    requires r.None? <==> Drops(exclude, Last(fl), Last(streaks))
    requires r.Some? ==> IsRecordOf(r.value, Last(fl), Last(streaks))
    ensures RecordsFor(exclude, fl, streaks, records + if r.Some? then [r.value] else [])
  {
    if r.Some? { assert Front(records + [r.value]) == records; } else { assert records + [] == records; }
  }

  lemma {:induction false} SeqMakes(exclude: bool, events: seq<Event>, fl: seq<Flow>, now: int)
    requires Until(events, now)
    ensures RecordsFor(exclude, fl, Streaks(events, fl, now), TransformedSeq(exclude, Run(events), fl, now).records)
  {
    if fl != [] {
      SeqMakes(exclude, events, Front(fl), now);
      var b, streaks := TransformedSeq(exclude, Run(events), Front(fl), now), Streaks(events, fl, now);
      SeqExtendsHistory(exclude, events, Front(fl), now);
      SeensUntil(events, Front(fl), now);
      NextRecord(exclude, events + Seens(Front(fl), now), Last(fl), now);
      assert Front(streaks) == Streaks(events, Front(fl), now);
      RecordsForNext(exclude, fl, streaks, b.records, Transformed(exclude, b.cache, Last(fl), now));
    }
  }

  /** And its records are as said, in every run. */
  lemma SeqMakesRecords(exclude: bool, events: seq<Event>, fl: seq<Flow>, now: int) returns (at: seq<nat>)
    requires Until(events, now)
    ensures AreRecords(exclude, fl, Streaks(events, fl, now), TransformedSeq(exclude, Run(events), fl, now).records, at)
  {
    SeqMakes(exclude, events, fl, now);
    at := RecordsArePicked(exclude, fl, Streaks(events, fl, now),
                           TransformedSeq(exclude, Run(events), fl, now).records);
  }

  lemma {:induction false} RecordsArePicked(exclude: bool, fl: seq<Flow>, streaks: seq<nat>, records: seq<Record>)
    returns (at: seq<nat>)
    requires |streaks| == |fl| && RecordsFor(exclude, fl, streaks, records)
    ensures AreRecords(exclude, fl, streaks, records, at)
  {
    at := [];
    if fl != [] {
      var picked := !Drops(exclude, Last(fl), Last(streaks));
      at := RecordsArePicked(exclude, Front(fl), Front(streaks), if picked then Front(records) else records);
      at := RecordsGrow(exclude, fl, streaks, records, at, picked);
    }
  }

  lemma NextRecord(exclude: bool, history: seq<Event>, f: Flow, now: int)
    requires Until(history, now)
    ensures
      var r, n := Transformed(exclude, Run(history), f, now), Streak(Sights(history, f.uuid), now);
      (r.None? <==> Drops(exclude, f, n)) && (r.Some? ==> IsRecordOf(r.value, f, n))
  {
    TransformReportsStreak(exclude, history, f, now);
  }

  lemma PicksGrow(exclude: bool, fl: seq<Flow>, streaks: seq<nat>, at: seq<nat>, picked: bool)
    requires fl != [] && |streaks| == |fl| && picked == !Drops(exclude, Last(fl), Last(streaks))
    requires Increasing(at, |fl| - 1) && ArePicked(exclude, Front(fl), Front(streaks), at)
    ensures ArePicked(exclude, fl, streaks, PickNext(at, |fl| - 1, picked))
  {
    var at' := PickNext(at, |fl| - 1, picked);
    forall i | 0 <= i < |fl| ensures (i in at') == !Drops(exclude, fl[i], streaks[i]) {
      if i < |fl| - 1 { assert Front(fl)[i] == fl[i] && Front(streaks)[i] == streaks[i]; }
    }
  }

  lemma ContentGrows(fl: seq<Flow>, streaks: seq<nat>, records: seq<Record>, at: seq<nat>)
    requires fl != [] && |streaks| == |fl| && records != [] && IsRecordOf(Last(records), Last(fl), Last(streaks))
    requires Increasing(at, |fl| - 1) && Increasing(at + [|fl| - 1], |fl|)
    requires AreOf(Front(fl), Front(streaks), Front(records), at)
    ensures AreOf(fl, streaks, records, at + [|fl| - 1])
  {
    forall j | 0 <= j < |at| ensures IsRecordOf(records[j], fl[at[j]], streaks[at[j]]) {
      ContentStays(fl, streaks, Front(records), at, j);
      assert Front(records)[j] == records[j];
    }
  }

  lemma ContentKept(fl: seq<Flow>, streaks: seq<nat>, records: seq<Record>, at: seq<nat>)
    requires fl != [] && |streaks| == |fl| && Increasing(at, |fl| - 1) && Increasing(at, |fl|)
    requires AreOf(Front(fl), Front(streaks), records, at)
    ensures AreOf(fl, streaks, records, at)
  {
    forall j | 0 <= j < |at| ensures IsRecordOf(records[j], fl[at[j]], streaks[at[j]]) {
      ContentStays(fl, streaks, records, at, j);
    }
  }

  lemma ContentStays(fl: seq<Flow>, streaks: seq<nat>, records: seq<Record>, at: seq<nat>, j: nat)
    requires fl != [] && |streaks| == |fl| && j < |at|
    requires Increasing(at, |fl| - 1) && AreOf(Front(fl), Front(streaks), records, at)
    ensures IsRecordOf(records[j], fl[at[j]], streaks[at[j]])
  {
    assert IsRecordOf(records[j], Front(fl)[at[j]], Front(streaks)[at[j]]);
  }

  lemma RecordsGrow(exclude: bool, fl: seq<Flow>, streaks: seq<nat>, records: seq<Record>, at: seq<nat>, picked: bool)
    returns (at': seq<nat>)
    requires fl != [] && |streaks| == |fl| && picked == !Drops(exclude, Last(fl), Last(streaks))
    requires picked ==> records != [] && IsRecordOf(Last(records), Last(fl), Last(streaks))
    requires AreRecords(exclude, Front(fl), Front(streaks), if picked then Front(records) else records, at)
    ensures AreRecords(exclude, fl, streaks, records, at')
  {
    at' := PickNext(at, |fl| - 1, picked);
    PicksGrow(exclude, fl, streaks, at, picked);
    if picked { ContentGrows(fl, streaks, records, at); } else { ContentKept(fl, streaks, records, at); }
  }

  // ----- the order of the tags

  function Uuids(fl: seq<Flow>): set<string> {
    set f | f in fl :: f.uuid
  }

  predicate SameAt(a: Cache, b: Cache, u: string) {
    (u in a <==> u in b) && (u in a ==> a[u] == b[u])
  }

  lemma CountedIsLocal(exclude: bool, a: Cache, b: Cache, f: Flow, now: int)
    ensures SameAt(a, b, f.uuid) ==>
      Transformed(exclude, a, f, now) == Transformed(exclude, b, f, now)
        && SameAt(Counted(a, f, now), Counted(b, f, now), f.uuid)
    ensures forall u | u != f.uuid :: SameAt(a, Counted(a, f, now), u)
  {
  }

  lemma UuidsSplit(fl: seq<Flow>)
    requires fl != []
    ensures Uuids(fl) == Uuids(Front(fl)) + {Last(fl).uuid}
  {
    assert fl == Front(fl) + [Last(fl)];
  }

  /** The counters of other UUIDs stay. */
  lemma {:induction false} SeqLeavesOthers(exclude: bool, a: Cache, fl: seq<Flow>, now: int, u: string)
    requires u !in Uuids(fl)
    ensures SameAt(a, TransformedSeq(exclude, a, fl, now).cache, u)
  {
    if fl != [] {
      UuidsSplit(fl);
      SeqLeavesOthers(exclude, a, Front(fl), now, u);
      var c := TransformedSeq(exclude, a, Front(fl), now).cache;
      CountedIsLocal(exclude, c, c, Last(fl), now);
    }
  }

  predicate Agree(a: Cache, b: Cache, us: set<string>) {
    forall u | u in us :: SameAt(a, b, u)
  }

  /** What a sequence of flows makes of the counters of its UUIDs, and its records, depend on
      those counters only. */
  lemma {:induction false} SeqIsLocal(exclude: bool, a: Cache, b: Cache, fl: seq<Flow>, now: int)
    requires Agree(a, b, Uuids(fl))
    ensures
      var x, y := TransformedSeq(exclude, a, fl, now), TransformedSeq(exclude, b, fl, now);
      x.records == y.records && Agree(x.cache, y.cache, Uuids(fl))
    decreases |fl|
  {
    if fl != [] {
      UuidsSplit(fl);
      SeqIsLocal(exclude, a, b, Front(fl), now);
      var x, y, f := TransformedSeq(exclude, a, Front(fl), now), TransformedSeq(exclude, b, Front(fl), now), Last(fl);
      if f.uuid !in Uuids(Front(fl)) {
        SeqLeavesOthers(exclude, a, Front(fl), now, f.uuid);
        SeqLeavesOthers(exclude, b, Front(fl), now, f.uuid);
      }
      CountedIsLocal(exclude, x.cache, y.cache, f, now);
      CountedIsLocal(exclude, y.cache, x.cache, f, now);
    }
  }

  /** No UUID has flows under two tags. */
  predicate TagsShareNoUuid(split: map<string, seq<Flow>>) {
    forall s, t | s in split && t in split && s != t :: Uuids(split[s]) !! Uuids(split[t])
  }

  /** The counters after all tags of `order`: those of a tag's UUIDs are the tag's own doing. */
  lemma {:induction false} OrderIsLocal(exclude: bool, cache: Cache, split: map<string, seq<Flow>>,
                                        order: seq<string>, now: int, t: string)
    requires TagsShareNoUuid(split) && t in split && (forall x | x in order :: x in split)
    requires forall i, j | 0 <= i < j < |order| :: order[i] != order[j]
    ensures
      var bs := TransformedInOrder(exclude, cache, split, order, now);
      var own := TransformedSeq(exclude, cache, split[t], now);
      if t in order then
        && (t in bs.records <==> own.records != []) && (t in bs.records ==> bs.records[t] == own.records)
        && Agree(own.cache, bs.cache, Uuids(split[t]))
      else
        t !in bs.records && Agree(cache, bs.cache, Uuids(split[t]))
  {
    if order != [] {
      var front, last := Front(order), Last(order);
      assert order == front + [last];
      OrderIsLocal(exclude, cache, split, front, now, t);
      var bs := TransformedInOrder(exclude, cache, split, front, now);
      if last == t {
        assert t !in front;
        SeqIsLocal(exclude, cache, bs.cache, split[t], now);
      } else {
        forall u | u in Uuids(split[t])
          ensures SameAt(bs.cache, TransformedSeq(exclude, bs.cache, split[last], now).cache, u)
        {
          SeqLeavesOthers(exclude, bs.cache, split[last], now, u);
        }
      }
    }
  }

  lemma {:induction false} OrderLeavesOthers(exclude: bool, cache: Cache, split: map<string, seq<Flow>>,
                                             order: seq<string>, now: int, u: string)
    requires (forall x | x in order :: x in split) && forall t | t in split :: u !in Uuids(split[t])
    ensures SameAt(cache, TransformedInOrder(exclude, cache, split, order, now).cache, u)
  {
    if order != [] {
      OrderLeavesOthers(exclude, cache, split, Front(order), now, u);
      var bs := TransformedInOrder(exclude, cache, split, Front(order), now);
      SeqLeavesOthers(exclude, bs.cache, split[Last(order)], now, u);
    }
  }

  /** The records of each tag on its own, from the counters before the batch. */
  function TagRecords(exclude: bool, cache: Cache, split: map<string, seq<Flow>>, now: int): map<string, seq<Record>> {
    map t | t in split && TransformedSeq(exclude, cache, split[t], now).records != [] ::
      TransformedSeq(exclude, cache, split[t], now).records
  }

  lemma {:induction false} RecordsOfTags(exclude: bool, cache: Cache, split: map<string, seq<Flow>>,
                                         order: seq<string>, now: int)
    requires forall x | x in order :: x in split
    ensures TransformedInOrder(exclude, cache, split, order, now).records.Keys <= split.Keys
  {
    if order != [] { RecordsOfTags(exclude, cache, split, Front(order), now); }
  }

  lemma CountersAgree(exclude: bool, cache: Cache, split: map<string, seq<Flow>>, order: seq<string>,
                      order': seq<string>, now: int, u: string)
    requires TagsShareNoUuid(split) && Visits(order, split.Keys) && Visits(order', split.Keys)
    ensures SameAt(TransformedInOrder(exclude, cache, split, order, now).cache,
                   TransformedInOrder(exclude, cache, split, order', now).cache, u)
  {
    if t :| t in split && u in Uuids(split[t]) {
      OrderIsLocal(exclude, cache, split, order, now, t);
      OrderIsLocal(exclude, cache, split, order', now, t);
    } else {
      OrderLeavesOthers(exclude, cache, split, order, now, u);
      OrderLeavesOthers(exclude, cache, split, order', now, u);
    }
  }

  lemma SameCache(a: Cache, b: Cache)
    requires forall u :: SameAt(a, b, u)
    ensures a == b
  {
    assert forall u :: u in a <==> u in b by {
      forall u ensures u in a <==> u in b { assert SameAt(a, b, u); }
    }
    assert forall u | u in a :: SameAt(a, b, u);
  }

  /** When no UUID has flows under two tags, the order in which the tags are transformed does
      not matter: not for the records, which are those of each tag on its own, and not for
      the counters that the batch leaves. */
  lemma OrderDoesNotMatter(exclude: bool, cache: Cache, split: map<string, seq<Flow>>, order: seq<string>,
                           order': seq<string>, now: int)
    requires TagsShareNoUuid(split) && Visits(order, split.Keys) && Visits(order', split.Keys)
    ensures TransformedInOrder(exclude, cache, split, order, now).records == TagRecords(exclude, cache, split, now)
    ensures TransformedInOrder(exclude, cache, split, order, now)
      == TransformedInOrder(exclude, cache, split, order', now)
  {
    RecordsAreTagRecords(exclude, cache, split, order, now);
    RecordsAreTagRecords(exclude, cache, split, order', now);
    forall u {
      CountersAgree(exclude, cache, split, order, order', now, u);
    }
    SameCache(TransformedInOrder(exclude, cache, split, order, now).cache,
              TransformedInOrder(exclude, cache, split, order', now).cache);
  }

  lemma TagRecordsAt(exclude: bool, cache: Cache, split: map<string, seq<Flow>>, order: seq<string>, now: int,
                     t: string)
    requires TagsShareNoUuid(split) && Visits(order, split.Keys) && t in split
    ensures
      var records := TransformedInOrder(exclude, cache, split, order, now).records;
      var own := TagRecords(exclude, cache, split, now);
      (t in records <==> t in own) && (t in records ==> records[t] == own[t])
  {
    OrderIsLocal(exclude, cache, split, order, now, t);
  }

  lemma SameRecords(a: map<string, seq<Record>>, b: map<string, seq<Record>>, tags: set<string>)
    requires a.Keys <= tags && b.Keys <= tags
    requires forall t | t in tags :: (t in a <==> t in b) && (t in a ==> a[t] == b[t])
    ensures a == b
  {
  }

  lemma RecordsAreTagRecords(exclude: bool, cache: Cache, split: map<string, seq<Flow>>, order: seq<string>, now: int)
    requires TagsShareNoUuid(split) && Visits(order, split.Keys)
    ensures TransformedInOrder(exclude, cache, split, order, now).records == TagRecords(exclude, cache, split, now)
  {
    var records := TransformedInOrder(exclude, cache, split, order, now).records;
    var own := TagRecords(exclude, cache, split, now);
    RecordsOfTags(exclude, cache, split, order, now);
    forall t | t in split ensures (t in records <==> t in own) && (t in records ==> records[t] == own[t]) {
      TagRecordsAt(exclude, cache, split, order, now, t);
    }
    SameRecords(records, own, split.Keys);
  }

  // ----- a UUID under two tags

  predicate Reports(records: seq<Record>, u: string, n: int) {
    exists r | r in records :: r.flow.uuid == u && r.updateCount == n
  }

  lemma ReportsAppend(records: seq<Record>, r: Record, u: string, n: int)
    ensures Reports(records + [r], u, n) <==> Reports(records, u, n) || (r.flow.uuid == u && r.updateCount == n)
  {
    assert r in records + [r] && forall x | x in records :: x in records + [r];
    if Reports(records, u, n) {
      var x :| x in records && x.flow.uuid == u && x.updateCount == n;
      assert x in records + [r];
    }
  }

  /** The first flow of a UUID reports the count with which the flows begin. */
  lemma {:induction false} FirstReports(exclude: bool, cache: Cache, fl: seq<Flow>, now: int, u: string, n: int)
    requires u in Uuids(fl) && LiveCount(cache, u, now) == n > 0
    ensures Reports(TransformedSeq(exclude, cache, fl, now).records, u, n)
  {
    UuidsSplit(fl);
    var b := TransformedSeq(exclude, cache, Front(fl), now);
    var r := Transformed(exclude, b.cache, Last(fl), now);
    if r.Some? { ReportsAppend(b.records, r.value, u, n); }
    if u in Uuids(Front(fl)) {
      FirstReports(exclude, cache, Front(fl), now, u, n);
    } else {
      SeqLeavesOthers(exclude, cache, Front(fl), now, u);
    }
  }

  /** The count of a UUID has passed `n` or has begun again, at most `k` flows ago. */
  predicate Away(cache: Cache, u: string, now: int, n: int, k: int) {
    LiveCount(cache, u, now) > n || 0 <= LiveCount(cache, u, now) <= k
  }

  lemma FlowStaysAway(cache: Cache, f: Flow, now: int, u: string, n: int, k: nat)
    requires Away(cache, u, now, n, k)
    ensures Away(Counted(cache, f, now), u, now, n, k + 1)
  {
  }

  /** A count that is away from `n` does not come back to it in fewer than `n` flows. */
  lemma {:induction false} SeqStaysAway(exclude: bool, cache: Cache, fl: seq<Flow>, now: int, u: string, n: int, k: nat)
    requires Away(cache, u, now, n, k) && k + |fl| < n
    ensures !Reports(TransformedSeq(exclude, cache, fl, now).records, u, n)
    ensures Away(TransformedSeq(exclude, cache, fl, now).cache, u, now, n, k + |fl|)
  {
    if fl != [] {
      SeqStaysAway(exclude, cache, Front(fl), now, u, n, k);
      var b := TransformedSeq(exclude, cache, Front(fl), now);
      FlowStaysAway(b.cache, Last(fl), now, u, n, k + |fl| - 1);
      var r := Transformed(exclude, b.cache, Last(fl), now);
      if r.Some? { ReportsAppend(b.records, r.value, u, n); }
    }
  }

  /** The flows of a UUID take its count away from where they began. */
  lemma {:induction false} SeqGoesAway(exclude: bool, cache: Cache, fl: seq<Flow>, now: int, u: string, n: int)
    requires u in Uuids(fl) && LiveCount(cache, u, now) == n > 0
    ensures Away(TransformedSeq(exclude, cache, fl, now).cache, u, now, n, |fl|)
  {
    UuidsSplit(fl);
    var b := TransformedSeq(exclude, cache, Front(fl), now);
    if u in Uuids(Front(fl)) {
      SeqGoesAway(exclude, cache, Front(fl), now, u, n);
      FlowStaysAway(b.cache, Last(fl), now, u, n, |fl| - 1);
    } else {
      SeqLeavesOthers(exclude, cache, Front(fl), now, u);
    }
  }

  predicate ReportsUnder(records: map<string, seq<Record>>, t: string, u: string, n: int) {
    t in records && Reports(records[t], u, n)
  }

  lemma {:induction false} LaterTagsKeep(exclude: bool, cache: Cache, split: map<string, seq<Flow>>, order: seq<string>,
                                         rest: seq<string>, now: int, t: string, u: string, n: int)
    requires (forall x | x in order + rest :: x in split) && t !in rest
    ensures ReportsUnder(TransformedInOrder(exclude, cache, split, order + rest, now).records, t, u, n)
        <==> ReportsUnder(TransformedInOrder(exclude, cache, split, order, now).records, t, u, n)
  {
    if rest == [] {
      assert order + rest == order;
    } else {
      assert Front(order + rest) == order + Front(rest) && Last(order + rest) == Last(rest);
      assert forall x | x in order + Front(rest) :: x in order + rest;
      LaterTagsKeep(exclude, cache, split, order, Front(rest), now, t, u, n);
    }
  }

  /** Under the first of two tags the count is reported, under the second no more. */
  lemma FirstTagReports(exclude: bool, cache: Cache, split: map<string, seq<Flow>>, s: string, t: string, now: int,
                        u: string, n: int)
    requires s in split && t in split && s != t && u in Uuids(split[s]) && u in Uuids(split[t])
    requires LiveCount(cache, u, now) == n > |split[s]| + |split[t]|
    ensures ReportsUnder(TransformedInOrder(exclude, cache, split, [s, t], now).records, s, u, n)
    ensures !ReportsUnder(TransformedInOrder(exclude, cache, split, [s, t], now).records, t, u, n)
  {
    assert Front([s, t]) == [s] && Front([s]) == [];
    assert TransformedInOrder(exclude, cache, split, [], now) == Batches(cache, map[]);
    FirstReports(exclude, cache, split[s], now, u, n);
    SeqGoesAway(exclude, cache, split[s], now, u, n);
    var bs := TransformedInOrder(exclude, cache, split, [s], now);
    assert bs.cache == TransformedSeq(exclude, cache, split[s], now).cache;
    SeqStaysAway(exclude, bs.cache, split[t], now, u, n, |split[s]|);
  }

  lemma {:induction false} SomeOrder(tags: set<string>) returns (order: seq<string>)
    ensures Visits(order, tags)
    decreases tags
  {
    if tags == {} {
      order := [];
    } else {
      var t :| t in tags;
      order := SomeOrder(tags - {t});
      order := order + [t];
    }
  }

  lemma TwoFirst(tags: set<string>, s: string, t: string, rest: seq<string>)
    requires s in tags && t in tags && s != t && Visits(rest, tags - {s, t})
    ensures Visits([s, t] + rest, tags)
  {
    var order := [s, t] + rest;
    assert order[0] == s && order[1] == t && forall x | x in rest :: x in order;
  }

  lemma {:induction false} SomeHistory(u: string, now: int, n: nat) returns (events: seq<Event>)
    ensures Until(events, now) && LiveCount(Run(events), u, now) == n
    ensures forall e | e in events :: e.now == now
  {
    events := [];
    if n > 0 {
      var e := Seen(Flow(u, NotFinished, ""), now);
      var front := SomeHistory(u, now, n - 1);
      events := front + [e];
      assert Front(events) == front;
    }
  }

  /** A UUID with flows under two tags tells two orders apart, when enough of its flows have
      gone before: only the tag that comes first reports their number. */
  lemma SharedUuidTellsOrders(exclude: bool, split: map<string, seq<Flow>>, s: string, t: string, u: string, now: int)
    returns (events: seq<Event>, order: seq<string>, order': seq<string>)
    requires s in split && t in split && s != t && u in Uuids(split[s]) && u in Uuids(split[t])
    ensures Until(events, now) && Visits(order, split.Keys) && Visits(order', split.Keys)
    ensures TransformedInOrder(exclude, Run(events), split, order, now).records
         != TransformedInOrder(exclude, Run(events), split, order', now).records
  {
    var n := |split[s]| + |split[t]| + 1;
    var rest := SomeOrder(split.Keys - {s, t});
    events := SomeHistory(u, now, n);
    order, order' := [s, t] + rest, [t, s] + rest;
    assert {t, s} == {s, t};
    TwoFirst(split.Keys, s, t, rest);
    TwoFirst(split.Keys, t, s, rest);
    FirstTagReports(exclude, Run(events), split, s, t, now, u, n);
    FirstTagReports(exclude, Run(events), split, t, s, now, u, n);
    LaterTagsKeep(exclude, Run(events), split, [s, t], rest, now, s, u, n);
    LaterTagsKeep(exclude, Run(events), split, [t, s], rest, now, s, u, n);
  }

  /** The records of a batch are the same in every order of the tags, whatever has gone before
      it, if and only if no UUID of the batch has flows under two tags. */
  lemma OrderIrrelevantIffNoneShared(exclude: bool, split: map<string, seq<Flow>>, now: int)
    ensures
      (forall events, order, order' | Until(events, now) && Visits(order, split.Keys) && Visits(order', split.Keys) ::
        TransformedInOrder(exclude, Run(events), split, order, now).records
        == TransformedInOrder(exclude, Run(events), split, order', now).records)
      <==> TagsShareNoUuid(split)
  {
    if TagsShareNoUuid(split) {
      forall events, order, order' | Until(events, now) && Visits(order, split.Keys) && Visits(order', split.Keys)
        ensures TransformedInOrder(exclude, Run(events), split, order, now).records
             == TransformedInOrder(exclude, Run(events), split, order', now).records
      {
        OrderDoesNotMatter(exclude, Run(events), split, order, order', now);
      }
    } else {
      var s, t :| s in split && t in split && s != t && !(Uuids(split[s]) !! Uuids(split[t]));
      var u :| u in Uuids(split[s]) && u in Uuids(split[t]);
      var events, order, order' := SharedUuidTellsOrders(exclude, split, s, t, u, now);
    }
  }

  // ----- the pipeline

  class BatchPipeline {
    const classify: Flow -> string
    const excluded: string -> bool
    const mangler: seq<Record> -> seq<Record>
    const transformer: Transformer

    constructor (classify: Flow -> string, excluded: string -> bool, mangler: seq<Record> -> seq<Record>,
                 transformer: Transformer)
      ensures this.classify == classify && this.excluded == excluded && this.mangler == mangler
        && this.transformer == transformer
    {
      this.classify, this.excluded, this.mangler, this.transformer := classify, excluded, mangler, transformer;
    }

    method Filter(fl: seq<Flow>) returns (out: seq<Flow>)
      ensures out == Filtered(classify, excluded, fl)
    {
      out := [];
      for i := 0 to |fl|
        invariant out == Filtered(classify, excluded, fl[..i])
      {
        assert Front(fl[..i + 1]) == fl[..i];
        if excluded(classify(fl[i])) {
          continue;
        }
        out := out + [fl[i]];
      }
      assert fl[..|fl|] == fl;
    }

    method Split(fl: seq<Flow>) returns (out: map<string, seq<Flow>>)
      ensures out == Splitted(classify, fl)
    {
      out := map[];
      for i := 0 to |fl|
        invariant out == Splitted(classify, fl[..i])
      {
        assert Front(fl[..i + 1]) == fl[..i];
        var flowTag := classify(fl[i]);
        out := out[flowTag := (if flowTag in out then out[flowTag] else []) + [fl[i]]];
      }
      assert fl[..|fl|] == fl;
    }

    method TransformTag(fl: seq<Flow>, now: int) returns (records: seq<Record>)
      requires transformer.Valid()
      modifies transformer
      ensures transformer.Valid()
      ensures Batch(transformer.flowUpdateCountCache, records)
           == TransformedSeq(transformer.excludeStartedFlows, old(transformer.flowUpdateCountCache), fl, now)
    {
      records := [];
      for i := 0 to |fl|
        invariant transformer.Valid()
        invariant Batch(transformer.flowUpdateCountCache, records)
               == TransformedSeq(transformer.excludeStartedFlows, old(transformer.flowUpdateCountCache), fl[..i], now)
      {
        assert Front(fl[..i + 1]) == fl[..i];
        var r := transformer.Transform(fl[i], now);
        if r.Some? {
          records := records + [r.value];
        }
      }
      assert fl[..|fl|] == fl;
    }

    method TransformAll(split: map<string, seq<Flow>>, now: int)
      returns (out: map<string, seq<Record>>, ghost order: seq<string>)
      requires transformer.Valid()
      modifies transformer
      ensures transformer.Valid() && Visits(order, split.Keys)
      ensures Batches(transformer.flowUpdateCountCache, out)
           == TransformedInOrder(transformer.excludeStartedFlows, old(transformer.flowUpdateCountCache), split, order,
                                 now)
    {
      out, order := map[], [];
      var todo := split.Keys;
      while todo != {}
        invariant todo <= split.Keys && Visits(order, split.Keys - todo) && transformer.Valid()
        invariant Batches(transformer.flowUpdateCountCache, out)
               == TransformedInOrder(transformer.excludeStartedFlows, old(transformer.flowUpdateCountCache), split,
                                     order, now)
        decreases todo
      {
        var tag :| tag in todo;
        var records := TransformTag(split[tag], now);
        if records != [] {
          out := out[tag := records];
        }
        assert Front(order + [tag]) == order;
        order := order + [tag];
        todo := todo - {tag};
      }
      assert split.Keys - {} == split.Keys;
    }

    method Mangle(records: map<string, seq<Record>>) returns (out: map<string, seq<Record>>)
      ensures out == Mangled(mangler, records)
    {
      out := map[];
      var todo := records.Keys;
      while todo != {}
        invariant todo <= records.Keys && out == map t | t in records && t !in todo :: mangler(records[t])
        decreases todo
      {
        var tag :| tag in todo;
        out := out[tag := mangler(records[tag])];
        todo := todo - {tag};
      }
    }

    /** What a batch hands to the store. */
    method Process(fl: seq<Flow>, now: int) returns (mangled: map<string, seq<Record>>)
      requires transformer.Valid()
      modifies transformer
      ensures transformer.Valid()
      ensures
        var exclude, cache := transformer.excludeStartedFlows, old(transformer.flowUpdateCountCache);
        var split := Splitted(classify, Filtered(classify, excluded, fl));
        exists order | Visits(order, split.Keys) ::
          var bs := TransformedInOrder(exclude, cache, split, order, now);
          mangled == Mangled(mangler, bs.records) && transformer.flowUpdateCountCache == bs.cache
    {
      var filtered := Filter(fl);
      var split := Split(filtered);
      var transformed;
      ghost var order;
      transformed, order := TransformAll(split, now);
      mangled := Mangle(transformed);
    }
  }

  /** A batch in which no UUID changes its tag: what the store gets of a tag is the mangler applied
      to the records of that tag's own flows, in arrival order, whatever the order of the tags. */
  lemma BatchByTag(exclude: bool, events: seq<Event>, classify: Flow -> string, excluded: string -> bool,
                   mangler: seq<Record> -> seq<Record>, fl: seq<Flow>, order: seq<string>, now: int, tag: string)
    returns (records: seq<Record>, at: seq<nat>)
    requires Until(events, now)
    requires forall f, g | f in fl && g in fl && f.uuid == g.uuid :: classify(f) == classify(g)
    requires Visits(order, Splitted(classify, Filtered(classify, excluded, fl)).Keys)
    ensures AreRecords(exclude, OfTag(classify, fl, tag), Streaks(events, OfTag(classify, fl, tag), now), records, at)
    ensures
      var split := Splitted(classify, Filtered(classify, excluded, fl));
      var stored := Mangled(mangler, TransformedInOrder(exclude, Run(events), split, order, now).records);
      && (tag in stored <==> !excluded(tag) && records != [])
      && (tag in stored ==> stored[tag] == mangler(records))
  {
    var split := Splitted(classify, Filtered(classify, excluded, fl));
    SplitSharesNoUuid(classify, excluded, fl);
    OrderDoesNotMatter(exclude, Run(events), split, order, order, now);
    SplitIsOfTag(classify, excluded, fl, tag);
    at := SeqMakesRecords(exclude, events, OfTag(classify, fl, tag), now);
    records := TransformedSeq(exclude, Run(events), OfTag(classify, fl, tag), now).records;
  }

  lemma {:induction false} OfTagIs(classify: Flow -> string, fl: seq<Flow>, tag: string)
    ensures forall f | f in OfTag(classify, fl, tag) :: f in fl && classify(f) == tag
  {
    if fl != [] { OfTagIs(classify, Front(fl), tag); }
  }

  lemma SplitSharesNoUuid(classify: Flow -> string, excluded: string -> bool, fl: seq<Flow>)
    requires forall f, g | f in fl && g in fl && f.uuid == g.uuid :: classify(f) == classify(g)
    ensures TagsShareNoUuid(Splitted(classify, Filtered(classify, excluded, fl)))
  {
    var split := Splitted(classify, Filtered(classify, excluded, fl));
    forall s, t | s in split && t in split && s != t ensures Uuids(split[s]) !! Uuids(split[t]) {
      SplitIsOfTag(classify, excluded, fl, s);
      SplitIsOfTag(classify, excluded, fl, t);
      OfTagIs(classify, fl, s);
      OfTagIs(classify, fl, t);
    }
  }
}
