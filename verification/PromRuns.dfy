/** Gauges that follow a recency list, for any labels and any number of gauge series per
    label: what a Prometheus scrape sees after any run of stores and cleanups. The two caches
    of prom_sky_con/pkg/store_prom.go are two instances. */
module PromRuns {
  import opened Wrappers
  import opened PromSpec

  /** The cache and the exported series. */
  datatype State<L, S> = State(cache: seq<Entry<L>>, gauges: map<S, int>)

  /** A report stores the values of its series under the labels of its entry. */
  datatype Event<!L, !S> =
    | Store(key: string, labels: L, now: int, values: L -> map<S, int>)
    | Clean(now: int)

  function StoreOne<L, S>(s: State<L, S>, key: string, labels: L, now: int, values: L -> map<S, int>): State<L, S> {
    State(Touched(s.cache, key, labels, now), s.gauges + values(LabelFor(s.cache, key, labels)))
  }

  /** The cleanup loop, with the series it deletes. */
  function CleanUp<L, S>(s: State<L, S>, expireTime: int, series: L -> set<S>): (s': State<L, S>)
    decreases |s.cache|
  {
    if s.cache == [] || s.cache[0].timeStamp > expireTime then s
    else CleanUp(State(s.cache[1..], s.gauges - series(s.cache[0].labels)), expireTime, series)
  }

  function Happen<L, S>(s: State<L, S>, e: Event<L, S>, timeout: int, series: L -> set<S>): State<L, S> {
    match e
    case Store(key, labels, now, values) => StoreOne(s, key, labels, now, values)
    case Clean(now) => CleanUp(s, now - timeout, series)
  }

  function Run<L, S>(events: seq<Event<L, S>>, timeout: int, series: L -> set<S>): State<L, S> {
    if events == [] then State([], map[])
    else Happen(Run(Front(events), timeout, series), Last(events), timeout, series)
  }

  /** Times do not go back, and a store sets the very series of its labels. */
  ghost predicate Proper<L(!new), S>(events: seq<Event<L, S>>, series: L -> set<S>) {
    && (forall i, j | 0 <= i < j < |events| :: events[i].now <= events[j].now)
    && forall e | e in events && e.Store? :: forall l :: e.values(l).Keys == series(l)
  }

  // ----- list and series

  ghost predicate HasSeries<L, S>(cache: seq<Entry<L>>, series: L -> set<S>, x: S) {
    exists e | e in cache :: x in series(e.labels)
  }

  /** Every exported series belongs to a cached entry. */
  ghost predicate Backed<L(!new), S(!new)>(s: State<L, S>, series: L -> set<S>) {
    forall x | x in s.gauges :: HasSeries(s.cache, series, x)
  }

  ghost predicate Shown<L, S>(e: Entry<L>, gauges: map<S, int>, series: L -> set<S>) {
    series(e.labels) <= gauges.Keys
  }

  /** Every cached entry has all its series. */
  ghost predicate Complete<L, S>(s: State<L, S>, series: L -> set<S>) {
    forall e | e in s.cache :: Shown(e, s.gauges, series)
  }

  lemma {:induction false} FindInDistinct<L>(cache: seq<Entry<L>>, e: Entry<L>)
    requires DistinctKeys(cache) && e in cache
    ensures Find(cache, e.key) == Some(e)
  {
    if cache[0] != e { FindInDistinct(cache[1..], e); }
  }

  lemma StoreKeepsBacked<L(!new), S(!new)>(s: State<L, S>, e: Event<L, S>, series: L -> set<S>)
    requires e.Store? && DistinctKeys(s.cache) && Backed(s, series) && forall l :: e.values(l).Keys == series(l)
    ensures Backed(StoreOne(s, e.key, e.labels, e.now, e.values), series)
  {
    var s' := StoreOne(s, e.key, e.labels, e.now, e.values);
    var touched := Entry(e.key, LabelFor(s.cache, e.key, e.labels), e.now);
    WithoutIs(s.cache, e.key);
    forall x | x in s'.gauges ensures HasSeries(s'.cache, series, x) {
      if x in e.values(touched.labels) {
        assert touched in s'.cache;
      } else {
        var c :| c in s.cache && x in series(c.labels);
        if c.key == e.key { FindInDistinct(s.cache, c); } else { assert c in s'.cache; }
      }
    }
  }

  lemma {:induction false} CleanKeepsBacked<L(!new), S(!new)>(s: State<L, S>, t: int, series: L -> set<S>)
    requires Backed(s, series)
    ensures Backed(CleanUp(s, t, series), series) && CleanUp(s, t, series).cache == Expire(s.cache, t)
    decreases |s.cache|
  {
    if s.cache != [] && s.cache[0].timeStamp <= t {
      var s1 := State(s.cache[1..], s.gauges - series(s.cache[0].labels));
      forall x | x in s1.gauges ensures HasSeries(s1.cache, series, x) {
        var c :| c in s.cache && x in series(c.labels);
        assert c != s.cache[0];
      }
      CleanKeepsBacked(s1, t, series);
    }
  }

  /** Over any run, no series is exported that no cached entry has, and the list is in order,
      so that every cleanup of the run removes exactly the expired entries. */
  lemma {:induction false} RunIsListedAndBacked<L(!new), S(!new)>(events: seq<Event<L, S>>, timeout: int,
                                                                  series: L -> set<S>)
    requires Proper(events, series)
    ensures Backed(Run(events, timeout, series), series)
    ensures DistinctKeys(Run(events, timeout, series).cache) && Sorted(Run(events, timeout, series).cache)
    ensures events != [] ==> NoneAfter(Run(events, timeout, series).cache, Last(events).now)
  {
    if events != [] {
      var s, e := Run(Front(events), timeout, series), Last(events);
      assert forall x | x in Front(events) :: x in events;
      RunIsListedAndBacked(Front(events), timeout, series);
      if Front(events) != [] { assert Last(Front(events)).now <= e.now; }
      assert NoneAfter(s.cache, e.now);
      assert e in events;
      if e.Store? {
        StoreKeepsBacked(s, e, series);
        TouchKeeps(s.cache, e.key, e.labels, e.now);
      } else {
        CleanKeepsBacked(s, e.now - timeout, series);
        ExpireKeeps(s.cache, e.now - timeout);
      }
    }
  }

  // ----- what a cleanup hides

  function Removed<L>(cache: seq<Entry<L>>, expireTime: int): seq<Entry<L>> {
    if cache == [] || cache[0].timeStamp > expireTime then [] else [cache[0]] + Removed(cache[1..], expireTime)
  }

  lemma {:induction false} RemovedAreExpired<L>(cache: seq<Entry<L>>, t: int)
    requires Sorted(cache)
    ensures forall e | e in Removed(cache, t) :: e in cache && e.timeStamp <= t
    ensures forall e | e in cache && e.timeStamp <= t :: e in Removed(cache, t)
  {
    if cache != [] {
      RemovedAreExpired(cache[1..], t);
    }
  }

  lemma {:induction false} CleanGauges<L(!new), S(!new)>(s: State<L, S>, t: int, series: L -> set<S>, x: S)
    ensures
      var g := CleanUp(s, t, series).gauges;
      && (x in g <==> x in s.gauges && !HasSeries(Removed(s.cache, t), series, x))
      && (x in g ==> g[x] == s.gauges[x])
    decreases |s.cache|
  {
    if s.cache != [] && s.cache[0].timeStamp <= t {
      var head, tail := s.cache[0], s.cache[1..];
      CleanGauges(State(tail, s.gauges - series(head.labels)), t, series, x);
      var removed := Removed(s.cache, t);
      assert removed == [head] + Removed(tail, t);
      if x in series(head.labels) { assert head in removed && HasSeries(removed, series, x); }
      if HasSeries(Removed(tail, t), series, x) {
        var e :| e in Removed(tail, t) && x in series(e.labels);
        assert e in removed;
      }
    }
  }

  /** A cleanup leaves a kept entry with all its series if and only if it shares none of them
      with an entry that the cleanup removes. */
  lemma CleanShowsIffUnshared<L(!new), S(!new)>(s: State<L, S>, t: int, series: L -> set<S>, e: Entry<L>)
    requires Sorted(s.cache) && Shown(e, s.gauges, series) && e in s.cache && e.timeStamp > t
    ensures
      Shown(e, CleanUp(s, t, series).gauges, series)
      <==> forall r | r in s.cache && r.timeStamp <= t :: series(r.labels) !! series(e.labels)
  {
    var g := CleanUp(s, t, series).gauges;
    RemovedAreExpired(s.cache, t);
    if Shown(e, g, series) {
      forall r | r in s.cache && r.timeStamp <= t ensures series(r.labels) !! series(e.labels) {
        forall x | x in series(r.labels) ensures x !in series(e.labels) {
          CleanGauges(s, t, series, x);
          assert r in Removed(s.cache, t);
        }
      }
    }
    if forall r | r in s.cache && r.timeStamp <= t :: series(r.labels) !! series(e.labels) {
      forall x | x in series(e.labels) ensures x in g {
        CleanGauges(s, t, series, x);
      }
    }
  }

  /** Such a cleanup is reached: of two tracking IDs with the same labels the one that is used
      first expires, and takes the series of the other, which is still in use, with it. */
  lemma ExpiryHidesLive<L(!new), S(!new)>(a: string, b: string, l: L, t: int, timeout: int, values: L -> map<S, int>,
                                          series: L -> set<S>)
    requires a != b && timeout > 0 && series(l) != {} && forall x :: values(x).Keys == series(x)
    ensures
      var events := [Store(a, l, t, values), Store(b, l, t + 1, values), Clean(t + timeout)];
      && Proper(events, series)
      && Run(events, timeout, series).cache == [Entry(b, l, t + 1)]
      && Run(events, timeout, series).gauges == map[]
      && !Complete(Run(events, timeout, series), series)
  {
    var events := [Store(a, l, t, values), Store(b, l, t + 1, values), Clean(t + timeout)];
    assert Front(events) == [Store(a, l, t, values), Store(b, l, t + 1, values)];
    assert Front(Front(events)) == [Store(a, l, t, values)] && Front(Front(Front(events))) == [];
    var e1, e2 := Entry(a, l, t), Entry(b, l, t + 1);
    assert Run(Front(Front(events)), timeout, series) == State([e1], values(l));
    assert Without([e1], b) == [e1] by { assert [e1][1..] == []; }
    assert Run(Front(events), timeout, series) == State([e1, e2], values(l));
    assert [e1, e2][1..] == [e2] && values(l) - series(l) == map[];
    assert CleanUp(State([e2], map[]), t, series) == State([e2], map[]);
    assert Run(events, timeout, series) == State([e2], map[]);
    assert !Shown(e2, map[], series);
  }

  // ----- series show the latest report

  function LastStore<L, S>(events: seq<Event<L, S>>, key: string): Option<Event<L, S>> {
    if events == [] then None
    else if Last(events).Store? && Last(events).key == key then Some(Last(events))
    else LastStore(Front(events), key)
  }

  /** Labels of different keys have no series in common. */
  ghost predicate Injective<L, S>(events: seq<Event<L, S>>, series: L -> set<S>) {
    forall d, e | d in events && e in events && d.Store? && e.Store? && d.key != e.key ::
      series(d.labels) !! series(e.labels)
  }

  ghost predicate LabelsFrom<L, S>(events: seq<Event<L, S>>, c: Entry<L>) {
    exists d :: d in events && d.Store? && d.key == c.key && d.labels == c.labels
  }

  ghost predicate ShowsLatest<L, S(!new)>(events: seq<Event<L, S>>, gauges: map<S, int>, c: Entry<L>,
                                          series: L -> set<S>)
  {
    var d := LastStore(events, c.key);
    && d.Some? && d.value.Store? && d.value.values(c.labels).Keys == series(c.labels)
    && forall x | x in series(c.labels) :: x in gauges && gauges[x] == d.value.values(c.labels)[x]
  }

  ghost predicate AllLatest<L(!new), S(!new)>(events: seq<Event<L, S>>, s: State<L, S>, series: L -> set<S>) {
    forall c | c in s.cache :: LabelsFrom(events, c) && ShowsLatest(events, s.gauges, c, series)
  }

  lemma LabelsStay<L(!new), S(!new)>(events: seq<Event<L, S>>, c: Entry<L>)
    requires events != [] && LabelsFrom(Front(events), c)
    ensures LabelsFrom(events, c)
  {
    var d :| d in Front(events) && d.Store? && d.key == c.key && d.labels == c.labels;
    assert d in events;
  }

  lemma StoreShowsLatest<L(!new), S(!new)>(events: seq<Event<L, S>>, s: State<L, S>, series: L -> set<S>)
    requires Proper(events, series) && Injective(events, series) && events != [] && Last(events).Store?
    requires DistinctKeys(s.cache) && AllLatest(Front(events), s, series)
    ensures
      var e := Last(events);
      AllLatest(events, StoreOne(s, e.key, e.labels, e.now, e.values), series)
  {
    var e := Last(events);
    assert e in events;
    var s' := StoreOne(s, e.key, e.labels, e.now, e.values);
    var touched := Entry(e.key, LabelFor(s.cache, e.key, e.labels), e.now);
    WithoutIs(s.cache, e.key);
    assert LabelsFrom(events, touched) by {
      var prior := Find(s.cache, e.key);
      if prior.Some? { LabelsStay(events, prior.value); }
    }
    forall c | c in s'.cache ensures LabelsFrom(events, c) && ShowsLatest(events, s'.gauges, c, series) {
      if c != touched {
        assert c in s.cache && c.key != e.key;
        LabelsStay(events, c);
        DisjointLabels(events, series, touched, c);
        assert ShowsLatest(Front(events), s.gauges, c, series);
      }
    }
  }

  lemma CleanShowsLatest<L(!new), S(!new)>(events: seq<Event<L, S>>, s: State<L, S>, t: int, series: L -> set<S>)
    requires Proper(events, series) && Injective(events, series) && events != [] && Last(events).Clean?
    requires DistinctKeys(s.cache) && Sorted(s.cache) && AllLatest(Front(events), s, series)
    ensures AllLatest(events, CleanUp(s, t, series), series)
  {
    var s' := CleanUp(s, t, series);
    ExpireKeeps(s.cache, t);
    CleanCache(s, t, series);
    RemovedAreExpired(s.cache, t);
    forall c | c in s'.cache ensures LabelsFrom(events, c) && ShowsLatest(events, s'.gauges, c, series) {
      LabelsStay(events, c);
      assert ShowsLatest(Front(events), s.gauges, c, series);
      forall x | x in series(c.labels) ensures x in s'.gauges && s'.gauges[x] == s.gauges[x] {
        CleanGauges(s, t, series, x);
        forall r | r in Removed(s.cache, t) ensures x !in series(r.labels) {
          LabelsStay(events, r);
          FindInDistinct(s.cache, r);
          FindInDistinct(s.cache, c);
          DisjointLabels(events, series, r, c);
        }
      }
    }
  }

  lemma DisjointLabels<L(!new), S>(events: seq<Event<L, S>>, series: L -> set<S>, r: Entry<L>, c: Entry<L>)
    requires Injective(events, series) && LabelsFrom(events, r) && LabelsFrom(events, c) && r.key != c.key
    ensures series(r.labels) !! series(c.labels)
  {
    var d0 :| d0 in events && d0.Store? && d0.key == r.key && d0.labels == r.labels;
    var d1 :| d1 in events && d1.Store? && d1.key == c.key && d1.labels == c.labels;
    assert series(d0.labels) !! series(d1.labels);
  }

  lemma {:induction false} CleanCache<L, S>(s: State<L, S>, t: int, series: L -> set<S>)
    ensures CleanUp(s, t, series).cache == Expire(s.cache, t)
    decreases |s.cache|
  {
    if s.cache != [] && s.cache[0].timeStamp <= t {
      CleanCache(State(s.cache[1..], s.gauges - series(s.cache[0].labels)), t, series);
    }
  }

  /** When labels tell tracking IDs apart, every cached entry has all its series, with the
      values of the latest report of its key, whatever cleanups there were. */
  lemma {:induction false} RunShowsLatest<L(!new), S(!new)>(events: seq<Event<L, S>>, timeout: int, series: L -> set<S>)
    requires Proper(events, series) && Injective(events, series)
    ensures AllLatest(events, Run(events, timeout, series), series)
    ensures Complete(Run(events, timeout, series), series)
  {
    if events != [] {
      assert forall x | x in Front(events) :: x in events;
      RunShowsLatest(Front(events), timeout, series);
      RunIsListedAndBacked(Front(events), timeout, series);
      var s, e := Run(Front(events), timeout, series), Last(events);
      if e.Store? {
        StoreShowsLatest(events, s, series);
      } else {
        CleanShowsLatest(events, s, e.now - timeout, series);
      }
    }
  }

  // ----- which keys are cached

  /** The key was reported, and no cleanup since then has found its latest report expired. */
  function InUse<L, S>(events: seq<Event<L, S>>, key: string, timeout: int): bool {
    if events == [] then false
    else
      var front, e := Front(events), Last(events);
      match e
      case Store(k, _, _, _) => k == key || InUse(front, key, timeout)
      case Clean(now) =>
        InUse(front, key, timeout) && LastStore(front, key).Some? && LastStore(front, key).value.now > now - timeout
  }

  /** Every entry has the time of the latest report of its key. */
  ghost predicate TimedByLatest<L, S>(events: seq<Event<L, S>>, cache: seq<Entry<L>>) {
    forall c | c in cache :: LastStore(events, c.key).Some? && LastStore(events, c.key).value.now == c.timeStamp
  }

  ghost predicate HasKey<L>(cache: seq<Entry<L>>, key: string) {
    exists c | c in cache :: c.key == key
  }

  lemma StoreKeepsTimes<L(!new), S(!new)>(events: seq<Event<L, S>>, s: State<L, S>, key: string)
    requires events != [] && Last(events).Store? && TimedByLatest(Front(events), s.cache)
    ensures
      var e := Last(events);
      var s' := StoreOne(s, e.key, e.labels, e.now, e.values);
      TimedByLatest(events, s'.cache) && (HasKey(s'.cache, key) <==> key == e.key || HasKey(s.cache, key))
  {
    var e := Last(events);
    var touched := Entry(e.key, LabelFor(s.cache, e.key, e.labels), e.now);
    var s' := StoreOne(s, e.key, e.labels, e.now, e.values);
    WithoutIs(s.cache, e.key);
    assert touched in s'.cache;
    if HasKey(s.cache, key) && key != e.key {
      var c :| c in s.cache && c.key == key;
      assert c in s'.cache;
    }
  }

  lemma CleanKeepsTimes<L(!new), S(!new)>(events: seq<Event<L, S>>, s: State<L, S>, timeout: int, series: L -> set<S>,
                                          key: string)
    requires events != [] && Last(events).Clean? && TimedByLatest(Front(events), s.cache)
    requires DistinctKeys(s.cache) && Sorted(s.cache)
    ensures
      var now := Last(events).now;
      var s', d := CleanUp(s, now - timeout, series), LastStore(Front(events), key);
      && TimedByLatest(events, s'.cache)
      && (HasKey(s'.cache, key) <==> HasKey(s.cache, key) && d.Some? && d.value.now > now - timeout)
  {
    var t := Last(events).now - timeout;
    CleanCache(s, t, series);
    ExpireKeeps(s.cache, t);
    FewerTimed(events, s.cache, Expire(s.cache, t));
    ExpireKeepsKey(Front(events), s.cache, t, key);
  }

  lemma FewerTimed<L(!new), S(!new)>(events: seq<Event<L, S>>, cache: seq<Entry<L>>, fewer: seq<Entry<L>>)
    requires events != [] && Last(events).Clean? && TimedByLatest(Front(events), cache)
    requires forall e | e in fewer :: e in cache
    ensures TimedByLatest(events, fewer)
  {
    forall c | c in fewer ensures LastStore(events, c.key) == LastStore(Front(events), c.key) {
    }
  }

  lemma ExpireKeepsKey<L(!new), S(!new)>(events: seq<Event<L, S>>, cache: seq<Entry<L>>, t: int, key: string)
    requires TimedByLatest(events, cache)
    requires forall e :: e in Expire(cache, t) <==> e in cache && e.timeStamp > t
    ensures
      var d := LastStore(events, key);
      HasKey(Expire(cache, t), key) <==> HasKey(cache, key) && d.Some? && d.value.now > t
  {
    if HasKey(cache, key) && LastStore(events, key).value.now > t {
      var c :| c in cache && c.key == key;
      assert c in Expire(cache, t);
    }
    if HasKey(Expire(cache, t), key) {
      var c :| c in Expire(cache, t) && c.key == key;
      assert c in cache;
    }
  }

  /** Over every run, exactly the keys in use are cached, each with the time of its latest report. */
  lemma {:induction false} CachedIffInUse<L(!new), S(!new)>(events: seq<Event<L, S>>, timeout: int,
                                                            series: L -> set<S>, key: string)
    requires Proper(events, series)
    ensures TimedByLatest(events, Run(events, timeout, series).cache)
    ensures HasKey(Run(events, timeout, series).cache, key) <==> InUse(events, key, timeout)
  {
    if events != [] {
      assert forall x | x in Front(events) :: x in events;
      CachedIffInUse(Front(events), timeout, series, key);
      RunIsListedAndBacked(Front(events), timeout, series);
      var s := Run(Front(events), timeout, series);
      if Last(events).Store? {
        StoreKeepsTimes(events, s, key);
      } else {
        CleanKeepsTimes(events, s, timeout, series, key);
      }
    }
  }

  // ----- no stale series

  /** The time of the latest cleanup; one runs when the store is started. */
  function LastClean<L, S>(events: seq<Event<L, S>>, start: int): int {
    if events == [] then start
    else if Last(events).Clean? then Last(events).now
    else LastClean(Front(events), start)
  }

  ghost predicate AllAfter<L>(cache: seq<Entry<L>>, t: int) {
    forall c | c in cache :: c.timeStamp > t
  }

  lemma HappenSinceClean<L(!new), S(!new)>(s: State<L, S>, e: Event<L, S>, timeout: int, series: L -> set<S>, last: int)
    requires DistinctKeys(s.cache) && Sorted(s.cache) && AllAfter(s.cache, last - timeout) && timeout > 0
      && last <= e.now
    ensures AllAfter(Happen(s, e, timeout, series).cache, (if e.Clean? then e.now else last) - timeout)
  {
    if e.Store? {
      WithoutIs(s.cache, e.key);
    } else {
      CleanCache(s, e.now - timeout, series);
      ExpireKeeps(s.cache, e.now - timeout);
    }
  }

  lemma {:induction false} EntriesSinceClean<L(!new), S(!new)>(events: seq<Event<L, S>>, timeout: int,
                                                               series: L -> set<S>, start: int)
    requires Proper(events, series) && timeout > 0 && forall e | e in events :: start <= e.now
    ensures AllAfter(Run(events, timeout, series).cache, LastClean(events, start) - timeout)
    ensures events != [] ==> LastClean(events, start) <= Last(events).now
  {
    if events != [] {
      assert forall x | x in Front(events) :: x in events;
      assert Last(events) in events;
      EntriesSinceClean(Front(events), timeout, series, start);
      RunIsListedAndBacked(Front(events), timeout, series);
      if Front(events) != [] { assert Last(Front(events)).now <= Last(events).now; }
      HappenSinceClean(Run(Front(events), timeout, series), Last(events), timeout, series,
                       LastClean(Front(events), start));
    }
  }

  /** While cleanups are at most `period` apart, every exported series belongs to an entry that
      was reported less than a timeout and a period ago. */
  lemma NoStaleSeries<L(!new), S(!new)>(events: seq<Event<L, S>>, timeout: int, series: L -> set<S>, start: int,
                                        period: int, moment: int, x: S)
    requires Proper(events, series) && timeout > 0 && forall e | e in events :: start <= e.now
    requires moment <= LastClean(events, start) + period && x in Run(events, timeout, series).gauges
    ensures exists c | c in Run(events, timeout, series).cache ::
      x in series(c.labels) && moment - c.timeStamp < timeout + period
  {
    RunIsListedAndBacked(events, timeout, series);
    EntriesSinceClean(events, timeout, series, start);
    var c :| c in Run(events, timeout, series).cache && x in series(c.labels);
  }
}
