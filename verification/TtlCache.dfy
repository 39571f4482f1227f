/** A cache with a time to live in front of a resolver whose answers change over time, for any
    run of queries and of purges by the janitor. An item is live up to and including the time
    at which it expires. */
module TtlCache {
  import opened Wrappers

  const TTL := 300  // seconds

  datatype Item<V> = Item(value: V, expires: int)

  /** The resolver, the key of a query, and what of an answer is stored. */
  datatype Setup<!Q, !A, !V> = Setup(resolve: (int, Q) -> A, key: Q -> string, store: A -> Option<V>)

  datatype Found<A, V> = Hit(value: V) | Miss(answer: A)

  function Live<V>(cache: map<string, Item<V>>, key: string, now: int): Option<V> {
    if key in cache && now <= cache[key].expires then Some(cache[key].value) else None
  }

  function Look<Q, A, V>(s: Setup<Q, A, V>, cache: map<string, Item<V>>, q: Q, now: int): Found<A, V> {
    var v := Live(cache, s.key(q), now);
    if v.Some? then Hit(v.value) else Miss(s.resolve(now, q))
  }

  function Filled<Q, A, V>(s: Setup<Q, A, V>, cache: map<string, Item<V>>, q: Q, now: int): map<string, Item<V>> {
    match Look(s, cache, q, now)
    case Hit(_) => cache
    case Miss(a) => if s.store(a).Some? then cache[s.key(q) := Item(s.store(a).value, now + TTL)] else cache
  }

  /** The janitor removes items that have expired, any of them at any moment. */
  function Purged<V>(cache: map<string, Item<V>>, keys: set<string>, now: int): map<string, Item<V>> {
    map k | k in cache && !(k in keys && now > cache[k].expires) :: cache[k]
  }

  datatype Event<Q> = Ask(q: Q, now: int) | Purge(keys: set<string>, now: int)

  function After<Q, A, V>(s: Setup<Q, A, V>, cache: map<string, Item<V>>, e: Event<Q>): map<string, Item<V>> {
    match e
    case Ask(q, now) => Filled(s, cache, q, now)
    case Purge(keys, now) => Purged(cache, keys, now)
  }

  function Run<Q, A, V>(s: Setup<Q, A, V>, events: seq<Event<Q>>): map<string, Item<V>> {
    if events == [] then map[] else After(s, Run(s, Front(events)), Last(events))
  }

  lemma RunExtends<Q, A, V>(s: Setup<Q, A, V>, events: seq<Event<Q>>, e: Event<Q>)
    ensures Run(s, events + [e]) == After(s, Run(s, events), e)
  {
    assert Front(events + [e]) == events;
  }

  ghost predicate Forward<Q>(events: seq<Event<Q>>) {
    forall i, j | 0 <= i < j < |events| :: events[i].now <= events[j].now
  }

  /** No two different queries of the run, nor `q`, have the same key. */
  ghost predicate KeysApart<Q, A, V>(s: Setup<Q, A, V>, events: seq<Event<Q>>, q: Q) {
    forall e | e in events && e.Ask? :: s.key(e.q) == s.key(q) ==> e.q == q
  }

  // ----- the same without a cache: a function of the history

  /** The moment at which the stored answer to `q`, if any, was given. */
  function AskedLast<Q(==), A, V>(s: Setup<Q, A, V>, events: seq<Event<Q>>, q: Q): Option<int>
    decreases |events|, 0
  {
    if events == [] then None
    else if Last(events).Ask? && Last(events).q == q then
      var t := AnsweredAt(s, Front(events), q, Last(events).now);
      if s.store(s.resolve(t, q)).Some? then Some(t) else None
    else AskedLast(s, Front(events), q)
  }

  /** The moment whose answer a query at `now` gets: that of the stored answer while it
      lives, otherwise the present one. */
  function AnsweredAt<Q(==), A, V>(s: Setup<Q, A, V>, events: seq<Event<Q>>, q: Q, now: int): int
    decreases |events|, 1
  {
    var t := AskedLast(s, events, q);
    if t.Some? && now <= t.value + TTL then t.value else now
  }

  lemma {:induction false} AskedInPast<Q, A, V>(s: Setup<Q, A, V>, events: seq<Event<Q>>, q: Q, now: int)
    requires Forward(events) && (events != [] ==> Last(events).now <= now)
    ensures
      var t := AskedLast(s, events, q);
      t.Some? ==> t.value <= now && s.store(s.resolve(t.value, q)).Some?
    decreases |events|
  {
    if events != [] {
      if Front(events) != [] { assert Last(Front(events)).now <= Last(events).now; }
      AskedInPast(s, Front(events), q, Last(events).now);
    }
  }

  /** What is live in the cache at any later moment is the answer of the moment that the
      history says. Purges do not matter. */
  lemma {:induction false} LiveIsAskedLast<Q, A, V>(s: Setup<Q, A, V>, events: seq<Event<Q>>, q: Q, now: int)
    requires Forward(events) && KeysApart(s, events, q) && (events != [] ==> Last(events).now <= now)
    ensures
      var t := AskedLast(s, events, q);
      Live(Run(s, events), s.key(q), now)
      == if t.Some? && now <= t.value + TTL then s.store(s.resolve(t.value, q)) else None
    decreases |events|
  {
    if events != [] {
      var front, e := Front(events), Last(events);
      assert e in events && forall x | x in front :: x in events;
      if front != [] { assert Last(front).now <= e.now; }
      LiveIsAskedLast(s, front, q, now);
      LiveIsAskedLast(s, front, q, e.now);
      AskedInPast(s, front, q, e.now);
    }
  }

  /** What is found is the answer of the moment `t`, or what was stored of it. */
  ghost predicate IsAnswer<Q, A, V>(s: Setup<Q, A, V>, f: Found<A, V>, q: Q, t: int) {
    match f
    case Hit(v) => s.store(s.resolve(t, q)) == Some(v)
    case Miss(a) => a == s.resolve(t, q)
  }

  /** Every answer of every run is the uncached answer to the same query at a moment at most
      one time to live ago, and which moment depends on the queries alone. */
  lemma AnswersAreRecent<Q, A, V>(s: Setup<Q, A, V>, events: seq<Event<Q>>, q: Q, now: int)
    requires Forward(events) && KeysApart(s, events, q) && (events != [] ==> Last(events).now <= now)
    ensures
      var t := AnsweredAt(s, events, q, now);
      && now - TTL <= t <= now
      && IsAnswer(s, Look(s, Run(s, events), q, now), q, t) && (Look(s, Run(s, events), q, now).Miss? ==> t == now)
  {
    AskedInPast(s, events, q, now);
    LiveIsAskedLast(s, events, q, now);
  }
}
