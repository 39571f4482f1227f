/** The connection and interface caches of prom_sky_con/pkg/store_prom.go as values: a list of
    entries, the least recently used first, and the gauge tables that are to follow it. */
module PromSpec {
  import opened Wrappers

  // ----- the recency list

  datatype Entry<L> = Entry(key: string, labels: L, timeStamp: int)

  function Without<L>(cache: seq<Entry<L>>, key: string): seq<Entry<L>> {
    if cache == [] then []
    else if cache[0].key == key then Without(cache[1..], key)
    else [cache[0]] + Without(cache[1..], key)
  }

  function Find<L>(cache: seq<Entry<L>>, key: string): (e: Option<Entry<L>>)
    ensures e.Some? ==> e.value in cache && e.value.key == key
    ensures e.None? ==> forall x | x in cache :: x.key != key
  {
    if cache == [] then None
    else if cache[0].key == key then Some(cache[0])
    else Find(cache[1..], key)
  }

  /** An entry keeps the labels it was created with. */
  function LabelFor<L>(cache: seq<Entry<L>>, key: string, labels: L): L {
    var e := Find(cache, key);
    if e.Some? then e.value.labels else labels
  }

  function Touched<L>(cache: seq<Entry<L>>, key: string, labels: L, now: int): seq<Entry<L>> {
    Without(cache, key) + [Entry(key, LabelFor(cache, key, labels), now)]
  }

  /** The cleanup loop: it takes expired entries off the front and stops at the first fresh one. */
  function Expire<L>(cache: seq<Entry<L>>, expireTime: int): seq<Entry<L>> {
    if cache == [] || cache[0].timeStamp > expireTime then cache else Expire(cache[1..], expireTime)
  }

  /** What a scan of the whole list would keep. */
  function Fresh<L>(cache: seq<Entry<L>>, expireTime: int): seq<Entry<L>> {
    if cache == [] then []
    else if cache[0].timeStamp > expireTime then [cache[0]] + Fresh(cache[1..], expireTime)
    else Fresh(cache[1..], expireTime)
  }

  ghost predicate DistinctKeys<L>(cache: seq<Entry<L>>) {
    cache == [] || (NoKey(cache[1..], cache[0].key) && DistinctKeys(cache[1..]))
  }

  ghost predicate NoKey<L>(cache: seq<Entry<L>>, key: string) {
    forall e | e in cache :: e.key != key
  }

  /** The list runs from the least to the most recently used entry. */
  ghost predicate Sorted<L>(cache: seq<Entry<L>>) {
    cache == [] || (NoneBefore(cache[1..], cache[0].timeStamp) && Sorted(cache[1..]))
  }

  ghost predicate NoneBefore<L>(cache: seq<Entry<L>>, t: int) {
    forall e | e in cache :: t <= e.timeStamp
  }

  ghost predicate NoneAfter<L>(cache: seq<Entry<L>>, now: int) {
    forall e | e in cache :: e.timeStamp <= now
  }

  /** The early stop is exact at every cleanup time if and only if the list is sorted. */
  lemma EarlyStopExactIffSorted<L(!new)>(cache: seq<Entry<L>>)
    ensures (forall t :: Expire(cache, t) == Fresh(cache, t)) <==> Sorted(cache)
  {
    if Sorted(cache) {
      forall t ensures Expire(cache, t) == Fresh(cache, t) {
        SortedExpires(cache, t);
      }
    } else {
      var t := UnsortedKeepsExpired(cache);
    }
  }

  lemma {:induction false} SortedExpires<L>(cache: seq<Entry<L>>, t: int)
    requires Sorted(cache)
    ensures Expire(cache, t) == Fresh(cache, t)
  {
    if cache != [] {
      if cache[0].timeStamp > t { AllFresh(cache[1..], t); } else { SortedExpires(cache[1..], t); }
    }
  }

  lemma {:induction false} AllFresh<L>(cache: seq<Entry<L>>, t: int)
    requires forall e | e in cache :: e.timeStamp > t
    ensures Fresh(cache, t) == cache
  {
    if cache != [] { AllFresh(cache[1..], t); }
  }

  lemma {:induction false} FreshIsFresh<L>(cache: seq<Entry<L>>, t: int)
    ensures forall e :: e in Fresh(cache, t) <==> e in cache && e.timeStamp > t
  {
    if cache != [] { FreshIsFresh(cache[1..], t); }
  }

  /** Some cleanup leaves an expired entry of an unsorted list in place. */
  lemma {:induction false} UnsortedKeepsExpired<L>(cache: seq<Entry<L>>) returns (t: int)
    requires !Sorted(cache)
    ensures Expire(cache, t) != Fresh(cache, t)
  {
    var head, tail := cache[0], cache[1..];
    if NoneBefore(tail, head.timeStamp) {
      t := UnsortedKeepsExpired(tail);
      if head.timeStamp > t { AllFresh(tail, t); }
    } else {
      var x :| x in tail && x.timeStamp < head.timeStamp;
      t := x.timeStamp;
      FreshIsFresh(cache, t);
      assert x in cache && x !in Fresh(cache, t);
    }
  }

  lemma {:induction false} WithoutIs<L>(cache: seq<Entry<L>>, key: string)
    ensures forall e | e in Without(cache, key) :: e in cache && e.key != key
    ensures forall e | e in cache && e.key != key :: e in Without(cache, key)
  {
    if cache != [] { WithoutIs(cache[1..], key); }
  }

  lemma {:induction false} WithoutKeeps<L>(cache: seq<Entry<L>>, key: string)
    requires DistinctKeys(cache) && Sorted(cache)
    ensures DistinctKeys(Without(cache, key)) && Sorted(Without(cache, key))
  {
    if cache != [] {
      WithoutKeeps(cache[1..], key);
      WithoutIs(cache[1..], key);
      var w := Without(cache[1..], key);
      assert cache[0].key != key ==>
        Without(cache, key)[1..] == w && NoKey(w, cache[0].key) && NoneBefore(w, cache[0].timeStamp);
    }
  }

  lemma {:induction false} SnocKeeps<L>(cache: seq<Entry<L>>, e: Entry<L>)
    requires DistinctKeys(cache) && NoKey(cache, e.key) && Sorted(cache) && NoneAfter(cache, e.timeStamp)
    ensures DistinctKeys(cache + [e]) && Sorted(cache + [e])
  {
    if cache != [] {
      SnocKeeps(cache[1..], e);
      assert (cache + [e])[1..] == cache[1..] + [e];
    }
  }

  /** A touch keeps one entry per key and, with a forward clock, keeps the list sorted. */
  lemma TouchKeeps<L>(cache: seq<Entry<L>>, key: string, labels: L, now: int)
    requires DistinctKeys(cache) && Sorted(cache) && NoneAfter(cache, now)
    ensures DistinctKeys(Touched(cache, key, labels, now)) && Sorted(Touched(cache, key, labels, now))
    ensures NoneAfter(Touched(cache, key, labels, now), now)
  {
    WithoutIs(cache, key);
    WithoutKeeps(cache, key);
    SnocKeeps(Without(cache, key), Entry(key, LabelFor(cache, key, labels), now));
  }

  lemma {:induction false} ExpireKeeps<L>(cache: seq<Entry<L>>, t: int)
    requires DistinctKeys(cache) && Sorted(cache)
    ensures DistinctKeys(Expire(cache, t)) && Sorted(Expire(cache, t))
    ensures forall e :: e in Expire(cache, t) <==> e in cache && e.timeStamp > t
    ensures forall e | e in Expire(cache, t) :: e in cache
  {
    SortedExpires(cache, t);
    FreshIsFresh(cache, t);
    if cache != [] && cache[0].timeStamp <= t {
      ExpireKeeps(cache[1..], t);
    }
  }
}
