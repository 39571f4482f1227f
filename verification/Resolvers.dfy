/** The resolver stack of secadvisor/pkg: first success of several resolvers, a fallback that
    absorbs errors, and a cache with a time to live. What a resolver answers may change from
    one moment to the next, so that a resolver is a function of the time and the query. */
module Resolvers {
  import opened Wrappers
  import opened TtlCache

  datatype PeerContext = PeerContext(kind: string, name: string, owner: string)

  datatype Error = ErrNotFound | OtherError(text: string)

  datatype Answer<T> = Ok(value: T) | Err(error: Error)

  /** A context resolver; a nil context is None. */
  type ContextResolver = (int, string, string) -> Answer<Option<PeerContext>>
  type TypeResolver = (int, string) -> Answer<string>

  // ----- first success, and errors absorbed

  function MultiContext(rs: seq<ContextResolver>, now: int, ip: string, tid: string): (a: Answer<Option<PeerContext>>) {
    if rs == [] then Err(ErrNotFound)
    else if rs[0](now, ip, tid).Ok? then rs[0](now, ip, tid)
    else MultiContext(rs[1..], now, ip, tid)
  }

  function MultiType(rs: seq<TypeResolver>, now: int, tid: string): Answer<string> {
    if rs == [] then Err(ErrNotFound)
    else if rs[0](now, tid).Ok? then rs[0](now, tid)
    else MultiType(rs[1..], now, tid)
  }

  /** The answer is that of the first resolver that succeeds, and not found without one. */
  lemma {:induction false} MultiIsFirstSuccess(rs: seq<ContextResolver>, now: int, ip: string, tid: string)
    ensures
      var a := MultiContext(rs, now, ip, tid);
      if a.Ok? then
        exists i :: 0 <= i < |rs| && rs[i](now, ip, tid) == a && forall j | 0 <= j < i :: rs[j](now, ip, tid).Err?
      else a == Err(ErrNotFound) && forall j | 0 <= j < |rs| :: rs[j](now, ip, tid).Err?
  {
    if rs != [] && rs[0](now, ip, tid).Err? {
      MultiIsFirstSuccess(rs[1..], now, ip, tid);
      var a := MultiContext(rs, now, ip, tid);
      if a.Ok? {
        var i :| 0 <= i < |rs| - 1 && rs[1..][i](now, ip, tid) == a
          && forall j | 0 <= j < i :: rs[1..][j](now, ip, tid).Err?;
        assert rs[i + 1](now, ip, tid) == a;
        forall j | 0 <= j < i + 1 ensures rs[j](now, ip, tid).Err? {
          if j > 0 { assert rs[j] == rs[1..][j - 1]; }
        }
      } else {
        forall j | 0 <= j < |rs| ensures rs[j](now, ip, tid).Err? {
          if j > 0 { assert rs[j] == rs[1..][j - 1]; }
        }
      }
    }
  }

  /** The same for types. */
  lemma {:induction false} MultiIsFirstType(rs: seq<TypeResolver>, now: int, tid: string)
    ensures
      var a := MultiType(rs, now, tid);
      if a.Ok? then
        exists i :: 0 <= i < |rs| && rs[i](now, tid) == a && forall j | 0 <= j < i :: rs[j](now, tid).Err?
      else a == Err(ErrNotFound) && forall j | 0 <= j < |rs| :: rs[j](now, tid).Err?
  {
    if rs != [] && rs[0](now, tid).Err? {
      MultiIsFirstType(rs[1..], now, tid);
      var a := MultiType(rs, now, tid);
      if a.Ok? {
        var i :| 0 <= i < |rs| - 1 && rs[1..][i](now, tid) == a && forall j | 0 <= j < i :: rs[1..][j](now, tid).Err?;
        assert rs[i + 1](now, tid) == a;
        forall j | 0 <= j < i + 1 ensures rs[j](now, tid).Err? {
          if j > 0 { assert rs[j] == rs[1..][j - 1]; }
        }
      } else {
        forall j | 0 <= j < |rs| ensures rs[j](now, tid).Err? {
          if j > 0 { assert rs[j] == rs[1..][j - 1]; }
        }
      }
    }
  }

  /** `c` is what the first resolver that succeeds answers at `t`, and nil when none does. */
  ghost predicate IsFirstContext(rs: seq<ContextResolver>, t: int, ip: string, tid: string, c: Option<PeerContext>) {
    || (exists i :: 0 <= i < |rs| && rs[i](t, ip, tid) == Ok(c) && forall j | 0 <= j < i :: rs[j](t, ip, tid).Err?)
    || (c == None && forall j | 0 <= j < |rs| :: rs[j](t, ip, tid).Err?)
  }

  /** `ty` is what the first resolver that succeeds answers at `t`, and empty when none does. */
  ghost predicate IsFirstType(rs: seq<TypeResolver>, t: int, tid: string, ty: string) {
    || (exists i :: 0 <= i < |rs| && rs[i](t, tid) == Ok(ty) && forall j | 0 <= j < i :: rs[j](t, tid).Err?)
    || (ty == "" && forall j | 0 <= j < |rs| :: rs[j](t, tid).Err?)
  }

  function FallbackContext(r: ContextResolver): ContextResolver {
    (now, ip, tid) =>
      if ip == "" then Ok(None)
      else match r(now, ip, tid)
        case Err(_) => Ok(None)
        case Ok(c) => Ok(c)
  }

  /** The type of an unknown node is empty; the resolver below gives no type with an error. */
  function FallbackType(r: TypeResolver): TypeResolver {
    (now, tid) =>
      if tid == "" then Ok("")
      else match r(now, tid)
        case Err(_) => Ok("")
        case Ok(t) => Ok(t)
  }

  /** The stack below the cache, as the transformer composes it. */
  function Chain(rs: seq<ContextResolver>): ContextResolver {
    FallbackContext((now, ip, tid) => MultiContext(rs, now, ip, tid))
  }

  function TypeChain(rs: seq<TypeResolver>): TypeResolver {
    FallbackType((now, tid) => MultiType(rs, now, tid))
  }

  // ----- cache keys

  function CacheKey(ip: string, tid: string): string {
    ip + "," + tid
  }

  /** Two different queries share a key if and only if one address extends the other by a
      comma and the front of the other's node. */
  lemma KeysCollideIff(ip: string, tid: string, ip': string, tid': string)
    requires |ip| <= |ip'|
    ensures CacheKey(ip, tid) == CacheKey(ip', tid') && (ip, tid) != (ip', tid')
       <==> |ip| < |ip'| && ip' == ip + "," + ip'[|ip| + 1..] && tid == ip'[|ip| + 1..] + "," + tid'
  {
    var k, k' := CacheKey(ip, tid), CacheKey(ip', tid');
    if k == k' {
      assert k[..|ip|] == ip && k'[..|ip'|] == ip';
      assert k[|ip| + 1..] == tid && k'[|ip'| + 1..] == tid';
      if |ip| == |ip'| {
        assert ip == ip' && tid == tid';
      } else {
        assert ip' == k[..|ip'|];
        assert ip' == ip + "," + ip'[|ip| + 1..];
        assert tid == k[|ip| + 1..] == ip'[|ip| + 1..] + "," + tid';
      }
    }
    if |ip| < |ip'| && ip' == ip + "," + ip'[|ip| + 1..] && tid == ip'[|ip| + 1..] + "," + tid' {
      var mid := ip'[|ip| + 1..];
      assert ip + "," + (mid + "," + tid') == ip + "," + mid + "," + tid';
    }
  }

  /** Addresses without a comma give every query its own key. */
  lemma CommaFreeKeysDiffer(ip: string, tid: string, ip': string, tid': string)
    requires ',' !in ip && ',' !in ip' && CacheKey(ip, tid) == CacheKey(ip', tid')
    ensures ip == ip' && tid == tid'
  {
    if |ip| <= |ip'| {
      KeysCollideIff(ip, tid, ip', tid');
    } else {
      KeysCollideIff(ip', tid', ip, tid);
    }
  }

  // ----- the cache

  /** A cached context is a reference; what is stored after "not found" is a nil without a type,
      which the type assertion of a later hit does not accept. */
  datatype Cached = Typed(context: Option<PeerContext>) | UntypedNil

  datatype Reply<T> = Returned(answer: Answer<T>) | Panicked

  function Stored(a: Answer<Option<PeerContext>>): Option<Cached> {
    match a
    case Ok(c) => Some(Typed(c))
    case Err(ErrNotFound) => Some(UntypedNil)
    case Err(_) => None
  }

  /** What the cache makes of an answer of the resolver below it when it asks. */
  function Relayed(a: Answer<Option<PeerContext>>): Answer<Option<PeerContext>> {
    if a == Err(ErrNotFound) then Ok(None) else a
  }

  function ReplyOf(f: Found<Answer<Option<PeerContext>>, Cached>): Reply<Option<PeerContext>> {
    match f
    case Hit(Typed(c)) => Returned(Ok(c))
    case Hit(UntypedNil) => Panicked
    case Miss(a) => Returned(Relayed(a))
  }

  type Query = (string, string)  // address and node

  function Contexts(r: ContextResolver): Setup<Query, Answer<Option<PeerContext>>, Cached> {
    Setup((now: int, q: Query) => r(now, q.0, q.1), (q: Query) => CacheKey(q.0, q.1), Stored)
  }

  function StoredType(a: Answer<string>): Option<string> {
    if a.Ok? then Some(a.value) else None
  }

  /** An error is never cached. */
  function Types(r: TypeResolver): Setup<string, Answer<string>, string> {
    Setup((now: int, tid: string) => r(now, tid), (tid: string) => tid, StoredType)
  }

  function TypeOf(f: Found<Answer<string>, string>): Answer<string> {
    match f
    case Hit(t) => Ok(t)
    case Miss(a) => a
  }

  class ResolveCache {
    const resolver: ContextResolver
    const typeResolver: TypeResolver
    var contextCache: map<string, Item<Cached>>
    var typeCache: map<string, Item<string>>
    ghost var contextEvents: seq<Event<Query>>
    ghost var typeEvents: seq<Event<string>>

    constructor (resolver: ContextResolver, typeResolver: TypeResolver)
      ensures Valid() && this.resolver == resolver && this.typeResolver == typeResolver
      ensures contextEvents == [] && typeEvents == []
    {
      this.resolver, this.typeResolver := resolver, typeResolver;
      contextCache, typeCache, contextEvents, typeEvents := map[], map[], [], [];
    }

    /** The caches are what the history of queries and purges makes them. */
    ghost predicate Valid()
      reads this
    {
      contextCache == Run(Contexts(resolver), contextEvents) && typeCache == Run(Types(typeResolver), typeEvents)
    }

    method IPToContext(ip: string, tid: string, now: int) returns (r: Reply<Option<PeerContext>>)
      requires Valid()
      modifies this`contextCache, this`contextEvents
      ensures Valid()
      ensures
        if ip == "" then r == Returned(Ok(None)) && contextEvents == old(contextEvents)
        else r == ReplyOf(Look(Contexts(resolver), old(contextCache), (ip, tid), now))
             && contextEvents == old(contextEvents) + [Ask((ip, tid), now)]
    {
      if ip == "" {
        return Returned(Ok(None));
      }
      RunExtends(Contexts(resolver), contextEvents, Ask((ip, tid), now));
      contextEvents := contextEvents + [Ask((ip, tid), now)];
      var cacheKey := CacheKey(ip, tid);
      if cacheKey in contextCache && now <= contextCache[cacheKey].expires {
        var cachedContext := contextCache[cacheKey].value;
        if cachedContext.UntypedNil? {
          return Panicked;
        }
        return Returned(Ok(cachedContext.context));
      }
      var a := resolver(now, ip, tid);
      match a {
        case Ok(context) =>
          contextCache := contextCache[cacheKey := Item(Typed(context), now + TTL)];
          return Returned(Ok(context));
        case Err(ErrNotFound) =>
          contextCache := contextCache[cacheKey := Item(UntypedNil, now + TTL)];
          return Returned(Ok(None));
        case Err(_) =>
          return Returned(a);
      }
    }

    method TIDToType(tid: string, now: int) returns (a: Answer<string>)
      requires Valid()
      modifies this`typeCache, this`typeEvents
      ensures Valid() && typeEvents == old(typeEvents) + [Ask(tid, now)]
      ensures a == TypeOf(Look(Types(typeResolver), old(typeCache), tid, now))
    {
      RunExtends(Types(typeResolver), typeEvents, Ask(tid, now));
      typeEvents := typeEvents + [Ask(tid, now)];
      if tid in typeCache && now <= typeCache[tid].expires {
        return Ok(typeCache[tid].value);
      }
      a := typeResolver(now, tid);
      if a.Err? {
        return a;
      }
      typeCache := typeCache[tid := Item(a.value, now + TTL)];
    }

    /** The janitor of both caches. */
    method Purge(keys: set<string>, now: int)
      requires Valid()
      modifies this
      ensures Valid()
      ensures contextEvents == old(contextEvents) + [TtlCache.Purge(keys, now)]
        && typeEvents == old(typeEvents) + [TtlCache.Purge(keys, now)]
    {
      RunExtends(Contexts(resolver), contextEvents, TtlCache.Purge(keys, now));
      RunExtends(Types(typeResolver), typeEvents, TtlCache.Purge(keys, now));
      contextCache, typeCache := Purged(contextCache, keys, now), Purged(typeCache, keys, now);
      contextEvents := contextEvents + [TtlCache.Purge(keys, now)];
      typeEvents := typeEvents + [TtlCache.Purge(keys, now)];
    }
  }

  ghost predicate CommaFree(events: seq<Event<Query>>, ip: string) {
    ',' !in ip && forall e | e in events && e.Ask? :: ',' !in e.q.0
  }

  lemma CommaFreeApart(r: ContextResolver, events: seq<Event<Query>>, ip: string, tid: string)
    requires CommaFree(events, ip)
    ensures KeysApart(Contexts(r), events, (ip, tid))
  {
    forall e | e in events && e.Ask? && CacheKey(e.q.0, e.q.1) == CacheKey(ip, tid) ensures e.q == (ip, tid) {
      CommaFreeKeysDiffer(e.q.0, e.q.1, ip, tid);
    }
  }

  /** The run has stored an answer to the query that still lives: the moment it was given. */
  function StillStored(r: ContextResolver, events: seq<Event<Query>>, q: Query, now: int): Option<int> {
    var t := AskedLast(Contexts(r), events, q);
    if t.Some? && now <= t.value + TTL then t else None
  }

  /** Over any run of queries and purges, with any resolver below: the call panics if and only if
      an answer given at most five minutes ago, as the queries alone determine, is stored and was
      "not found"; otherwise the reply is the relayed answer to the same query at that moment or,
      with none stored, now. */
  lemma RepliesAreRecent(r: ContextResolver, events: seq<Event<Query>>, ip: string, tid: string, now: int)
    requires Forward(events) && (events != [] ==> Last(events).now <= now) && CommaFree(events, ip)
    ensures
      var stored := StillStored(r, events, (ip, tid), now);
      var t := if stored.Some? then stored.value else now;
      var reply := ReplyOf(Look(Contexts(r), Run(Contexts(r), events), (ip, tid), now));
      && now - TTL <= t <= now && t == AnsweredAt(Contexts(r), events, (ip, tid), now)
      && (reply == Panicked <==> stored.Some? && r(t, ip, tid) == Err(ErrNotFound))
      && (reply != Panicked ==> reply == Returned(Relayed(r(t, ip, tid))))
  {
    CommaFreeApart(r, events, ip, tid);
    AskedInPast(Contexts(r), events, (ip, tid), now);
    LiveIsAskedLast(Contexts(r), events, (ip, tid), now);
    AnswersAreRecent(Contexts(r), events, (ip, tid), now);
  }

  /** Exactly the successes and "not found" are stored: a query within five minutes of the moment
      of an answer is a hit if and only if that answer was one of them. */
  lemma SuccessIsStored(r: ContextResolver, events: seq<Event<Query>>, ip: string, tid: string, now: int, later: int)
    requires Forward(events) && (events != [] ==> Last(events).now <= now) && CommaFree(events, ip)
    requires now <= later <= AnsweredAt(Contexts(r), events, (ip, tid), now) + 5 * 60
    ensures
      var s, q := Contexts(r), (ip, tid);
      var a := r(AnsweredAt(s, events, q, now), ip, tid);
      Look(s, Run(s, events + [Ask(q, now)]), q, later).Hit? <==> a.Ok? || a == Err(ErrNotFound)
  {
    var s, q := Contexts(r), (ip, tid);
    var all := events + [Ask(q, now)];
    assert Front(all) == events && Last(all) == Ask(q, now);
    assert forall e | e in all :: e in events || e == Ask(q, now);
    assert Forward(all) by {
      if events != [] { assert forall i | 0 <= i < |events| :: events[i].now <= Last(events).now; }
    }
    CommaFreeApart(r, all, ip, tid);
    LiveIsAskedLast(s, all, q, later);
  }

  /** A type is stored if and only if the resolver has one. */
  lemma TypeIsStored(r: TypeResolver, events: seq<Event<string>>, tid: string, now: int, later: int)
    requires Forward(events) && (events != [] ==> Last(events).now <= now)
    requires now <= later <= AnsweredAt(Types(r), events, tid, now) + 5 * 60
    ensures
      var s := Types(r);
      Look(s, Run(s, events + [Ask(tid, now)]), tid, later).Hit? <==> r(AnsweredAt(s, events, tid, now), tid).Ok?
  {
    var s, all := Types(r), events + [Ask(tid, now)];
    assert Front(all) == events && Last(all) == Ask(tid, now);
    assert Forward(all) by {
      if events != [] { assert forall i | 0 <= i < |events| :: events[i].now <= Last(events).now; }
    }
    LiveIsAskedLast(s, all, tid, later);
  }

  /** The stack that the transformer uses never panics: each reply is what the resolvers
      without a cache, the first success among them or nil, answer to the same query at a
      moment at most five minutes ago. */
  lemma StackAnswers(rs: seq<ContextResolver>, events: seq<Event<Query>>, ip: string, tid: string, now: int)
    requires Forward(events) && (events != [] ==> Last(events).now <= now) && CommaFree(events, ip) && ip != ""
    ensures
      var s := Contexts(Chain(rs));
      var t, reply := AnsweredAt(s, events, (ip, tid), now), ReplyOf(Look(s, Run(s, events), (ip, tid), now));
      && now - 5 * 60 <= t <= now
      && reply.Returned? && reply.answer.Ok? && IsFirstContext(rs, t, ip, tid, reply.answer.value)
  {
    RepliesAreRecent(Chain(rs), events, ip, tid, now);
    MultiIsFirstSuccess(rs, AnsweredAt(Contexts(Chain(rs)), events, (ip, tid), now), ip, tid);
  }

  /** With a resolver that does not find an address, the second query within five minutes
      panics; so the fallback below the cache is needed. */
  lemma NotFoundTwicePanics(r: ContextResolver, ip: string, tid: string, now: int)
    requires r(now, ip, tid) == Err(ErrNotFound)
    ensures ReplyOf(Look(Contexts(r), Run(Contexts(r), [Ask((ip, tid), now)]), (ip, tid), now + TTL)) == Panicked
  {
    var s, q := Contexts(r), (ip, tid);
    assert [Ask(q, now)] == [] + [Ask(q, now)];
    RunExtends(s, [], Ask(q, now));
    assert Look(s, map[], q, now) == Miss(Err(ErrNotFound));
    assert Run(s, [Ask(q, now)]) == map[CacheKey(ip, tid) := Item(UntypedNil, now + TTL)];
  }

  /** The type of a node is that of a moment at most five minutes ago: empty for an empty ID, and
      otherwise the first success among the resolvers, or empty. */
  lemma TypeAnswers(rs: seq<TypeResolver>, events: seq<Event<string>>, tid: string, now: int)
    requires Forward(events) && (events != [] ==> Last(events).now <= now)
    ensures
      var s := Types(TypeChain(rs));
      var t, a := AnsweredAt(s, events, tid, now), TypeOf(Look(s, Run(s, events), tid, now));
      && now - 5 * 60 <= t <= now && a.Ok?
      && if tid == "" then a.value == "" else IsFirstType(rs, t, tid, a.value)
  {
    var t := AnsweredAt(Types(TypeChain(rs)), events, tid, now);
    AnswersAreRecent(Types(TypeChain(rs)), events, tid, now);
    MultiIsFirstType(rs, t, tid);
  }
}
