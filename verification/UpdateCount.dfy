/** The update counter of secadvisor/pkg/transform.go: a count per flow UUID in a cache whose
    items live ten minutes, or one minute after the end of a TCP connection. Times are in
    seconds; an item is live up to and including the time at which it expires. */
module UpdateCount {
  import opened Wrappers

  datatype FinishType = NotFinished | TcpFin | TcpRst | Timeout

  /** `payload` stands for everything else in a flow. */
  datatype Flow = Flow(uuid: string, finishType: FinishType, payload: string)

  datatype Item = Item(count: int, expires: int)

  type Cache = map<string, Item>

  const DEFAULT_EXPIRATION := 600
  const MINUTE := 60

  // ----- the cache

  function LiveCount(cache: Cache, uuid: string, now: int): int {
    if uuid in cache && now <= cache[uuid].expires then cache[uuid].count else 0
  }

  function Lifetime(f: FinishType): int {
    if f.NotFinished? then DEFAULT_EXPIRATION else MINUTE
  }

  function Counted(cache: Cache, f: Flow, now: int): Cache {
    if f.finishType.Timeout? then cache - {f.uuid}
    else cache[f.uuid := Item(LiveCount(cache, f.uuid, now) + 1, now + Lifetime(f.finishType))]
  }

  function Purged(cache: Cache, uuids: set<string>, now: int): Cache {
    map u | u in cache && !(u in uuids && now > cache[u].expires) :: cache[u]
  }

  datatype Event = Seen(flow: Flow, now: int) | Purge(uuids: set<string>, now: int)

  function After(cache: Cache, e: Event): Cache {
    match e
    case Seen(f, now) => Counted(cache, f, now)
    case Purge(uuids, now) => Purged(cache, uuids, now)
  }

  function Run(events: seq<Event>): Cache {
    if events == [] then map[] else After(Run(Front(events)), Last(events))
  }

  ghost predicate Forward(events: seq<Event>) {
    forall i, j | 0 <= i < j < |events| :: events[i].now <= events[j].now
  }

  // ----- the count as a function of the history of one UUID

  datatype Sight = Sight(finishType: FinishType, now: int)

  function Sights(events: seq<Event>, uuid: string): seq<Sight> {
    if events == [] then []
    else
      var e := Last(events);
      Sights(Front(events), uuid) + if e.Seen? && e.flow.uuid == uuid then [Sight(e.flow.finishType, e.now)] else []
  }

  /** The sights that immediately precede `now` without a break: a break is a sight that ended
      in a timeout, or a gap longer than the lifetime of the sight before it. */
  function Streak(sights: seq<Sight>, now: int): (n: nat)
    ensures n <= |sights|
  {
    if sights == [] then 0
    else
      var s := Last(sights);
      if s.finishType.Timeout? || now > s.now + Lifetime(s.finishType) then 0
      else 1 + Streak(Front(sights), s.now)
  }

  /** Sight `i` is not a timeout and is followed by the next one, or by `now`, within ten minutes
      or, when it has finished, within one. */
  predicate Joined(sights: seq<Sight>, now: int, i: nat)
    requires i < |sights|
  {
    && !sights[i].finishType.Timeout?
    && (if i + 1 < |sights| then sights[i + 1].now else now)
       <= sights[i].now + if sights[i].finishType.NotFinished? then 600 else 60
  }

  /** The streak is the longest suffix of the history without a break. */
  lemma {:induction false} StreakIsLongest(sights: seq<Sight>, now: int, n: nat)
    requires n <= |sights|
    ensures n <= Streak(sights, now) <==> forall i | |sights| - n <= i < |sights| :: Joined(sights, now, i)
  {
    if n > 0 {
      var front, s := Front(sights), Last(sights);
      StreakIsLongest(front, s.now, n - 1);
      assert Joined(sights, now, |front|) <==> !(s.finishType.Timeout? || now > s.now + Lifetime(s.finishType));
      assert forall i | 0 <= i < |front| :: Joined(sights, now, i) <==> Joined(front, s.now, i);
    }
  }

  /** What is live for a UUID at any later moment is its streak, whatever the janitor did. */
  lemma {:induction false} LiveCountIsStreak(events: seq<Event>, uuid: string, now: int)
    requires Forward(events) && (events != [] ==> Last(events).now <= now)
    ensures LiveCount(Run(events), uuid, now) == Streak(Sights(events, uuid), now)
  {
    if events != [] {
      var front, e := Front(events), Last(events);
      if front != [] { assert Last(front).now <= e.now; }
      LiveCountIsStreak(front, uuid, now);
      LiveCountIsStreak(front, uuid, e.now);
      CountFollows(Run(front), e, uuid, now);
      StreakFollows(events, uuid, now);
    }
  }

  lemma CountFollows(cache: Cache, e: Event, uuid: string, now: int)
    requires e.now <= now
    ensures LiveCount(After(cache, e), uuid, now) ==
      if e.Purge? || e.flow.uuid != uuid then LiveCount(cache, uuid, now)
      else if e.flow.finishType.Timeout? || now > e.now + Lifetime(e.flow.finishType) then 0
      else LiveCount(cache, uuid, e.now) + 1
  {
  }

  lemma StreakFollows(events: seq<Event>, uuid: string, now: int)
    requires events != []
    ensures
      var e, front := Last(events), Sights(Front(events), uuid);
      Streak(Sights(events, uuid), now) ==
      if e.Purge? || e.flow.uuid != uuid then Streak(front, now)
      else if e.flow.finishType.Timeout? || now > e.now + Lifetime(e.flow.finishType) then 0
      else Streak(front, e.now) + 1
  {
    var e, front, sights := Last(events), Sights(Front(events), uuid), Sights(events, uuid);
    if e.Seen? && e.flow.uuid == uuid {
      assert Front(sights) == front && Last(sights) == Sight(e.flow.finishType, e.now);
    } else {
      assert sights == front;
    }
  }

  // ----- the transformer

  datatype Status = Started | Updated | Ended

  function GetStatus(f: Flow, updateCount: int): Status {
    if !f.finishType.NotFinished? then Ended else if updateCount == 0 then Started else Updated
  }

  /** A transformed flow, of which only the fields that depend on the count are kept. */
  datatype Record = Record(flow: Flow, status: Status, updateCount: int)

  function Transformed(exclude: bool, cache: Cache, f: Flow, now: int): Option<Record> {
    var count := LiveCount(cache, f.uuid, now);
    if exclude && GetStatus(f, count).Started? then None else Some(Record(f, GetStatus(f, count), count))
  }

  /** Finished flows have ended; of the others the first of a streak has started. */
  predicate HasStatus(status: Status, f: Flow, streak: nat) {
    && (status == Ended <==> f.finishType != NotFinished)
    && (status == Started <==> f.finishType == NotFinished && streak == 0)
  }

  class Transformer {
    const excludeStartedFlows: bool
    var flowUpdateCountCache: Cache
    ghost var events: seq<Event>

    constructor (excludeStartedFlows: bool)
      ensures Valid() && events == [] && this.excludeStartedFlows == excludeStartedFlows
    {
      this.excludeStartedFlows, flowUpdateCountCache, events := excludeStartedFlows, map[], [];
    }

    ghost predicate Valid()
      reads this
    {
      flowUpdateCountCache == Run(events)
    }

    method SetUpdateCount(f: Flow, now: int) returns (count: int)
      requires Valid()
      modifies this
      ensures Valid() && events == old(events) + [Seen(f, now)]
      ensures flowUpdateCountCache == Counted(old(flowUpdateCountCache), f, now)
      ensures count == LiveCount(old(flowUpdateCountCache), f.uuid, now)
    {
      assert Front(events + [Seen(f, now)]) == events;
      events := events + [Seen(f, now)];
      count := 0;
      if f.uuid in flowUpdateCountCache && now <= flowUpdateCountCache[f.uuid].expires {
        count := flowUpdateCountCache[f.uuid].count;
      }
      if !f.finishType.Timeout? {
        if f.finishType.NotFinished? {
          flowUpdateCountCache := flowUpdateCountCache[f.uuid := Item(count + 1, now + DEFAULT_EXPIRATION)];
        } else {
          flowUpdateCountCache := flowUpdateCountCache[f.uuid := Item(count + 1, now + MINUTE)];
        }
      } else {
        flowUpdateCountCache := flowUpdateCountCache - {f.uuid};
      }
    }

    method Transform(f: Flow, now: int) returns (r: Option<Record>)
      requires Valid()
      modifies this
      ensures Valid() && events == old(events) + [Seen(f, now)]
      ensures flowUpdateCountCache == Counted(old(flowUpdateCountCache), f, now)
      ensures r == Transformed(excludeStartedFlows, old(flowUpdateCountCache), f, now)
    {
      var updateCount := SetUpdateCount(f, now);
      var status := GetStatus(f, updateCount);
      if excludeStartedFlows && status == Started {
        return None;
      }
      return Some(Record(f, status, updateCount));
    }

    method Janitor(uuids: set<string>, now: int)
      requires Valid()
      modifies this
      ensures Valid() && events == old(events) + [Purge(uuids, now)]
    {
      assert Front(events + [Purge(uuids, now)]) == events;
      events := events + [Purge(uuids, now)];
      flowUpdateCountCache := Purged(flowUpdateCountCache, uuids, now);
    }
  }

  /** In every run: a flow is dropped exactly when started flows are excluded, it is not
      finished and nothing of its UUID precedes it without a break; otherwise it is reported
      with the length of its streak. */
  lemma TransformReportsStreak(exclude: bool, events: seq<Event>, f: Flow, now: int)
    requires Forward(events) && (events != [] ==> Last(events).now <= now)
    ensures
      var n := Streak(Sights(events, f.uuid), now);
      var r := Transformed(exclude, Run(events), f, now);
      && (r.None? <==> exclude && f.finishType.NotFinished? && n == 0)
      && (r.Some? ==> r.value.updateCount == n && r.value.flow == f && HasStatus(r.value.status, f, n))
  {
    LiveCountIsStreak(events, f.uuid, now);
  }
}
